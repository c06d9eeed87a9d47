/** What a list of canonical events says about its blocks, read off the list alone: which start a
    delta belongs to, and what each block's deltas come to. */
module TurnEvents {
  import opened Base
  import opened Canonical

  /** The position of the start whose block is open at `index` once these events have come. */
  function OpenStart(events: seq<Event>, index: nat): (p: Option<nat>)
    ensures p.Some? ==> p.value < |events| && events[p.value].ContentStart? && events[p.value].index == index
    decreases |events|
  {
    if events == [] then None
    else
      match Last(events)
      case ContentStart(i, _) => if i == index then Some(|events| - 1) else OpenStart(Front(events), index)
      case ContentStop(i) => if i == index then None else OpenStart(Front(events), index)
      case _ => OpenStart(Front(events), index)
  }

  predicate Touches(ev: Event, index: nat) {
    (ev.ContentStart? || ev.ContentStop?) && ev.index == index
  }

  /** That is the last start at the index, with no stop there since. */
  lemma {:induction false} OpenStartIs(events: seq<Event>, index: nat, p: nat)
    ensures OpenStart(events, index) == Some(p) <==>
      && p < |events| && events[p].ContentStart? && events[p].index == index
      && forall q :: p < q < |events| ==> !Touches(events[q], index)
    decreases |events|
  {
    if events != [] {
      var front := Front(events);
      OpenStartIs(front, index, p);
      assert forall q :: 0 <= q < |front| ==> front[q] == events[q];
      assert events[|events| - 1] == Last(events);
    }
  }

  // ----- deltas -----

  datatype Channel = TextChannel | JsonChannel | ThinkChannel | SignChannel | SealedChannel

  /** Which channel of a block a delta carries, and its text. */
  function ChannelOf(d: Delta): Option<(Channel, string)> {
    match d
    case TextDelta(t) => Some((TextChannel, t))
    case JsonDelta(t) => Some((JsonChannel, t))
    case ThinkingDelta(t) => Some((ThinkChannel, t))
    case SignatureDelta(t) => Some((SignChannel, t))
    case EncryptedReasoningDelta(t) => Some((SealedChannel, t))
    case _ => None
  }

  /** The text of a delta of that channel, if the event is one to the block started at `p`. */
  function Given(before: seq<Event>, ev: Event, p: nat, channel: Channel): seq<string> {
    if ev.ContentDelta? && OpenStart(before, ev.index) == Some(p) && ChannelOf(ev.delta).Some? && ChannelOf(ev.delta).value.0 == channel then
      [ChannelOf(ev.delta).value.1]
    else []
  }

  /** The deltas of one channel to the block started at `p`, in order. */
  function Deltas(events: seq<Event>, p: nat, channel: Channel): seq<string>
    decreases |events|
  {
    if events == [] then [] else Deltas(Front(events), p, channel) + Given(Front(events), Last(events), p, channel)
  }

  /** All that channel of the block, joined; and the same when it may be missing altogether. */
  function Spoken(events: seq<Event>, p: nat, channel: Channel): string {
    Flatten(Deltas(events, p, channel))
  }

  function Carried(events: seq<Event>, p: nat, channel: Channel): Option<string> {
    if Deltas(events, p, channel) == [] then None else Some(Spoken(events, p, channel))
  }

  lemma {:induction false} NoDeltasYet(events: seq<Event>, p: nat, channel: Channel)
    requires p >= |events|
    ensures Deltas(events, p, channel) == []
    decreases |events|
  {
    if events != [] {
      NoDeltasYet(Front(events), p, channel);
    }
  }

  lemma {:induction false} Snoc(events: seq<Event>, ev: Event)
    ensures Front(events + [ev]) == events && Last(events + [ev]) == ev
  {
  }

  // ----- text and tools -----

  function KindAt(events: seq<Event>, p: nat): ContentKind
    requires p < |events| && events[p].ContentStart?
  {
    events[p].kind
  }

  /** The text deltas to open text blocks, in event order. */
  function TextDeltas(events: seq<Event>): seq<string>
    decreases |events|
  {
    if events == [] then []
    else
      TextDeltas(Front(events)) +
      match Last(events)
      case ContentDelta(i, TextDelta(t)) =>
        var p := OpenStart(Front(events), i);
        if p.Some? && KindAt(events, p.value) == TextKind then [t] else []
      case _ => []
  }

  /** Where the tool blocks start. */
  function ToolStarts(events: seq<Event>): (starts: seq<nat>)
    ensures forall p <- starts :: p < |events| && events[p].ContentStart? && events[p].kind.ToolUseKind?
    decreases |events|
  {
    if events == [] then []
    else
      ToolStarts(Front(events)) +
      if Last(events).ContentStart? && Last(events).kind.ToolUseKind? then [|events| - 1] else []
  }

  lemma {:induction false} ToolStartsAscend(events: seq<Event>)
    ensures forall i, j :: 0 <= i < j < |ToolStarts(events)| ==> ToolStarts(events)[i] < ToolStarts(events)[j]
    decreases |events|
  {
    if events != [] {
      ToolStartsAscend(Front(events));
      var starts := ToolStarts(Front(events));
      assert forall i :: 0 <= i < |starts| ==> starts[i] in starts;
    }
  }

  // ----- what was said last -----

  function LastReason(events: seq<Event>): Option<FinishReason>
    decreases |events|
  {
    if events == [] then None
    else if Last(events).Finish? then Some(Last(events).reason)
    else LastReason(Front(events))
  }

  function LastUsage(events: seq<Event>): Option<Counters>
    decreases |events|
  {
    if events == [] then None
    else if Last(events).UsageEvent? then Some(Last(events).usage)
    else LastUsage(Front(events))
  }

  function LastError(events: seq<Event>): Option<CanonicalError>
    decreases |events|
  {
    if events == [] then None
    else if Last(events).Error? then Some(Last(events).error)
    else LastError(Front(events))
  }

  function LastHead(events: seq<Event>): (Option<string>, Option<string>)
    decreases |events|
  {
    if events == [] then (None, None)
    else if Last(events).MessageStart? then (Last(events).id, Last(events).model)
    else LastHead(Front(events))
  }

  /** The status a kind of error is answered with. */
  function WireStatus(kind: ErrorKind): nat {
    match kind
    case Provider(status) => status
    case Auth => 401
    case Usage => 400
    case ParseInput => 400
    case Transport => 502
    case _ => 500
  }

  // ----- one more event -----

  lemma {:induction false} DeltasSnoc(events: seq<Event>, ev: Event, p: nat, channel: Channel)
    ensures
      var given := Given(events, ev, p, channel);
      && Deltas(events + [ev], p, channel) == Deltas(events, p, channel) + given
      && Spoken(events + [ev], p, channel) == Spoken(events, p, channel) + (if given == [] then "" else given[0])
      && Carried(events + [ev], p, channel) ==
         if given == [] then Carried(events, p, channel)
         else Some((if Carried(events, p, channel).Some? then Carried(events, p, channel).value else "") + given[0])
  {
    Snoc(events, ev);
    var was, given := Deltas(events, p, channel), Given(events, ev, p, channel);
    if given == [] {
      assert was + given == was;
    } else {
      assert given == [given[0]];
      FlattenSnoc(was, given[0]);
    }
    hide Deltas, Given;
    assert was == [] ==> Spoken(events, p, channel) == "";
  }

  /** An event that is no delta to the block adds nothing to it. */
  lemma {:induction false} DeltasStay(events: seq<Event>, ev: Event, p: nat, channel: Channel)
    requires !(ev.ContentDelta? && OpenStart(events, ev.index) == Some(p))
    ensures Deltas(events + [ev], p, channel) == Deltas(events, p, channel)
    ensures Spoken(events + [ev], p, channel) == Spoken(events, p, channel)
    ensures Carried(events + [ev], p, channel) == Carried(events, p, channel)
  {
    DeltasSnoc(events, ev, p, channel);
    hide Deltas, Spoken, Carried;
    assert Deltas(events, p, channel) + [] == Deltas(events, p, channel);
    assert Spoken(events, p, channel) + "" == Spoken(events, p, channel);
  }

  /** A block just started has no deltas. */
  lemma {:induction false} JustStarted(events: seq<Event>, ev: Event, channel: Channel)
    requires ev.ContentStart?
    ensures Spoken(events + [ev], |events|, channel) == "" && Carried(events + [ev], |events|, channel) == None
  {
    NoDeltasYet(events, |events|, channel);
    DeltasStay(events, ev, |events|, channel);
  }

  lemma {:induction false} OpenStartSnoc(events: seq<Event>, ev: Event, index: nat)
    ensures OpenStart(events + [ev], index) ==
      if !Touches(ev, index) then OpenStart(events, index)
      else if ev.ContentStart? then Some(|events|) else None
  {
    Snoc(events, ev);
  }

  lemma {:induction false} ToolStartsSnoc(events: seq<Event>, ev: Event)
    ensures ToolStarts(events + [ev])
         == ToolStarts(events) + if ev.ContentStart? && ev.kind.ToolUseKind? then [|events|] else []
  {
    Snoc(events, ev);
  }
}
