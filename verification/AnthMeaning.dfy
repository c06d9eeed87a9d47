/** What a turn of the messages dialect folds to, said from its events alone
    (src/ingress/anthropic_messages/encode.rs, acc.rs): the content blocks, stop reason, usage and
    error are those the events spell, whatever the client shape. */
module AnthMeaning {
  import opened Base
  import opened Canonical
  import opened AnthIngress
  import opened TurnEvents
  import ChatIngress

  type ReadArgs = ChatIngress.ReadArgs

  // ----- what the events spell -----

  /** A block of a kind with its text, arguments, thinking and signature so far; one this wire
      cannot carry accumulates nothing. */
  function BlockOf(kind: ContentKind, text: string, args: string, thinking: string, signature: string): Block {
    match kind
    case TextKind => TextBlock(text)
    case ToolUseKind(id, name) => ToolBlock("tool_use", id, name, args)
    case ServerToolUseKind(id, name) => ToolBlock("server_tool_use", id, name, args)
    case ThinkingKind(_) => ThinkBlock(thinking, signature)
    case RedactedThinkingKind(data) => RedactedBlock(data)
    case ServerToolResultKind(kind, id, content) => ResultBlock(kind, id, content)
    case _ => SkipBlock
  }

  function BlockAt(events: seq<Event>, p: nat): Block
    requires p < |events| && events[p].ContentStart?
  {
    BlockOf(events[p].kind, Spoken(events, p, TextChannel), Spoken(events, p, JsonChannel),
            Spoken(events, p, ThinkChannel), Spoken(events, p, SignChannel))
  }

  /** The block on the wire once it stopped. */
  function WireAt(events: seq<Event>, p: nat, read: ReadArgs): seq<WireBlock>
    requires p < |events| && events[p].ContentStart?
  {
    var args := Spoken(events, p, JsonChannel);
    var input := if args == "" then JObj(map[]) else read(args);
    match events[p].kind
    case TextKind => [WireText(Spoken(events, p, TextChannel))]
    case ToolUseKind(id, name) => [WireTool("tool_use", id, name, input)]
    case ServerToolUseKind(id, name) => [WireTool("server_tool_use", id, name, input)]
    case ThinkingKind(_) =>
      [WireThinking(Spoken(events, p, ThinkChannel), Spoken(events, p, SignChannel))]
    case RedactedThinkingKind(data) => [WireRedacted(data)]
    case ServerToolResultKind(kind, id, content) => [WireResult(kind, id, content)]
    case _ => []
  }

  /** The content: every block this wire carries, as it stopped, in the order of the stops. */
  function SpeltContent(events: seq<Event>, read: ReadArgs): seq<WireBlock>
    decreases |events|
  {
    if events == [] then []
    else
      SpeltContent(Front(events), read) +
      if Last(events).ContentStop? && OpenStart(Front(events), Last(events).index).Some? then
        WireAt(Front(events), OpenStart(Front(events), Last(events).index).value, read)
      else []
  }

  /** The dialect's word for a finish, and the details of a refusal. */
  function WireStop(reason: FinishReason): (string, Option<Details>) {
    match reason
    case Stop => ("end_turn", None)
    case Length => ("max_tokens", None)
    case StopSequence => ("stop_sequence", None)
    case ToolUse => ("tool_use", None)
    case Pause => ("pause_turn", None)
    case Refusal(category, explanation) => ("refusal", Some(Details(category, explanation)))
    case OtherReason(word) => (word, None)
  }

  /** The dialect's error family of a status. */
  function WireFamily(status: nat): string {
    if status == 401 || status == 403 then "authentication_error"
    else if status == 402 then "billing_error"
    else if status == 404 then "not_found_error"
    else if status == 413 then "request_too_large"
    else if status == 429 then "rate_limit_error"
    else if status == 504 then "timeout_error"
    else if status == 529 then "overloaded_error"
    else if 500 <= status < 600 then "api_error"
    else "invalid_request_error"
  }

  function LastOf(events: seq<Event>, field: Counter): Option<nat> {
    LastKnown(Reports(events, field))
  }

  function OrZero(n: Option<nat>): nat {
    if n.Some? then n.value else 0
  }

  /** The body of the aggregate shape, off the events alone. */
  function SpeltBody(events: seq<Event>, read: ReadArgs, created: nat, model: string): Body {
    match LastError(events)
    case Some(e) => Failure(Envelope(WireFamily(WireStatus(e.kind)), e.message))
    case None =>
      var head, reason := LastHead(events), LastReason(events);
      Success(if head.0.Some? then head.0.value else "msg_brazen-" + Decimal(created),
              if head.1.Some? then head.1.value else model,
              SpeltContent(events, read),
              if reason.Some? then Some(WireStop(reason.value).0) else None,
              if reason.Some? then WireStop(reason.value).1 else None,
              AnthUsage(OrZero(LastOf(events, Input)), OrZero(LastOf(events, Output)), LastOf(events, CacheRead), LastOf(events, CacheWrite)))
  }

  // ----- the state spells the same -----

  ghost predicate OpenIs(st: State, events: seq<Event>, i: nat) {
    match OpenStart(events, i)
    case None => i !in st.open
    case Some(p) => i in st.open && st.open[i] == BlockAt(events, p)
  }

  ghost predicate FactsSpell(st: State, events: seq<Event>) {
    var reason, error := LastReason(events), LastError(events);
    && st.stopReason == (if reason.Some? then Some(WireStop(reason.value).0) else None)
    && st.stopDetails == (if reason.Some? then WireStop(reason.value).1 else None)
    && st.error == (if error.Some? then Some(Envelope(WireFamily(WireStatus(error.value.kind)), error.value.message)) else None)
    && st.status == (if error.Some? then Some(WireStatus(error.value.kind)) else None)
    && (st.id, st.model) == LastHead(events)
  }

  ghost predicate Spelt(st: State, events: seq<Event>, read: ReadArgs) {
    && (forall i: nat :: OpenIs(st, events, i))
    && st.content == SpeltContent(events, read)
    && FactsSpell(st, events)
  }

  // ----- one event -----

  lemma {:induction false} BlockStays(events: seq<Event>, ev: Event, p: nat)
    requires p < |events| && events[p].ContentStart?
    requires !(ev.ContentDelta? && OpenStart(events, ev.index) == Some(p))
    ensures BlockAt(events + [ev], p) == BlockAt(events, p)
  {
    DeltasStay(events, ev, p, TextChannel);
    DeltasStay(events, ev, p, JsonChannel);
    DeltasStay(events, ev, p, ThinkChannel);
    DeltasStay(events, ev, p, SignChannel);
    assert (events + [ev])[p] == events[p];
    hide OpenStart, Spoken;
  }

  lemma {:induction false} OpenStays(st: State, st': State, events: seq<Event>, ev: Event, i: nat)
    requires OpenIs(st, events, i) && !Touches(ev, i)
    requires ev.ContentDelta? ==> ev.index != i
    requires (i in st.open <==> i in st'.open) && (i in st.open ==> st'.open[i] == st.open[i])
    ensures OpenIs(st', events + [ev], i)
  {
    OpenStartSnoc(events, ev, i);
    var p := OpenStart(events, i);
    if p.Some? {
      assert ev.ContentDelta? ==> OpenStart(events, ev.index) != p;
      BlockStays(events, ev, p.value);
    }
    hide OpenStart, BlockAt;
  }

  lemma {:induction false} StopIs(reason: FinishReason)
    ensures StopReason(reason) == WireStop(reason)
  {
  }

  lemma {:induction false} ErrorIs(e: CanonicalError)
    ensures HttpStatus(e.kind) == WireStatus(e.kind) && ErrorType(WireStatus(e.kind)) == WireFamily(WireStatus(e.kind))
  {
  }

  lemma {:induction false} FactsStep(st: State, events: seq<Event>, ev: Event, read: ReadArgs)
    requires FactsSpell(st, events)
    ensures FactsSpell(Fold(st, ev, read).st, events + [ev])
  {
    Snoc(events, ev);
    hide WireStop, StopReason, HttpStatus, ErrorType, WireStatus, WireFamily, WireId, WireModel, MergeUsage,
         UsageJson, OpenBlock, Grow, FinishBlock;
    match ev
    case Finish(reason) => StopIs(reason);
    case Error(e) => ErrorIs(e);
    case _ =>
  }

  lemma {:induction false} StartIs(events: seq<Event>, index: nat, kind: ContentKind)
    ensures BlockAt(events + [ContentStart(index, kind)], |events|) == OpenBlock(kind).0
  {
    var ev := ContentStart(index, kind);
    JustStarted(events, ev, TextChannel);
    JustStarted(events, ev, JsonChannel);
    JustStarted(events, ev, ThinkChannel);
    JustStarted(events, ev, SignChannel);
    assert (events + [ev])[|events|] == ev;
    hide Spoken;
  }

  /** A delta's text, if it is on the channel. */
  function Adds(d: Delta, channel: Channel): string {
    if ChannelOf(d).Some? && ChannelOf(d).value.0 == channel then ChannelOf(d).value.1 else ""
  }

  lemma {:induction false} GrowIs(kind: ContentKind, text: string, args: string, thinking: string, signature: string, d: Delta)
    ensures
      var was := BlockOf(kind, text, args, thinking, signature);
      BlockOf(kind, text + Adds(d, TextChannel), args + Adds(d, JsonChannel), thinking + Adds(d, ThinkChannel),
              signature + Adds(d, SignChannel))
      == if Grow(was, d).Some? then Grow(was, d).value.0 else was
  {
    assert text + "" == text && args + "" == args && thinking + "" == thinking && signature + "" == signature;
  }

  lemma {:induction false} DeltaIs(events: seq<Event>, index: nat, d: Delta, p: nat)
    requires OpenStart(events, index) == Some(p)
    ensures
      var was := BlockAt(events, p);
      BlockAt(events + [ContentDelta(index, d)], p) == if Grow(was, d).Some? then Grow(was, d).value.0 else was
  {
    hide Spoken, OpenStart, Adds, BlockOf, Grow;
    assert (events + [ContentDelta(index, d)])[p] == events[p];
    DeltaAdds(events, index, d, p, TextChannel);
    DeltaAdds(events, index, d, p, JsonChannel);
    DeltaAdds(events, index, d, p, ThinkChannel);
    DeltaAdds(events, index, d, p, SignChannel);
    GrowIs(events[p].kind, Spoken(events, p, TextChannel), Spoken(events, p, JsonChannel),
           Spoken(events, p, ThinkChannel), Spoken(events, p, SignChannel), d);
  }

  lemma {:induction false} DeltaAdds(events: seq<Event>, index: nat, d: Delta, p: nat, channel: Channel)
    requires OpenStart(events, index) == Some(p)
    ensures Spoken(events + [ContentDelta(index, d)], p, channel) == Spoken(events, p, channel) + Adds(d, channel)
  {
    DeltasSnoc(events, ContentDelta(index, d), p, channel);
    hide OpenStart, Spoken, Deltas;
  }

  lemma {:induction false} OpenStep(st: State, events: seq<Event>, ev: Event, read: ReadArgs, i: nat)
    requires OpenIs(st, events, i)
    ensures OpenIs(Fold(st, ev, read).st, events + [ev], i)
  {
    hide WireStop, StopReason, HttpStatus, ErrorType, WireId, WireModel, MergeUsage, UsageJson, OpenBlock, Grow,
         FinishBlock, OpenStart, BlockAt;
    var st' := Fold(st, ev, read).st;
    if Touches(ev, i) {
      OpenStartSnoc(events, ev, i);
      if ev.ContentStart? {
        StartIs(events, i, ev.kind);
      }
    } else if ev.ContentDelta? && ev.index == i {
      OpenStartSnoc(events, ev, i);
      var p := OpenStart(events, i);
      if p.Some? {
        DeltaIs(events, i, ev.delta, p.value);
      }
    } else {
      OpenStays(st, st', events, ev, i);
    }
  }

  lemma {:induction false} WireIs(events: seq<Event>, p: nat, read: ReadArgs)
    requires p < |events| && events[p].ContentStart?
    ensures WireAt(events, p, read) ==
      match FinishBlock(BlockAt(events, p), read)
      case Some(block) => [block]
      case None => []
  {
    hide Spoken;
  }

  lemma {:induction false} ContentStep(st: State, events: seq<Event>, ev: Event, read: ReadArgs)
    requires Spelt(st, events, read)
    ensures Fold(st, ev, read).st.content == SpeltContent(events + [ev], read)
  {
    Snoc(events, ev);
    assert SpeltContent(events, read) + [] == SpeltContent(events, read);
    hide FactsSpell, OpenStart, StopReason, HttpStatus, ErrorType, WireId, WireModel, MergeUsage, UsageJson,
         OpenBlock, Grow, Spoken;
    hide BlockAt, WireAt, FinishBlock;
    if ev.ContentStop? {
      assert OpenIs(st, events, ev.index);
      var p := OpenStart(events, ev.index);
      if p.Some? {
        WireIs(events, p.value, read);
      }
      hide SpeltContent;
    }
  }

  lemma {:induction false} StepSpells(o: Out, events: seq<Event>, ev: Event, read: ReadArgs)
    requires Spelt(o.st, events, read)
    ensures Spelt(Step(o, ev, read).st, events + [ev], read)
  {
    FactsStep(o.st, events, ev, read);
    ContentStep(o.st, events, ev, read);
    forall i: nat
      ensures OpenIs(Step(o, ev, read).st, events + [ev], i)
    {
      assert OpenIs(o.st, events, i);
      OpenStep(o.st, events, ev, read, i);
    }
    hide Fold, SpeltContent, OpenStart, BlockAt, LastReason, LastError, LastHead, WireStop, WireStatus, WireFamily;
  }

  // ----- a whole turn -----

  lemma {:induction false} TurnSpells(stream: bool, created: nat, model: string, adaptations: seq<string>, events: seq<Event>, read: ReadArgs)
    ensures Spelt(Run(Out(Fresh(stream, created, model, adaptations), []), events, read).st, events, read)
    decreases |events|
  {
    var o := Out(Fresh(stream, created, model, adaptations), []);
    if events == [] {
      assert forall i: nat :: OpenIs(o.st, [], i);
    } else {
      var front, last := Front(events), Last(events);
      assert events == front + [last];
      TurnSpells(stream, created, model, adaptations, front, read);
      RunAppend(o, front, [last], read);
      RunOne(Run(o, front, read), last, read);
      hide Run, Step, Spelt;
      StepSpells(Run(o, front, read), front, last, read);
    }
  }

  lemma {:induction false} KnobsStay(o: Out, events: seq<Event>, read: ReadArgs)
    ensures Run(o, events, read).st.created == o.st.created && Run(o, events, read).st.fallbackModel == o.st.fallbackModel
    decreases |events|
  {
    if events != [] {
      StepKeepsDefaults(o, events[0], read);
      hide Step;
      KnobsStay(Step(o, events[0], read), events[1..], read);
    }
  }

  lemma {:induction false} StepKeepsDefaults(o: Out, ev: Event, read: ReadArgs)
    ensures Step(o, ev, read).st.created == o.st.created && Step(o, ev, read).st.fallbackModel == o.st.fallbackModel
  {
    hide StopReason, HttpStatus, ErrorType, WireId, WireModel, MergeUsage, UsageJson, OpenBlock, Grow, FinishBlock,
         BodyOf, Notes;
  }

  lemma {:induction false} EndAdds(events: seq<Event>, read: ReadArgs)
    ensures SpeltContent(events + [End], read) == SpeltContent(events, read)
    ensures LastReason(events + [End]) == LastReason(events) && LastError(events + [End]) == LastError(events)
    ensures LastHead(events + [End]) == LastHead(events)
  {
    Snoc(events, End);
    assert SpeltContent(events, read) + [] == SpeltContent(events, read);
  }

  /** Every counter is the last one reported, in the body's own terms. */
  lemma {:induction false} UsageIsSpelt(events: seq<Event>)
    ensures UsageJson(CountAll(NO_TALLY, events).counters)
         == AnthUsage(OrZero(LastOf(events, Input)), OrZero(LastOf(events, Output)), LastOf(events, CacheRead), LastOf(events, CacheWrite))
  {
    LastReportWins(NO_TALLY, events, Input);
    LastReportWins(NO_TALLY, events, Output);
    LastReportWins(NO_TALLY, events, CacheRead);
    LastReportWins(NO_TALLY, events, CacheWrite);
    hide CountAll, LastKnown, Reports;
  }

  /** What a stream client holds of a message: all of it but late usage. */
  predicate Holds(c: Client, body: Body, headed: bool) {
    match body
    case Failure(e) => c.error == Some(e) && !c.stopped
    case Success(id, model, content, reason, details, _) =>
      && c.error == None && c.stopped && c.content == content && c.reason == reason && c.details == details
      && (headed ==> c.head == Some((id, model)))
  }

  /** Both shapes hand the client the message its events spell: the aggregate writes it as its
      one body, and the stream's client has assembled it. */
  lemma {:induction false} ClientsGetTheMessage(
    events: seq<Event>, read: ReadArgs, created: nat, model: string, adaptations: seq<string>)
    requires End !in events
    ensures
      var sse := Run(Out(Fresh(true, created, model, adaptations), []), events + [End], read);
      var agg := Run(Out(Fresh(false, created, model, adaptations), []), events + [End], read);
      var message := SpeltBody(events, read, created, model);
      && agg.lines == [AnthIngress.Whole(message, adaptations)]
      && Holds(Accumulate(EMPTY_CLIENT, sse.lines, read), message, Opened(events))
  {
    hide Run, Accumulate, Step, UsageJson, CountAll, WireStop, WireStatus, WireFamily, Decimal, LastOf, OrZero,
         SpeltContent, LastReason, LastError, LastHead, OpenStart, BlockAt;
    AggregateIsStreamAccumulated(events, read, created, model, adaptations);
    TurnSpells(false, created, model, adaptations, events + [End], read);
    KnobsStay(Out(Fresh(false, created, model, adaptations), []), events + [End], read);
    EndAdds(events, read);
    UsageIsSpelt(events);
  }
}
