/** A chat-completions upstream behind the chat-completions masquerade, end to end: what the
    provider's lines said is what the client's message holds. */
module ChatThrough {
  import opened Base
  import opened SseGrammar
  import opened Canonical
  import opened Decoders
  import opened DecodeContract
  import opened StreamDriver
  import opened BlockMarks
  import opened TurnEvents
  import opened TurnSayings
  import opened ChatIngress
  import opened ChatMeaning
  import Synth
  import ChatBalance
  import ChatContents

  /** A turn summed up: all that was written, every call with its arguments joined, all the
      refusal text, and the last of the rest. */
  datatype Gist = Gist(
    text: string, tools: seq<WireTool>, excuses: string, reason: Option<FinishReason>,
    usage: Option<Counters>, error: Option<CanonicalError>, head: (Option<string>, Option<string>))

  const SILENCE := Gist("", [], "", None, None, None, (None, None))

  function Adds(g: Gist, say: Saying): Gist {
    match say
    case Opened(id, model) => g.(head := (id, model))
    case Wrote(text) => g.(text := g.text + text)
    case Called(id, name) => g.(tools := g.tools + [WireTool(id, name, "")])
    case Argued(k, text) =>
      if k < |g.tools| then g.(tools := g.tools[k := g.tools[k].(args := g.tools[k].args + text)]) else g
    case Ended(reason) =>
      var g' := g.(reason := Some(reason));
      if reason.Refusal? && reason.explanation.Some? then g'.(excuses := g.excuses + reason.explanation.value) else g'
    case Counted(usage) => g.(usage := Some(usage))
    case Failed(error) => g.(error := Some(error))
    case _ => g
  }

  function GistOf(said: seq<Saying>): Gist {
    if said == [] then SILENCE else Adds(GistOf(Front(said)), Last(said))
  }

  /** The same, of the events themselves. */
  function EventGist(events: seq<Event>): Gist {
    Gist(Flatten(TextDeltas(events)), SpeltTools(events), Flatten(Explanations(events)),
         LastReason(events), LastUsage(events), LastError(events), LastHead(events))
  }

  /** The message that hands a turn's gist over. */
  function Message(g: Gist, created: nat, model: string): ChatBody {
    match g.error
    case Some(e) => Failure(WireError(e))
    case None =>
      Success(if g.head.0.Some? then g.head.0.value else "chatcmpl-brazen-" + Decimal(created),
              if g.head.1.Some? then g.head.1.value else model,
              created,
              if g.text == "" then None else Some(g.text), if g.excuses == "" then None else Some(g.excuses),
              g.tools,
              if g.reason.Some? then Some(WireReason(g.reason.value)) else None,
              if g.usage.Some? then Some(WireUsage(g.usage.value)) else None)
  }

  lemma {:induction false} GistSnoc(said: seq<Saying>, more: seq<Saying>)
    requires |more| <= 1
    ensures GistOf(said + more) == if more == [] then GistOf(said) else Adds(GistOf(said), more[0])
  {
    if more == [] {
      assert said + more == said;
    } else {
      assert Front(said + more) == said && Last(said + more) == more[0];
    }
  }

  // ----- the events' gist is the gist of what they tell -----

  lemma {:induction false} ToolStartsHas(events: seq<Event>, p: nat)
    requires p < |events| && events[p].ContentStart? && events[p].kind.ToolUseKind?
    ensures p in ToolStarts(events)
    decreases |events|
  {
    if p < |events| - 1 {
      ToolStartsHas(Front(events), p);
    }
  }

  /** What one more event does to the call at place `t`. */
  lemma {:induction false} CallSnoc(events: seq<Event>, ev: Event, t: nat)
    requires t < |ToolStarts(events)|
    ensures t < |ToolStarts(events + [ev])|
    ensures
      var was, more := SpeltTools(events)[t], Given(events, ev, Nth(events, t), JsonChannel);
      SpeltTools(events + [ev])[t] == was.(args := was.args + if more == [] then "" else more[0])
  {
    ToolStartsSnoc(events, ev);
    assert Nth(events + [ev], t) == Nth(events, t);
    DeltasSnoc(events, ev, Nth(events, t), JsonChannel);
    hide ToolStarts, OpenStart, Given, Spoken, Carried;
  }

  lemma {:induction false} CallsStay(events: seq<Event>, ev: Event)
    requires !(ev.ContentStart? && ev.kind.ToolUseKind?)
    requires ev.ContentDelta? && ev.delta.JsonDelta? ==>
      OpenStart(events, ev.index).None? || !KindAt(events, OpenStart(events, ev.index).value).ToolUseKind?
    ensures SpeltTools(events + [ev]) == SpeltTools(events)
  {
    ToolStartsSnoc(events, ev);
    hide ToolStarts, OpenStart;
    forall t: nat | t < |ToolStarts(events)|
      ensures SpeltTools(events + [ev])[t] == SpeltTools(events)[t]
    {
      CallSnoc(events, ev, t);
      assert SpeltTools(events)[t].args + "" == SpeltTools(events)[t].args;
    }
  }

  lemma {:induction false} CallArrives(events: seq<Event>, index: nat, id: string, name: string)
    ensures
      SpeltTools(events + [ContentStart(index, ToolUseKind(id, name))]) == SpeltTools(events) + [WireTool(id, name, "")]
  {
    var ev := ContentStart(index, ToolUseKind(id, name));
    var n := |ToolStarts(events)|;
    ToolStartsSnoc(events, ev);
    hide ToolStarts, OpenStart;
    forall t: nat | t <= n
      ensures SpeltTools(events + [ev])[t] == (SpeltTools(events) + [WireTool(id, name, "")])[t]
    {
      if t < n {
        CallSnoc(events, ev, t);
        assert SpeltTools(events)[t].args + "" == SpeltTools(events)[t].args;
      } else {
        JustStarted(events, ev, JsonChannel);
        assert Nth(events + [ev], n) == |events|;
      }
    }
  }

  /** Arguments are given to the call they name and to no other. */
  lemma {:induction false} ArgumentsGiven(events: seq<Event>, index: nat, text: string, p: nat, t: nat)
    requires OpenStart(events, index) == Some(p) && KindAt(events, p).ToolUseKind? && t < |ToolStarts(events)|
    ensures Place(ToolStarts(events), p) < |ToolStarts(events)|
    ensures
      Given(events, ContentDelta(index, JsonDelta(text)), Nth(events, t), JsonChannel)
      == if t == Place(ToolStarts(events), p) then [text] else []
  {
    ToolStartsHas(events, p);
    ToolStartsAscend(events);
    hide OpenStart, ToolStarts, Place;
    assert Nth(events, t) == p <==> t == Place(ToolStarts(events), p);
  }

  lemma {:induction false} ArgumentsArrive(events: seq<Event>, index: nat, text: string)
    requires OpenStart(events, index).Some? && KindAt(events, OpenStart(events, index).value).ToolUseKind?
    ensures
      var k, was := Place(ToolStarts(events), OpenStart(events, index).value), SpeltTools(events);
      && k < |was|
      && SpeltTools(events + [ContentDelta(index, JsonDelta(text))]) == was[k := was[k].(args := was[k].args + text)]
  {
    var ev, p := ContentDelta(index, JsonDelta(text)), OpenStart(events, index).value;
    ToolStartsHas(events, p);
    ToolStartsSnoc(events, ev);
    var k, was := Place(ToolStarts(events), p), SpeltTools(events);
    hide ToolStarts, OpenStart, Place, SpeltTools, Given, Nth;
    forall t: nat | t < |was|
      ensures SpeltTools(events + [ev])[t] == was[k := was[k].(args := was[k].args + text)][t]
    {
      ArgumentsGiven(events, index, text, p, t);
      CallSnoc(events, ev, t);
      assert was[t].args + "" == was[t].args;
    }
  }

  /** One more event: text. */
  lemma {:induction false} TextSnoc(events: seq<Event>, ev: Event)
    ensures
      var heard := Heard(events, ev);
      Flatten(TextDeltas(events + [ev]))
      == Flatten(TextDeltas(events)) + if heard != [] && heard[0].Wrote? then heard[0].text else ""
  {
    Snoc(events, ev);
    var was := TextDeltas(events);
    hide OpenStart, ToolStarts, Place;
    if Heard(events, ev) != [] && Heard(events, ev)[0].Wrote? {
      FlattenSnoc(was, Heard(events, ev)[0].text);
    } else {
      assert was + [] == was && Flatten(was) + "" == Flatten(was);
    }
  }

  lemma {:induction false} ExcusesSnoc(events: seq<Event>, ev: Event)
    ensures
      var was, heard := SILENCE.(excuses := Flatten(Explanations(events))), Heard(events, ev);
      Flatten(Explanations(events + [ev])) == if heard == [] then was.excuses else Adds(was, heard[0]).excuses
  {
    Snoc(events, ev);
    var was := Explanations(events);
    assert was + [] == was;
    if ev.Finish? && ev.reason.Refusal? && ev.reason.explanation.Some? {
      FlattenSnoc(was, ev.reason.explanation.value);
    }
    hide OpenStart, ToolStarts, Place, Flatten;
  }

  lemma {:induction false} LastsSnoc(events: seq<Event>, ev: Event)
    ensures
      var was, now := Lasts(events), Lasts(events + [ev]);
      var heard := Heard(events, ev);
      now == if heard == [] then was else Adds(was, heard[0]).(text := "", tools := [], excuses := "")
  {
    Snoc(events, ev);
    hide OpenStart, ToolStarts, Place;
  }

  function Lasts(events: seq<Event>): Gist {
    Gist("", [], "", LastReason(events), LastUsage(events), LastError(events), LastHead(events))
  }

  lemma {:induction false} CallDelta(events: seq<Event>, i: nat, delta: Delta)
    ensures
      SpeltTools(events + [ContentDelta(i, delta)])
      == Adds(SILENCE.(tools := SpeltTools(events)), HeardDelta(events, i, delta)).tools
  {
    var p := OpenStart(events, i);
    hide OpenStart, ToolStarts, Place, SpeltTools;
    if p.Some? && KindAt(events, p.value).ToolUseKind? && delta.JsonDelta? {
      ArgumentsArrive(events, i, delta.text);
    } else {
      CallsStay(events, ContentDelta(i, delta));
    }
  }

  lemma {:induction false} CallsSnoc(events: seq<Event>, ev: Event)
    ensures
      var was, heard := SILENCE.(tools := SpeltTools(events)), Heard(events, ev);
      SpeltTools(events + [ev]) == if heard == [] then was.tools else Adds(was, heard[0]).tools
  {
    hide OpenStart, ToolStarts, SpeltTools, HeardDelta;
    if ev.ContentDelta? {
      CallDelta(events, ev.index, ev.delta);
      hide Adds;
    } else if ev.ContentStart? && ev.kind.ToolUseKind? {
      CallArrives(events, ev.index, ev.kind.id, ev.kind.name);
    } else {
      CallsStay(events, ev);
    }
  }

  /** The parts of a gist change each on its own. */
  lemma {:induction false} AddsApart(g: Gist, say: Saying)
    ensures Adds(g, say).tools == Adds(SILENCE.(tools := g.tools), say).tools
    ensures Adds(g, say).excuses == Adds(SILENCE.(excuses := g.excuses), say).excuses
    ensures Adds(g, say).text == if say.Wrote? then g.text + say.text else g.text
    ensures
      var lasts := g.(text := "", tools := [], excuses := "");
      Adds(g, say).(text := "", tools := [], excuses := "") == Adds(lasts, say).(text := "", tools := [], excuses := "")
  {
  }

  lemma {:induction false} GistGrows(events: seq<Event>, ev: Event)
    ensures |Heard(events, ev)| <= 1
    ensures
      var heard := Heard(events, ev);
      EventGist(events + [ev]) == if heard == [] then EventGist(events) else Adds(EventGist(events), heard[0])
  {
    TextSnoc(events, ev);
    ExcusesSnoc(events, ev);
    LastsSnoc(events, ev);
    CallsSnoc(events, ev);
    assert |Heard(events, ev)| <= 1;
    var g, next, heard := EventGist(events), EventGist(events + [ev]), Heard(events, ev);
    assert g.text + "" == g.text && Lasts(events) == g.(text := "", tools := [], excuses := "");
    if heard != [] {
      AddsApart(g, heard[0]);
    }
    var expected := if heard == [] then g else Adds(g, heard[0]);
    assert next.text == expected.text && next.tools == expected.tools && next.excuses == expected.excuses;
    assert Lasts(events + [ev]) == next.(text := "", tools := [], excuses := "");
    hide Heard, Adds, EventGist, Lasts;
  }

  lemma {:induction false} GistIsHeard(events: seq<Event>)
    ensures EventGist(events) == GistOf(Hears(events))
    decreases |events|
  {
    if events == [] {
      assert SpeltTools([]) == [];
    } else {
      var front, last := Front(events), Last(events);
      assert events == front + [last];
      hide GistOf, Hears, EventGist, Heard;
      GistIsHeard(front);
      HearsSnoc(front, last);
      GistGrows(front, last);
      GistSnoc(Hears(front), Heard(front, last));
    }
  }

  // ----- from the provider's body to the client's message -----

  /** What the driver adds to what the lines said: that the connection dropped, or that the body
      ended with nothing to mark its end. */
  function Verdict(sample: Sample, body: seq<BodyItem>, lines: seq<Synth.Line>, head: Bytes): seq<Saying> {
    if Drop in body then [Failed(DROPPED)]
    else if Terminates(ChatBalance.ChatMarks(lines)) then []
    else [Failed(if lines != [] then PREMATURE else PrematureWithBody(sample, head))]
  }

  lemma {:induction false} EndingTells(events: seq<Event>, keys: seq<nat>, error: CanonicalError)
    ensures Hears(events + (Stops(keys) + [Error(error)])) == Hears(events) + [Failed(error)]
    ensures End !in events ==> End !in events + (Stops(keys) + [Error(error)])
  {
    StopsHush(events, keys, 0);
    HearsSnoc(events + Stops(keys), Error(error));
    ChatContents.StopsNeverEnd(keys);
    hide Hears, Stops;
    assert events + (Stops(keys) + [Error(error)]) == events + Stops(keys) + [Error(error)];
  }

  lemma {:induction false} DriverTells(
    sample: Sample, dropped: bool, s: DecodeState, framed: bool, head: Bytes, events: seq<Event>)
    requires End !in events
    ensures
      var all := events + Ending(sample, dropped, s, framed, head);
      && End !in all
      && Hears(all) == Hears(events) +
         if dropped then [Failed(DROPPED)]
         else if s.terminated then []
         else [Failed(if framed then PREMATURE else PrematureWithBody(sample, head))]
  {
    hide Hears, Sorted, Stops, PrematureWithBody;
    var keys := Sorted(s.open.Keys);
    EndingTells(events, keys, DROPPED);
    EndingTells(events, keys, if framed then PREMATURE else PrematureWithBody(sample, head));
    assert events + [] == events && Hears(events) + [] == Hears(events);
  }

  /** What the driver's whole trace tells. */
  lemma {:induction false} TraceTells(framing: Framing, read: Frame -> Synth.Line, sample: Sample, body: seq<BodyItem>)
    ensures
      var lines := ChatBalance.Lines(read, AllFrames(framing, ChunksOf(body), Drop in body));
      var trace := EagerTrace(framing, Synth.ChatDecode(read), sample, body);
      && End !in trace
      && (ChatContents.Orderly(lines) ==>
            Hears(trace) == ChatContents.Says(lines) + Verdict(sample, body, lines, Head(Flatten(ChunksOf(body)))))
  {
    var frames := AllFrames(framing, ChunksOf(body), Drop in body);
    var lines, st := ChatBalance.Lines(read, frames), ChatContents.After(read, frames);
    var head := Head(Flatten(ChunksOf(body)));
    hide AllFrames, Head, Flatten, ChunksOf, Dangles, Terminates, ChatBalance.ChatMarks, ChatContents.Told,
         ChatContents.Orderly, ChatContents.Says, Hears, DecodeAll, PrematureWithBody;
    ChatContents.StreamTells(read, frames);
    ChatContents.StreamNeverEnds(read, frames);
    ChatBalance.ChatTracks(read, frames);
    assert st.state.terminated <==> Terminates(ChatBalance.ChatMarks(lines));
    assert lines == [] <==> frames == [];
    DriverTells(sample, Drop in body, st.state, frames != [], head, st.out);
    assert EagerTrace(framing, Synth.ChatDecode(read), sample, body)
        == st.out + Ending(sample, Drop in body, st.state, frames != [], head);
  }

  /** Whatever the provider: both shapes hand the client the gist of what the events say. */
  lemma {:induction false} SaidReachesTheClient(
    trace: seq<Event>, env: Env, includeUsage: bool, created: nat, model: string, adaptations: seq<string>)
    requires End !in trace
    ensures
      var message := Message(GistOf(Hears(trace)), created, model);
      var sse := Run(Out(Fresh(true, includeUsage, created, model, adaptations), []), trace + [End], env);
      var agg := Run(Out(Fresh(false, includeUsage, created, model, adaptations), []), trace + [End], env);
      && agg.lines == [ChatIngress.Whole(message, adaptations)]
      && Spells(Accumulate(EMPTY_CLIENT, sse.lines), message, includeUsage)
  {
    GistIsHeard(trace);
    assert SpeltBody(trace, created, model) == Message(EventGist(trace), created, model) by {
      hide TextDeltas, SpeltTools, Explanations, LastReason, LastUsage, LastError, LastHead, WireError, WireReason, WireUsage;
    }
    hide SpeltBody, EventGist, Message, GistOf, Run, Accumulate, Spells, Hears;
    ClientsGetTheMessage(trace, env, includeUsage, created, model, adaptations);
  }

  /** Any orderly body, however framed and chunked, dropped or not: both shapes hand the client
      the gist of its lines and of the driver's verdict on it. */
  lemma {:induction false} LinesReachTheClient(
    framing: Framing, read: Frame -> Synth.Line, sample: Sample, body: seq<BodyItem>,
    env: Env, includeUsage: bool, created: nat, model: string, adaptations: seq<string>)
    requires ChatContents.Orderly(ChatBalance.Lines(read, AllFrames(framing, ChunksOf(body), Drop in body)))
    ensures
      var lines := ChatBalance.Lines(read, AllFrames(framing, ChunksOf(body), Drop in body));
      var said := ChatContents.Says(lines) + Verdict(sample, body, lines, Head(Flatten(ChunksOf(body))));
      var message := Message(GistOf(said), created, model);
      var turn := EagerTrace(framing, Synth.ChatDecode(read), sample, body) + [End];
      var sse := Run(Out(Fresh(true, includeUsage, created, model, adaptations), []), turn, env);
      var agg := Run(Out(Fresh(false, includeUsage, created, model, adaptations), []), turn, env);
      && agg.lines == [ChatIngress.Whole(message, adaptations)]
      && Spells(Accumulate(EMPTY_CLIENT, sse.lines), message, includeUsage)
  {
    var trace := EagerTrace(framing, Synth.ChatDecode(read), sample, body);
    TraceTells(framing, read, sample, body);
    hide EagerTrace, Message, GistOf, Run, Accumulate, Spells, Hears, Verdict, AllFrames, ChunksOf;
    SaidReachesTheClient(trace, env, includeUsage, created, model, adaptations);
  }
}
