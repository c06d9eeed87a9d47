/** The line decoder of src/protocol/ollama_chat/decode: a second provider on the synthesized
    mechanics, which always drains as it ends, and the streams on which that is enough. */
module OllamaDecode {
  import opened Base
  import opened SseGrammar
  import opened Decoders
  import opened Canonical
  import opened DecodeContract
  import opened StreamDriver
  import opened StreamTheorems
  import opened BlockMarks
  import Synth
  import ChatBalance

  datatype Call = Call(name: string, arguments: string)

  /** One parsed line. An absent or empty text field is `""`. */
  datatype Line =
    | Malformed(error: CanonicalError)
    | ErrorLine(error: CanonicalError)
    | ChatLine(model: Option<string>, thinking: string, content: string, calls: seq<Call>,
               done: bool, reason: Option<string>, promptCount: Option<nat>, evalCount: Option<nat>)

  /** A whole tool call: its block, with a synthesized id, and its arguments in one fragment. */
  function ToolCallPiece(st: Synth.Step, call: Call): Synth.Step {
    var i := Synth.NextIndex(st.state);
    var kind := ToolUseKind("call_" + Decimal(i), call.name);
    Synth.Step(st.state.(open := st.state.open[i := kind]),
               st.out + [ContentStart(i, kind)] + [ContentDelta(i, JsonDelta(call.arguments))])
  }

  function ToolCalls(st: Synth.Step, calls: seq<Call>): Synth.Step
    decreases |calls|
  {
    if calls == [] then st else ToolCalls(ToolCallPiece(st, calls[0]), calls[1..])
  }

  /** An open tool block promotes the reason; an absent one is a stop. */
  function ReasonOf(open: map<nat, ContentKind>, reason: Option<string>): FinishReason {
    if exists i <- open :: open[i].ToolUseKind? then ToolUse
    else if reason == Some("length") then Length
    else if reason == None || reason == Some("stop") then Stop
    else OtherReason(reason.value)
  }

  function UsageOf(line: Line): Counters
    requires line.ChatLine?
  {
    NO_COUNTERS.(inputTokens := line.promptCount, outputTokens := line.evalCount, inputTotalTokens := line.promptCount)
  }

  ghost function FinishPart(st: Synth.Step, line: Line): Synth.Step
    requires line.ChatLine?
  {
    if !line.done then st
    else
      Synth.Step(st.state.(open := map[], terminated := true),
                 st.out + Stops(Sorted(st.state.open.Keys)) + [UsageEvent(UsageOf(line))]
                 + [Finish(ReasonOf(st.state.open, line.reason))])
  }

  function Began(line: Line, s: DecodeState): Synth.Step
    requires line.ChatLine?
  {
    if s.started then Synth.Step(s, []) else Synth.Step(s.(started := true), [MessageStart(None, line.model)])
  }

  ghost function Chat(line: Line, s: DecodeState): Synth.Step
    requires line.ChatLine?
  {
    var st1 := Synth.Lazily(Began(line, s), ThinkingKind(None), line.thinking, ThinkingDelta(line.thinking));
    var st2 := Synth.Lazily(st1, TextKind, line.content, TextDelta(line.content));
    FinishPart(ToolCalls(st2, line.calls), line)
  }

  ghost function DecodeLine(line: Line, s: DecodeState): (Result<seq<Event>, CanonicalError>, DecodeState) {
    match line
    case Malformed(e) => (Err(e), s)
    case ErrorLine(e) => (Ok([Error(e)]), s)
    case ChatLine(_, _, _, _, _, _, _, _) => (Ok(Chat(line, s).out), Chat(line, s).state)
  }

  /** The decoder over any reading of frames as lines. */
  ghost function LineDecode(read: Frame -> Line): Decode {
    (f: Frame, s: DecodeState) => DecodeLine(read(f), s)
  }

  // ----- the contract -----

  lemma {:induction false} BeganFits(line: Line, s: DecodeState)
    requires line.ChatLine? && Synth.Dense(s)
    ensures Synth.Fits(s, Began(line, s))
  {
    var none := Synth.Step(s, []);
    assert Synth.Fits(s, none);
    Synth.FitsDelta(s, none.(state := s.(started := true)), MessageStart(None, line.model));
    assert [] + [MessageStart(None, line.model)] == [MessageStart(None, line.model)];
  }

  lemma {:induction false} FitsCalls(s: DecodeState, st: Synth.Step, calls: seq<Call>)
    requires Synth.Fits(s, st)
    ensures Synth.Fits(s, ToolCalls(st, calls))
    decreases |calls|
  {
    if calls != [] {
      var i := Synth.NextIndex(st.state);
      var kind := ToolUseKind("call_" + Decimal(i), calls[0].name);
      Synth.FitsStart(s, st, kind);
      var began := Synth.Step(st.state.(open := st.state.open[i := kind]), st.out + [ContentStart(i, kind)]);
      Synth.FitsDelta(s, began, ContentDelta(i, JsonDelta(calls[0].arguments)));
      hide Synth.Fits, Decimal;
      FitsCalls(s, ToolCallPiece(st, calls[0]), calls[1..]);
    }
  }

  lemma {:induction false} FitsFinish(s: DecodeState, st: Synth.Step, line: Line)
    requires Synth.Fits(s, st) && line.ChatLine?
    ensures Synth.Fits(s, FinishPart(st, line))
  {
    if line.done {
      var stops := Stops(Sorted(st.state.open.Keys));
      BracketsAppend(s.open.Keys, st.out, stops);
      ClosingClears(st.state);
      var closed := Synth.Step(st.state.(open := map[], terminated := true), st.out + stops);
      assert Synth.Fits(s, closed);
      var counted := closed.(out := closed.out + [UsageEvent(UsageOf(line))]);
      Synth.FitsDelta(s, closed, UsageEvent(UsageOf(line)));
      Synth.FitsDelta(s, counted, Finish(ReasonOf(st.state.open, line.reason)));
    }
  }

  lemma {:induction false} ChatFits(line: Line, s: DecodeState)
    requires line.ChatLine? && Synth.Dense(s)
    ensures Synth.Fits(s, Chat(line, s))
  {
    hide Synth.Fits, Synth.Lazily, FinishPart, ToolCalls, Began;
    var st0 := Began(line, s);
    BeganFits(line, s);
    Synth.FitsLazily(s, st0, ThinkingKind(None), line.thinking, ThinkingDelta(line.thinking));
    var st1 := Synth.Lazily(st0, ThinkingKind(None), line.thinking, ThinkingDelta(line.thinking));
    Synth.FitsLazily(s, st1, TextKind, line.content, TextDelta(line.content));
    var st2 := Synth.Lazily(st1, TextKind, line.content, TextDelta(line.content));
    FitsCalls(s, st2, line.calls);
    FitsFinish(s, ToolCalls(st2, line.calls), line);
  }

  /** The decoder's starts and stops are exactly its changes to `open`. */
  lemma {:induction false} LineAgrees(read: Frame -> Line)
    ensures Agrees(LineDecode(read), (s: DecodeState) => Synth.Dense(s))
  {
    var inv := (s: DecodeState) => Synth.Dense(s);
    forall f: Frame, s: DecodeState | inv(s)
      ensures
        var (r, s1) := LineDecode(read)(f, s);
        inv(s1) && Brackets(s.open.Keys, Emitted(r)) == Some(s1.open.Keys)
    {
      var line := read(f);
      if line.ChatLine? {
        ChatFits(line, s);
        hide Chat;
      } else {
        assert [Error(line.error)][1..] == [];
      }
    }
  }

  // ----- which streams it balances -----

  function LineMark(line: Line): Mark {
    match line
    case ChatLine(_, thinking, content, calls, done, _, _, _) =>
      Mark(thinking != "" || content != "" || calls != [], done, done)
    case _ => NO_MARK
  }

  function LineMarks(read: Frame -> Line, frames: seq<Frame>): (marks: seq<Mark>)
    ensures |marks| == |frames|
    ensures forall i :: 0 <= i < |frames| ==> marks[i] == LineMark(read(frames[i]))
  {
    seq(|frames|, i requires 0 <= i < |frames| => LineMark(read(frames[i])))
  }

  lemma {:induction false} CallsOpen(st: Synth.Step, calls: seq<Call>)
    ensures ToolCalls(st, calls).state.open != map[] <==> st.state.open != map[] || calls != []
    ensures ToolCalls(st, calls).state.terminated == st.state.terminated
    decreases |calls|
  {
    if calls != [] {
      var i := Synth.NextIndex(st.state);
      assert i in ToolCallPiece(st, calls[0]).state.open;
      CallsOpen(ToolCallPiece(st, calls[0]), calls[1..]);
    }
  }

  /** One line changes the open set and the end exactly as its mark says. */
  lemma {:induction false} LineMoves(line: Line, s: DecodeState)
    ensures
      var s', m := DecodeLine(line, s).1, LineMark(line);
      && (s'.open != map[] <==> !m.finishes && (m.opens || s.open != map[]))
      && (s'.terminated <==> s.terminated || m.terminates)
  {
    if line.ChatLine? {
      hide Synth.Lazily, ToolCalls, Sorted, Stops, ReasonOf;
      var st0 := Began(line, s);
      ChatBalance.LazilyOpens(st0, ThinkingKind(None), line.thinking, ThinkingDelta(line.thinking));
      var st1 := Synth.Lazily(st0, ThinkingKind(None), line.thinking, ThinkingDelta(line.thinking));
      ChatBalance.LazilyOpens(st1, TextKind, line.content, TextDelta(line.content));
      CallsOpen(Synth.Lazily(st1, TextKind, line.content, TextDelta(line.content)), line.calls);
    }
  }

  lemma {:induction false} LineTracks(read: Frame -> Line, frames: seq<Frame>)
    ensures Tracks(DecodeAll(LineDecode(read), frames, FRESH).1, LineMarks(read, frames))
    decreases |frames|
  {
    if frames == [] {
      FreshTracks();
    } else {
      var before := DecodeAll(LineDecode(read), Front(frames), FRESH).1;
      LineTracks(read, Front(frames));
      DecodeAllSnoc(LineDecode(read), frames, FRESH);
      LineMoves(read(Last(frames)), before);
      hide DecodeLine, DecodeAll, LineMark, Tracks;
      assert LineMarks(read, frames) == LineMarks(read, Front(frames)) + [LineMark(read(Last(frames)))];
      TracksSnoc(before, DecodeLine(read(Last(frames)), before).1, LineMarks(read, Front(frames)), LineMark(read(Last(frames))));
    }
  }

  /** Exactly which streams leave a block unstopped: undropped ones that end and on which some
      line after the last `done` carries thinking, content or a tool call. */
  lemma {:induction false} LineBalancedIff(framing: Framing, read: Frame -> Line, sample: Sample, body: seq<BodyItem>)
    ensures
      var marks := LineMarks(read, AllFrames(framing, ChunksOf(body), Drop in body));
      Balanced(EagerTrace(framing, LineDecode(read), sample, body))
      <==> Drop in body || !Terminates(marks) || !Dangles(marks)
  {
    var frames := AllFrames(framing, ChunksOf(body), Drop in body);
    LineAgrees(read);
    LineTracks(read, frames);
    hide LineMarks, AllFrames, Dangles, Terminates, EagerTrace, Agrees;
    MarkedBalance(framing, LineDecode(read), (s: DecodeState) => Synth.Dense(s), sample, body, LineMarks(read, frames));
  }

  /** The `done` line itself always drains, so of the contract's second clause only deafness
      after the end is missing. */
  lemma {:induction false} LineDrainsAtEnd(read: Frame -> Line)
    ensures DrainsAtEnd(LineDecode(read), (s: DecodeState) => Synth.Dense(s))
  {
    forall f: Frame, s: DecodeState | !s.terminated
      ensures Settled(LineDecode(read)(f, s).1)
    {
      LineMoves(read(f), s);
      hide DecodeLine;
    }
  }

  /** Made deaf after its end, the decoder keeps both clauses, and so balances every body. */
  lemma {:induction false} QuietLinesBalance(framing: Framing, read: Frame -> Line, sample: Sample, body: seq<BodyItem>)
    ensures Balanced(EagerTrace(framing, Quiet(LineDecode(read)), sample, body))
  {
    LineAgrees(read);
    LineDrainsAtEnd(read);
    hide Agrees, DrainsAtEnd, DrainsFirst, EagerTrace, Balanced, LineDecode;
    QuietKeepsContract(LineDecode(read), (s: DecodeState) => Synth.Dense(s));
    ContractBalances(framing, Quiet(LineDecode(read)), (s: DecodeState) => Synth.Dense(s), sample, body);
  }
}
