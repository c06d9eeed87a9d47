/** On which streams the chat-completions decoder (src/protocol/openai/decode) stops every block
    it starts, in terms of the lines read alone, and two streams on which it does not. */
module ChatBalance {
  import opened Base
  import opened SseGrammar
  import opened SseWire
  import opened Decoders
  import opened Canonical
  import opened DecodeContract
  import opened StreamDriver
  import opened BlockMarks
  import opened Synth

  // ----- what a line says, read off the line -----

  function WireIndices(calls: seq<ToolPiece>): set<nat> {
    if calls == [] then {} else {calls[0].wireIndex} + WireIndices(calls[1..])
  }

  function CallsOf(line: Line): seq<ToolPiece> {
    if line.ChatChunk? then line.calls else []
  }

  /** The tool indices of a stream so far; none is ever forgotten. */
  function Seen(lines: seq<Line>): set<nat> {
    if lines == [] then {} else Seen(Front(lines)) + WireIndices(CallsOf(Last(lines)))
  }

  /** A chunk opens a block when it carries reasoning, content or a tool index not seen before;
      one with a finish reason closes every block and marks the end; the bare marker only marks
      the end. */
  function ChatMark(line: Line, seen: set<nat>): Mark {
    match line
    case DoneMarker => Mark(false, false, true)
    case ChatChunk(_, _, reasoning, content, _, calls, finish, _) =>
      Mark(reasoning != "" || content != "" || !(WireIndices(calls) <= seen), finish.Some?, finish.Some?)
    case _ => NO_MARK
  }

  function ChatMarks(lines: seq<Line>): (marks: seq<Mark>)
    ensures |marks| == |lines|
  {
    if lines == [] then [] else ChatMarks(Front(lines)) + [ChatMark(Last(lines), Seen(Front(lines)))]
  }

  function Lines(read: Frame -> Line, frames: seq<Frame>): (lines: seq<Line>)
    ensures |lines| == |frames|
    ensures forall i :: 0 <= i < |frames| ==> lines[i] == read(frames[i])
  {
    seq(|frames|, i requires 0 <= i < |frames| => read(frames[i]))
  }

  // ----- what a line does -----

  lemma {:induction false} LazilyOpens(st: Step, kind: ContentKind, text: string, delta: Delta)
    ensures Lazily(st, kind, text, delta).state.open != map[] <==> st.state.open != map[] || text != ""
    ensures Lazily(st, kind, text, delta).state == st.state.(open := Lazily(st, kind, text, delta).state.open)
  {
    var i := NextIndex(st.state);
    assert i in st.state.open[i := kind];
    hide FindKind;
  }

  lemma {:induction false} CallsOpen(st: Step, calls: seq<ToolPiece>)
    ensures
      var st' := ToolCalls(st, calls);
      && st'.state.toolIndex.Keys == st.state.toolIndex.Keys + WireIndices(calls)
      && (st'.state.open != map[] <==> st.state.open != map[] || !(WireIndices(calls) <= st.state.toolIndex.Keys))
      && st'.state.terminated == st.state.terminated
    decreases |calls|
  {
    if calls != [] {
      var next := ToolCallPiece(st, calls[0]);
      CallOpens(st, calls[0]);
      hide ToolCallPiece;
      CallsOpen(next, calls[1..]);
    }
  }

  lemma {:induction false} CallOpens(st: Step, call: ToolPiece)
    ensures
      var st' := ToolCallPiece(st, call);
      && st'.state.toolIndex.Keys == st.state.toolIndex.Keys + {call.wireIndex}
      && (st'.state.open != map[] <==> st.state.open != map[] || call.wireIndex !in st.state.toolIndex)
      && st'.state.terminated == st.state.terminated
  {
    var c := NextIndex(st.state);
    hide NextIndex;
    assert c in st.state.open[c := ToolUseKind(call.id, call.name)];
    assert st.state.toolIndex[call.wireIndex := c].Keys == st.state.toolIndex.Keys + {call.wireIndex};
  }

  /** One line changes the open set, the seen indices and the end exactly as its mark says. */
  lemma {:induction false} LineMoves(line: Line, s: DecodeState)
    ensures
      var s', m := DecodeLine(line, s).1, ChatMark(line, s.toolIndex.Keys);
      && (s'.open != map[] <==> !m.finishes && (m.opens || s.open != map[]))
      && (s'.terminated <==> s.terminated || m.terminates)
      && s'.toolIndex.Keys == s.toolIndex.Keys + WireIndices(CallsOf(line))
  {
    hide Lazily, ToolCalls, Sorted, Stops, ReasonOf;
    if line.ChatChunk? {
      var st0 := if s.started then Step(s, []) else Step(s.(started := true), [MessageStart(line.id, line.model)]);
      LazilyOpens(st0, ThinkingKind(None), line.reasoning, ThinkingDelta(line.reasoning));
      var st1 := Lazily(st0, ThinkingKind(None), line.reasoning, ThinkingDelta(line.reasoning));
      LazilyOpens(st1, TextKind, line.content, TextDelta(line.content));
      var st2 := Lazily(st1, TextKind, line.content, TextDelta(line.content));
      CallsOpen(st2.(state := st2.state.(refusal := st2.state.refusal + line.refusal)), line.calls);
    }
  }

  lemma {:induction false} ChatTracks(read: Frame -> Line, frames: seq<Frame>)
    ensures
      var s := DecodeAll(ChatDecode(read), frames, FRESH).1;
      Tracks(s, ChatMarks(Lines(read, frames))) && s.toolIndex.Keys == Seen(Lines(read, frames))
    decreases |frames|
  {
    if frames == [] {
      FreshTracks();
    } else {
      var lines, before := Lines(read, frames), DecodeAll(ChatDecode(read), Front(frames), FRESH).1;
      assert Front(lines) == Lines(read, Front(frames)) && Last(lines) == read(Last(frames));
      ChatTracks(read, Front(frames));
      DecodeAllSnoc(ChatDecode(read), frames, FRESH);
      LineMoves(Last(lines), before);
      hide DecodeLine, DecodeAll, ChatMark, Tracks, Lines;
      TracksSnoc(before, DecodeLine(Last(lines), before).1, ChatMarks(Front(lines)), ChatMark(Last(lines), Seen(Front(lines))));
    }
  }

  /** Exactly which streams leave a block of the chat decoder unstopped: undropped ones with a
      terminal line on which some line after the last finish reason, or from the start when there
      is none, carries reasoning, content or a new tool index. */
  lemma {:induction false} ChatBalancedIff(framing: Framing, read: Frame -> Line, sample: Sample, body: seq<BodyItem>)
    ensures
      var marks := ChatMarks(Lines(read, AllFrames(framing, ChunksOf(body), Drop in body)));
      Balanced(EagerTrace(framing, ChatDecode(read), sample, body))
      <==> Drop in body || !Terminates(marks) || !Dangles(marks)
  {
    var frames := AllFrames(framing, ChunksOf(body), Drop in body);
    ChatAgrees(read);
    ChatTracks(read, frames);
    hide ChatMarks, Lines, AllFrames, Dangles, Terminates, EagerTrace, Agrees;
    MarkedBalance(framing, ChatDecode(read), (s: DecodeState) => Dense(s), sample, body, ChatMarks(Lines(read, frames)));
  }

  // ----- two streams that leave one -----

  function TextLine(text: string): Line {
    ChatChunk(None, None, "", text, "", [], None, None)
  }

  function FinishLine(reason: string): Line {
    ChatChunk(None, None, "", "", "", [], Some(reason), None)
  }

  /** A body carrying two lines, as the masquerade's own framing would write them. */
  function TwoLines(d1: Bytes, d2: Bytes): seq<BodyItem> {
    [Chunk(Stream([Item([], None, d1), Item([], None, d2)]))]
  }

  /** The comment on the driver's drain says a terminated stream has already closed its
      blocks. A text chunk followed by a bare terminator marker, with no finish reason
      between, is a stream on which it has not: the text block is never stopped. */
  lemma {:induction false} BareMarkerLeavesBlockOpen(
    read: Frame -> Line, sample: Sample, text: string, d1: Bytes, d2: Bytes)
    requires OneLine(d1) && OneLine(d2) && text != ""
    requires read(Frame(None, d1, None)) == TextLine(text) && read(Frame(None, d2, None)) == DoneMarker
    ensures !Balanced(EagerTrace(Sse, ChatDecode(read), sample, TwoLines(d1, d2)))
  {
    TwoMarks(TextLine(text), DoneMarker);
    TwoRead(read, d1, d2);
    hide ChatMarks, Lines, AllFrames, EagerTrace, TwoLines, Balanced;
    ChatBalancedIff(Sse, read, sample, TwoLines(d1, d2));
  }

  /** Nor has one on which text comes after the finish reason: the block it reopens outlives
      the end already marked. */
  lemma {:induction false} TextAfterFinishReopens(
    read: Frame -> Line, sample: Sample, reason: string, text: string, d1: Bytes, d2: Bytes)
    requires OneLine(d1) && OneLine(d2) && text != ""
    requires read(Frame(None, d1, None)) == FinishLine(reason) && read(Frame(None, d2, None)) == TextLine(text)
    ensures !Balanced(EagerTrace(Sse, ChatDecode(read), sample, TwoLines(d1, d2)))
  {
    TwoMarks(FinishLine(reason), TextLine(text));
    TwoRead(read, d1, d2);
    hide ChatMarks, Lines, AllFrames, EagerTrace, TwoLines, Balanced;
    ChatBalancedIff(Sse, read, sample, TwoLines(d1, d2));
  }

  lemma {:induction false} TwoMarks(a: Line, b: Line)
    ensures
      var m, n := ChatMark(a, {}), ChatMark(b, Seen([a]));
      && (Dangles(ChatMarks([a, b])) <==> !n.finishes && (n.opens || (m.opens && !m.finishes)))
      && (Terminates(ChatMarks([a, b])) <==> m.terminates || n.terminates)
  {
    var none: seq<Line> := [];
    assert Front([a, b]) == [a] && Front([a]) == none && Seen(none) == {};
    DanglesSnoc([], ChatMark(a, {}));
    DanglesSnoc(ChatMarks([a]), ChatMark(b, Seen([a])));
    assert ChatMarks([a]) == ChatMarks(none) + [ChatMark(a, {})] == [] + [ChatMark(a, {})];
    hide Dangles, Terminates, ChatMark;
  }

  /** What the decoder reads off such a body is the two lines. */
  lemma {:induction false} TwoRead(read: Frame -> Line, d1: Bytes, d2: Bytes)
    requires OneLine(d1) && OneLine(d2)
    ensures Drop !in TwoLines(d1, d2)
    ensures Lines(read, AllFrames(Sse, ChunksOf(TwoLines(d1, d2)), false))
         == [read(Frame(None, d1, None)), read(Frame(None, d2, None))]
  {
    TwoFrames([Item([], None, d1), Item([], None, d2)], Frame(None, d1, None), Frame(None, d2, None));
    hide Stream, AllFrames, ChunksOf;
  }

  lemma {:induction false} TwoFrames(items: seq<Item>, f1: Frame, f2: Frame)
    requires |items| == 2 && (forall it <- items :: Renderable(it))
    requires f1 == Frame(items[0].event, items[0].data, None) && f2 == Frame(items[1].event, items[1].data, None)
    ensures AllFrames(Sse, ChunksOf([Chunk(Stream(items))]), false) == [f1, f2]
  {
    WrittenStreamReadsBack(items);
    TwoPayloads(items, f1, f2);
    hide Stream, Ready, Flush, Payloads;
    var text := Stream(items);
    OneChunk(text);
    FlattenSnoc([], text);
    assert [] + [text] == [text] && Flatten([text]) == text;
  }

  lemma {:induction false} TwoPayloads(items: seq<Item>, f1: Frame, f2: Frame)
    requires |items| == 2
    requires f1 == Frame(items[0].event, items[0].data, None) && f2 == Frame(items[1].event, items[1].data, None)
    ensures Payloads(items) == [f1, f2]
  {
    var last := items[1..];
    assert last == [items[1]] && last[1..] == [];
    assert Payloads(last) == [f2];
  }

  lemma {:induction false} OneChunk(bytes: Bytes)
    ensures ChunksOf([Chunk(bytes)]) == [bytes]
  {
    var none: seq<BodyItem> := [];
    assert [Chunk(bytes)][1..] == none;
  }
}
