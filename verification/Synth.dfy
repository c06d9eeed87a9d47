/** The synthesized-stream mechanics of src/protocol/synth.rs and the chat-completions
    decoder built on them (src/protocol/openai/decode): a concrete decoder that keeps the
    first clause of the decode contract. */
module Synth {
  import opened Base
  import opened SseGrammar
  import opened Decoders
  import opened Canonical
  import opened DecodeContract
  import opened StreamDriver
  import opened StreamTheorems

  /** Blocks never close mid-stream, so the open indices are dense. */
  ghost predicate Dense(s: DecodeState) {
    forall i: nat :: i in s.open <==> i < |s.open|
  }

  function NextIndex(s: DecodeState): nat {
    |s.open|
  }

  /** The open block of `kind`, scanning indices from `i`. */
  function FindKind(open: map<nat, ContentKind>, kind: ContentKind, i: nat): (r: Option<nat>)
    ensures r.Some? ==> r.value in open && open[r.value] == kind
    decreases |open| - i
  {
    if i >= |open| then None
    else if i in open && open[i] == kind then Some(i)
    else FindKind(open, kind, i + 1)
  }

  /** The index of the open block of `kind`, opening one when there is none. */
  function OpenLazy(s: DecodeState, kind: ContentKind): (DecodeState, seq<Event>, nat) {
    match FindKind(s.open, kind, 0)
    case Some(i) => (s, [], i)
    case None =>
      var i := NextIndex(s);
      (s.(open := s.open[i := kind]), [ContentStart(i, kind)], i)
  }

  /** The terminal drain over the open map. */
  method Drain(state: DecodeState) returns (state': DecodeState, out: seq<Event>)
    ensures state' == state.(open := map[])
    ensures out == Stops(Sorted(state.open.Keys))
  {
    hide Stops, Ascending, Sorted;
    var open := SortKeys(state.open.Keys);
    SortedHolds(state.open.Keys);
    StopsGrow(open, 0);
    state', out := state, [];
    var i := 0;
    while i < |open|
      invariant i <= |open|
      invariant state' == state.(open := state'.open)
      invariant state'.open.Keys == Elements(open[i..])
      invariant out == Stops(open[..i])
    {
      StopsGrow(open, i);
      HeadIsLeast(open, i);
      state' := state'.(open := state'.open - {open[i]});
      out := out + [ContentStop(open[i])];
      i := i + 1;
    }
    assert open[..i] == open && state'.open.Keys == {};
  }

  // ----- the chat-completions chunk -----

  datatype ToolPiece = ToolPiece(wireIndex: nat, id: string, name: string, arguments: string)

  /** One parsed frame of the chat stream. An absent or empty text field is `""`. */
  datatype Line =
    | DoneMarker
    | Malformed(error: CanonicalError)
    | ErrorLine(error: CanonicalError)
    | ChatChunk(id: Option<string>, model: Option<string>, reasoning: string, content: string, refusal: string,
                calls: seq<ToolPiece>, finish: Option<string>, usage: Option<Counters>)

  datatype Step = Step(state: DecodeState, out: seq<Event>)

  function Lazily(st: Step, kind: ContentKind, text: string, delta: Delta): Step {
    if text == "" then st
    else
      var (s, began, i) := OpenLazy(st.state, kind);
      Step(s, st.out + began + [ContentDelta(i, delta)])
  }

  function ToolCallPiece(st: Step, call: ToolPiece): Step {
    var s := st.state;
    var began :=
      if call.wireIndex in s.toolIndex then st
      else
        var c := NextIndex(s);
        var kind := ToolUseKind(call.id, call.name);
        Step(s.(toolIndex := s.toolIndex[call.wireIndex := c], open := s.open[c := kind]),
             st.out + [ContentStart(c, kind)]);
    if call.arguments == "" then began
    else began.(out := began.out + [ContentDelta(began.state.toolIndex[call.wireIndex], JsonDelta(call.arguments))])
  }

  function ToolCalls(st: Step, calls: seq<ToolPiece>): Step
    decreases |calls|
  {
    if calls == [] then st else ToolCalls(ToolCallPiece(st, calls[0]), calls[1..])
  }

  function ReasonOf(reason: string, refusal: string): FinishReason {
    if refusal != "" then Refusal("refusal", Some(refusal))
    else if reason == "stop" then Stop
    else if reason == "length" then Length
    else if reason == "tool_calls" || reason == "function_call" then ToolUse
    else if reason == "content_filter" then Refusal("content_filter", None)
    else OtherReason(reason)
  }

  ghost function FinishPart(st: Step, finish: Option<string>): Step {
    match finish
    case None => st
    case Some(reason) =>
      Step(st.state.(open := map[], terminated := true),
           st.out + Stops(Sorted(st.state.open.Keys)) + [Finish(ReasonOf(reason, st.state.refusal))])
  }

  ghost function Chat(line: Line, s: DecodeState): Step
    requires line.ChatChunk?
  {
    var st0 := if s.started then Step(s, []) else Step(s.(started := true), [MessageStart(line.id, line.model)]);
    var st1 := Lazily(st0, ThinkingKind(None), line.reasoning, ThinkingDelta(line.reasoning));
    var st2 := Lazily(st1, TextKind, line.content, TextDelta(line.content));
    var st3 := st2.(state := st2.state.(refusal := st2.state.refusal + line.refusal));
    var st4 := ToolCalls(st3, line.calls);
    var st5 := FinishPart(st4, line.finish);
    if line.usage.Some? then st5.(out := st5.out + [UsageEvent(line.usage.value)]) else st5
  }

  ghost function DecodeLine(line: Line, s: DecodeState): (Result<seq<Event>, CanonicalError>, DecodeState) {
    match line
    case DoneMarker => (Ok([]), s.(terminated := true))
    case Malformed(e) => (Err(e), s)
    case ErrorLine(e) => (Ok([Error(e)]), s)
    case ChatChunk(_, _, _, _, _, _, _, _) => var st := Chat(line, s); (Ok(st.out), st.state)
  }

  /** The decoder over any reading of frames as chat lines. */
  ghost function ChatDecode(read: Frame -> Line): Decode {
    (f: Frame, s: DecodeState) => DecodeLine(read(f), s)
  }

  // ----- the first clause of the contract -----

  /** `st` is reachable inside one decode from `s`: still dense, the events so far account
      for the open blocks, and every lazy kind has at most one block. */
  ghost predicate Fits(s: DecodeState, st: Step) {
    Dense(st.state) && Brackets(s.open.Keys, st.out) == Some(st.state.open.Keys)
  }

  lemma {:induction false} FitsDelta(s: DecodeState, st: Step, ev: Event)
    requires Fits(s, st) && !ev.ContentStart? && !ev.ContentStop?
    ensures Fits(s, st.(out := st.out + [ev]))
  {
    BracketsAppend(s.open.Keys, st.out, [ev]);
    assert [ev][1..] == [];
  }

  lemma {:induction false} FitsStart(s: DecodeState, st: Step, kind: ContentKind)
    requires Fits(s, st)
    ensures
      var i := NextIndex(st.state);
      Fits(s, Step(st.state.(open := st.state.open[i := kind]), st.out + [ContentStart(i, kind)]))
  {
    var i := NextIndex(st.state);
    BracketsAppend(s.open.Keys, st.out, [ContentStart(i, kind)]);
    StartOpens(st.state.open, i, kind);
    DenseGrows(st.state, kind);
  }

  lemma {:induction false} StartOpens(open: map<nat, ContentKind>, i: nat, kind: ContentKind)
    requires i !in open
    ensures Brackets(open.Keys, [ContentStart(i, kind)]) == Some(open[i := kind].Keys)
  {
    assert [ContentStart(i, kind)][1..] == [];
    assert open.Keys + {i} == open[i := kind].Keys;
  }

  lemma {:induction false} DenseGrows(s: DecodeState, kind: ContentKind)
    requires Dense(s)
    ensures Dense(s.(open := s.open[|s.open| := kind]))
  {
    var n := |s.open|;
    var open := s.open[n := kind];
    assert open.Keys == s.open.Keys + {n};
    assert |open| == n + 1;
    forall i: nat
      ensures i in open <==> i < n + 1
    {
      assert i in open.Keys <==> i in s.open.Keys || i == n;
    }
  }

  lemma {:induction false} FitsLazily(s: DecodeState, st: Step, kind: ContentKind, text: string, delta: Delta)
    requires Fits(s, st)
    ensures Fits(s, Lazily(st, kind, text, delta))
  {
    if text != "" {
      var (s1, began, i) := OpenLazy(st.state, kind);
      FitsStart(s, st, kind);
      assert st.out + [] == st.out;
      FitsDelta(s, Step(s1, st.out + began), ContentDelta(i, delta));
    }
  }

  lemma {:induction false} FitsCalls(s: DecodeState, st: Step, calls: seq<ToolPiece>)
    requires Fits(s, st)
    ensures Fits(s, ToolCalls(st, calls))
    decreases |calls|
  {
    if calls != [] {
      var call := calls[0];
      var next := ToolCallPiece(st, call);
      FitsStart(s, st, ToolUseKind(call.id, call.name));
      var began := next.(out := if call.arguments == "" then next.out else next.out[..|next.out| - 1]);
      assert Fits(s, began);
      if call.arguments != "" {
        FitsDelta(s, began, next.out[|next.out| - 1]);
        assert next.out == began.out + [next.out[|next.out| - 1]];
      }
      FitsCalls(s, next, calls[1..]);
    }
  }

  lemma {:induction false} FitsFinish(s: DecodeState, st: Step, finish: Option<string>)
    requires Fits(s, st)
    ensures Fits(s, FinishPart(st, finish))
  {
    if finish.Some? {
      var stops := Stops(Sorted(st.state.open.Keys));
      BracketsAppend(s.open.Keys, st.out, stops);
      ClosingClears(st.state);
      var closed := Step(st.state.(open := map[], terminated := true), st.out + stops);
      assert Fits(s, closed);
      FitsDelta(s, closed, Finish(ReasonOf(finish.value, st.state.refusal)));
    }
  }

  lemma {:induction false} ChatFits(line: Line, s: DecodeState)
    requires line.ChatChunk? && Dense(s)
    ensures Fits(s, Chat(line, s))
  {
    var none := Step(s, []);
    assert Fits(s, none);
    FitsDelta(s, none.(state := s.(started := true)), MessageStart(line.id, line.model));
    assert [] + [MessageStart(line.id, line.model)] == [MessageStart(line.id, line.model)];
    var st0 := if s.started then none else Step(s.(started := true), [MessageStart(line.id, line.model)]);
    FitsLazily(s, st0, ThinkingKind(None), line.reasoning, ThinkingDelta(line.reasoning));
    var st1 := Lazily(st0, ThinkingKind(None), line.reasoning, ThinkingDelta(line.reasoning));
    FitsLazily(s, st1, TextKind, line.content, TextDelta(line.content));
    var st2 := Lazily(st1, TextKind, line.content, TextDelta(line.content));
    var st3 := st2.(state := st2.state.(refusal := st2.state.refusal + line.refusal));
    FitsCalls(s, st3, line.calls);
    var st4 := ToolCalls(st3, line.calls);
    FitsFinish(s, st4, line.finish);
    if line.usage.Some? {
      FitsDelta(s, FinishPart(st4, line.finish), UsageEvent(line.usage.value));
    }
  }

  /** The chat decoder's starts and stops are exactly its changes to `open`. */
  lemma {:induction false} ChatAgrees(read: Frame -> Line)
    ensures Agrees(ChatDecode(read), (s: DecodeState) => Dense(s))
  {
    var inv := (s: DecodeState) => Dense(s);
    forall f: Frame, s: DecodeState | inv(s)
      ensures
        var (r, s1) := ChatDecode(read)(f, s);
        inv(s1) && Brackets(s.open.Keys, Emitted(r)) == Some(s1.open.Keys)
    {
      var line := read(f);
      if line.ChatChunk? {
        ChatFits(line, s);
      } else if line.Malformed? || line.ErrorLine? {
        assert [Error(line.error)][1..] == [];
      }
    }
  }

  // ----- at most one lazy block of its kind -----

  /** No two open blocks share a lazily opened kind, so the map's iteration order is moot. */
  ghost predicate OneEach(open: map<nat, ContentKind>) {
    forall i, j :: i in open && j in open && open[i] == open[j] && (open[i] == TextKind || open[i] == ThinkingKind(None))
      ==> i == j
  }

  lemma {:induction false} FindKindSees(s: DecodeState, kind: ContentKind, from: nat, j: nat)
    requires Dense(s) && j in s.open && from <= j && s.open[j] == kind
    ensures FindKind(s.open, kind, from).Some?
    decreases |s.open| - from
  {
    if s.open[from] != kind {
      FindKindSees(s, kind, from + 1, j);
    }
  }

  lemma {:induction false} LazilyKeepsOneEach(s: DecodeState, st: Step, kind: ContentKind, text: string, delta: Delta)
    requires Fits(s, st) && OneEach(st.state.open)
    ensures OneEach(Lazily(st, kind, text, delta).state.open)
  {
    if text != "" && FindKind(st.state.open, kind, 0).None? {
      forall j | j in st.state.open
        ensures st.state.open[j] != kind
      {
        if st.state.open[j] == kind {
          FindKindSees(st.state, kind, 0, j);
        }
      }
    }
  }

  lemma {:induction false} CallsKeepOneEach(st: Step, calls: seq<ToolPiece>)
    requires OneEach(st.state.open)
    ensures OneEach(ToolCalls(st, calls).state.open)
    decreases |calls|
  {
    if calls != [] {
      CallsKeepOneEach(ToolCallPiece(st, calls[0]), calls[1..]);
    }
  }

  lemma {:induction false} StartFits(line: Line, s: DecodeState)
    requires line.ChatChunk? && Dense(s)
    ensures Fits(s, if s.started then Step(s, []) else Step(s.(started := true), [MessageStart(line.id, line.model)]))
  {
    var none := Step(s, []);
    assert Fits(s, none);
    FitsDelta(s, none.(state := s.(started := true)), MessageStart(line.id, line.model));
    assert [] + [MessageStart(line.id, line.model)] == [MessageStart(line.id, line.model)];
  }

  /** At most one text block and one anonymous thinking block are ever open. */
  lemma {:induction false} ChatKeepsOneEach(line: Line, s: DecodeState)
    requires line.ChatChunk? && Dense(s) && OneEach(s.open)
    ensures OneEach(Chat(line, s).state.open)
  {
    hide ToolCalls, Sorted, Stops, ReasonOf;
    var st0 := if s.started then Step(s, []) else Step(s.(started := true), [MessageStart(line.id, line.model)]);
    StartFits(line, s);
    LazilyKeepsOneEach(s, st0, ThinkingKind(None), line.reasoning, ThinkingDelta(line.reasoning));
    FitsLazily(s, st0, ThinkingKind(None), line.reasoning, ThinkingDelta(line.reasoning));
    var st1 := Lazily(st0, ThinkingKind(None), line.reasoning, ThinkingDelta(line.reasoning));
    LazilyKeepsOneEach(s, st1, TextKind, line.content, TextDelta(line.content));
    var st2 := Lazily(st1, TextKind, line.content, TextDelta(line.content));
    CallsKeepOneEach(st2.(state := st2.state.(refusal := st2.state.refusal + line.refusal)), line.calls);
  }
}
