/** What the line decoder of src/protocol/ollama_chat/decode tells of a stream, read off its lines
    alone: every thinking and content fragment, every call with its synthesized id and its
    arguments, and for each `done` line the counts and then the reason. */
module OllamaContents {
  import opened Base
  import opened SseGrammar
  import opened Canonical
  import opened DecodeContract
  import opened TurnEvents
  import opened TurnSayings
  import opened OllamaDecode
  import Synth
  import ChatContents

  // ----- what the lines say -----


  predicate Begun(lines: seq<Line>) {
    exists l <- lines :: l.ChatLine?
  }

  /** The lines since the last `done`. */
  function Since(lines: seq<Line>): seq<Line> {
    if lines == [] || (Last(lines).ChatLine? && Last(lines).done) then [] else Since(Front(lines)) + [Last(lines)]
  }

  predicate Thinks(lines: seq<Line>) {
    exists l <- lines :: l.ChatLine? && l.thinking != ""
  }

  predicate Writes(lines: seq<Line>) {
    exists l <- lines :: l.ChatLine? && l.content != ""
  }

  function Calls(lines: seq<Line>): seq<Call> {
    if lines == [] then [] else Calls(Front(lines)) + if Last(lines).ChatLine? then Last(lines).calls else []
  }

  /** The blocks open now: the thinking one and the text one, and some calls' of the `total`. */
  datatype Track = Track(thinks: bool, writes: bool, calls: nat, total: nat)

  function TrackOf(lines: seq<Line>): Track {
    var since := Since(lines);
    Track(Thinks(since), Writes(since), |Calls(since)|, |Calls(lines)|)
  }

  /** How many those are. */
  function Blocks(t: Track): nat {
    (if t.thinks then 1 else 0) + (if t.writes then 1 else 0) + t.calls
  }

  /** The track with a line's thinking and content. */
  function Fed(t: Track, line: Line): Track
    requires line.ChatLine?
  {
    t.(thinks := t.thinks || line.thinking != "", writes := t.writes || line.content != "")
  }

  /** Each call comes whole: its id is the number of blocks open before it. */
  function CallsSay(blocks: nat, place: nat, calls: seq<Call>): seq<Saying>
    decreases |calls|
  {
    if calls == [] then []
    else
      [Called("call_" + Decimal(blocks), calls[0].name), Argued(place, calls[0].arguments)]
      + CallsSay(blocks + 1, place + 1, calls[1..])
  }

  function DoneSays(called: bool, line: Line): seq<Saying>
    requires line.ChatLine?
  {
    [Counted(Counters(line.promptCount, line.evalCount, None, None, line.promptCount, None, None)),
     Ended(if called then ToolUse
           else match line.reason
                case None => Stop
                case Some("stop") => Stop
                case Some("length") => Length
                case Some(other) => OtherReason(other))]
  }

  function LineSays(before: seq<Line>, line: Line): seq<Saying> {
    match line
    case Malformed(e) => [Failed(e)]
    case ErrorLine(e) => [Failed(e)]
    case ChatLine(model, thinking, content, calls, done, _, _, _) =>
      var t := TrackOf(before);
      (if Begun(before) then [] else [Opened(None, model)])
      + (if thinking == "" then [] else [Thought(thinking)])
      + (if content == "" then [] else [Wrote(content)])
      + CallsSay(Blocks(Fed(t, line)), t.total, calls)
      + (if done then DoneSays(t.calls + |calls| > 0, line) else [])
  }

  function Says(lines: seq<Line>): seq<Saying> {
    if lines == [] then [] else Says(Front(lines)) + LineSays(Front(lines), Last(lines))
  }

  // ----- what the decoder keeps track of -----

  ghost predicate Has(open: map<nat, ContentKind>, kind: ContentKind) {
    exists i <- open :: open[i] == kind
  }

  ghost predicate HasTool(open: map<nat, ContentKind>) {
    exists i <- open :: open[i].ToolUseKind?
  }

  ghost predicate Tied(t: Track, st: Synth.Step) {
    && Synth.Dense(st.state) && Matches(st.out, st.state.open)
    && (t.thinks <==> Has(st.state.open, ThinkingKind(None))) && (t.writes <==> Has(st.state.open, TextKind))
    && (t.calls > 0 <==> HasTool(st.state.open))
    && |st.state.open| == Blocks(t)
    && |ToolStarts(st.out)| == t.total
  }

  ghost predicate Tells(t: Track, st: Synth.Step, st': Synth.Step, said: seq<Saying>) {
    Tied(t, st') && Hears(st'.out) == Hears(st.out) + said
  }

  lemma {:induction false} TellsOnward(
    t: Track, a: Synth.Step, t': Track, b: Synth.Step, c: Synth.Step, first: seq<Saying>, second: seq<Saying>)
    requires Tells(t, a, b, first) && Tells(t', b, c, second)
    ensures Tells(t', a, c, first + second)
  {
    hide Tied, Hears;
    assert Hears(a.out) + first + second == Hears(a.out) + (first + second);
  }

  lemma {:induction false} TiedInert(t: Track, st: Synth.Step, ev: Event)
    requires Tied(t, st) && Inert(ev)
    ensures Tells(t, st, st.(out := st.out + [ev]), Heard(st.out, ev))
  {
    MatchesInert(st.out, st.state.open, ev);
    InertOpens(st.out, ev, 0);
    HearsSnoc(st.out, ev);
    hide Matches, Hears, Heard, Synth.Dense, ToolStarts, OpenStart, Inert;
  }

  /** Opening a block of this kind. */
  ghost function Opening(st: Synth.Step, kind: ContentKind): Synth.Step {
    var i := Synth.NextIndex(st.state);
    Synth.Step(st.state.(open := st.state.open[i := kind]), st.out + [ContentStart(i, kind)])
  }

  lemma {:induction false} OneMore(open: map<nat, ContentKind>, i: nat, kind: ContentKind)
    requires i !in open
    ensures |open[i := kind]| == |open| + 1
  {
    var next := open[i := kind];
    assert next.Keys == open.Keys + {i} && |next| == |next.Keys|;
  }

  lemma {:induction false} HasAfter(open: map<nat, ContentKind>, i: nat, kind: ContentKind, other: ContentKind)
    requires i !in open
    ensures Has(open[i := kind], other) <==> other == kind || Has(open, other)
  {
    var next := open[i := kind];
    assert next[i] == kind;
    if j :| j in open && open[j] == other {
      assert next[j] == other;
    }
  }

  lemma {:induction false} ToolsAfter(open: map<nat, ContentKind>, i: nat, kind: ContentKind)
    requires i !in open
    ensures HasTool(open[i := kind]) <==> kind.ToolUseKind? || HasTool(open)
  {
    var next := open[i := kind];
    assert next[i] == kind;
    if j :| j in open && open[j].ToolUseKind? {
      assert next[j] == open[j];
    }
  }

  /** The track with one more block of this kind. */
  function Grown(t: Track, kind: ContentKind): Track {
    if kind.TextKind? then t.(writes := true)
    else if kind.ThinkingKind? then t.(thinks := true)
    else t.(calls := t.calls + 1, total := t.total + 1)
  }

  predicate MayOpen(t: Track, kind: ContentKind) {
    (kind == TextKind && !t.writes) || (kind == ThinkingKind(None) && !t.thinks) || kind.ToolUseKind?
  }

  lemma {:induction false} OpeningTied(t: Track, st: Synth.Step, kind: ContentKind)
    requires Tied(t, st) && MayOpen(t, kind)
    ensures Tied(Grown(t, kind), Opening(st, kind))
  {
    var i := Synth.NextIndex(st.state);
    assert i !in st.state.open;
    MatchesStart(st.out, st.state.open, i, kind);
    Synth.DenseGrows(st.state, kind);
    OneMore(st.state.open, i, kind);
    HasAfter(st.state.open, i, kind, TextKind);
    HasAfter(st.state.open, i, kind, ThinkingKind(None));
    ToolsAfter(st.state.open, i, kind);
    ToolStartsSnoc(st.out, ContentStart(i, kind));
    hide Matches, Synth.Dense, ToolStarts, OpenStart, Has, HasTool;
  }

  lemma {:induction false} OpeningTells(t: Track, st: Synth.Step, kind: ContentKind)
    requires Tied(t, st) && MayOpen(t, kind)
    ensures Tells(Grown(t, kind), st, Opening(st, kind), if kind.ToolUseKind? then [Called(kind.id, kind.name)] else [])
  {
    OpeningTied(t, st, kind);
    HearsSnoc(st.out, ContentStart(Synth.NextIndex(st.state), kind));
    hide Tied, Hears, Synth.NextIndex;
  }

  // ----- what each part of a line tells -----

  lemma {:induction false} FindKindIs(s: DecodeState, kind: ContentKind)
    requires Synth.Dense(s)
    ensures Synth.FindKind(s.open, kind, 0).Some? <==> Has(s.open, kind)
  {
    if j :| j in s.open && s.open[j] == kind {
      Synth.FindKindSees(s, kind, 0, j);
    }
  }

  /** The one lazy block of its kind, opened if it is not open yet. */
  lemma {:induction false} LazyTells(t: Track, st: Synth.Step, kind: ContentKind)
    requires Tied(t, st) && (kind == TextKind || kind == ThinkingKind(None))
    ensures
      var (s, began, i) := Synth.OpenLazy(st.state, kind);
      var t' := if kind == TextKind then t.(writes := true) else t.(thinks := true);
      Tells(t', st, Synth.Step(s, st.out + began), []) && i in s.open && s.open[i] == kind
  {
    FindKindIs(st.state, kind);
    assert st.out + [] == st.out && Hears(st.out) + [] == Hears(st.out);
    if Synth.FindKind(st.state.open, kind, 0).None? {
      OpeningTells(t, st, kind);
    }
    hide Has, Hears, Matches, Synth.Dense, ToolStarts;
  }

  lemma {:induction false} OpenHears(st: Synth.Step, i: nat, text: string)
    requires Matches(st.out, st.state.open) && i in st.state.open
    ensures st.state.open[i] == TextKind ==> Heard(st.out, ContentDelta(i, TextDelta(text))) == [Wrote(text)]
    ensures st.state.open[i] == ThinkingKind(None) ==> Heard(st.out, ContentDelta(i, ThinkingDelta(text))) == [Thought(text)]
  {
    hide OpenStart, ToolStarts;
  }

  /** The track after a fragment of thinking or content. */
  function Took(t: Track, thinks: bool, text: string): Track {
    if thinks then t.(thinks := t.thinks || text != "") else t.(writes := t.writes || text != "")
  }

  function TextSays(thinks: bool, text: string): seq<Saying> {
    if text == "" then [] else if thinks then [Thought(text)] else [Wrote(text)]
  }

  lemma {:induction false} LazilyTells(t: Track, st: Synth.Step, thinks: bool, text: string)
    requires Tied(t, st)
    ensures
      var kind := if thinks then ThinkingKind(None) else TextKind;
      var delta := if thinks then ThinkingDelta(text) else TextDelta(text);
      Tells(Took(t, thinks, text), st, Synth.Lazily(st, kind, text, delta), TextSays(thinks, text))
  {
    var kind := if thinks then ThinkingKind(None) else TextKind;
    var delta := if thinks then ThinkingDelta(text) else TextDelta(text);
    hide Hears, Heard, Matches, Synth.Dense, ToolStarts, Has, Synth.OpenLazy, Blocks;
    if text == "" {
      assert Hears(st.out) + [] == Hears(st.out);
    } else {
      var (s, began, i) := Synth.OpenLazy(st.state, kind);
      var mid := Synth.Step(s, st.out + began);
      LazyTells(t, st, kind);
      OpenHears(mid, i, text);
      assert Hears(st.out) + [] == Hears(st.out);
      var t' := if thinks then t.(thinks := true) else t.(writes := true);
      hide Tied;
      TiedInert(t', mid, ContentDelta(i, delta));
    }
  }

  lemma {:induction false} PlaceOfLast(xs: seq<nat>, x: nat)
    requires x !in xs
    ensures Place(xs + [x], x) == |xs|
  {
    if xs != [] {
      assert (xs + [x])[1..] == xs[1..] + [x];
      PlaceOfLast(xs[1..], x);
    }
  }

  /** Arguments right after their call's start are that call's. */
  lemma {:induction false} NewestHears(events: seq<Event>, i: nat, id: string, name: string, text: string)
    ensures
      Heard(events + [ContentStart(i, ToolUseKind(id, name))], ContentDelta(i, JsonDelta(text)))
      == [Argued(|ToolStarts(events)|, text)]
  {
    var ev := ContentStart(i, ToolUseKind(id, name));
    OpenStartSnoc(events, ev, i);
    ToolStartsSnoc(events, ev);
    assert |events| !in ToolStarts(events);
    PlaceOfLast(ToolStarts(events), |events|);
    assert (events + [ev])[|events|] == ev;
    hide OpenStart, ToolStarts, Place;
  }

  lemma {:induction false} CallTells(t: Track, st: Synth.Step, call: Call)
    requires Tied(t, st)
    ensures
      Tells(t.(calls := t.calls + 1, total := t.total + 1), st, ToolCallPiece(st, call),
            [Called("call_" + Decimal(Blocks(t)), call.name), Argued(t.total, call.arguments)])
  {
    var i := Synth.NextIndex(st.state);
    var id := "call_" + Decimal(i);
    assert i == Blocks(t) && |ToolStarts(st.out)| == t.total;
    var begun := Opening(st, ToolUseKind(id, call.name));
    OpeningTells(t, st, ToolUseKind(id, call.name));
    NewestHears(st.out, i, id, call.name, call.arguments);
    hide Hears, Heard, Tied, Decimal, ToolStarts, Synth.NextIndex, Blocks;
    var t' := t.(calls := t.calls + 1, total := t.total + 1);
    TiedInert(t', begun, ContentDelta(i, JsonDelta(call.arguments)));
    assert Hears(st.out) + [Called(id, call.name)] + [Argued(t.total, call.arguments)]
        == Hears(st.out) + [Called(id, call.name), Argued(t.total, call.arguments)];
  }

  lemma {:induction false} CallsTell(t: Track, st: Synth.Step, calls: seq<Call>)
    requires Tied(t, st)
    ensures
      Tells(t.(calls := t.calls + |calls|, total := t.total + |calls|), st, ToolCalls(st, calls),
            CallsSay(Blocks(t), t.total, calls))
    decreases |calls|
  {
    hide Hears, Decimal, ToolCallPiece, Tied;
    if calls == [] {
      assert t.(calls := t.calls + 0, total := t.total + 0) == t;
      assert Hears(st.out) + [] == Hears(st.out);
    } else {
      var next, t1 := ToolCallPiece(st, calls[0]), t.(calls := t.calls + 1, total := t.total + 1);
      var blocks, t' := Blocks(t), t.(calls := t.calls + |calls|, total := t.total + |calls|);
      var first := [Called("call_" + Decimal(blocks), calls[0].name), Argued(t.total, calls[0].arguments)];
      var rest := CallsSay(blocks + 1, t.total + 1, calls[1..]);
      CallTells(t, st, calls[0]);
      assert CallsSay(blocks, t.total, calls) == first + rest && Blocks(t1) == blocks + 1;
      assert t' == t1.(calls := t1.calls + |calls[1..]|, total := t1.total + |calls[1..]|);
      assert ToolCalls(st, calls) == ToolCalls(next, calls[1..]);
      assert Tied(t1, next);
      hide Tied, CallsSay, Blocks, ToolCalls, Tells;
      CallsTell(t1, next, calls[1..]);
      TellsOnward(t1, st, t', next, ToolCalls(st, calls), first, rest);
    }
  }

  // ----- a whole line -----

  /** The decoder's line, writing on after the events so far. */
  ghost function Onward(st: Synth.Step, line: Line): Synth.Step {
    var (r, s) := DecodeLine(line, st.state);
    Synth.Step(s, st.out + Emitted(r))
  }

  ghost function Started(st: Synth.Step, line: Line): Synth.Step
    requires line.ChatLine?
  {
    if st.state.started then st
    else Synth.Step(st.state.(started := true), st.out + [MessageStart(None, line.model)])
  }

  ghost function Texts(st: Synth.Step, line: Line): Synth.Step
    requires line.ChatLine?
  {
    var st1 := Synth.Lazily(Started(st, line), ThinkingKind(None), line.thinking, ThinkingDelta(line.thinking));
    Synth.Lazily(st1, TextKind, line.content, TextDelta(line.content))
  }

  ghost function Pieces(st: Synth.Step, line: Line): Synth.Step
    requires line.ChatLine?
  {
    ToolCalls(Texts(st, line), line.calls)
  }

  lemma {:induction false} PieceShifts(events: seq<Event>, st: Synth.Step, call: Call)
    ensures ToolCallPiece(ChatContents.Prefixed(events, st), call) == ChatContents.Prefixed(events, ToolCallPiece(st, call))
  {
    hide Decimal;
  }

  lemma {:induction false} CallsShift(events: seq<Event>, st: Synth.Step, calls: seq<Call>)
    ensures ToolCalls(ChatContents.Prefixed(events, st), calls) == ChatContents.Prefixed(events, ToolCalls(st, calls))
    decreases |calls|
  {
    hide ToolCallPiece, ChatContents.Prefixed;
    if calls != [] {
      PieceShifts(events, st, calls[0]);
      CallsShift(events, ToolCallPiece(st, calls[0]), calls[1..]);
    }
  }

  lemma {:induction false} LineIsOnward(st: Synth.Step, line: Line)
    requires line.ChatLine?
    ensures Onward(st, line) == FinishPart(Pieces(st, line), line)
  {
    hide Synth.Lazily, ToolCalls, ReasonOf, UsageOf;
    var bare := Began(line, st.state);
    assert ChatContents.Prefixed(st.out, bare) == Started(st, line);
    ChatContents.LazilyShifts(st.out, bare, ThinkingKind(None), line.thinking, ThinkingDelta(line.thinking));
    var st1 := Synth.Lazily(bare, ThinkingKind(None), line.thinking, ThinkingDelta(line.thinking));
    ChatContents.LazilyShifts(st.out, st1, TextKind, line.content, TextDelta(line.content));
    var st2 := Synth.Lazily(st1, TextKind, line.content, TextDelta(line.content));
    CallsShift(st.out, st2, line.calls);
    FinishShifts(st.out, ToolCalls(st2, line.calls), line);
  }

  lemma {:induction false} FinishShifts(events: seq<Event>, st: Synth.Step, line: Line)
    requires line.ChatLine?
    ensures FinishPart(ChatContents.Prefixed(events, st), line) == ChatContents.Prefixed(events, FinishPart(st, line))
  {
    hide ReasonOf, UsageOf, Canonical.Stops, Sorted;
    var stops, count, ended := Canonical.Stops(Sorted(st.state.open.Keys)), [UsageEvent(UsageOf(line))], [Finish(ReasonOf(st.state.open, line.reason))];
    assert events + (st.out + stops + count + ended) == events + st.out + stops + count + ended;
  }

  /** What a `done` line says is its own counts and reason. */
  lemma {:induction false} DoneIs(open: map<nat, ContentKind>, called: bool, line: Line)
    requires line.ChatLine? && (called <==> HasTool(open))
    ensures DoneSays(called, line) == [Counted(UsageOf(line)), Ended(ReasonOf(open, line.reason))]
  {
  }

  /** A `done` line stops every block, then counts, then ends. */
  lemma {:induction false} DoneTells(t: Track, st: Synth.Step, line: Line)
    requires Tied(t, st) && line.ChatLine? && line.done
    ensures Tells(Track(false, false, 0, t.total), st, FinishPart(st, line), DoneSays(t.calls > 0, line))
  {
    var closed := Synth.Step(st.state.(open := map[], terminated := true), st.out + Canonical.Stops(Sorted(st.state.open.Keys)));
    var counts, reason := UsageEvent(UsageOf(line)), Finish(ReasonOf(st.state.open, line.reason));
    StopsTell(t, st, closed);
    DoneIs(st.state.open, t.calls > 0, line);
    hide Tied, Hears, Sorted, Canonical.Stops, ReasonOf, UsageOf, DoneSays, HasTool;
    DoneEnds(Track(false, false, 0, t.total), closed, UsageOf(line), ReasonOf(st.state.open, line.reason));
  }

  lemma {:induction false} DoneEnds(t: Track, st: Synth.Step, usage: Counters, reason: FinishReason)
    requires Tied(t, st)
    ensures
      Tells(t, st, st.(out := st.out + [UsageEvent(usage)] + [Finish(reason)]), [Counted(usage), Ended(reason)])
  {
    hide Tied, Hears;
    var counted := st.(out := st.out + [UsageEvent(usage)]);
    TiedInert(t, st, UsageEvent(usage));
    TiedInert(t, counted, Finish(reason));
    TellsOnward(t, st, t, counted, counted.(out := counted.out + [Finish(reason)]), [Counted(usage)], [Ended(reason)]);
  }

  lemma {:induction false} StopsTell(t: Track, st: Synth.Step, closed: Synth.Step)
    requires Tied(t, st)
    requires closed == Synth.Step(st.state.(open := map[], terminated := true), st.out + Canonical.Stops(Sorted(st.state.open.Keys)))
    ensures Tied(Track(false, false, 0, t.total), closed) && Hears(closed.out) == Hears(st.out)
  {
    var keys := Sorted(st.state.open.Keys);
    SortedHolds(st.state.open.Keys);
    hide Ascending, Sorted, Canonical.Stops, OpenStart, ToolStarts, Hears;
    forall i: nat
      ensures OpenStart(closed.out, i) == None
    {
      StopsHush(st.out, keys, i);
      assert i in keys <==> i in Elements(keys);
    }
    StopsHush(st.out, keys, 0);
  }

  ghost predicate Told(lines: seq<Line>, st: Synth.Step) {
    Tied(TrackOf(lines), st) && st.state.started == Begun(lines)
  }

  lemma {:induction false} AnySnoc(lines: seq<Line>, line: Line)
    ensures Front(lines + [line]) == lines && Last(lines + [line]) == line
    ensures Begun(lines + [line]) <==> Begun(lines) || line.ChatLine?
    ensures Thinks(lines + [line]) <==> Thinks(lines) || (line.ChatLine? && line.thinking != "")
    ensures Writes(lines + [line]) <==> Writes(lines) || (line.ChatLine? && line.content != "")
    ensures Calls(lines + [line]) == Calls(lines) + if line.ChatLine? then line.calls else []
  {
    assert forall l :: l in lines + [line] <==> l in lines || l == line;
  }

  /** The track after a line's pieces. */
  function Later(t: Track, line: Line): Track
    requires line.ChatLine?
  {
    Fed(t, line).(calls := t.calls + |line.calls|, total := t.total + |line.calls|)
  }

  /** Where the track stands after one more line. */
  lemma {:induction false} TrackSnoc(before: seq<Line>, line: Line)
    ensures
      var t, t' := TrackOf(before), TrackOf(before + [line]);
      t' == if !line.ChatLine? then t
            else if line.done then Track(false, false, 0, t.total + |line.calls|)
            else Later(t, line)
  {
    AnySnoc(before, line);
    AnySnoc(Since(before), line);
    var none: seq<Line> := [];
    assert !Thinks(none) && !Writes(none) && Calls(none) == [];
    hide Thinks, Writes, Begun;
  }

  lemma {:induction false} CallsKeep(st: Synth.Step, calls: seq<Call>)
    ensures ToolCalls(st, calls).state.started == st.state.started
    decreases |calls|
  {
    if calls != [] {
      CallsKeep(ToolCallPiece(st, calls[0]), calls[1..]);
    }
  }

  lemma {:induction false} StartTells(t: Track, begun: bool, st: Synth.Step, line: Line)
    requires Tied(t, st) && st.state.started == begun && line.ChatLine?
    ensures Tells(t, st, Started(st, line), if begun then [] else [Opened(None, line.model)])
  {
    TiedInert(t, st, MessageStart(None, line.model));
    assert Hears(st.out) + [] == Hears(st.out);
    hide OpenStart, ToolStarts, Hears, Synth.Dense, Matches;
  }

  /** Some thinking or content after what was said before. */
  lemma {:induction false} ThenTexts(t: Track, from: Synth.Step, st: Synth.Step, said: seq<Saying>, thinks: bool, text: string)
    requires Tells(t, from, st, said)
    ensures
      var kind := if thinks then ThinkingKind(None) else TextKind;
      var delta := if thinks then ThinkingDelta(text) else TextDelta(text);
      var st' := Synth.Lazily(st, kind, text, delta);
      && Tells(Took(t, thinks, text), from, st', said + TextSays(thinks, text))
      && st'.state.started == st.state.started
  {
    var kind := if thinks then ThinkingKind(None) else TextKind;
    var delta := if thinks then ThinkingDelta(text) else TextDelta(text);
    LazilyTells(t, st, thinks, text);
    LazilyKeeps(st, kind, text, delta);
    hide Tied, Hears, Synth.Lazily;
    TellsOnward(t, from, Took(t, thinks, text), st, Synth.Lazily(st, kind, text, delta), said, TextSays(thinks, text));
  }

  lemma {:induction false} ThenCalls(t: Track, from: Synth.Step, st: Synth.Step, said: seq<Saying>, calls: seq<Call>)
    requires Tells(t, from, st, said)
    ensures
      && Tells(t.(calls := t.calls + |calls|, total := t.total + |calls|), from, ToolCalls(st, calls),
               said + CallsSay(Blocks(t), t.total, calls))
      && ToolCalls(st, calls).state.started == st.state.started
  {
    CallsTell(t, st, calls);
    CallsKeep(st, calls);
    hide Tied, Hears, ToolCalls, CallsSay, Blocks;
    TellsOnward(t, from, t.(calls := t.calls + |calls|, total := t.total + |calls|), st, ToolCalls(st, calls), said,
                CallsSay(Blocks(t), t.total, calls));
  }

  function TextsSay(before: seq<Line>, line: Line): seq<Saying>
    requires line.ChatLine?
  {
    (if Begun(before) then [] else [Opened(None, line.model)]) + TextSays(true, line.thinking) + TextSays(false, line.content)
  }

  lemma {:induction false} TextsTell(before: seq<Line>, t: Track, st: Synth.Step, line: Line)
    requires Tied(t, st) && st.state.started == Begun(before) && line.ChatLine?
    ensures Tells(Fed(t, line), st, Texts(st, line), TextsSay(before, line))
    ensures Texts(st, line).state.started
  {
    var st0 := Started(st, line);
    StartTells(t, Begun(before), st, line);
    assert st0.state.started;
    assert Fed(t, line) == Took(Took(t, true, line.thinking), false, line.content);
    hide Begun, Tells, Synth.Lazily, Started, Tied, TextSays, Fed, Took;
    var said: seq<Saying> := if Begun(before) then [] else [Opened(None, line.model)];
    ThenTexts(t, st, st0, said, true, line.thinking);
    var st1 := Synth.Lazily(st0, ThinkingKind(None), line.thinking, ThinkingDelta(line.thinking));
    ThenTexts(Took(t, true, line.thinking), st, st1, said + TextSays(true, line.thinking), false, line.content);
  }

  /** What a line says before its `done`. */
  function PiecesSay(before: seq<Line>, t: Track, line: Line): seq<Saying>
    requires line.ChatLine?
  {
    TextsSay(before, line) + CallsSay(Blocks(Fed(t, line)), t.total, line.calls)
  }

  lemma {:induction false} PiecesTell(before: seq<Line>, t: Track, st: Synth.Step, line: Line)
    requires Tied(t, st) && st.state.started == Begun(before) && line.ChatLine?
    ensures Tells(Later(t, line), st, Pieces(st, line), PiecesSay(before, t, line))
    ensures Pieces(st, line).state.started
  {
    TextsTell(before, t, st, line);
    hide Tells, Texts, ToolCalls, CallsSay, Blocks, Tied, TextsSay, Begun;
    ThenCalls(Fed(t, line), st, Texts(st, line), TextsSay(before, line), line.calls);
  }

  lemma {:induction false} LazilyKeeps(st: Synth.Step, kind: ContentKind, text: string, delta: Delta)
    ensures Synth.Lazily(st, kind, text, delta).state.started == st.state.started
  {
    hide Synth.FindKind;
  }

  /** The track after a whole line. */
  function Onto(t: Track, line: Line): Track
    requires line.ChatLine?
  {
    if line.done then Track(false, false, 0, t.total + |line.calls|) else Later(t, line)
  }

  lemma {:induction false} ChatTells(before: seq<Line>, st: Synth.Step, line: Line)
    requires Told(before, st) && line.ChatLine?
    ensures Tells(Onto(TrackOf(before), line), st, Onward(st, line), LineSays(before, line))
    ensures Onward(st, line).state.started
  {
    var t := TrackOf(before);
    var t', pieces, said := Later(t, line), Pieces(st, line), PiecesSay(before, t, line);
    PiecesTell(before, t, st, line);
    LineIsOnward(st, line);
    LineIs(before, line);
    assert Tied(t', pieces) && t'.calls == t.calls + |line.calls| && t'.total == t.total + |line.calls|;
    hide TrackOf, Begun, Hears, PiecesSay, LineSays, Tied, Onward, Pieces, DoneSays, Later, Told;
    if line.done {
      DoneTells(t', pieces, line);
      TellsOnward(t', st, Onto(t, line), pieces, Onward(st, line), said, DoneSays(t'.calls > 0, line));
    }
  }

  lemma {:induction false} LineTells(before: seq<Line>, st: Synth.Step, line: Line)
    requires Told(before, st)
    ensures Told(before + [line], Onward(st, line))
    ensures Hears(Onward(st, line).out) == Hears(st.out) + LineSays(before, line)
  {
    AnySnoc(before, line);
    TrackSnoc(before, line);
    if line.ChatLine? {
      ChatTells(before, st, line);
      hide TrackOf, Begun, Hears, LineSays, Tied, Onward, Later;
    } else {
      TiedInert(TrackOf(before), st, Error(line.error));
      hide TrackOf, Begun, Hears, Tied;
    }
  }

  lemma {:induction false} LineIs(before: seq<Line>, line: Line)
    requires line.ChatLine?
    ensures
      var t := TrackOf(before);
      LineSays(before, line)
      == PiecesSay(before, t, line) + if line.done then DoneSays(t.calls + |line.calls| > 0, line) else []
  {
    hide Begun, CallsSay, DoneSays, Thinks, Writes, Since, Calls;
  }

  // ----- whole streams -----

  /** The decoder after some frames, with all it has emitted. */
  ghost function After(read: Frame -> Line, frames: seq<Frame>): Synth.Step {
    var (events, s) := DecodeAll(LineDecode(read), frames, FRESH);
    Synth.Step(s, events)
  }

  function Lines(read: Frame -> Line, frames: seq<Frame>): (lines: seq<Line>)
    ensures |lines| == |frames|
    ensures forall i :: 0 <= i < |frames| ==> lines[i] == read(frames[i])
  {
    seq(|frames|, i requires 0 <= i < |frames| => read(frames[i]))
  }

  lemma {:induction false} AfterSnoc(read: Frame -> Line, frames: seq<Frame>)
    requires frames != []
    ensures After(read, frames) == Onward(After(read, Front(frames)), read(Last(frames)))
  {
    assert frames == Front(frames) + [Last(frames)];
    DecodeAllAppend(LineDecode(read), Front(frames), [Last(frames)], FRESH);
    DecodeAllOne(LineDecode(read), Last(frames), After(read, Front(frames)).state);
    hide DecodeAll, DecodeLine;
  }

  lemma {:induction false} FreshTold()
    ensures Told([], Synth.Step(FRESH, []))
  {
    var none: seq<Event> := [];
    assert forall i: nat :: OpenStart(none, i) == None;
  }

  lemma {:induction false} StreamTells(read: Frame -> Line, frames: seq<Frame>)
    ensures Told(Lines(read, frames), After(read, frames))
    ensures Hears(After(read, frames).out) == Says(Lines(read, frames))
    decreases |frames|
  {
    if frames == [] {
      FreshTold();
    } else {
      var before, line, st := Lines(read, Front(frames)), read(Last(frames)), After(read, Front(frames));
      assert Lines(read, frames) == before + [line];
      StreamTells(read, Front(frames));
      AfterSnoc(read, frames);
      AnySnoc(before, line);
      hide Told, Hears, LineSays, Onward, After, Lines, Begun, Thinks, Writes, Calls;
      LineTells(before, st, line);
    }
  }

  /** The events of any stream tell exactly what its lines say. */
  lemma {:induction false} EventsTellTheLines(read: Frame -> Line, frames: seq<Frame>)
    ensures Hears(DecodeAll(LineDecode(read), frames, FRESH).0) == Says(Lines(read, frames))
  {
    StreamTells(read, frames);
    hide Hears, Says, Lines;
  }
}
