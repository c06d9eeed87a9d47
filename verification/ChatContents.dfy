/** What the chat-completions decoder (src/protocol/openai/decode) tells of a stream, read off
    its lines alone: every reasoning, content and argument fragment, tool call, refusal, finish
    and usage, in order, each fragment credited to the right block. */
module ChatContents {
  import opened Base
  import opened SseGrammar
  import opened Decoders
  import opened Canonical
  import opened DecodeContract
  import opened TurnEvents
  import opened TurnSayings
  import opened Synth
  import opened ChatBalance

  // ----- what the lines say -----

  predicate Begun(lines: seq<Line>) {
    exists l <- lines :: l.ChatChunk?
  }

  /** All the refusal text streamed so far. */
  function Refused(lines: seq<Line>): string {
    if lines == [] then "" else Refused(Front(lines)) + if Last(lines).ChatChunk? then Last(lines).refusal else ""
  }

  function Sight(order: seq<nat>, w: nat): seq<nat> {
    if w in order then order else order + [w]
  }

  function Sighted(order: seq<nat>, calls: seq<ToolPiece>): seq<nat>
    decreases |calls|
  {
    if calls == [] then order else Sighted(Sight(order, calls[0].wireIndex), calls[1..])
  }

  /** The tool indices of the wire, in the order they first appear. */
  function Order(lines: seq<Line>): seq<nat> {
    if lines == [] then [] else Sighted(Order(Front(lines)), CallsOf(Last(lines)))
  }

  /** A piece with a new index announces a call; its arguments are that call's. */
  function CallSays(order: seq<nat>, call: ToolPiece): seq<Saying> {
    (if call.wireIndex in order then [] else [Called(call.id, call.name)])
    + (if call.arguments == "" then []
       else [Argued(Place(Sight(order, call.wireIndex), call.wireIndex), call.arguments)])
  }

  function CallsSay(order: seq<nat>, calls: seq<ToolPiece>): seq<Saying>
    decreases |calls|
  {
    if calls == [] then [] else CallSays(order, calls[0]) + CallsSay(Sight(order, calls[0].wireIndex), calls[1..])
  }

  function LineSays(before: seq<Line>, line: Line): seq<Saying> {
    match line
    case DoneMarker => []
    case Malformed(e) => [Failed(e)]
    case ErrorLine(e) => [Failed(e)]
    case ChatChunk(id, model, reasoning, content, refusal, calls, finish, usage) =>
      (if Begun(before) then [] else [Opened(id, model)])
      + (if reasoning == "" then [] else [Thought(reasoning)])
      + (if content == "" then [] else [Wrote(content)])
      + CallsSay(Order(before), calls)
      + (if finish.None? then [] else [Ended(ReasonOf(finish.value, Refused(before) + refusal))])
      + (if usage.None? then [] else [Counted(usage.value)])
  }

  function Says(lines: seq<Line>): seq<Saying> {
    if lines == [] then [] else Says(Front(lines)) + LineSays(Front(lines), Last(lines))
  }

  function Members(order: seq<nat>): set<nat> {
    set w <- order
  }

  /** The indices whose calls a finish reason has closed. */
  function Dead(lines: seq<Line>): set<nat> {
    if lines == [] then {}
    else if Last(lines).ChatChunk? && Last(lines).finish.Some? then Members(Order(lines))
    else Dead(Front(lines))
  }

  predicate NoneRevived(dead: set<nat>, calls: seq<ToolPiece>) {
    forall c <- calls :: c.arguments != "" ==> c.wireIndex !in dead
  }

  /** No arguments arrive for a call already closed. */
  predicate Orderly(lines: seq<Line>) {
    lines == [] || (Orderly(Front(lines)) && NoneRevived(Dead(Front(lines)), CallsOf(Last(lines))))
  }

  /** A refusal outranks every reason; else each reason of the wire has its own meaning. */
  lemma {:induction false} ReasonIs(reason: string, refusal: string)
    ensures
      var meant := ReasonOf(reason, refusal);
      && (refusal != "" ==> meant == Refusal("refusal", Some(refusal)))
      && (refusal == "" ==>
            && (meant == Stop <==> reason == "stop")
            && (meant == Length <==> reason == "length")
            && (meant == ToolUse <==> reason in {"tool_calls", "function_call"})
            && (meant == Refusal("content_filter", None) <==> reason == "content_filter")
            && (meant == OtherReason(reason) <==>
                  reason !in {"stop", "length", "tool_calls", "function_call", "content_filter"}))
  {
  }

  // ----- what the decoder keeps track of -----

  ghost predicate Gone(events: seq<Event>, p: nat) {
    forall i: nat :: OpenStart(events, i) != Some(p)
  }

  ghost predicate CallTied(events: seq<Event>, toolIndex: map<nat, nat>, w: nat, p: nat, dead: bool) {
    if dead then Gone(events, p) else w in toolIndex && OpenStart(events, toolIndex[w]) == Some(p)
  }

  /** The calls started so far are the indices in order; one that is not dead is open where its
      index points, and a dead one is open nowhere. */
  ghost predicate Tools(order: seq<nat>, dead: set<nat>, events: seq<Event>, toolIndex: map<nat, nat>) {
    && |ToolStarts(events)| == |order| && Distinct(order)
    && (forall w :: w in toolIndex <==> w in order)
    && forall k :: 0 <= k < |order| ==>
         CallTied(events, toolIndex, order[k], ToolStarts(events)[k], order[k] in dead)
  }

  ghost predicate Tied(order: seq<nat>, dead: set<nat>, st: Step) {
    && Dense(st.state) && Matches(st.out, st.state.open)
    && Tools(order, dead, st.out, st.state.toolIndex) && forall w <- dead :: w in order
  }

  lemma {:induction false} CallTiedInert(
    events: seq<Event>, ev: Event, toolIndex: map<nat, nat>, w: nat, p: nat, dead: bool)
    requires Inert(ev) && CallTied(events, toolIndex, w, p, dead)
    ensures CallTied(events + [ev], toolIndex, w, p, dead)
  {
    hide OpenStart, ToolStarts, Inert;
    if dead {
      forall i: nat
        ensures OpenStart(events + [ev], i) != Some(p)
      {
        InertOpens(events, ev, i);
      }
    } else {
      InertOpens(events, ev, toolIndex[w]);
    }
  }

  lemma {:induction false} TiedInert(order: seq<nat>, dead: set<nat>, st: Step, ev: Event)
    requires Tied(order, dead, st) && Inert(ev)
    ensures Tied(order, dead, st.(out := st.out + [ev]))
  {
    hide OpenStart, ToolStarts, Inert, CallTied;
    MatchesInert(st.out, st.state.open, ev);
    InertOpens(st.out, ev, 0);
    forall k | 0 <= k < |order|
      ensures CallTied(st.out + [ev], st.state.toolIndex, order[k], ToolStarts(st.out)[k], order[k] in dead)
    {
      CallTiedInert(st.out, ev, st.state.toolIndex, order[k], ToolStarts(st.out)[k], order[k] in dead);
    }
  }

  lemma {:induction false} CallTiedStart(
    events: seq<Event>, open: map<nat, ContentKind>, i: nat, kind: ContentKind,
    toolIndex: map<nat, nat>, w: nat, p: nat, dead: bool)
    requires Matches(events, open) && i !in open && p < |events| && CallTied(events, toolIndex, w, p, dead)
    ensures CallTied(events + [ContentStart(i, kind)], toolIndex, w, p, dead)
  {
    var ev := ContentStart(i, kind);
    hide OpenStart;
    if dead {
      forall j: nat
        ensures OpenStart(events + [ev], j) != Some(p)
      {
        OpenStartSnoc(events, ev, j);
      }
    } else {
      assert toolIndex[w] in open;
      OpenStartSnoc(events, ev, toolIndex[w]);
    }
  }

  /** A block of another kind opens. */
  lemma {:induction false} TiedStart(order: seq<nat>, dead: set<nat>, st: Step, kind: ContentKind)
    requires Tied(order, dead, st) && !kind.ToolUseKind?
    ensures
      var i := NextIndex(st.state);
      Tied(order, dead, Step(st.state.(open := st.state.open[i := kind]), st.out + [ContentStart(i, kind)]))
  {
    var i := NextIndex(st.state);
    var ev := ContentStart(i, kind);
    hide OpenStart, ToolStarts, CallTied;
    MatchesStart(st.out, st.state.open, i, kind);
    DenseGrows(st.state, kind);
    ToolStartsSnoc(st.out, ev);
    assert ToolStarts(st.out + [ev]) == ToolStarts(st.out);
    forall k | 0 <= k < |order|
      ensures CallTied(st.out + [ev], st.state.toolIndex, order[k], ToolStarts(st.out)[k], order[k] in dead)
    {
      assert ToolStarts(st.out)[k] in ToolStarts(st.out);
      CallTiedStart(st.out, st.state.open, i, kind, st.state.toolIndex, order[k], ToolStarts(st.out)[k], order[k] in dead);
    }
  }

  /** A tool call opens under an index not seen before. */
  lemma {:induction false} TiedCall(order: seq<nat>, dead: set<nat>, st: Step, w: nat, id: string, name: string)
    requires Tied(order, dead, st) && w !in order
    ensures
      var i, kind := NextIndex(st.state), ToolUseKind(id, name);
      Tied(order + [w], dead, Step(st.state.(toolIndex := st.state.toolIndex[w := i], open := st.state.open[i := kind]),
                                   st.out + [ContentStart(i, kind)]))
  {
    var i, kind := NextIndex(st.state), ToolUseKind(id, name);
    var ev := ContentStart(i, kind);
    var toolIndex := st.state.toolIndex[w := i];
    hide OpenStart, ToolStarts;
    MatchesStart(st.out, st.state.open, i, kind);
    DenseGrows(st.state, kind);
    ToolStartsSnoc(st.out, ev);
    OpenStartSnoc(st.out, ev, i);
    assert CallTied(st.out + [ev], toolIndex, w, |st.out|, false);
    forall k | 0 <= k < |order|
      ensures CallTied(st.out + [ev], toolIndex, order[k], ToolStarts(st.out)[k], order[k] in dead)
    {
      assert ToolStarts(st.out)[k] in ToolStarts(st.out);
      CallTiedStart(st.out, st.state.open, i, kind, st.state.toolIndex, order[k], ToolStarts(st.out)[k], order[k] in dead);
    }
    hide CallTied, Matches;
  }

  /** The drain closes every block, and with it every call. */
  lemma {:induction false} TiedStops(order: seq<nat>, dead: set<nat>, st: Step)
    requires Tied(order, dead, st)
    ensures
      Tied(order, Members(order), Step(st.state.(open := map[], terminated := true), st.out + Stops(Sorted(st.state.open.Keys))))
  {
    var keys := Sorted(st.state.open.Keys);
    var all := st.out + Stops(keys);
    SortedHolds(st.state.open.Keys);
    hide Ascending, Sorted, Stops, OpenStart, ToolStarts;
    forall i: nat
      ensures OpenStart(all, i) == None
    {
      StopsHush(st.out, keys, i);
      assert i in keys <==> i in Elements(keys);
    }
    StopsHush(st.out, keys, 0);
    forall k | 0 <= k < |order|
      ensures CallTied(all, st.state.toolIndex, order[k], ToolStarts(st.out)[k], true)
    {
    }
  }

  // ----- what each part of a line tells -----

  /** The step from `st` on says `said` more, and keeps track. */
  ghost predicate Tells(order: seq<nat>, dead: set<nat>, st: Step, st': Step, said: seq<Saying>) {
    Tied(order, dead, st') && Hears(st'.out) == Hears(st.out) + said
  }

  lemma {:induction false} LazyOpens(order: seq<nat>, dead: set<nat>, st: Step, kind: ContentKind)
    requires Tied(order, dead, st) && !kind.ToolUseKind?
    ensures
      var (s, began, i) := OpenLazy(st.state, kind);
      Tells(order, dead, st, Step(s, st.out + began), []) && i in s.open && s.open[i] == kind
  {
    var i := NextIndex(st.state);
    TiedStart(order, dead, st, kind);
    HearsSnoc(st.out, ContentStart(i, kind));
    assert st.out + [] == st.out && Hears(st.out) + [] == Hears(st.out);
    hide Tied, Hears, NextIndex;
  }

  /** An event that starts and stops nothing says what it says. */
  lemma {:induction false} InertTells(order: seq<nat>, dead: set<nat>, st: Step, ev: Event)
    requires Tied(order, dead, st) && Inert(ev)
    ensures Tells(order, dead, st, st.(out := st.out + [ev]), Heard(st.out, ev))
  {
    TiedInert(order, dead, st, ev);
    HearsSnoc(st.out, ev);
    hide Tied, Hears, Heard;
  }

  lemma {:induction false} LazyHears(
    order: seq<nat>, dead: set<nat>, st: Step, i: nat, kind: ContentKind, text: string, delta: Delta, say: Saying)
    requires Tied(order, dead, st) && i in st.state.open && st.state.open[i] == kind
    requires (kind, delta, say) in {(TextKind, TextDelta(text), Wrote(text)),
                                    (ThinkingKind(None), ThinkingDelta(text), Thought(text))}
    ensures HeardDelta(st.out, i, delta) == say
  {
    hide OpenStart, ToolStarts, Tools, Dense;
  }

  /** A fragment of reasoning or content reaches the one lazy block of its kind. */
  lemma {:induction false} LazilyTells(
    order: seq<nat>, dead: set<nat>, st: Step, kind: ContentKind, text: string, delta: Delta, say: Saying)
    requires Tied(order, dead, st)
    requires (kind, delta, say) in {(TextKind, TextDelta(text), Wrote(text)),
                                    (ThinkingKind(None), ThinkingDelta(text), Thought(text))}
    ensures Tells(order, dead, st, Lazily(st, kind, text, delta), if text == "" then [] else [say])
  {
    hide Tied, Hears, HeardDelta, OpenLazy;
    if text == "" {
      assert Hears(st.out) + [] == Hears(st.out);
    } else {
      var (s, began, i) := OpenLazy(st.state, kind);
      var mid := Step(s, st.out + began);
      LazyOpens(order, dead, st, kind);
      assert Hears(st.out) + [] == Hears(st.out);
      InertTells(order, dead, mid, ContentDelta(i, delta));
      LazyHears(order, dead, mid, i, kind, text, delta, say);
    }
  }

  lemma {:induction false} CallIsTied(order: seq<nat>, dead: set<nat>, st: Step, w: nat)
    requires Tied(order, dead, st) && w in order
    ensures w in st.state.toolIndex
    ensures
      var p := ToolStarts(st.out);
      && |p| == |order| && p[Place(order, w)] in p
      && Place(p, p[Place(order, w)]) == Place(order, w)
      && (OpenStart(st.out, st.state.toolIndex[w]) == Some(p[Place(order, w)]) <==> w !in dead)
  {
    var k, starts := Place(order, w), ToolStarts(st.out);
    assert CallTied(st.out, st.state.toolIndex, order[k], starts[k], order[k] in dead);
    ToolStartsAscend(st.out);
    hide OpenStart, Dense, Matches, Tools, ToolStarts;
    assert starts[k] in starts;
  }

  /** Arguments reach their call exactly when a finish has not closed it. */
  lemma {:induction false} ArgumentsReach(order: seq<nat>, dead: set<nat>, st: Step, w: nat, text: string)
    requires Tied(order, dead, st) && w in order
    ensures w in st.state.toolIndex
    ensures HeardDelta(st.out, st.state.toolIndex[w], JsonDelta(text)) == Argued(Place(order, w), text) <==> w !in dead
  {
    CallIsTied(order, dead, st, w);
    hide OpenStart, ToolStarts, Tied, Place;
  }

  /** A piece without its arguments: the call is announced when it is new. */
  lemma {:induction false} Announces(order: seq<nat>, dead: set<nat>, st: Step, call: ToolPiece)
    requires Tied(order, dead, st) && call.arguments == ""
    ensures Tells(Sight(order, call.wireIndex), dead, st, ToolCallPiece(st, call), CallSays(order, call))
  {
    var w, kind, c := call.wireIndex, ToolUseKind(call.id, call.name), NextIndex(st.state);
    assert w in order <==> w in st.state.toolIndex;
    assert CallSays(order, call) == if w in order then [] else [Called(call.id, call.name)];
    hide Hears, Tied, CallSays, NextIndex;
    if w in order {
      assert Hears(st.out) + [] == Hears(st.out);
    } else {
      TiedCall(order, dead, st, w, call.id, call.name);
      HearsSnoc(st.out, ContentStart(c, kind));
    }
  }

  lemma {:induction false} CallSplits(order: seq<nat>, dead: set<nat>, call: ToolPiece)
    ensures call.wireIndex in Sight(order, call.wireIndex)
    ensures call.arguments != "" ==>
      var place := Place(Sight(order, call.wireIndex), call.wireIndex);
      CallSays(order, call) == CallSays(order, call.(arguments := "")) + [Argued(place, call.arguments)]
    ensures NoneRevived(dead, [call]) <==> call.arguments == "" || call.wireIndex !in dead
  {
    assert call in [call];
    hide Place;
  }

  lemma {:induction false} PieceSplits(st: Step, call: ToolPiece)
    requires call.arguments != ""
    ensures
      var began, w := ToolCallPiece(st, call.(arguments := "")), call.wireIndex;
      && w in began.state.toolIndex
      && ToolCallPiece(st, call)
         == began.(out := began.out + [ContentDelta(began.state.toolIndex[w], JsonDelta(call.arguments))])
  {
  }

  /** One piece of a tool call: the call announced when new, its arguments passed on. */
  lemma {:induction false} CallTells(order: seq<nat>, dead: set<nat>, st: Step, call: ToolPiece) returns (heard: seq<Saying>)
    requires Tied(order, dead, st)
    ensures Tells(Sight(order, call.wireIndex), dead, st, ToolCallPiece(st, call), heard)
    ensures |heard| == |CallSays(order, call)|
    ensures heard == CallSays(order, call) <==> NoneRevived(dead, [call])
  {
    var w, bare := call.wireIndex, call.(arguments := "");
    var began, known := ToolCallPiece(st, bare), Sight(order, call.wireIndex);
    Announces(order, dead, st, bare);
    CallSplits(order, dead, call);
    hide Hears, Tied, HeardDelta, NoneRevived, NextIndex, Place, CallSays, Sight, ToolCallPiece;
    heard := CallSays(order, bare);
    if call.arguments != "" {
      PieceSplits(st, call);
      ArgumentsReach(known, dead, began, w, call.arguments);
      var last := HeardDelta(began.out, began.state.toolIndex[w], JsonDelta(call.arguments));
      InertTells(known, dead, began, ContentDelta(began.state.toolIndex[w], JsonDelta(call.arguments)));
      TellsOnward(known, dead, st, known, dead, began, ToolCallPiece(st, call), heard, [last]);
      SnocEqual(heard, last, Argued(Place(known, w), call.arguments));
      heard := heard + [last];
    }
  }

  lemma {:induction false} SnocEqual(a: seq<Saying>, x: Saying, y: Saying)
    ensures a + [x] == a + [y] <==> x == y
  {
    assert (a + [x])[|a|] == x && (a + [y])[|a|] == y;
  }

  lemma {:induction false} ConcatEqual(a: seq<Saying>, b: seq<Saying>, c: seq<Saying>, d: seq<Saying>)
    requires |a| == |c|
    ensures a + b == c + d <==> a == c && b == d
  {
    assert (a + b)[..|a|] == a && (a + b)[|a|..] == b;
    assert (c + d)[..|c|] == c && (c + d)[|c|..] == d;
  }

  lemma {:induction false} TellsOnward(
    order: seq<nat>, dead: set<nat>, a: Step, order': seq<nat>, dead': set<nat>, b: Step, c: Step,
    first: seq<Saying>, second: seq<Saying>)
    requires Tells(order, dead, a, b, first) && Tells(order', dead', b, c, second)
    ensures Tells(order', dead', a, c, first + second)
  {
    hide Tied, Hears;
    assert Hears(a.out) + first + second == Hears(a.out) + (first + second);
  }

  lemma {:induction false} CallsTell(order: seq<nat>, dead: set<nat>, st: Step, calls: seq<ToolPiece>)
    returns (heard: seq<Saying>)
    requires Tied(order, dead, st)
    ensures Tells(Sighted(order, calls), dead, st, ToolCalls(st, calls), heard)
    ensures |heard| == |CallsSay(order, calls)|
    ensures heard == CallsSay(order, calls) <==> NoneRevived(dead, calls)
    decreases |calls|
  {
    hide Hears, ToolCallPiece, CallSays, Sight, Place;
    if calls == [] {
      heard := [];
      assert Hears(st.out) + [] == Hears(st.out);
    } else {
      var known, next := Sight(order, calls[0].wireIndex), ToolCallPiece(st, calls[0]);
      var first := CallTells(order, dead, st, calls[0]);
      hide Tied;
      var rest := CallsTell(known, dead, next, calls[1..]);
      TellsOnward(known, dead, st, Sighted(known, calls[1..]), dead, next, ToolCalls(next, calls[1..]), first, rest);
      heard := first + rest;
      ConcatEqual(first, rest, CallSays(order, calls[0]), CallsSay(known, calls[1..]));
      assert calls == [calls[0]] + calls[1..];
      assert NoneRevived(dead, calls) <==> NoneRevived(dead, [calls[0]]) && NoneRevived(dead, calls[1..]);
    }
  }

  /** What a finish reason says, and the calls it closes. */
  function ReasonSays(finish: Option<string>, refusal: string): seq<Saying> {
    if finish.None? then [] else [Ended(ReasonOf(finish.value, refusal))]
  }

  function DeadAfter(order: seq<nat>, dead: set<nat>, finish: Option<string>): set<nat> {
    if finish.None? then dead else Members(order)
  }

  /** A finish reason stops every block and ends the turn with what it means. */
  lemma {:induction false} FinishTells(order: seq<nat>, dead: set<nat>, st: Step, finish: Option<string>)
    requires Tied(order, dead, st)
    ensures Tells(order, DeadAfter(order, dead, finish), st, FinishPart(st, finish), ReasonSays(finish, st.state.refusal))
  {
    hide Tied, Hears, ReasonOf, Stops, Sorted, Members;
    if finish.None? {
      assert Hears(st.out) + [] == Hears(st.out);
    } else {
      var stops, ended := Stops(Sorted(st.state.open.Keys)), Finish(ReasonOf(finish.value, st.state.refusal));
      var closed := Step(st.state.(open := map[], terminated := true), st.out + stops);
      TiedStops(order, dead, st);
      StopsHush(st.out, Sorted(st.state.open.Keys), 0);
      InertTells(order, Members(order), closed, ended);
    }
  }

  // ----- a whole line -----

  ghost function Started(st: Step, line: Line): Step
    requires line.ChatChunk?
  {
    if st.state.started then st
    else Step(st.state.(started := true), st.out + [MessageStart(line.id, line.model)])
  }

  /** The decoder's line, writing on after the events so far. */
  ghost function Onward(st: Step, line: Line): Step {
    var (r, s) := DecodeLine(line, st.state);
    Step(s, st.out + Emitted(r))
  }

  ghost function Prefixed(events: seq<Event>, st: Step): Step {
    st.(out := events + st.out)
  }

  lemma {:induction false} LazilyShifts(events: seq<Event>, st: Step, kind: ContentKind, text: string, delta: Delta)
    ensures Lazily(Prefixed(events, st), kind, text, delta) == Prefixed(events, Lazily(st, kind, text, delta))
  {
    var (s, began, i) := OpenLazy(st.state, kind);
    hide OpenLazy;
    assert events + (st.out + began + [ContentDelta(i, delta)]) == events + st.out + began + [ContentDelta(i, delta)];
  }

  lemma {:induction false} PieceShifts(events: seq<Event>, st: Step, call: ToolPiece)
    ensures ToolCallPiece(Prefixed(events, st), call) == Prefixed(events, ToolCallPiece(st, call))
  {
    var start := [ContentStart(NextIndex(st.state), ToolUseKind(call.id, call.name))];
    assert events + (st.out + start) == events + st.out + start;
  }

  lemma {:induction false} CallsShift(events: seq<Event>, st: Step, calls: seq<ToolPiece>)
    ensures ToolCalls(Prefixed(events, st), calls) == Prefixed(events, ToolCalls(st, calls))
    decreases |calls|
  {
    hide ToolCallPiece, Prefixed;
    if calls != [] {
      PieceShifts(events, st, calls[0]);
      CallsShift(events, ToolCallPiece(st, calls[0]), calls[1..]);
    }
  }

  lemma {:induction false} FinishShifts(events: seq<Event>, st: Step, finish: Option<string>)
    ensures FinishPart(Prefixed(events, st), finish) == Prefixed(events, FinishPart(st, finish))
  {
    hide Stops, Sorted, ReasonOf;
    var stops := Stops(Sorted(st.state.open.Keys));
    if finish.Some? {
      var ended := [Finish(ReasonOf(finish.value, st.state.refusal))];
      assert events + (st.out + stops + ended) == events + st.out + stops + ended;
    }
  }

  /** The parts of a chunk, one after the other. */
  ghost function Texts(st: Step, line: Line): Step
    requires line.ChatChunk?
  {
    var st1 := Lazily(Started(st, line), ThinkingKind(None), line.reasoning, ThinkingDelta(line.reasoning));
    Lazily(st1, TextKind, line.content, TextDelta(line.content))
  }

  ghost function Pieces(st: Step, line: Line): Step
    requires line.ChatChunk?
  {
    var st2 := Texts(st, line);
    ToolCalls(st2.(state := st2.state.(refusal := st2.state.refusal + line.refusal)), line.calls)
  }

  lemma {:induction false} PiecesShift(events: seq<Event>, st: Step, line: Line)
    requires line.ChatChunk?
    ensures Pieces(Prefixed(events, st), line) == Prefixed(events, Pieces(st, line))
  {
    var head := [MessageStart(line.id, line.model)];
    assert events + (st.out + head) == events + st.out + head;
    assert Started(Prefixed(events, st), line) == Prefixed(events, Started(st, line));
    hide Lazily, ToolCalls;
    var st0 := Started(st, line);
    LazilyShifts(events, st0, ThinkingKind(None), line.reasoning, ThinkingDelta(line.reasoning));
    var st1 := Lazily(st0, ThinkingKind(None), line.reasoning, ThinkingDelta(line.reasoning));
    LazilyShifts(events, st1, TextKind, line.content, TextDelta(line.content));
    var st2 := Lazily(st1, TextKind, line.content, TextDelta(line.content));
    CallsShift(events, st2.(state := st2.state.(refusal := st2.state.refusal + line.refusal)), line.calls);
  }

  lemma {:induction false} ChunkIsOnward(st: Step, line: Line)
    requires line.ChatChunk?
    ensures
      var done := FinishPart(Pieces(st, line), line.finish);
      Onward(st, line) == if line.usage.None? then done else done.(out := done.out + [UsageEvent(line.usage.value)])
  {
    hide Lazily, ToolCalls, FinishPart;
    var bare := Step(st.state, []);
    assert [] + [MessageStart(line.id, line.model)] == [MessageStart(line.id, line.model)];
    assert Prefixed(st.out, bare) == st;
    PiecesShift(st.out, bare, line);
    FinishShifts(st.out, Pieces(bare, line), line.finish);
    var end := FinishPart(Pieces(bare, line), line.finish);
    if line.usage.Some? {
      assert st.out + (end.out + [UsageEvent(line.usage.value)]) == st.out + end.out + [UsageEvent(line.usage.value)];
    }
  }

  lemma {:induction false} CallsKeep(st: Step, calls: seq<ToolPiece>)
    ensures ToolCalls(st, calls).state.started == st.state.started
    ensures ToolCalls(st, calls).state.refusal == st.state.refusal
    decreases |calls|
  {
    if calls != [] {
      CallsKeep(ToolCallPiece(st, calls[0]), calls[1..]);
    }
  }

  /** What a chunk says before its tool calls. */
  function TextsSay(before: seq<Line>, line: Line): seq<Saying>
    requires line.ChatChunk?
  {
    (if Begun(before) then [] else [Opened(line.id, line.model)])
    + (if line.reasoning == "" then [] else [Thought(line.reasoning)])
    + (if line.content == "" then [] else [Wrote(line.content)])
  }

  /** The decoder after these lines has told them and keeps what the next line will need. */
  ghost predicate Told(lines: seq<Line>, st: Step) {
    && Tied(Order(lines), Dead(lines), st)
    && st.state.started == Begun(lines) && st.state.refusal == Refused(lines)
  }

  lemma {:induction false} StartTells(before: seq<Line>, st: Step, line: Line)
    requires Told(before, st) && line.ChatChunk?
    ensures
      Tells(Order(before), Dead(before), st, Started(st, line), if Begun(before) then [] else [Opened(line.id, line.model)])
  {
    var head := MessageStart(line.id, line.model);
    TiedInert(Order(before), Dead(before), st, head);
    HearsSnoc(st.out, head);
    assert Hears(st.out) + [] == Hears(st.out);
    hide Order, Dead, Begun, Refused, OpenStart, ToolStarts, Hears, Dense, Matches, Tools;
  }

  lemma {:induction false} ThenThinks(order: seq<nat>, dead: set<nat>, from: Step, st: Step, said: seq<Saying>, text: string)
    requires Tells(order, dead, from, st, said)
    ensures
      var st' := Lazily(st, ThinkingKind(None), text, ThinkingDelta(text));
      && Tells(order, dead, from, st', said + if text == "" then [] else [Thought(text)])
      && st'.state == st.state.(open := st'.state.open)
  {
    LazilyOpens(st, ThinkingKind(None), text, ThinkingDelta(text));
    LazilyTells(order, dead, st, ThinkingKind(None), text, ThinkingDelta(text), Thought(text));
    hide Lazily;
    var st' := Lazily(st, ThinkingKind(None), text, ThinkingDelta(text));
    TellsOnward(order, dead, from, order, dead, st, st', said, if text == "" then [] else [Thought(text)]);
  }

  lemma {:induction false} ThenWrites(order: seq<nat>, dead: set<nat>, from: Step, st: Step, said: seq<Saying>, text: string)
    requires Tells(order, dead, from, st, said)
    ensures
      var st' := Lazily(st, TextKind, text, TextDelta(text));
      && Tells(order, dead, from, st', said + if text == "" then [] else [Wrote(text)])
      && st'.state == st.state.(open := st'.state.open)
  {
    LazilyOpens(st, TextKind, text, TextDelta(text));
    LazilyTells(order, dead, st, TextKind, text, TextDelta(text), Wrote(text));
    hide Lazily;
    var st' := Lazily(st, TextKind, text, TextDelta(text));
    TellsOnward(order, dead, from, order, dead, st, st', said, if text == "" then [] else [Wrote(text)]);
  }

  lemma {:induction false} TextsTell(before: seq<Line>, st: Step, line: Line)
    requires Told(before, st) && line.ChatChunk?
    ensures Tells(Order(before), Dead(before), st, Texts(st, line), TextsSay(before, line))
    ensures Texts(st, line).state.started && Texts(st, line).state.refusal == Refused(before)
  {
    var order, dead := Order(before), Dead(before);
    StartTells(before, st, line);
    hide Order, Dead, Begun, Lazily, Tells, Refused, Tied;
    var st0 := Started(st, line);
    var said: seq<Saying> := if Begun(before) then [] else [Opened(line.id, line.model)];
    ThenThinks(order, dead, st, st0, said, line.reasoning);
    var st1 := Lazily(st0, ThinkingKind(None), line.reasoning, ThinkingDelta(line.reasoning));
    ThenWrites(order, dead, st, st1, said + if line.reasoning == "" then [] else [Thought(line.reasoning)], line.content);
  }

  lemma {:induction false} PiecesTell(before: seq<Line>, st: Step, line: Line) returns (heard: seq<Saying>)
    requires Told(before, st) && line.ChatChunk?
    ensures Tells(Sighted(Order(before), line.calls), Dead(before), st, Pieces(st, line), TextsSay(before, line) + heard)
    ensures |heard| == |CallsSay(Order(before), line.calls)|
    ensures heard == CallsSay(Order(before), line.calls) <==> NoneRevived(Dead(before), line.calls)
    ensures Pieces(st, line).state.started && Pieces(st, line).state.refusal == Refused(before) + line.refusal
  {
    var order, dead, st2 := Order(before), Dead(before), Texts(st, line);
    TextsTell(before, st, line);
    hide Order, Dead, ToolCalls, Hears, CallsSay, NoneRevived, Sighted, Texts, TextsSay, Refused, Dense, Matches, Tools;
    var st3 := st2.(state := st2.state.(refusal := st2.state.refusal + line.refusal));
    TiedIgnores(order, dead, st2, st3);
    heard := CallsTell(order, dead, st3, line.calls);
    CallsKeep(st3, line.calls);
    hide Tied;
    TellsOnward(order, dead, st, Sighted(order, line.calls), dead, st3, Pieces(st, line), TextsSay(before, line), heard);
  }

  /** The refusal text is no part of what is tracked. */
  lemma {:induction false} TiedIgnores(order: seq<nat>, dead: set<nat>, st: Step, st': Step)
    requires Tied(order, dead, st) && st'.out == st.out
    requires st'.state.open == st.state.open && st'.state.toolIndex == st.state.toolIndex
    ensures Tied(order, dead, st')
  {
    hide Matches, Tools;
  }

  lemma {:induction false} SnocIs(before: seq<Line>, line: Line)
    ensures Front(before + [line]) == before && Last(before + [line]) == line
    ensures Begun(before + [line]) <==> Begun(before) || line.ChatChunk?
  {
    assert forall l :: l in before + [line] <==> l in before || l == line;
  }

  /** What a chunk says after its tool calls. */
  function EndSays(before: seq<Line>, line: Line): seq<Saying>
    requires line.ChatChunk?
  {
    ReasonSays(line.finish, Refused(before) + line.refusal) + if line.usage.None? then [] else [Counted(line.usage.value)]
  }

  lemma {:induction false} EndTells(before: seq<Line>, order: seq<nat>, dead: set<nat>, st: Step, line: Line)
    requires line.ChatChunk? && Tied(order, dead, st) && st.state.refusal == Refused(before) + line.refusal
    ensures
      var done := FinishPart(st, line.finish);
      var st' := if line.usage.None? then done else done.(out := done.out + [UsageEvent(line.usage.value)]);
      && Tells(order, DeadAfter(order, dead, line.finish), st, st', EndSays(before, line))
      && st'.state.started == st.state.started && st'.state.refusal == st.state.refusal
  {
    var done, dead' := FinishPart(st, line.finish), DeadAfter(order, dead, line.finish);
    FinishTells(order, dead, st, line.finish);
    assert done.state.started == st.state.started && done.state.refusal == st.state.refusal;
    hide FinishPart, Hears, Tied, ReasonSays, Refused, DeadAfter;
    var reason := ReasonSays(line.finish, Refused(before) + line.refusal);
    assert reason + [] == reason;
    if line.usage.Some? {
      var counted := done.(out := done.out + [UsageEvent(line.usage.value)]);
      InertTells(order, dead', done, UsageEvent(line.usage.value));
      TellsOnward(order, dead', st, order, dead', done, counted, reason, [Counted(line.usage.value)]);
    }
  }

  lemma {:induction false} ChunkTells(before: seq<Line>, st: Step, line: Line) returns (heard: seq<Saying>)
    requires Told(before, st) && line.ChatChunk?
    ensures Told(before + [line], Onward(st, line))
    ensures Hears(Onward(st, line).out) == Hears(st.out) + heard && |heard| == |LineSays(before, line)|
    ensures heard == LineSays(before, line) <==> NoneRevived(Dead(before), line.calls)
  {
    var lines, order := before + [line], Sighted(Order(before), line.calls);
    var pieces, said := Pieces(st, line), TextsSay(before, line);
    SnocIs(before, line);
    assert Order(lines) == order && Refused(lines) == Refused(before) + line.refusal;
    assert Dead(lines) == if line.finish.None? then Dead(before) else Members(order);
    var calls := PiecesTell(before, st, line);
    assert Tied(order, Dead(before), pieces);
    EndTells(before, order, Dead(before), pieces, line);
    ChunkIsOnward(st, line);
    hide Order, Refused, Dead, Tied, Hears, Pieces, Onward, CallsSay, TextsSay, EndSays, NoneRevived, FinishPart,
         Begun, Sighted;
    TellsOnward(order, Dead(before), st, order, Dead(lines), pieces, Onward(st, line), said + calls, EndSays(before, line));
    heard := said + calls + EndSays(before, line);
    var expected := CallsSay(Order(before), line.calls);
    LineIs(before, line);
    ConcatEqual(said, calls, said, expected);
    ConcatEqual(said + calls, EndSays(before, line), said + expected, EndSays(before, line));
  }

  lemma {:induction false} LineIs(before: seq<Line>, line: Line)
    requires line.ChatChunk?
    ensures LineSays(before, line) == TextsSay(before, line) + CallsSay(Order(before), line.calls) + EndSays(before, line)
  {
    hide Begun, CallsSay, Order, ReasonOf, Refused;
  }

  /** Any other line: a marker, or an error. */
  lemma {:induction false} OtherTells(before: seq<Line>, st: Step, line: Line)
    requires Told(before, st) && !line.ChatChunk?
    ensures Told(before + [line], Onward(st, line))
    ensures Hears(Onward(st, line).out) == Hears(st.out) + LineSays(before, line)
  {
    var lines, order, dead := before + [line], Order(before), Dead(before);
    SnocIs(before, line);
    assert Order(lines) == order && Refused(lines) == Refused(before) && Dead(lines) == dead;
    hide Order, Refused, Dead, Begun;
    if line.DoneMarker? {
      TiedIgnores(order, dead, st, Step(st.state.(terminated := true), st.out));
      hide Tied, Hears;
      assert st.out + [] == st.out && Hears(st.out) + [] == Hears(st.out);
    } else {
      TiedInert(order, dead, st, Error(line.error));
      HearsSnoc(st.out, Error(line.error));
      hide Tied, Hears;
    }
  }

  // ----- no end is ever emitted -----

  lemma {:induction false} LazilyNeverEnds(st: Step, kind: ContentKind, text: string, delta: Delta)
    requires End !in st.out
    ensures End !in Lazily(st, kind, text, delta).out
  {
    hide FindKind;
  }

  lemma {:induction false} CallsNeverEnd(st: Step, calls: seq<ToolPiece>)
    requires End !in st.out
    ensures End !in ToolCalls(st, calls).out
    decreases |calls|
  {
    if calls != [] {
      CallsNeverEnd(ToolCallPiece(st, calls[0]), calls[1..]);
    }
  }

  lemma {:induction false} StopsNeverEnd(keys: seq<nat>)
    ensures End !in Stops(keys)
  {
    if keys != [] {
      StopsNeverEnd(keys[1..]);
    }
  }

  lemma {:induction false} LineNeverEnds(st: Step, line: Line)
    requires End !in st.out
    ensures End !in Onward(st, line).out
  {
    hide Lazily, ToolCalls, Stops, Sorted, ReasonOf;
    if line.ChatChunk? {
      var st0 := Started(st, line);
      LazilyNeverEnds(st0, ThinkingKind(None), line.reasoning, ThinkingDelta(line.reasoning));
      var st1 := Lazily(st0, ThinkingKind(None), line.reasoning, ThinkingDelta(line.reasoning));
      LazilyNeverEnds(st1, TextKind, line.content, TextDelta(line.content));
      var st2 := Texts(st, line);
      CallsNeverEnd(st2.(state := st2.state.(refusal := st2.state.refusal + line.refusal)), line.calls);
      StopsNeverEnd(Sorted(Pieces(st, line).state.open.Keys));
      ChunkIsOnward(st, line);
      hide Onward;
    }
  }

  // ----- whole streams -----

  lemma {:induction false} FreshTold()
    ensures Told([], Step(FRESH, []))
  {
    var none: seq<Event> := [];
    forall i: nat
      ensures OpenStart(none, i) == None
    {
    }
  }

  /** The decoder after some frames, with all it has emitted. */
  ghost function After(read: Frame -> Line, frames: seq<Frame>): Step {
    var (events, s) := DecodeAll(ChatDecode(read), frames, FRESH);
    Step(s, events)
  }

  lemma {:induction false} AfterSnoc(read: Frame -> Line, frames: seq<Frame>)
    requires frames != []
    ensures After(read, frames) == Onward(After(read, Front(frames)), read(Last(frames)))
  {
    assert frames == Front(frames) + [Last(frames)];
    DecodeAllAppend(ChatDecode(read), Front(frames), [Last(frames)], FRESH);
    DecodeAllOne(ChatDecode(read), Last(frames), After(read, Front(frames)).state);
    hide DecodeAll, DecodeLine;
  }

  /** The end is the driver's to say, never the decoder's. */
  lemma {:induction false} StreamNeverEnds(read: Frame -> Line, frames: seq<Frame>)
    ensures End !in After(read, frames).out
    decreases |frames|
  {
    if frames != [] {
      StreamNeverEnds(read, Front(frames));
      AfterSnoc(read, frames);
      LineNeverEnds(After(read, Front(frames)), read(Last(frames)));
      hide After, Onward;
    }
  }

  lemma {:induction false} SaysSnoc(before: seq<Line>, line: Line)
    ensures Says(before + [line]) == Says(before) + LineSays(before, line)
    ensures Orderly(before + [line]) <==> Orderly(before) && NoneRevived(Dead(before), CallsOf(line))
  {
    SnocIs(before, line);
    hide LineSays, Dead, NoneRevived, Begun;
  }

  /** The events so far say what the lines say, if and only if those are orderly. */
  ghost predicate Retold(lines: seq<Line>, st: Step) {
    Told(lines, st) && |Hears(st.out)| == |Says(lines)| && (Hears(st.out) == Says(lines) <==> Orderly(lines))
  }

  lemma {:induction false} RetoldSnoc(before: seq<Line>, line: Line, st: Step)
    requires Retold(before, st)
    ensures Retold(before + [line], Onward(st, line))
  {
    SaysSnoc(before, line);
    hide Told, Hears, LineSays, Onward, Dead, NoneRevived, Says, Orderly;
    var heard := LineTells(before, st, line);
    ConcatEqual(Hears(st.out), heard, Says(before), LineSays(before, line));
  }

  lemma {:induction false} StreamTells(read: Frame -> Line, frames: seq<Frame>)
    ensures Retold(Lines(read, frames), After(read, frames))
    decreases |frames|
  {
    if frames == [] {
      FreshTold();
    } else {
      hide Retold, After, Onward;
      StreamTells(read, Front(frames));
      AfterSnoc(read, frames);
      assert Lines(read, frames) == Lines(read, Front(frames)) + [read(Last(frames))];
      RetoldSnoc(Lines(read, Front(frames)), read(Last(frames)), After(read, Front(frames)));
    }
  }

  lemma {:induction false} LineTells(before: seq<Line>, st: Step, line: Line) returns (heard: seq<Saying>)
    requires Told(before, st)
    ensures Told(before + [line], Onward(st, line))
    ensures Hears(Onward(st, line).out) == Hears(st.out) + heard && |heard| == |LineSays(before, line)|
    ensures heard == LineSays(before, line) <==> NoneRevived(Dead(before), CallsOf(line))
  {
    hide Told, Hears, LineSays, Onward, Dead;
    if line.ChatChunk? {
      heard := ChunkTells(before, st, line);
    } else {
      OtherTells(before, st, line);
      heard := LineSays(before, line);
    }
  }

  /** The events of a stream tell exactly what its lines say, fragment for fragment and each
      with the right block, if and only if no arguments arrive for a tool call that a finish
      reason has already closed. */
  lemma {:induction false} EventsTellTheLines(read: Frame -> Line, frames: seq<Frame>)
    ensures
      var lines, events := Lines(read, frames), DecodeAll(ChatDecode(read), frames, FRESH).0;
      Hears(events) == Says(lines) <==> Orderly(lines)
  {
    StreamTells(read, frames);
  }

  /** Two chunks on which it fails: a tool call is finished, then more arguments come for it. */
  lemma {:induction false} RevivedCallIsMisheard(read: Frame -> Line, f1: Frame, f2: Frame, more: string)
    requires read(f1) == ChatChunk(None, None, "", "", "", [ToolPiece(0, "id", "f", "")], Some("tool_calls"), None)
    requires read(f2) == ChatChunk(None, None, "", "", "", [ToolPiece(0, "", "", more)], None, None) && more != ""
    ensures Hears(DecodeAll(ChatDecode(read), [f1, f2], FRESH).0) != Says([read(f1), read(f2)])
  {
    var none: seq<Line> := [];
    var one, two := [read(f1)], [read(f1), read(f2)];
    assert Lines(read, [f1, f2]) == two && Front(two) == one && Last(two) == read(f2) && Front(one) == none;
    assert [ToolPiece(0, "id", "f", "")][1..] == [] && Order(none) == [];
    assert Order(one) == [0] && 0 in Members(Order(one)) && CallsOf(read(f2))[0] in CallsOf(read(f2));
    EventsTellTheLines(read, [f1, f2]);
    hide Hears, Says, DecodeAll, Lines;
  }
}
