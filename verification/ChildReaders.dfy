/** The two reader threads of src/native/transport/idle.rs and src/native/exec.rs as one
    transition system: a worker that reads and sends, a consumer that pulls with a silence
    budget and may be dropped, and, for a subprocess, a child that must be waited on once. */
module ChildReaders {
  import opened Base

  /** What one `read` of the pipe comes to; the end of the script is the end of file. */
  datatype Item = Chunk(bytes: Bytes) | Fault(message: string)

  /** What one `next` returned. */
  datatype Seen = Got(item: Item) | Stalled | Complained(exit: Option<nat>, text: string) | Ended

  /** An HTTP body behind a rendezvous channel, or a child with the exit code and the trimmed
      stderr text it will leave. */
  datatype Kind = HttpBody | Child(exit: Option<nat>, complaint: string)

  datatype Worker = Reading | Sending(item: Item) | Exited

  datatype Ending = Open | ByFault | ByStall | ByEof | ByDrop

  datatype State = State(
    kind: Kind, timed: bool, script: seq<Item>, pos: nat, worker: Worker, queue: seq<Item>,
    handed: seq<Item>, seen: seq<Seen>, done: bool, dropped: bool, ending: Ending,
    waits: nat, killed: bool, joined: bool)

  function Start(kind: Kind, timed: bool, script: seq<Item>): State {
    State(kind, timed, script, 0, Reading, [], [], [], false, false, Open, 0, false, false)
  }

  /** A rendezvous channel holds nothing; the subprocess one holds four chunks. */
  function Capacity(kind: Kind): nat {
    if kind.HttpBody? then 0 else 4
  }

  datatype Action = Read | Push | Take | Timeout | Hangup | Ask | Drop | GiveUp

  predicate Waiting(s: State) {
    !s.done && !s.dropped
  }

  /** Which steps can happen: the worker's, those that complete a `next`, and the drop. */
  predicate Enabled(s: State, a: Action) {
    match a
    case Read => s.worker == Reading
    case Push => s.worker.Sending? && |s.queue| < Capacity(s.kind) && !s.dropped
    case Take => Waiting(s) && (s.queue != [] || s.worker.Sending?)
    case Timeout => Waiting(s) && s.timed
    case Hangup => Waiting(s) && s.queue == [] && s.worker == Exited
    case Ask => s.done && !s.dropped
    case Drop => !s.dropped
    case GiveUp => s.worker.Sending? && s.dropped
  }

  /** An error item is the worker's last. */
  function Sent(item: Item): Worker {
    if item.Fault? then Exited else Reading
  }

  /** Wait for the child, killing it first unless its output ended by itself; its stderr is
      read only then. */
  function Reap(s: State, kill: bool): State {
    if s.kind.HttpBody? then s.(done := true)
    else s.(done := true, waits := s.waits + 1, killed := s.killed || kill, joined := s.joined || !kill)
  }

  function Verdict(kind: Kind): Seen {
    if kind.Child? && kind.exit != Some(0) && kind.complaint != "" then Complained(kind.exit, kind.complaint) else Ended
  }

  function Receive(s: State, item: Item): State {
    var s1 := s.(handed := s.handed + [item], seen := s.seen + [Got(item)]);
    if item.Fault? then Reap(s1.(ending := ByFault), true) else s1
  }

  function Do(s: State, a: Action): State
    requires Enabled(s, a)
  {
    match a
    case Read =>
      if s.pos < |s.script| then s.(worker := Sending(s.script[s.pos]), pos := s.pos + 1) else s.(worker := Exited)
    case Push => s.(queue := s.queue + [s.worker.item], worker := Sent(s.worker.item))
    case Take =>
      if s.queue != [] then Receive(s.(queue := s.queue[1..]), s.queue[0])
      else Receive(s.(worker := Sent(s.worker.item)), s.worker.item)
    case Timeout => Reap(s.(seen := s.seen + [Stalled], ending := ByStall), true)
    case Hangup => Reap(s.(seen := s.seen + [Verdict(s.kind)], ending := ByEof), false)
    case Ask => s.(seen := s.seen + [Ended])
    case Drop => (if s.done then s else Reap(s.(ending := ByDrop), true)).(dropped := true)
    case GiveUp => s.(worker := Exited)
  }

  // ----- the invariant -----

  predicate AllChunks(items: seq<Item>) {
    forall i <- items :: i.Chunk?
  }

  function Held(w: Worker): seq<Item> {
    if w.Sending? then [w.item] else []
  }

  /** In flight in order, nothing lost or repeated, and a fault is the last thing ever read. */
  ghost predicate FlowOk(s: State) {
    && s.pos <= |s.script|
    && (!s.dropped ==> s.script[..s.pos] == s.handed + s.queue + Held(s.worker))
    && s.handed <= s.script[..s.pos]
    && (s.pos > 0 ==> AllChunks(s.script[..s.pos - 1]))
    && (s.worker == Reading ==> AllChunks(s.script[..s.pos]))
    && (s.worker == Exited && AllChunks(s.script[..s.pos]) && !s.dropped ==> s.pos == |s.script|)
  }

  function Delivered(items: seq<Item>): seq<Seen> {
    if items == [] then [] else [Got(items[0])] + Delivered(items[1..])
  }

  predicate AllEnded(seen: seq<Seen>) {
    forall x <- seen :: x == Ended
  }

  /** What the consumer has been told: the items handed over, then how it ended. */
  ghost predicate ToldOk(s: State) {
    exists tail: seq<Seen> :: Tells(s, tail)
  }

  ghost predicate Tells(s: State, tail: seq<Seen>) {
    && s.seen == Delivered(s.handed) + tail
    && match s.ending
       case Open => tail == [] && AllChunks(s.handed)
       case ByFault => AllEnded(tail) && s.handed != [] && AllChunks(Front(s.handed)) && Last(s.handed).Fault?
       case ByStall => tail != [] && tail[0] == Stalled && AllEnded(tail[1..]) && AllChunks(s.handed)
       case ByEof => tail != [] && tail[0] == Verdict(s.kind) && AllEnded(tail[1..]) && AllChunks(s.handed) && s.handed == s.script
       case ByDrop => tail == [] && AllChunks(s.handed) && s.dropped
  }

  /** The child is waited on exactly once, when the stream is done; its stderr is joined only
      when it was not killed. */
  ghost predicate ChildOk(s: State) {
    && (s.done <==> s.ending != Open)
    && (s.dropped ==> s.done)
    && s.waits == (if s.kind.Child? && s.done then 1 else 0)
    && (s.killed <==> s.kind.Child? && s.done && s.ending != ByEof)
    && (s.joined <==> s.kind.Child? && s.ending == ByEof)
  }

  ghost predicate Inv(s: State) {
    FlowOk(s) && ToldOk(s) && ChildOk(s)
  }

  lemma {:induction false} DeliveredSnoc(items: seq<Item>, item: Item)
    ensures Delivered(items + [item]) == Delivered(items) + [Got(item)]
  {
    if items == [] {
      assert [item][1..] == [];
    } else {
      assert (items + [item])[1..] == items[1..] + [item];
      DeliveredSnoc(items[1..], item);
    }
  }

  lemma {:induction false} ReadKeepsFlow(s: State)
    requires FlowOk(s) && Enabled(s, Read)
    ensures FlowOk(Do(s, Read))
  {
    if s.pos < |s.script| {
      assert s.script[..s.pos + 1] == s.script[..s.pos] + [s.script[s.pos]];
      assert s.script[..s.pos + 1][..s.pos] == s.script[..s.pos];
    }
  }

  /** What the worker holds is the last item read. */
  lemma {:induction false} HeldIsLast(s: State)
    requires FlowOk(s) && s.worker.Sending? && !s.dropped
    ensures s.pos > 0 && s.script[..s.pos] == s.script[..s.pos - 1] + [s.worker.item]
    ensures AllChunks(s.script[..s.pos]) <==> s.worker.item.Chunk?
  {
    assert Last(s.script[..s.pos]) == s.worker.item;
  }

  lemma {:induction false} PushKeepsFlow(s: State)
    requires FlowOk(s) && Enabled(s, Push)
    ensures FlowOk(Do(s, Push))
  {
    HeldIsLast(s);
    hide AllChunks;
    assert s.handed + s.queue + [s.worker.item] == s.handed + (s.queue + [s.worker.item]) + [];
  }

  /** The item a take hands over: the channel's first, or the one a rendezvous offers. */
  function Offered(s: State): Item
    requires Enabled(s, Take)
  {
    if s.queue != [] then s.queue[0] else s.worker.item
  }

  lemma {:induction false} TakeMoves(s: State)
    requires Enabled(s, Take)
    ensures
      var (s', item) := (Do(s, Take), Offered(s));
      && s'.handed == s.handed + [item] && s'.seen == s.seen + [Got(item)]
      && s'.script == s.script && s'.pos == s.pos && s'.dropped == s.dropped && s'.kind == s.kind
      && s'.queue == (if s.queue != [] then s.queue[1..] else s.queue)
      && s'.worker == (if s.queue != [] then s.worker else Sent(item))
      && s'.ending == (if item.Fault? then ByFault else s.ending)
  {
    hide Capacity, Verdict;
  }

  lemma {:induction false} TakeKeepsFlow(s: State)
    requires FlowOk(s) && Enabled(s, Take)
    ensures FlowOk(Do(s, Take))
  {
    TakeMoves(s);
    hide Do;
    if s.queue != [] {
      hide AllChunks;
      var item, rest := s.queue[0], s.queue[1..];
      assert s.queue == [item] + rest;
      Reassociate(s.handed, item, rest, Held(s.worker));
    } else {
      HeldIsLast(s);
      hide AllChunks;
      Reassociate(s.handed, s.worker.item, [], []);
      assert s.handed + [] + [s.worker.item] == s.handed + [s.worker.item];
    }
  }

  lemma {:induction false} Reassociate(a: seq<Item>, x: Item, b: seq<Item>, c: seq<Item>)
    ensures a + ([x] + b) + c == a + [x] + b + c
    ensures a + [x] + [] + [] == a + [x]
    ensures a + [x] <= a + [x] + b + c
  {
  }

  /** The other steps move nothing, or come after the consumer is gone. */
  lemma {:induction false} OthersMoveNothing(s: State, a: Action)
    requires Enabled(s, a) && a != Read && a != Push && a != Take
    ensures
      var s' := Do(s, a);
      && s'.script == s.script && s'.pos == s.pos && s'.handed == s.handed && s'.queue == s.queue
      && (s'.worker == s.worker || (s.dropped && s'.worker == Exited)) && (s.dropped ==> s'.dropped)
  {
    hide Verdict, Capacity;
  }

  lemma {:induction false} FlowKept(s: State, a: Action)
    requires FlowOk(s) && Enabled(s, a)
    ensures FlowOk(Do(s, a))
  {
    hide AllChunks, Do;
    match a
    case Read => ReadKeepsFlow(s);
    case Push => PushKeepsFlow(s);
    case Take => TakeKeepsFlow(s);
    case _ => OthersMoveNothing(s, a);
  }

  lemma {:induction false} TakeTells(s: State)
    requires Tells(s, []) && s.ending == Open && Enabled(s, Take)
    ensures Tells(Do(s, Take), [])
  {
    var item := Offered(s);
    TakeMoves(s);
    DeliveredSnoc(s.handed, item);
    hide Do, Delivered, Enabled;
    assert Front(s.handed + [item]) == s.handed && Last(s.handed + [item]) == item;
    assert s.seen == Delivered(s.handed);
    assert Delivered(s.handed + [item]) + [] == Delivered(s.handed + [item]);
  }

  lemma {:induction false} EndTells(s: State, a: Action)
    requires Tells(s, []) && s.ending == Open && FlowOk(s) && Enabled(s, a) && (a == Timeout || a == Hangup)
    ensures Tells(Do(s, a), [if a == Timeout then Stalled else Verdict(s.kind)])
  {
    hide Delivered, AllChunks;
    if a == Hangup {
      assert s.handed + [] + [] == s.handed && s.script[..|s.script|] == s.script;
    }
    assert s.seen == Delivered(s.handed);
    assert Delivered(s.handed) + [] == Delivered(s.handed);
  }

  lemma {:induction false} AskTells(s: State, tail: seq<Seen>)
    requires Tells(s, tail) && s.ending != Open && Enabled(s, Ask)
    ensures Tells(Do(s, Ask), tail + [Ended])
  {
    hide Delivered, AllChunks;
    assert s.seen + [Ended] == Delivered(s.handed) + (tail + [Ended]);
    assert tail != [] ==> (tail + [Ended])[1..] == tail[1..] + [Ended];
  }

  lemma {:induction false} ToldKept(s: State, a: Action)
    requires Inv(s) && Enabled(s, a)
    ensures ToldOk(Do(s, a))
  {
    var tail: seq<Seen> :| Tells(s, tail);
    var s' := Do(s, a);
    hide FlowOk, Delivered, AllChunks, AllEnded;
    match a
    case Take =>
      TakeTells(s);
      assert Tells(s', []);
    case Timeout => EndTells(s, a);
    case Hangup => EndTells(s, a);
    case Ask => AskTells(s, tail);
    case _ => assert Tells(s', tail);
  }

  lemma {:induction false} ChildKept(s: State, a: Action)
    requires ChildOk(s) && Enabled(s, a)
    ensures ChildOk(Do(s, a))
  {
    match a
    case Take =>
    case Timeout =>
    case Hangup =>
    case Drop =>
    case _ =>
  }

  lemma {:induction false} StepKeeps(s: State, a: Action)
    requires Inv(s) && Enabled(s, a)
    ensures Inv(Do(s, a))
  {
    FlowKept(s, a);
    ToldKept(s, a);
    ChildKept(s, a);
    hide FlowOk, ToldOk, ChildOk, Do, Enabled;
  }

  lemma {:induction false} StepKeepsSetting(s: State, a: Action)
    requires Enabled(s, a)
    ensures Do(s, a).kind == s.kind && Do(s, a).timed == s.timed && Do(s, a).script == s.script
    ensures a != Timeout && s.ending != ByStall ==> Do(s, a).ending != ByStall
    ensures a != Drop && !s.dropped && s.ending != ByDrop ==> !Do(s, a).dropped && Do(s, a).ending != ByDrop
  {
    hide Verdict, Sent, Capacity;
    match a
    case Take =>
    case Timeout =>
    case Hangup =>
    case Drop =>
    case _ =>
  }

  // ----- every interleaving -----

  /** `s` is reached by these interleaved steps. */
  ghost predicate Reaches(kind: Kind, timed: bool, script: seq<Item>, actions: seq<Action>, s: State)
    decreases |actions|
  {
    if actions == [] then s == Start(kind, timed, script)
    else exists p: State :: Reaches(kind, timed, script, Front(actions), p) && Steps(p, Last(actions), s)
  }

  ghost predicate Steps(p: State, a: Action, s: State) {
    Enabled(p, a) && s == Do(p, a)
  }

  lemma {:induction false} StartHolds(kind: Kind, timed: bool, script: seq<Item>)
    ensures Inv(Start(kind, timed, script))
  {
    assert Tells(Start(kind, timed, script), []);
  }

  lemma {:induction false} ReachedHolds(kind: Kind, timed: bool, script: seq<Item>, actions: seq<Action>, s: State)
    requires Reaches(kind, timed, script, actions, s)
    ensures Inv(s) && s.kind == kind && s.timed == timed && s.script == script
    ensures Timeout !in actions ==> s.ending != ByStall
    ensures Drop !in actions ==> !s.dropped && s.ending != ByDrop
    decreases |actions|
  {
    if actions == [] {
      StartHolds(kind, timed, script);
    } else {
      var a := Last(actions);
      var p :| Reaches(kind, timed, script, Front(actions), p) && Steps(p, a, s);
      ReachedHolds(kind, timed, script, Front(actions), p);
      StepKeeps(p, a);
      StepKeepsSetting(p, a);
      hide Inv, Do, Enabled;
      assert a in actions && forall x <- Front(actions) :: x in actions;
    }
  }

  /** What a consumer may be told of a script: its chunks in order, then at most one error,
      the script's own or a stall or the child's complaint, then nothing but the end. */
  predicate Lawful(seen: seq<Seen>, script: seq<Item>) {
    seen == []
    || match seen[0]
       case Got(Chunk(b)) => script != [] && script[0] == Chunk(b) && Lawful(seen[1..], script[1..])
       case Got(Fault(e)) => script != [] && script[0] == Fault(e) && AllEnded(seen[1..])
       case _ => AllEnded(seen[1..])
  }

  lemma {:induction false} ToldIsLawful(items: seq<Item>, tail: seq<Seen>, script: seq<Item>)
    requires items <= script
    requires (AllChunks(items) && (tail == [] || (!tail[0].Got? && AllEnded(tail[1..]))))
          || (items != [] && AllChunks(Front(items)) && Last(items).Fault? && AllEnded(tail))
    ensures Lawful(Delivered(items) + tail, script)
  {
    if items == [] {
      assert Delivered(items) + tail == tail;
    } else {
      var seen := Delivered(items) + tail;
      assert seen[1..] == Delivered(items[1..]) + tail && seen[0] == Got(items[0]);
      if |items| == 1 {
        assert Front(items) == [] && items[1..] == [] && Delivered(items[1..]) + tail == tail;
        assert items[0].Chunk? ==> AllChunks(items[1..]);
      } else {
        assert items[0] == Front(items)[0] && Front(items[1..]) == Front(items)[1..] && Last(items[1..]) == Last(items);
        assert items[0] in Front(items) && items[0] in items;
      }
      if items[0].Chunk? {
        ToldIsLawful(items[1..], tail, script[1..]);
      }
    }
  }

  /** Over every interleaving of worker, consumer, timeout and drop, the consumer is told a
      prefix of the reader's chunks, then at most one error, then only the end. */
  lemma {:induction false} EveryRunIsLawful(kind: Kind, timed: bool, script: seq<Item>, actions: seq<Action>, s: State)
    requires Reaches(kind, timed, script, actions, s)
    ensures Lawful(s.seen, script)
  {
    ReachedHolds(kind, timed, script, actions, s);
    var tail: seq<Seen> :| Tells(s, tail);
    assert s.handed <= script;
    if s.ending == ByEof || s.ending == ByStall {
      assert !tail[0].Got?;
    }
    ToldIsLawful(s.handed, tail, script);
  }

  /** With no timeout and no drop, once the consumer has been told anything but an item, every
      chunk the reader produced has arrived, in order. */
  lemma {:induction false} CleanEndDeliversAll(
    kind: Kind, timed: bool, script: seq<Item>, actions: seq<Action>, s: State)
    requires Reaches(kind, timed, script, actions, s) && Timeout !in actions && Drop !in actions
    requires s.done && AllChunks(script)
    ensures exists n: nat :: s.seen == Delivered(script) + [Verdict(kind)] + Repeat(n)
  {
    ReachedHolds(kind, timed, script, actions, s);
    var tail: seq<Seen> :| Tells(s, tail);
    LastOfPrefix(s.handed, script);
    assert s.ending == ByEof;
    EndedIsRepeat(tail[1..]);
    hide Delivered, Repeat, FlowOk, ChildOk, AllChunks, AllEnded;
    var n: nat := |tail| - 1;
    VerdictFirst(s.seen, Delivered(script), Verdict(kind), tail, Repeat(n));
  }

  lemma {:induction false} VerdictFirst(
    seen: seq<Seen>, items: seq<Seen>, verdict: Seen, tail: seq<Seen>, rest: seq<Seen>)
    requires seen == items + tail && tail != [] && tail[0] == verdict && tail[1..] == rest
    ensures seen == items + [verdict] + rest
  {
    assert tail == [verdict] + rest;
  }

  lemma {:induction false} LastOfPrefix(items: seq<Item>, script: seq<Item>)
    requires items <= script && AllChunks(script)
    ensures items != [] ==> Last(items).Chunk?
  {
    assert items != [] ==> Last(items) in script;
  }

  function Repeat(n: nat): seq<Seen> {
    if n == 0 then [] else [Ended] + Repeat(n - 1)
  }

  lemma {:induction false} EndedIsRepeat(seen: seq<Seen>)
    requires AllEnded(seen)
    ensures seen == Repeat(|seen|)
  {
    if seen != [] {
      assert seen[0] in seen && seen == [seen[0]] + seen[1..] && forall x <- seen[1..] :: x in seen;
      EndedIsRepeat(seen[1..]);
    }
  }

  /** A child is never waited on twice, and has been waited on once the stream is done or
      dropped, on every path; only a child that was not killed has its stderr joined. */
  lemma {:induction false} ChildIsReapedOnce(kind: Kind, timed: bool, script: seq<Item>, actions: seq<Action>, s: State)
    requires Reaches(kind, timed, script, actions, s) && kind.Child?
    ensures s.waits <= 1 && (s.done || s.dropped <==> s.waits == 1)
    ensures s.joined ==> !s.killed
    ensures s.waits == 1 ==> s.joined || s.killed
  {
    ReachedHolds(kind, timed, script, actions, s);
    hide FlowOk, ToldOk;
  }

  // ----- what may be said and how far the worker may run -----

  /** The worker holds at most the channel's fill and one item more, and a stall takes a timer. */
  ghost predicate Restrained(s: State) {
    |s.queue| <= (if s.kind.HttpBody? then 0 else 4) && (s.ending == ByStall ==> s.timed)
  }

  lemma {:induction false} StepRestrained(s: State, a: Action)
    requires Restrained(s) && Enabled(s, a)
    ensures Restrained(Do(s, a))
  {
    hide Verdict, Sent;
    match a
    case Take => TakeMoves(s); hide Do;
    case Push => assert |s.queue + [s.worker.item]| == |s.queue| + 1;
    case Timeout =>
    case Hangup =>
    case Drop =>
    case _ =>
  }

  lemma {:induction false} ReachedRestrained(kind: Kind, timed: bool, script: seq<Item>, actions: seq<Action>, s: State)
    requires Reaches(kind, timed, script, actions, s)
    ensures Restrained(s)
    decreases |actions|
  {
    if actions != [] {
      var p :| Reaches(kind, timed, script, Front(actions), p) && Steps(p, Last(actions), s);
      ReachedRestrained(kind, timed, script, Front(actions), p);
      StepRestrained(p, Last(actions));
      hide Do, Enabled, Restrained;
    }
  }

  /** The reader never runs further ahead of the consumer than one item for a body, five for a
      child: four in the channel and the one being sent. */
  lemma {:induction false} ReadAheadIsBounded(kind: Kind, timed: bool, script: seq<Item>, actions: seq<Action>, s: State)
    requires Reaches(kind, timed, script, actions, s) && !s.dropped
    ensures s.pos <= |s.handed| + if kind.HttpBody? then 1 else 5
  {
    ReachedHolds(kind, timed, script, actions, s);
    ReachedRestrained(kind, timed, script, actions, s);
    hide ToldOk, ChildOk, AllChunks, Reaches;
    assert |s.script[..s.pos]| == |s.handed| + |s.queue| + |Held(s.worker)|;
  }

  /** An error other than an item is the first thing told after the items. */
  lemma {:induction false} ErrorIsFirst(s: State, tail: seq<Seen>, x: Seen)
    requires Tells(s, tail) && x in s.seen && !x.Got? && x != Ended
    ensures tail != [] && tail[0] == x && Delivered(s.handed) + [x] <= s.seen
    ensures s.ending == ByStall || s.ending == ByEof
  {
    DeliveredAreItems(s.handed);
    hide Delivered, AllChunks, Verdict;
    assert x in tail;
    assert tail == [tail[0]] + tail[1..];
    assert s.seen == Delivered(s.handed) + [tail[0]] + tail[1..];
  }

  /** Every error the consumer is told is earned: a stall by a timer that was set, a complaint by a
      child that failed and left that text, after all its output. */
  lemma {:induction false} ErrorsAreEarned(kind: Kind, timed: bool, script: seq<Item>, actions: seq<Action>, s: State, x: Seen)
    requires Reaches(kind, timed, script, actions, s) && x in s.seen
    ensures x == Stalled ==> timed
    ensures x.Complained? ==>
      && kind == Child(x.exit, x.text) && x.exit != Some(0) && x.text != "" && Delivered(script) + [x] <= s.seen
  {
    ReachedHolds(kind, timed, script, actions, s);
    ReachedRestrained(kind, timed, script, actions, s);
    if x == Stalled || x.Complained? {
      var tail: seq<Seen> :| Tells(s, tail);
      hide FlowOk, ChildOk, AllChunks, Delivered, Reaches, ToldOk, AllEnded;
      ErrorIsFirst(s, tail, x);
    }
  }

  lemma {:induction false} DeliveredAreItems(items: seq<Item>)
    ensures forall x <- Delivered(items) :: x.Got?
  {
    if items != [] {
      DeliveredAreItems(items[1..]);
    }
  }

  /** And a failed child that left a text is always heard: only an exit with 0 or a silent one ends
      quietly. */
  lemma {:induction false} VerdictIs(kind: Kind)
    ensures Verdict(kind) == Ended <==> kind.HttpBody? || kind.exit == Some(0) || kind.complaint == ""
    ensures Verdict(kind) != Ended ==> Verdict(kind) == Complained(kind.exit, kind.complaint)
  {
  }

  /** No deadlock: while the consumer waits, the worker can move or the wait can end. */
  lemma {:induction false} WaitingMoves(kind: Kind, timed: bool, script: seq<Item>, actions: seq<Action>, s: State)
    requires Reaches(kind, timed, script, actions, s) && Waiting(s)
    ensures Enabled(s, Read) || Enabled(s, Take) || Enabled(s, Hangup)
    ensures timed ==> Enabled(s, Timeout) && Last(Do(s, Timeout).seen) == Stalled && Do(s, Timeout).done
  {
    ReachedHolds(kind, timed, script, actions, s);
    hide Inv, Reaches;
  }

  // ----- the iterator itself -----

  /** What `recv` or `recv_timeout` came to. */
  datatype Received = Arrived(item: Item) | TimedOut | Disconnected

  /** The consumer's half of the state. */
  datatype Body = Body(done: bool, waits: nat, killed: bool, joined: bool)

  function BodyOf(s: State): Body {
    Body(s.done, s.waits, s.killed, s.joined)
  }

  function Reaped(kind: Kind, b: Body, kill: bool): Body {
    if kind.HttpBody? then b.(done := true)
    else Body(true, b.waits + 1, b.killed || kill, b.joined || !kill)
  }

  /** What one `next` leaves and returns. */
  function Stepped(kind: Kind, b: Body, received: Received): (Body, Seen) {
    if b.done then (b, Ended)
    else
      match received
      case Arrived(item) => (if item.Fault? then Reaped(kind, b, true) else b, Got(item))
      case TimedOut => (Reaped(kind, b, true), Stalled)
      case Disconnected => (Reaped(kind, b, false), Verdict(kind))
  }

  class ChunkReader {
    const kind: Kind
    var done: bool
    var waits: nat
    var killed: bool
    var joined: bool

    function View(): Body
      reads this
    {
      Body(done, waits, killed, joined)
    }

    constructor (kind: Kind)
      ensures this.kind == kind && View() == Body(false, 0, false, false)
    {
      this.kind, done, waits, killed, joined := kind, false, 0, false, false;
    }

    /** Kill first on a stall or abandonment, and then leave stderr alone: a grandchild may
        still hold its pipe. */
    method Reap(kill: bool)
      modifies this
      ensures View() == Reaped(kind, old(View()), kill)
    {
      done := true;
      if kind.HttpBody? {
        return;
      }
      waits := waits + 1;
      if kill {
        killed := true;
      } else {
        joined := true;
      }
    }

    method Next(received: Received) returns (seen: Seen)
      modifies this
      ensures (View(), seen) == Stepped(kind, old(View()), received)
    {
      if done {
        return Ended;
      }
      match received {
        case Arrived(item) =>
          if item.Fault? {
            Reap(true);
          }
          seen := Got(item);
        case TimedOut =>
          Reap(true);
          seen := Stalled;
        case Disconnected =>
          Reap(false);
          seen := Verdict(kind);
      }
    }

    /** The zombie backstop: an abandoned stream still kills and reaps. */
    method Drop()
      modifies this
      ensures View() == if old(done) then old(View()) else Reaped(kind, old(View()), true)
    {
      if !done {
        Reap(true);
      }
    }
  }

  /** The iterator's calls are the consumer steps of the transition system. */
  lemma {:induction false} CallsAreSteps(s: State, a: Action)
    requires Enabled(s, a)
    ensures
      var s', b := Do(s, a), BodyOf(s);
      match a
      case Take => (BodyOf(s'), Last(s'.seen)) == Stepped(s.kind, b, Arrived(Offered(s)))
      case Timeout => (BodyOf(s'), Last(s'.seen)) == Stepped(s.kind, b, TimedOut)
      case Hangup => (BodyOf(s'), Last(s'.seen)) == Stepped(s.kind, b, Disconnected)
      case Ask => (BodyOf(s'), Last(s'.seen)) == (b, Ended)
      case Drop => BodyOf(s') == if s.done then b else Reaped(s.kind, b, true)
      case _ => BodyOf(s') == b && s'.seen == s.seen
  {
    hide Capacity, Verdict;
    match a
    case Take => TakeMoves(s);
    case Timeout =>
    case Hangup =>
    case Drop =>
    case _ =>
  }
}
