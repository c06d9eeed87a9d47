/** What a list of canonical events tells whoever listens, with the block indices gone: every
    delta is credited to the block open at its index, every tool call to its place among them. */
module TurnSayings {
  import opened Base
  import opened Canonical
  import opened TurnEvents

  datatype Saying =
    | Opened(id: Option<string>, model: Option<string>)
    | Thought(text: string)
    | Wrote(text: string)
    | Called(callId: string, name: string)
    | Argued(place: nat, text: string)
    | Ended(reason: FinishReason)
    | Counted(usage: Counters)
    | Failed(error: CanonicalError)
    | Stray

  /** The first place of `x`, or the length when it has none. */
  function Place(xs: seq<nat>, x: nat): (k: nat)
    ensures k <= |xs| && (k < |xs| ==> xs[k] == x) && (k == |xs| <==> x !in xs)
  {
    if xs == [] || xs[0] == x then 0 else 1 + Place(xs[1..], x)
  }

  predicate Distinct(xs: seq<nat>) {
    forall j, k :: 0 <= j < k < |xs| ==> xs[j] != xs[k]
  }

  function HeardDelta(before: seq<Event>, index: nat, delta: Delta): Saying {
    match OpenStart(before, index)
    case None => Stray
    case Some(p) =>
      match (KindAt(before, p), delta)
      case (TextKind, TextDelta(t)) => Wrote(t)
      case (ThinkingKind(_), ThinkingDelta(t)) => Thought(t)
      case (ToolUseKind(_, _), JsonDelta(t)) => Argued(Place(ToolStarts(before), p), t)
      case _ => Stray
  }

  /** What one event says after the others. */
  function Heard(before: seq<Event>, ev: Event): seq<Saying> {
    match ev
    case MessageStart(id, model) => [Opened(id, model)]
    case ContentStart(_, ToolUseKind(id, name)) => [Called(id, name)]
    case ContentDelta(index, delta) => [HeardDelta(before, index, delta)]
    case UsageEvent(usage) => [Counted(usage)]
    case Finish(reason) => [Ended(reason)]
    case Error(error) => [Failed(error)]
    case _ => []
  }

  function Hears(events: seq<Event>): seq<Saying>
    decreases |events|
  {
    if events == [] then [] else Hears(Front(events)) + Heard(Front(events), Last(events))
  }

  lemma {:induction false} HearsSnoc(events: seq<Event>, ev: Event)
    ensures Hears(events + [ev]) == Hears(events) + Heard(events, ev)
  {
    Snoc(events, ev);
  }

  // ----- which blocks are open -----

  /** The blocks open after these events are the ones in the map. */
  ghost predicate Matches(events: seq<Event>, open: map<nat, ContentKind>) {
    && (forall i: nat :: i in open <==> OpenStart(events, i).Some?)
    && (forall i: nat :: i in open ==> KindAt(events, OpenStart(events, i).value) == open[i])
  }

  lemma {:induction false} MatchesStart(events: seq<Event>, open: map<nat, ContentKind>, i: nat, kind: ContentKind)
    requires Matches(events, open) && i !in open
    ensures Matches(events + [ContentStart(i, kind)], open[i := kind])
  {
    hide OpenStart;
    forall j: nat
      ensures OpenStart(events + [ContentStart(i, kind)], j) == if j == i then Some(|events|) else OpenStart(events, j)
    {
      OpenStartSnoc(events, ContentStart(i, kind), j);
    }
  }

  /** An event that starts and stops nothing. */
  predicate Inert(ev: Event) {
    !ev.ContentStart? && !ev.ContentStop?
  }

  lemma {:induction false} InertOpens(events: seq<Event>, ev: Event, i: nat)
    requires Inert(ev)
    ensures OpenStart(events + [ev], i) == OpenStart(events, i)
    ensures ToolStarts(events + [ev]) == ToolStarts(events)
  {
    OpenStartSnoc(events, ev, i);
    ToolStartsSnoc(events, ev);
  }

  lemma {:induction false} MatchesInert(events: seq<Event>, open: map<nat, ContentKind>, ev: Event)
    requires Matches(events, open) && Inert(ev)
    ensures Matches(events + [ev], open)
  {
    hide OpenStart, Inert, ToolStarts;
    forall j: nat
      ensures OpenStart(events + [ev], j) == OpenStart(events, j)
    {
      InertOpens(events, ev, j);
    }
  }

  /** Stops close what they name and say nothing. */
  lemma {:induction false} StopsHush(events: seq<Event>, keys: seq<nat>, i: nat)
    ensures OpenStart(events + Stops(keys), i) == if i in keys then None else OpenStart(events, i)
    ensures ToolStarts(events + Stops(keys)) == ToolStarts(events)
    ensures Hears(events + Stops(keys)) == Hears(events)
    decreases |keys|
  {
    if keys == [] {
      assert events + Stops(keys) == events;
    } else {
      var front, ev := Front(keys), ContentStop(Last(keys));
      StopsHush(events, front, i);
      assert keys == front + [Last(keys)];
      StopsSnoc(front, Last(keys));
      assert events + Stops(keys) == events + Stops(front) + [ev];
      hide Stops;
      OpenStartSnoc(events + Stops(front), ev, i);
      ToolStartsSnoc(events + Stops(front), ev);
      HearsSnoc(events + Stops(front), ev);
      hide OpenStart, ToolStarts, Hears;
      assert ToolStarts(events) + [] == ToolStarts(events) && Hears(events) + [] == Hears(events);
    }
  }
}
