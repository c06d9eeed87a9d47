/** The seam between framing and decoding (src/protocol/frame.rs): the caller-owned decode
    state, `decode` as a pure step over it, and what the driver may assume of a step. */
module DecodeContract {
  import opened Base
  import opened SseGrammar
  import opened Canonical

  datatype DecodeState = DecodeState(
    open: map<nat, ContentKind>, terminated: bool, started: bool,
    toolIndex: map<nat, nat>, partIndex: map<(nat, nat), nat>,
    refusal: string, errorTag: Option<string>)

  const FRESH := DecodeState(map[], false, false, map[], map[], "", None)

  type Decode = (Frame, DecodeState) -> (Result<seq<Event>, CanonicalError>, DecodeState)

  /** What one decode step puts on the queue: its events, or its error in-band. */
  function Emitted(r: Result<seq<Event>, CanonicalError>): seq<Event> {
    match r
    case Ok(events) => events
    case Err(e) => [Error(e)]
  }

  function DecodeAll(decode: Decode, frames: seq<Frame>, s: DecodeState): (seq<Event>, DecodeState)
  {
    if frames == [] then ([], s)
    else
      var (r, s1) := decode(frames[0], s);
      var (rest, s2) := DecodeAll(decode, frames[1..], s1);
      (Emitted(r) + rest, s2)
  }

  lemma {:induction false} DecodeAllAppend(decode: Decode, a: seq<Frame>, b: seq<Frame>, s: DecodeState)
    ensures
      var (e1, s1) := DecodeAll(decode, a, s);
      var (e2, s2) := DecodeAll(decode, b, s1);
      DecodeAll(decode, a + b, s) == (e1 + e2, s2)
  {
    if a == [] {
      assert a + b == b;
      assert [] + DecodeAll(decode, b, s).0 == DecodeAll(decode, b, s).0;
    } else {
      assert (a + b)[1..] == a[1..] + b;
      var (r, s1) := decode(a[0], s);
      DecodeAllAppend(decode, a[1..], b, s1);
      var (e1, mid) := DecodeAll(decode, a[1..], s1);
      var e2 := DecodeAll(decode, b, mid).0;
      assert Emitted(r) + (e1 + e2) == (Emitted(r) + e1) + e2;
    }
  }

  lemma {:induction false} DecodeAllOne(decode: Decode, f: Frame, s: DecodeState)
    ensures DecodeAll(decode, [f], s) == (Emitted(decode(f, s).0), decode(f, s).1)
  {
    assert [f][1..] == [];
    assert Emitted(decode(f, s).0) + [] == Emitted(decode(f, s).0);
  }

  /** The first clause: from a state of the decoder's own invariant, the starts and stops
      emitted are exactly the changes to `open`. */
  ghost predicate Agrees(decode: Decode, inv: DecodeState -> bool) {
    && inv(FRESH)
    && forall f: Frame, s: DecodeState :: inv(s) ==>
         var (r, s1) := decode(f, s);
         inv(s1) && Brackets(s.open.Keys, Emitted(r)) == Some(s1.open.Keys)
  }

  /** The second clause: a terminated stream has no open block, and none opens on one. */
  ghost predicate DrainsFirst(decode: Decode, inv: DecodeState -> bool) {
    forall f: Frame, s: DecodeState :: inv(s) && Settled(s) ==> Settled(decode(f, s).1)
  }

  predicate Settled(s: DecodeState) {
    s.terminated ==> s.open == map[]
  }

  lemma {:induction false} AgreesOnRuns(decode: Decode, inv: DecodeState -> bool, frames: seq<Frame>, s: DecodeState)
    requires Agrees(decode, inv) && inv(s)
    ensures
      var (events, s') := DecodeAll(decode, frames, s);
      inv(s') && Brackets(s.open.Keys, events) == Some(s'.open.Keys)
  {
    if frames != [] {
      var (r, s1) := decode(frames[0], s);
      AgreesOnRuns(decode, inv, frames[1..], s1);
      BracketsAppend(s.open.Keys, Emitted(r), DecodeAll(decode, frames[1..], s1).0);
    }
  }

  lemma {:induction false} DrainsOnRuns(decode: Decode, inv: DecodeState -> bool, frames: seq<Frame>, s: DecodeState)
    requires Agrees(decode, inv) && DrainsFirst(decode, inv) && inv(s) && Settled(s)
    ensures Settled(DecodeAll(decode, frames, s).1)
  {
    if frames != [] {
      DrainsOnRuns(decode, inv, frames[1..], decode(frames[0], s).1);
    }
  }

  /** What a decoder can promise by itself: the step that marks the end closes every block. */
  ghost predicate DrainsAtEnd(decode: Decode, inv: DecodeState -> bool) {
    forall f: Frame, s: DecodeState :: inv(s) && !s.terminated ==> Settled(decode(f, s).1)
  }

  /** The same decoder, deaf once the stream is over. */
  ghost function Quiet(decode: Decode): Decode {
    (f: Frame, s: DecodeState) => if s.terminated then (Ok([]), s) else decode(f, s)
  }

  /** A decoder that drains as it ends keeps both clauses once it is deaf after the end. */
  lemma {:induction false} QuietKeepsContract(decode: Decode, inv: DecodeState -> bool)
    requires Agrees(decode, inv) && DrainsAtEnd(decode, inv)
    ensures Agrees(Quiet(decode), inv) && DrainsFirst(Quiet(decode), inv)
  {
    forall f: Frame, s: DecodeState | inv(s)
      ensures
        var (r, s1) := Quiet(decode)(f, s);
        inv(s1) && Brackets(s.open.Keys, Emitted(r)) == Some(s1.open.Keys)
    {
      var (r, s1) := decode(f, s);
      assert inv(s1) && Brackets(s.open.Keys, Emitted(r)) == Some(s1.open.Keys);
    }
  }

  /** No frame follows one that marked the end. */
  ghost predicate EndsLast(decode: Decode, frames: seq<Frame>, s: DecodeState) {
    frames == [] || (!s.terminated && EndsLast(decode, frames[1..], decode(frames[0], s).1))
  }

  /** On a stream that ends last there is nothing to be deaf to. */
  lemma {:induction false} QuietIsDecode(decode: Decode, frames: seq<Frame>, s: DecodeState)
    requires EndsLast(decode, frames, s)
    ensures DecodeAll(Quiet(decode), frames, s) == DecodeAll(decode, frames, s)
  {
    if frames != [] {
      QuietIsDecode(decode, frames[1..], decode(frames[0], s).1);
    }
  }
}
