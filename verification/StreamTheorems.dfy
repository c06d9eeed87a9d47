/** What a reader of the event stream may rely on (src/run/events/stream.rs), for every
    body, every framing and every decoder that keeps the contract. */
module StreamTheorems {
  import opened Base
  import opened Decoders
  import opened Canonical
  import opened DecodeContract
  import opened StreamDriver

  /** The decode state a body ends in. */
  ghost function FinalState(framing: Framing, decode: Decode, body: seq<BodyItem>): DecodeState {
    DecodeAll(decode, AllFrames(framing, ChunksOf(body), Drop in body), FRESH).1
  }

  ghost function Decoded(framing: Framing, decode: Decode, body: seq<BodyItem>): seq<Event> {
    DecodeAll(decode, AllFrames(framing, ChunksOf(body), Drop in body), FRESH).0
  }

  /** Only the bytes and the way the body ended matter, never where the transport cut it. */
  lemma {:induction false} RechunkingIsInvisible(
    framing: Framing, decode: Decode, sample: Sample, a: seq<BodyItem>, b: seq<BodyItem>)
    requires !framing.Identity?
    requires Flatten(ChunksOf(a)) == Flatten(ChunksOf(b)) && (Drop in a <==> Drop in b)
    ensures EagerTrace(framing, decode, sample, a) == EagerTrace(framing, decode, sample, b)
  {
  }

  /** The identity framing is the exception: one frame per chunk, verbatim. */
  lemma {:induction false} IdentityShowsTheChunks(a: Bytes, b: Bytes)
    ensures Flatten([a, b]) == Flatten([a + b])
    ensures Framed(Identity, [a, b]) != Framed(Identity, [a + b])
  {
    assert [a, b][1..] == [b] && [b][1..] == [] && [a + b][1..] == [];
    assert a + (b + []) == a + b;
    assert |Framed(Identity, [a, b])| == 2;
  }

  lemma {:induction false} ClosingClears(s: DecodeState)
    ensures Brackets(s.open.Keys, Stops(Sorted(s.open.Keys))) == Some({})
  {
    SortedHolds(s.open.Keys);
    StopsClose(Sorted(s.open.Keys), s.open.Keys);
    assert s.open.Keys - s.open.Keys == {};
  }

  lemma {:induction false} ErrorIsNeutral(events: seq<Event>, e: CanonicalError)
    ensures Brackets({}, events + [Error(e)]) == Brackets({}, events)
  {
    BracketsAppend({}, events, [Error(e)]);
    assert [Error(e)][1..] == [];
  }

  /** When the driver injects an error it is the last event, and every block started before
      it has been stopped exactly once before it. */
  lemma {:induction false} InjectedErrorComesLast(
    framing: Framing, decode: Decode, inv: DecodeState -> bool, sample: Sample, body: seq<BodyItem>)
    requires Agrees(decode, inv)
    requires Drop in body || !FinalState(framing, decode, body).terminated
    ensures
      var trace := EagerTrace(framing, decode, sample, body);
      var nothingFramed := AllFrames(framing, ChunksOf(body), Drop in body) == [];
      && trace != []
      && Balanced(trace[..|trace| - 1])
      && Decoded(framing, decode, body) <= trace[..|trace| - 1]
      && trace[|trace| - 1] == Error(
           if Drop in body then DROPPED
           else if nothingFramed then PrematureWithBody(sample, Head(Flatten(ChunksOf(body))))
           else PREMATURE)
  {
    hide Framed, Flushed, DecodeAll, ChunksOf, Flatten, Head, Sorted, Stops, Brackets;
    var frames := AllFrames(framing, ChunksOf(body), Drop in body);
    var (events, s) := DecodeAll(decode, frames, FRESH);
    AgreesOnRuns(decode, inv, frames, FRESH);
    assert FRESH.open.Keys == {};
    var stops := Stops(Sorted(s.open.Keys));
    BracketsAppend({}, events, stops);
    ClosingClears(s);
    var trace := EagerTrace(framing, decode, sample, body);
    assert trace[..|trace| - 1] == events + stops;
  }

  /** A whole trace is balanced exactly when the body dropped or the decode state it ends in is
      settled: nothing stops a block that is open in a state already marked as the end. Which
      input ends in such a state is the decoder's to say. And nothing is injected exactly when
      the body was not dropped and the provider ended the stream. */
  lemma {:induction false} BalancedIff(
    framing: Framing, decode: Decode, inv: DecodeState -> bool, sample: Sample, body: seq<BodyItem>)
    requires Agrees(decode, inv)
    ensures Balanced(EagerTrace(framing, decode, sample, body))
       <==> Drop in body || Settled(FinalState(framing, decode, body))
    ensures EagerTrace(framing, decode, sample, body) == Decoded(framing, decode, body)
       <==> Drop !in body && FinalState(framing, decode, body).terminated
  {
    hide Framed, Flushed, DecodeAll, ChunksOf, Flatten, Head, Sorted, Stops, Brackets;
    var frames := AllFrames(framing, ChunksOf(body), Drop in body);
    var (events, s) := DecodeAll(decode, frames, FRESH);
    AgreesOnRuns(decode, inv, frames, FRESH);
    assert FRESH.open.Keys == {};
    var trace := EagerTrace(framing, decode, sample, body);
    if Drop in body || !s.terminated {
      InjectedErrorComesLast(framing, decode, inv, sample, body);
      ErrorIsNeutral(trace[..|trace| - 1], trace[|trace| - 1].error);
      assert trace == trace[..|trace| - 1] + [trace[|trace| - 1]];
    } else {
      assert trace == events + [] == events;
      assert s.open.Keys == {} ==> s.open == map[];
    }
  }

  /** A decoder that drains before it terminates balances every body. */
  lemma {:induction false} ContractBalances(
    framing: Framing, decode: Decode, inv: DecodeState -> bool, sample: Sample, body: seq<BodyItem>)
    requires Agrees(decode, inv) && DrainsFirst(decode, inv)
    ensures Balanced(EagerTrace(framing, decode, sample, body))
  {
    DrainsOnRuns(decode, inv, AllFrames(framing, ChunksOf(body), Drop in body), FRESH);
    BalancedIff(framing, decode, inv, sample, body);
  }

  /** A decoder that drains as it ends balances every body on which nothing follows the end. */
  lemma {:induction false} EndingLastBalances(
    framing: Framing, decode: Decode, inv: DecodeState -> bool, sample: Sample, body: seq<BodyItem>)
    requires Agrees(decode, inv) && DrainsAtEnd(decode, inv)
    requires EndsLast(decode, AllFrames(framing, ChunksOf(body), Drop in body), FRESH)
    ensures Balanced(EagerTrace(framing, decode, sample, body))
  {
    QuietKeepsContract(decode, inv);
    ContractBalances(framing, Quiet(decode), inv, sample, body);
    QuietIsDecode(decode, AllFrames(framing, ChunksOf(body), Drop in body), FRESH);
    hide Agrees, DrainsFirst, DrainsAtEnd, EndsLast, DecodeAll, Balanced, Framed, Flushed;
  }
}
