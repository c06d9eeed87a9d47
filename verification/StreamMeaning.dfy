/** What draining the event stream of src/run/events/stream.rs comes to, said from the body alone:
    which frames it holds, how the decode state threads through them, and what closes it. */
module StreamMeaning {
  import opened Base
  import opened SseGrammar
  import opened Decoders
  import opened Canonical
  import opened DecodeContract
  import opened StreamDriver
  import Sse = SseMeaning

  // ----- the frames of a body -----

  /** The frames of a body that ended, or of one that was dropped: then only those complete. */
  function BodyFrames(framing: Framing, chunks: seq<Bytes>, dropped: bool): seq<Frame> {
    var bytes := Flatten(chunks);
    match framing
    case Sse => if dropped then Ready(SseBlocks, bytes) else WholeParse(SseBlocks, bytes)
    case Ndjson => if dropped then Ready(NdjsonLines, bytes) else WholeParse(NdjsonLines, bytes)
    case Identity => Verbatim(chunks)
  }

  lemma {:induction false} AllFramesAre(framing: Framing, chunks: seq<Bytes>, dropped: bool)
    ensures AllFrames(framing, chunks, dropped) == BodyFrames(framing, chunks, dropped)
  {
    hide Ready, Flush;
    var frames := Framed(framing, chunks);
    assert frames + [] == frames;
  }

  /** Under SSE framing: what each complete block means, and on a body that was not dropped what
      it ends in without a blank line; wherever the transport cut it. */
  lemma {:induction false} SseBodyMeans(s: Sse.Stream, chunks: seq<Bytes>, dropped: bool)
    requires Sse.WellFormed(s) && Flatten(chunks) == Sse.Input(s)
    ensures AllFrames(Framing.Sse, chunks, dropped) == Sse.Meanings(s.blocks) + if dropped then [] else Sse.Told(s.tail)
  {
    hide AllFrames, Sse.WellFormed, Sse.Input, Sse.Meanings, Sse.Told, Ready, Flush;
    AllFramesAre(Framing.Sse, chunks, dropped);
    Sse.InputMeans(s);
    Sse.ReadyMeans(s);
    assert Sse.Meanings(s.blocks) + [] == Sse.Meanings(s.blocks);
  }

  /** Under NDJSON framing: every line that is not blank, the last one too unless the body was
      dropped before its line feed. */
  lemma {:induction false} NdjsonBodyMeans(lines: seq<Sse.JsonLine>, last: Sse.JsonLine, chunks: seq<Bytes>, dropped: bool)
    requires (forall l <- lines :: Sse.IsLine(l)) && Sse.IsLine(last)
    requires Flatten(chunks) == Sse.Lines(lines) + Sse.RawLine(last)
    ensures AllFrames(Ndjson, chunks, dropped) == Sse.LineFrames(if dropped then lines else lines + [last])
  {
    hide AllFrames, Sse.IsLine, Sse.LineFrames, Sse.Lines, Sse.RawLine, Flush, Frames;
    AllFramesAre(Ndjson, chunks, dropped);
    Sse.LinesMean(lines, last);
    Sse.LinesFrames(lines, last);
  }

  /** Under identity framing: every chunk, verbatim, and nothing at the end. */
  lemma {:induction false} IdentityBodyMeans(chunks: seq<Bytes>, dropped: bool)
    ensures
      var frames := AllFrames(Identity, chunks, dropped);
      |frames| == |chunks| && forall i :: 0 <= i < |chunks| ==> frames[i] == Frame(None, chunks[i], None)
  {
    AllFramesAre(Identity, chunks, dropped);
    hide AllFrames;
  }

  // ----- the trace -----

  /** The states a decoder goes through and what it says at each frame, an error in-band. */
  ghost predicate Threads(decode: Decode, frames: seq<Frame>, s: DecodeState, states: seq<DecodeState>, said: seq<seq<Event>>) {
    && |states| == |frames| + 1 && |said| == |frames| && states[0] == s
    && forall i :: 0 <= i < |frames| ==>
         var (r, after) := decode(frames[i], states[i]);
         && states[i + 1] == after
         && match r
            case Ok(events) => said[i] == events
            case Err(e) => said[i] == [Error(e)]
  }

  /** What closes a stream that was dropped, or that the provider had not ended: one stop for each
      block still open, ascending, then the one error. */
  ghost predicate Closes(closing: seq<Event>, s: DecodeState, error: CanonicalError) {
    && closing != [] && Last(closing) == Error(error)
    && (forall ev <- Front(closing) :: ev.ContentStop?)
    && (forall k :: k in s.open <==> ContentStop(k) in closing)
    && (forall i, j :: 0 <= i < j < |closing| - 1 ==> closing[i].index < closing[j].index)
  }

  function ClosingError(sample: Sample, dropped: bool, framed: bool, bytes: Bytes): CanonicalError {
    if dropped then CanonicalError(Transport, "transport stream dropped", None, None)
    else
      CanonicalError(Transport, "premature upstream EOF",
                     if framed || bytes == [] then None else Some(sample(bytes[..Min(|bytes|, 8192)])), None)
  }

  /** The events of a body: those its frames decode to, in order, and its closing. */
  ghost predicate IsTrace(
    framing: Framing, decode: Decode, sample: Sample, body: seq<BodyItem>, events: seq<Event>,
    states: seq<DecodeState>, said: seq<seq<Event>>, closing: seq<Event>)
  {
    var chunks, dropped := ChunksOf(body), Drop in body;
    var frames := BodyFrames(framing, chunks, dropped);
    && Threads(decode, frames, FRESH, states, said)
    && events == Flatten(said) + closing
    && if dropped || !Last(states).terminated
       then Closes(closing, Last(states), ClosingError(sample, dropped, frames != [], Flatten(chunks)))
       else closing == []
  }

  lemma {:induction false} DecodeThreads(decode: Decode, frames: seq<Frame>, s: DecodeState)
    returns (states: seq<DecodeState>, said: seq<seq<Event>>)
    ensures Threads(decode, frames, s, states, said)
    ensures DecodeAll(decode, frames, s) == (Flatten(said), Last(states))
  {
    if frames == [] {
      states, said := [s], [];
    } else {
      var (r, after) := decode(frames[0], s);
      var states', said' := DecodeThreads(decode, frames[1..], after);
      states, said := [s] + states', [Emitted(r)] + said';
      assert said[1..] == said' && Last(states) == Last(states');
      forall i | 0 <= i < |frames|
        ensures
          var (r, after) := decode(frames[i], states[i]);
          && states[i + 1] == after
          && match r
             case Ok(events) => said[i] == events
             case Err(e) => said[i] == [Error(e)]
      {
        if i > 0 {
          assert frames[i] == frames[1..][i - 1] && states[i] == states'[i - 1] && said[i] == said'[i - 1];
          assert states[i + 1] == states'[i];
        }
      }
    }
  }

  lemma {:induction false} StopsAre(keys: seq<nat>)
    ensures |Stops(keys)| == |keys| && forall i :: 0 <= i < |keys| ==> Stops(keys)[i] == ContentStop(keys[i])
  {
    if keys != [] {
      StopsAre(keys[1..]);
    }
  }

  lemma {:induction false} AscendingMeans(keys: seq<nat>)
    requires Ascending(keys)
    ensures forall i, j :: 0 <= i < j < |keys| ==> keys[i] < keys[j]
  {
    if keys != [] {
      var rest := keys[1..];
      AscendingMeans(rest);
      forall i, j | 0 <= i < j < |keys|
        ensures keys[i] < keys[j]
      {
        assert keys[j] == rest[j - 1] && rest[j - 1] in rest;
        assert i > 0 ==> keys[i] == rest[i - 1];
      }
    }
  }

  lemma {:induction false} StopsHold(keys: seq<nat>, k: nat)
    ensures k in keys <==> ContentStop(k) in Stops(keys)
  {
    StopsAre(keys);
    hide Stops;
    if k in keys {
      var i :| 0 <= i < |keys| && keys[i] == k;
      assert Stops(keys)[i] == ContentStop(k);
    }
  }

  lemma {:induction false} StopsThenErrorCloses(s: DecodeState, error: CanonicalError)
    ensures Closes(Stops(Sorted(s.open.Keys)) + [Error(error)], s, error)
  {
    hide Stops, Sorted, Ascending, Closes;
    var keys := Sorted(s.open.Keys);
    SortedHolds(s.open.Keys);
    StopsAre(keys);
    AscendingMeans(keys);
    forall k: nat
      ensures k in s.open <==> ContentStop(k) in Stops(keys)
    {
      StopsHold(keys, k);
      assert k in s.open <==> k in Elements(keys);
    }
    ErrorCloses(s, keys, Stops(keys), error);
  }

  lemma {:induction false} ErrorCloses(s: DecodeState, keys: seq<nat>, stops: seq<Event>, error: CanonicalError)
    requires |stops| == |keys| && forall i :: 0 <= i < |keys| ==> stops[i] == ContentStop(keys[i])
    requires forall i, j :: 0 <= i < j < |keys| ==> keys[i] < keys[j]
    requires forall k :: k in s.open <==> ContentStop(k) in stops
    ensures Closes(stops + [Error(error)], s, error)
  {
    var closing := stops + [Error(error)];
    assert Front(closing) == stops && Last(closing) == Error(error);
    assert forall k: nat :: ContentStop(k) in closing <==> ContentStop(k) in stops;
    assert forall i :: 0 <= i < |stops| ==> closing[i] == stops[i];
  }

  /** The eager trace is the body's trace. */
  lemma {:induction false} TraceMeans(framing: Framing, decode: Decode, sample: Sample, body: seq<BodyItem>)
    ensures exists states, said, closing ::
      IsTrace(framing, decode, sample, body, EagerTrace(framing, decode, sample, body), states, said, closing)
  {
    hide AllFrames, BodyFrames, Stops, Sorted, Threads, Closes;
    var chunks, dropped := ChunksOf(body), Drop in body;
    AllFramesAre(framing, chunks, dropped);
    var frames := BodyFrames(framing, chunks, dropped);
    var states, said := DecodeThreads(decode, frames, FRESH);
    var s := DecodeAll(decode, frames, FRESH).1;
    var closing := Ending(sample, dropped, s, frames != [], Head(Flatten(chunks)));
    var error := ClosingError(sample, dropped, frames != [], Flatten(chunks));
    StopsThenErrorCloses(s, error);
    assert IsTrace(framing, decode, sample, body, EagerTrace(framing, decode, sample, body), states, said, closing);
  }

  /** Draining the iterator yields the trace of the body; by the contract of `Next`, everything
      after it is `None`. */
  method Collect(framing: Framing, decode: Decode, sample: Sample, body: seq<BodyItem>) returns (events: seq<Event>)
    ensures events == EagerTrace(framing, decode, sample, body)
    ensures exists states, said, closing :: IsTrace(framing, decode, sample, body, events, states, said, closing)
  {
    TraceMeans(framing, decode, sample, body);
    hide IsTrace;
    hide Frames, Tail, Body, Flatten, Framed, Flushed, Rest, DecodeAll, ChunksOf, EagerTrace;
    hide StreamEvents.Valid, StreamEvents.Remaining;
    var it := new StreamEvents(framing, decode, sample, body);
    events := [];
    var ev := it.Next();
    while ev.Some?
      invariant it.Valid() && fresh(it) && fresh(it.decoder) && fresh(it.decoder.sse) && fresh(it.decoder.ndjson)
      invariant EagerTrace(framing, decode, sample, body)
             == events + (if ev.Some? then [ev.value] else []) + it.Remaining()
      invariant ev.None? ==> it.Remaining() == []
      decreases |it.Remaining()| + if ev.Some? then 1 else 0
    {
      events := events + [ev.value];
      ev := it.Next();
    }
  }
}
