/** The streaming 2xx path of src/run/events/stream.rs: a pull iterator over the transport
    body, proved to yield, event for event, one eager fold of the whole body. */
module StreamDriver {
  import opened Base
  import opened SseGrammar
  import opened Decoders
  import opened Canonical
  import opened DecodeContract

  /** One item the transport body yields: a chunk, or a dropped connection. */
  datatype BodyItem = Chunk(bytes: Bytes) | Drop

  const BODY_CAP: nat := 8 * 1024

  function TransportErr(message: string): CanonicalError {
    CanonicalError(Transport, message, None, None)
  }

  const DROPPED := TransportErr("transport stream dropped")
  const PREMATURE := TransportErr("premature upstream EOF")

  /** How an error body is rendered for the caller: JSON when it parses, else its text. */
  type Sample = Bytes -> Json

  /** `premature_eof_with_body`: an empty head degrades to the bare error. */
  function PrematureWithBody(sample: Sample, head: Bytes): CanonicalError {
    PREMATURE.(providerDetail := if head == [] then None else Some(sample(head)))
  }

  function Head(bytes: Bytes): Bytes {
    bytes[..Min(|bytes|, BODY_CAP)]
  }

  // ----- the eager fold -----

  function ChunksOf(body: seq<BodyItem>): seq<Bytes> {
    if body == [] || body[0].Drop? then [] else [body[0].bytes] + ChunksOf(body[1..])
  }

  /** What follows the decoded events: on a drop, the stops and the drop; at an end of body,
      nothing if the provider said it was over, else the stops and the premature-EOF error. */
  ghost function Ending(sample: Sample, dropped: bool, s: DecodeState, framed: bool, head: Bytes): seq<Event> {
    if dropped then Stops(Sorted(s.open.Keys)) + [Error(DROPPED)]
    else if s.terminated then []
    else Stops(Sorted(s.open.Keys)) + [Error(if framed then PREMATURE else PrematureWithBody(sample, head))]
  }

  function AllFrames(framing: Framing, chunks: seq<Bytes>, dropped: bool): seq<Frame> {
    Framed(framing, chunks) + if dropped then [] else Flushed(framing, chunks)
  }

  /** The whole trace of a body, decided from its bytes alone. */
  ghost function EagerTrace(framing: Framing, decode: Decode, sample: Sample, body: seq<BodyItem>): seq<Event> {
    var frames := AllFrames(framing, ChunksOf(body), Drop in body);
    var (events, s) := DecodeAll(decode, frames, FRESH);
    events + Ending(sample, Drop in body, s, frames != [], Head(Flatten(ChunksOf(body))))
  }

  /** What is still to come once `seen` chunks have been pushed and decoded into `s`. */
  ghost function Rest(framing: Framing, decode: Decode, sample: Sample,
                      seen: seq<Bytes>, body: seq<BodyItem>, s: DecodeState): seq<Event>
    requires Framed(framing, seen) <= Framed(framing, seen + ChunksOf(body))
  {
    var chunks := seen + ChunksOf(body);
    var frames := AllFrames(framing, chunks, Drop in body);
    var (events, s') := DecodeAll(decode, frames[|Framed(framing, seen)|..], s);
    events + Ending(sample, Drop in body, s', frames != [], Head(Flatten(chunks)))
  }

  lemma {:induction false} RestAtStart(framing: Framing, decode: Decode, sample: Sample, body: seq<BodyItem>)
    ensures Framed(framing, []) == []
    ensures Rest(framing, decode, sample, [], body, FRESH) == EagerTrace(framing, decode, sample, body)
  {
    UndecidedHasNoBlock([]);
    assert [] + ChunksOf(body) == ChunksOf(body);
    var frames := AllFrames(framing, ChunksOf(body), Drop in body);
    assert frames[0..] == frames;
  }

  /** Pushing the next chunk emits a first part of what was to come and leaves the rest. */
  lemma {:induction false} RestAfterChunk(framing: Framing, decode: Decode, sample: Sample,
                       seen: seq<Bytes>, body: seq<BodyItem>, s: DecodeState, frames: seq<Frame>)
    requires body != [] && body[0].Chunk?
    requires Framed(framing, seen + [body[0].bytes]) == Framed(framing, seen) + frames
    ensures Framed(framing, seen) <= Framed(framing, seen + ChunksOf(body))
    ensures Framed(framing, seen + [body[0].bytes]) <= Framed(framing, seen + [body[0].bytes] + ChunksOf(body[1..]))
    ensures Rest(framing, decode, sample, seen, body, s)
         == DecodeAll(decode, frames, s).0
          + Rest(framing, decode, sample, seen + [body[0].bytes], body[1..], DecodeAll(decode, frames, s).1)
  {
    hide Framed, Flushed, DecodeAll, Flatten, Head, Ending;
    var c := body[0].bytes;
    FramedIsPrefix(framing, seen, ChunksOf(body));
    FramedIsPrefix(framing, seen + [c], ChunksOf(body[1..]));
    assert seen + ChunksOf(body) == seen + [c] + ChunksOf(body[1..]);
    assert body == [body[0]] + body[1..];
    var all := AllFrames(framing, seen + ChunksOf(body), Drop in body);
    var later := all[|Framed(framing, seen + [c])|..];
    DropPrefix(Framed(framing, seen), frames, all);
    DecodeAllAppend(decode, frames, later, s);
  }

  lemma {:induction false} RestAtDrop(framing: Framing, decode: Decode, sample: Sample,
                   seen: seq<Bytes>, body: seq<BodyItem>, s: DecodeState)
    requires body != [] && body[0].Drop?
    ensures Framed(framing, seen) <= Framed(framing, seen + ChunksOf(body))
    ensures Rest(framing, decode, sample, seen, body, s) == Stops(Sorted(s.open.Keys)) + [Error(DROPPED)]
  {
    assert seen + ChunksOf(body) == seen;
  }

  lemma {:induction false} RestAtEnd(framing: Framing, decode: Decode, sample: Sample, seen: seq<Bytes>, s: DecodeState)
    ensures Framed(framing, seen) <= Framed(framing, seen + ChunksOf([]))
    ensures
      var (events, s') := DecodeAll(decode, Flushed(framing, seen), s);
      Rest(framing, decode, sample, seen, [], s)
      == events + Ending(sample, false, s', AllFrames(framing, seen, false) != [], Head(Flatten(seen)))
  {
    assert seen + ChunksOf([]) == seen;
  }

  // ----- the pull iterator -----

  class StreamEvents {
    const decode: Decode
    const sample: Sample
    const decoder: Framer
    var body: seq<BodyItem>
    var state: DecodeState
    var pending: seq<Event>
    var bodyDone: bool
    var finished: bool
    var sawFrame: bool
    var head: Bytes

    ghost predicate Valid()
      reads this, decoder, decoder.sse, decoder.ndjson
    {
      && (bodyDone ==> body == [])
      && (!finished ==>
            && decoder.Valid()
            && Framed(decoder.framing, decoder.chunks) <= Framed(decoder.framing, decoder.chunks + ChunksOf(body))
            && (sawFrame <==> Framed(decoder.framing, decoder.chunks) != [])
            && head == if sawFrame then [] else Head(Flatten(decoder.chunks)))
    }

    /** The events this iterator will still yield. */
    ghost function Remaining(): seq<Event>
      requires Valid()
      reads this, decoder, decoder.sse, decoder.ndjson
    {
      if finished then pending
      else pending + Rest(decoder.framing, decode, sample, decoder.chunks, body, state)
    }

    constructor (framing: Framing, decode: Decode, sample: Sample, body: seq<BodyItem>)
      ensures Valid() && fresh(decoder) && fresh(decoder.sse) && fresh(decoder.ndjson)
      ensures Remaining() == EagerTrace(framing, decode, sample, body)
    {
      this.decode, this.sample, this.body := decode, sample, body;
      decoder := new Framer(framing);
      state, pending := FRESH, [];
      bodyDone, finished, sawFrame, head := false, false, false, [];
      new;
      RestAtStart(framing, decode, sample, body);
      FramedIsPrefix(framing, [], ChunksOf(body));
    }

    method DecodeIntoPending(frame: Frame)
      modifies this`state, this`pending, this`sawFrame, this`head
      ensures sawFrame && head == []
      ensures state == decode(frame, old(state)).1
      ensures pending == old(pending) + Emitted(decode(frame, old(state)).0)
    {
      sawFrame := true;
      head := [];
      var (r, s) := decode(frame, state);
      state := s;
      match r
      case Ok(events) => pending := pending + events;
      case Err(e) => pending := pending + [Error(e)];
    }

    method DecodeFrames(frames: seq<Frame>)
      modifies this`state, this`pending, this`sawFrame, this`head
      ensures pending == old(pending) + DecodeAll(decode, frames, old(state)).0
      ensures state == DecodeAll(decode, frames, old(state)).1
      ensures if frames == [] then sawFrame == old(sawFrame) && head == old(head) else sawFrame && head == []
    {
      hide DecodeAll;
      DecodeAllNone(decode, frames, state);
      var i := 0;
      while i < |frames|
        invariant i <= |frames|
        invariant pending == old(pending) + DecodeAll(decode, frames[..i], old(state)).0
        invariant state == DecodeAll(decode, frames[..i], old(state)).1
        invariant if i == 0 then sawFrame == old(sawFrame) && head == old(head) else sawFrame && head == []
      {
        assert frames[..i + 1] == frames[..i] + [frames[i]];
        DecodeAllAppend(decode, frames[..i], [frames[i]], old(state));
        DecodeAllOne(decode, frames[i], state);
        DecodeIntoPending(frames[i]);
        i := i + 1;
      }
      assert frames[..i] == frames;
    }

    method AccumulateHead(chunk: Bytes)
      modifies this`head
      ensures head == if sawFrame || |old(head)| >= BODY_CAP then old(head)
                      else old(head) + chunk[..Min(BODY_CAP - |old(head)|, |chunk|)]
    {
      if sawFrame {
        return;
      }
      var room := if |head| < BODY_CAP then BODY_CAP - |head| else 0;
      head := head + chunk[..Min(room, |chunk|)];
    }

    method PrematureEof() returns (ev: Event)
      ensures ev == Error(if sawFrame then PREMATURE else PrematureWithBody(sample, head))
    {
      ev := Error(if sawFrame then PREMATURE else PrematureWithBody(sample, head));
    }

    /** Stop every block still open, ascending. */
    method CloseOpenBlocks()
      modifies this`state, this`pending
      ensures state == old(state).(open := map[])
      ensures pending == old(pending) + Stops(Sorted(old(state).open.Keys))
    {
      hide Stops, Ascending, Sorted;
      var open := SortKeys(state.open.Keys);
      SortedHolds(state.open.Keys);
      StopsGrow(open, 0);
      var i := 0;
      while i < |open|
        invariant i <= |open|
        invariant state == old(state).(open := state.open)
        invariant state.open.Keys == Elements(open[i..])
        invariant pending == old(pending) + Stops(open[..i])
      {
        StopsGrow(open, i);
        HeadIsLeast(open, i);
        state := state.(open := state.open - {open[i]});
        pending := pending + [ContentStop(open[i])];
        i := i + 1;
      }
      assert open[..i] == open && state.open.Keys == {};
    }

    method Next() returns (ev: Option<Event>)
      requires Valid()
      modifies this, decoder, decoder.sse, decoder.ndjson
      ensures Valid()
      ensures match ev
              case Some(e) => old(Remaining()) == [e] + Remaining()
              case None => old(Remaining()) == [] == Remaining()
    {
      hide Frames, Tail, Body, Flatten, Framed, Flushed, Rest, DecodeAll, ChunksOf, Head;
      while true
        invariant Valid() && Remaining() == old(Remaining())
        decreases if finished then 0 else if bodyDone then 1 else 2 + |body|
      {
        if pending != [] {
          ev := Some(pending[0]);
          pending := pending[1..];
          return;
        }
        if finished {
          return None;
        }
        if bodyDone {
          EndOfBody();
        } else if body == [] {
          bodyDone := true;
        } else {
          var item := body[0];
          match item
          case Chunk(chunk) => TakeChunk();
          case Drop => TakeDrop();
        }
      }
    }

    /** The drained body: flush the framer, and judge the stream if it never terminated. */
    method EndOfBody()
      requires Valid() && !finished && bodyDone && pending == []
      modifies this, decoder.sse, decoder.ndjson
      ensures Valid() && finished && Remaining() == old(Remaining())
    {
      hide Frames, Tail, Body, Flatten, Framed, Flushed, Rest, DecodeAll, ChunksOf, Head;
      RestAtEnd(decoder.framing, decode, sample, decoder.chunks, state);
      var tail := decoder.Finish();
      DecodeFrames(tail);
      if !state.terminated {
        CloseOpenBlocks();
        var eof := PrematureEof();
        pending := pending + [eof];
      }
      finished := true;
    }

    /** One transport chunk, sampled, framed and decoded. */
    method TakeChunk()
      requires Valid() && !finished && !bodyDone && pending == [] && body != [] && body[0].Chunk?
      modifies this, decoder, decoder.sse, decoder.ndjson
      ensures Valid() && !finished && !bodyDone && body == old(body)[1..]
      ensures Remaining() == old(Remaining())
    {
      hide Frames, Tail, Body, Flatten, Framed, Flushed, Rest, DecodeAll, ChunksOf, Head, Framer.Valid;
      var chunk := body[0].bytes;
      ghost var seen, was, s := decoder.chunks, body, state;
      body := body[1..];
      AccumulateHead(chunk);
      HeadGrows(seen, chunk);
      var frames := decoder.Push(chunk);
      RestAfterChunk(decoder.framing, decode, sample, seen, was, s, frames);
      DecodeFrames(frames);
    }

    /** A transport drop ends the stream: no flush, the open blocks stopped first. */
    method TakeDrop()
      requires Valid() && !finished && !bodyDone && pending == [] && body != [] && body[0].Drop?
      modifies this
      ensures Valid() && finished && Remaining() == old(Remaining())
    {
      hide Frames, Tail, Body, Flatten, Framed, Flushed, Rest, DecodeAll, ChunksOf, Head;
      RestAtDrop(decoder.framing, decode, sample, decoder.chunks, body, state);
      body := body[1..];
      CloseOpenBlocks();
      pending := pending + [Error(DROPPED)];
      finished := true;
    }
  }

  lemma {:induction false} DecodeAllNone(decode: Decode, frames: seq<Frame>, s: DecodeState)
    ensures DecodeAll(decode, frames[..0], s) == ([], s)
  {
  }

  lemma {:induction false} StopsGrow(keys: seq<nat>, i: nat)
    requires i <= |keys|
    ensures Stops(keys[..0]) == []
    ensures i < |keys| ==> Stops(keys[..i + 1]) == Stops(keys[..i]) + [ContentStop(keys[i])]
  {
    if i < |keys| {
      assert keys[..i + 1] == keys[..i] + [keys[i]];
      StopsSnoc(keys[..i], keys[i]);
    }
  }

  lemma {:induction false} HeadIsLeast(keys: seq<nat>, i: nat)
    requires Ascending(keys) && i < |keys|
    ensures Elements(keys[i..]) - {keys[i]} == Elements(keys[i + 1..])
  {
    AscendingSuffix(keys, i);
    assert keys[i..] == [keys[i]] + keys[i + 1..];
    assert keys[i..][1..] == keys[i + 1..];
  }

  lemma {:induction false} AscendingSuffix(keys: seq<nat>, i: nat)
    requires Ascending(keys) && i <= |keys|
    ensures Ascending(keys[i..])
  {
    if i > 0 {
      AscendingSuffix(keys[1..], i - 1);
      assert keys[1..][i - 1..] == keys[i..];
    }
  }

  lemma {:induction false} HeadGrows(seen: seq<Bytes>, chunk: Bytes)
    ensures
      var h := Head(Flatten(seen));
      Head(Flatten(seen + [chunk]))
      == if |h| >= BODY_CAP then h else h + chunk[..Min(BODY_CAP - |h|, |chunk|)]
  {
    FlattenSnoc(seen, chunk);
  }
}
