/** The stateful framers of src/protocol/sse.rs, each proved against the whole-input
    parse of module SseGrammar, and the boxed dispatch over the three framings. */
module Decoders {
  import opened Base
  import opened AsciiText
  import opened SseGrammar

  /** `frames` are out and `rest` is still to be cut from what was `start`. */
  ghost predicate Peeled(g: Grammar, start: Bytes, frames: seq<Frame>, rest: Bytes) {
    && Frames(g, start) == frames + Frames(g, rest)
    && Tail(g, start) == Tail(g, rest)
  }

  lemma {:induction false} PeelStep(g: Grammar, start: Bytes, frames: seq<Frame>, rest: Bytes, e: nat)
    requires Peeled(g, start, frames, rest) && Cut(g, rest) == Some(e)
    ensures Peeled(g, start, frames + Emit(g, rest[..e]), rest[e..])
  {
    hide Emit, Cut, Frames, Tail;
    FramesStep(g, rest, e);
  }

  lemma {:induction false} PeelDone(g: Grammar, start: Bytes, frames: seq<Frame>, rest: Bytes)
    requires Peeled(g, start, frames, rest) && Cut(g, rest) == None
    ensures frames == Frames(g, start) && rest == Tail(g, start)
  {
  }

  /** The resume offset kept by one push is sound for the next: no terminator can begin
      before it, even one that the new bytes complete. */
  lemma {:induction false} ResumeKnown(received: Bytes, chunk: Bytes)
    ensures
      var held := Tail(SseBlocks, Body(SseBlocks, received));
      |held| >= 3 ==> NoEnd(held + chunk, 0, |held| - 3)
  {
    var held := Tail(SseBlocks, Body(SseBlocks, received));
    TailIsUncut(SseBlocks, Body(SseBlocks, received));
    FrameEndFinds(held, 0);
    assert forall j: nat :: j + 3 < |held| ==> TermLen(held + chunk, j) == TermLen(held, j);
  }

  /** The search runs over the slice it is given; `examined` counts the positions tried. */
  method FindFrameEnd(buf: Bytes) returns (end: Option<nat>, ghost examined: nat)
    ensures end == FrameEnd(buf, 0)
    ensures end.Some? ==> examined < end.value
    ensures end.None? ==> examined == |buf|
  {
    examined := 0;
    var i := 0;
    while i < |buf|
      invariant i <= |buf| && examined == i
      invariant NoEnd(buf, 0, i)
    {
      examined := examined + 1;
      if TermLen(buf, i) > 0 {
        end := Some(i + TermLen(buf, i));
        FrameEndIs(buf, end.value);
        return;
      }
      i := i + 1;
    }
    FrameEndFinds(buf, 0);
    end := None;
  }

  /** The field loop over the lines of one block. */
  method ParseBlock(block: Bytes) returns (frame: Option<Frame>)
    ensures frame == BlockFrame(block)
  {
    var fields := Fields(None, []);
    var lines := Split(block, LF);
    var i := 0;
    while i < |lines|
      invariant i <= |lines|
      invariant FoldFields(lines, Fields(None, [])) == FoldFields(lines[i..], fields)
    {
      assert lines[i..][1..] == lines[i + 1..];
      fields := Field(lines[i], fields);
      i := i + 1;
    }
    if fields.event.None? && fields.data == [] {
      return None;
    }
    return Some(Frame(fields.event, Join(fields.data, LF), None));
  }

  class SseDecoder {
    var buf: Bytes
    var scan: nat
    var bomStripped: bool
    /** Every byte pushed so far, and every buffer position the search has tried. */
    ghost var received: Bytes
    ghost var examined: nat

    ghost predicate Valid()
      reads this
    {
      && buf == Tail(SseBlocks, Body(SseBlocks, received))
      && (bomStripped <==> !Undecided(received))
      && scan == (if |buf| < 3 then 0 else |buf| - 3)
    }

    constructor ()
      ensures Valid() && received == [] && examined == 0
    {
      buf, scan, bomStripped := [], 0, false;
      received, examined := [], 0;
      new;
      UndecidedHasNoBlock([]);
    }

    /** Settle the one leading mark; `false` while more bytes could still decide it. */
    method StripBom() returns (settled: bool)
      modifies this`buf, this`bomStripped
      ensures settled == bomStripped == (old(bomStripped) || !Undecided(old(buf)))
      ensures buf == if old(bomStripped) then old(buf) else Body(SseBlocks, old(buf))
    {
      if bomStripped {
        return true;
      }
      if |buf| < |BOM| && buf <= BOM {
        return false;
      }
      if BOM <= buf {
        buf := buf[|BOM|..];
      }
      bomStripped := true;
      return true;
    }

    method Push(chunk: Bytes) returns (frames: seq<Frame>)
      requires Valid()
      modifies this
      ensures Valid() && received == old(received) + chunk
      ensures Ready(SseBlocks, received) == Ready(SseBlocks, old(received)) + frames
      ensures examined <= old(examined) + |chunk| + 3
    {
      hide Frames, Tail;
      received := received + chunk;
      buf := buf + chunk;
      var settled := StripBom();
      if !settled {
        UndecidedHasNoBlock(old(received));
        UndecidedHasNoBlock(received);
        return [];
      }
      if old(bomStripped) {
        ResumeKnown(old(received), chunk);
        ReadyGrows(SseBlocks, old(received), chunk);
      } else {
        UndecidedHasNoBlock(old(received));
      }
      frames := Peel();
    }

    /** Take the block that ends at `e` off the front; the front shifted, so `scan` restarts. */
    method Drain(e: nat) returns (frames: seq<Frame>)
      requires e <= |buf|
      modifies this`buf, this`scan
      ensures frames == Emit(SseBlocks, old(buf)[..e])
      ensures buf == old(buf)[e..] && scan == 0
    {
      var block := buf[..e];
      buf := buf[e..];
      scan := 0;
      var frame := ParseBlock(block);
      frames := if frame.Some? then [frame.value] else [];
    }

    /** One search from `scan`, its result an index into the whole buffer. */
    method Search() returns (end: Option<nat>)
      requires scan <= |buf| && NoEnd(buf, 0, scan)
      modifies this`examined
      ensures end == FrameEnd(buf, 0)
      ensures examined <= old(examined) + if end.Some? then end.value - scan else |buf| - scan
      ensures end.Some? ==> scan < end.value
    {
      SearchMayResume(buf, scan);
      var rel, steps := FindFrameEnd(buf[scan..]);
      examined := examined + steps;
      end := if rel.Some? then Some(scan + rel.value) else None;
    }

    /** Peel every complete block off the front of the buffer, resuming at `scan`. */
    method Peel() returns (frames: seq<Frame>)
      requires scan <= |buf| && NoEnd(buf, 0, scan)
      modifies this`buf, this`scan, this`examined
      ensures frames == Frames(SseBlocks, old(buf)) && buf == Tail(SseBlocks, old(buf))
      ensures scan == (if |buf| < 3 then 0 else |buf| - 3)
      ensures examined <= old(examined) + |old(buf)| - old(scan)
    {
      frames := [];
      ghost var start, bound := buf, examined + |buf| - scan;
      var end := Search();
      while end.Some?
        invariant end == FrameEnd(buf, 0)
        invariant Peeled(SseBlocks, start, frames, buf)
        invariant examined <= bound - (if end.Some? then |buf| - end.value else 0)
        decreases |buf|
      {
        PeelStep(SseBlocks, start, frames, buf, end.value);
        var frame := Drain(end.value);
        frames := frames + frame;
        end := Search();
      }
      PeelDone(SseBlocks, start, frames, buf);
      scan := if |buf| < 3 then 0 else |buf| - 3;
    }

    /** Flush an unterminated last block; the buffer is spent. */
    method Finish() returns (frames: seq<Frame>)
      requires Valid()
      modifies this`buf
      ensures buf == [] && frames == Flush(SseBlocks, received)
    {
      var block := buf;
      buf := [];
      var frame := ParseBlock(block);
      frames := if frame.Some? then [frame.value] else [];
    }
  }

  class NdjsonDecoder {
    var buf: Bytes
    ghost var received: Bytes

    ghost predicate Valid()
      reads this
    {
      buf == Tail(NdjsonLines, received)
    }

    constructor ()
      ensures Valid() && received == []
    {
      buf, received := [], [];
    }

    method Push(chunk: Bytes) returns (frames: seq<Frame>)
      requires Valid()
      modifies this
      ensures Valid() && received == old(received) + chunk
      ensures Ready(NdjsonLines, received) == Ready(NdjsonLines, old(received)) + frames
    {
      ReadyGrows(NdjsonLines, received, chunk);
      received := received + chunk;
      buf := buf + chunk;
      frames := [];
      ghost var start := buf;
      var nl := IndexOf(buf, LF);
      while nl.Some?
        invariant nl == IndexOf(buf, LF) && received == old(received) + chunk
        invariant Peeled(NdjsonLines, start, frames, buf)
        decreases |buf|
      {
        PeelStep(NdjsonLines, start, frames, buf, nl.value + 1);
        var frame := Drain(nl.value);
        frames := frames + frame;
        nl := IndexOf(buf, LF);
      }
      PeelDone(NdjsonLines, start, frames, buf);
    }

    /** Take the line ending at the newline `nl` off the front, its newline dropped. */
    method Drain(nl: nat) returns (frames: seq<Frame>)
      requires nl < |buf| && buf[nl] == LF
      modifies this`buf
      ensures frames == Emit(NdjsonLines, old(buf)[..nl + 1]) && buf == old(buf)[nl + 1..]
    {
      var line := buf[..nl + 1];
      buf := buf[nl + 1..];
      var frame := LineFrame(line[..|line| - 1]);
      frames := if frame.Some? then [frame.value] else [];
    }

    method Finish() returns (frames: seq<Frame>)
      requires Valid()
      modifies this`buf
      ensures buf == [] && frames == Flush(NdjsonLines, received)
    {
      TailIsUncut(NdjsonLines, received);
      var line := buf;
      buf := [];
      var frame := LineFrame(line);
      frames := if frame.Some? then [frame.value] else [];
    }
  }

  // ----- the boxed framer a protocol declares as data -----

  datatype Framing = Sse | Ndjson | Identity

  function GrammarOf(f: Framing): Grammar
    requires !f.Identity?
  {
    if f.Sse? then SseBlocks else NdjsonLines
  }

  function Verbatim(chunks: seq<Bytes>): (frames: seq<Frame>)
    ensures |frames| == |chunks|
    ensures forall i :: 0 <= i < |chunks| ==> frames[i] == Frame(None, chunks[i], None)
  {
    seq(|chunks|, i requires 0 <= i < |chunks| => Frame(None, chunks[i], None))
  }

  /** The frames available once `chunks` have arrived. */
  function Framed(f: Framing, chunks: seq<Bytes>): seq<Frame> {
    if f.Identity? then Verbatim(chunks) else Ready(GrammarOf(f), Flatten(chunks))
  }

  function Flushed(f: Framing, chunks: seq<Bytes>): seq<Frame> {
    if f.Identity? then [] else Flush(GrammarOf(f), Flatten(chunks))
  }

  lemma {:induction false} FramedIsPrefix(f: Framing, chunks: seq<Bytes>, more: seq<Bytes>)
    ensures Framed(f, chunks) <= Framed(f, chunks + more)
  {
    if f.Identity? {
      assert forall i :: 0 <= i < |chunks| ==> (chunks + more)[i] == chunks[i];
    } else {
      FlattenAppend(chunks, more);
      ReadyIsPrefix(GrammarOf(f), Flatten(chunks), Flatten(more));
    }
  }

  class Framer {
    const framing: Framing
    const sse: SseDecoder
    const ndjson: NdjsonDecoder
    ghost var chunks: seq<Bytes>

    ghost predicate Valid()
      reads this, sse, ndjson
    {
      && (framing.Sse? ==> sse.Valid() && sse.received == Flatten(chunks))
      && (framing.Ndjson? ==> ndjson.Valid() && ndjson.received == Flatten(chunks))
    }

    constructor (framing: Framing)
      ensures Valid() && this.framing == framing && chunks == []
      ensures fresh(this) && fresh(sse) && fresh(ndjson)
    {
      this.framing := framing;
      sse := new SseDecoder();
      ndjson := new NdjsonDecoder();
      chunks := [];
    }

    method Push(chunk: Bytes) returns (frames: seq<Frame>)
      requires Valid()
      modifies this, sse, ndjson
      ensures Valid() && chunks == old(chunks) + [chunk]
      ensures Framed(framing, chunks) == Framed(framing, old(chunks)) + frames
    {
      FlattenSnoc(chunks, chunk);
      chunks := chunks + [chunk];
      match framing
      case Sse => frames := sse.Push(chunk);
      case Ndjson => frames := ndjson.Push(chunk);
      case Identity => frames := [Frame(None, chunk, None)];
    }

    method Finish() returns (frames: seq<Frame>)
      requires Valid()
      modifies sse, ndjson
      ensures frames == Flushed(framing, chunks)
    {
      match framing
      case Sse => frames := sse.Finish();
      case Ndjson => frames := ndjson.Finish();
      case Identity => frames := [];
    }
  }

  /** Push every chunk, then finish: the frames are the whole-input parse of the bytes,
      and the terminator search tries at most three positions more per push than bytes. */
  method DecodeSse(chunks: seq<Bytes>) returns (frames: seq<Frame>, ghost examined: nat)
    ensures frames == WholeParse(SseBlocks, Flatten(chunks))
    ensures examined <= |Flatten(chunks)| + 3 * |chunks|
  {
    var d := new SseDecoder();
    frames := [];
    var i := 0;
    UndecidedHasNoBlock([]);
    while i < |chunks|
      invariant i <= |chunks| && d.Valid() && fresh(d)
      invariant d.received == Flatten(chunks[..i])
      invariant frames == Ready(SseBlocks, d.received)
      invariant d.examined <= |d.received| + 3 * i
    {
      assert chunks[..i + 1] == chunks[..i] + [chunks[i]];
      FlattenSnoc(chunks[..i], chunks[i]);
      var more := d.Push(chunks[i]);
      frames := frames + more;
      i := i + 1;
    }
    assert chunks[..i] == chunks;
    var last := d.Finish();
    frames := frames + last;
    examined := d.examined;
  }

  method DecodeNdjson(chunks: seq<Bytes>) returns (frames: seq<Frame>)
    ensures frames == WholeParse(NdjsonLines, Flatten(chunks))
  {
    var d := new NdjsonDecoder();
    frames := [];
    var i := 0;
    while i < |chunks|
      invariant i <= |chunks| && d.Valid() && fresh(d)
      invariant d.received == Flatten(chunks[..i])
      invariant frames == Ready(NdjsonLines, d.received)
    {
      assert chunks[..i + 1] == chunks[..i] + [chunks[i]];
      FlattenSnoc(chunks[..i], chunks[i]);
      var more := d.Push(chunks[i]);
      frames := frames + more;
      i := i + 1;
    }
    assert chunks[..i] == chunks;
    var last := d.Finish();
    frames := frames + last;
  }
}
