/** The transport framers of src/protocol/sse.rs: how a byte stream is cut into frames.
    The mutable decoders are proved against one whole-input parse, so the frames cannot
    depend on where the transport cut the bytes. */
module SseGrammar {
  import opened Base
  import opened AsciiText

  /** One framing-stripped unit. `event` keeps the raw bytes of the field value. */
  datatype Frame = Frame(event: Option<Bytes>, data: Bytes, status: Option<nat>)

  datatype Grammar = SseBlocks | NdjsonLines

  const BOM: Bytes := [0xEF, 0xBB, 0xBF]
  const EVENT: Bytes := [101, 118, 101, 110, 116]
  const DATA: Bytes := [100, 97, 116, 97]

  // ----- where a block ends -----

  predicate LfLf(b: Bytes, i: nat) {
    i + 1 < |b| && b[i] == LF && b[i + 1] == LF
  }

  predicate CrLfCrLf(b: Bytes, i: nat) {
    i + 3 < |b| && b[i] == CR && b[i + 1] == LF && b[i + 2] == CR && b[i + 3] == LF
  }

  /** The length of the blank-line terminator that begins at `i`, 0 when none does. */
  function TermLen(b: Bytes, i: nat): nat {
    if LfLf(b, i) then 2 else if CrLfCrLf(b, i) then 4 else 0
  }

  /** `e` is the index just past the first blank-line terminator at or after `from`. */
  ghost predicate FirstEnd(b: Bytes, from: nat, e: nat) {
    exists i: nat :: from <= i && TermLen(b, i) > 0 && e == i + TermLen(b, i) && NoEnd(b, from, i)
  }

  function FrameEnd(b: Bytes, from: nat): (r: Option<nat>)
    ensures r.Some? ==> from + 2 <= r.value <= |b|
    decreases |b| - from
  {
    if from >= |b| then None
    else if TermLen(b, from) > 0 then Some(from + TermLen(b, from))
    else FrameEnd(b, from + 1)
  }

  ghost predicate NoEnd(b: Bytes, from: nat, to: nat) {
    forall j: nat :: from <= j < to ==> TermLen(b, j) == 0
  }

  /** The search finds the first terminator, and `None` exactly when there is none. */
  lemma {:induction false} FrameEndFinds(b: Bytes, from: nat)
    ensures match FrameEnd(b, from)
            case Some(e) => FirstEnd(b, from, e)
            case None => NoEnd(b, from, |b|)
    decreases |b| - from
  {
    if from < |b| && TermLen(b, from) > 0 {
      assert FirstEnd(b, from, from + TermLen(b, from));
    } else if from < |b| {
      FrameEndFinds(b, from + 1);
      if FrameEnd(b, from).Some? {
        var i: nat :| from + 1 <= i && TermLen(b, i) > 0 && FrameEnd(b, from).value == i + TermLen(b, i)
          && NoEnd(b, from + 1, i);
        assert NoEnd(b, from, i);
      }
    }
  }

  /** Any first terminator is the one the search finds. */
  lemma {:induction false} FrameEndIs(b: Bytes, e: nat)
    requires FirstEnd(b, 0, e)
    ensures FrameEnd(b, 0) == Some(e)
  {
    FrameEndFinds(b, 0);
  }

  /** A terminator found in what has arrived stays the first one whatever arrives later. */
  lemma {:induction false} TerminatorIsStable(b: Bytes, x: Bytes)
    requires FrameEnd(b, 0).Some?
    ensures FrameEnd(b + x, 0) == FrameEnd(b, 0)
  {
    FrameEndFinds(b, 0);
    var e := FrameEnd(b, 0).value;
    var i: nat :| TermLen(b, i) > 0 && e == i + TermLen(b, i)
      && forall j: nat :: j < i ==> TermLen(b, j) == 0;
    var c := b + x;
    assert TermLen(c, i) == TermLen(b, i);
    forall j: nat | j < i
      ensures TermLen(c, j) == 0
    {
      assert TermLen(b, j) == 0;
    }
    FrameEndIs(c, e);
  }

  /** Positions known to begin no terminator can be cut off before searching. */
  lemma {:induction false} SearchMayResume(b: Bytes, k: nat)
    requires k <= |b| && NoEnd(b, 0, k)
    ensures FrameEnd(b, 0) == (match FrameEnd(b[k..], 0) case Some(e) => Some(k + e) case None => None)
  {
    var c := b[k..];
    FrameEndFinds(c, 0);
    assert forall j: nat :: TermLen(c, j) == TermLen(b, k + j);
    match FrameEnd(c, 0)
    case Some(e) =>
      var i: nat :| TermLen(c, i) > 0 && e == i + TermLen(c, i) && NoEnd(c, 0, i);
      assert TermLen(b, k + i) == TermLen(c, i);
      forall j: nat | j < k + i
        ensures TermLen(b, j) == 0
      {
        if j >= k {
          assert TermLen(c, j - k) == TermLen(b, k + (j - k));
        }
      }
      FrameEndIs(b, k + e);
    case None =>
      FrameEndFinds(b, 0);
      forall j: nat | j < |b|
        ensures TermLen(b, j) == 0
      {
        if j >= k {
          assert TermLen(c, j - k) == TermLen(b, k + (j - k));
        }
      }
  }

  // ----- the whole-input parse -----

  /** The index past the first complete block of `b`, when there is one. */
  function Cut(g: Grammar, b: Bytes): (r: Option<nat>)
    ensures r.Some? ==> 0 < r.value <= |b|
  {
    match g
    case SseBlocks => FrameEnd(b, 0)
    case NdjsonLines =>
      var nl := IndexOf(b, LF);
      if nl.Some? then Some(nl.value + 1) else None
  }

  lemma {:induction false} CutIsStable(g: Grammar, b: Bytes, x: Bytes)
    requires Cut(g, b).Some?
    ensures Cut(g, b + x) == Cut(g, b)
  {
    match g
    case SseBlocks => TerminatorIsStable(b, x);
    case NdjsonLines => IndexOfIs(b + x, LF, IndexOf(b, LF).value);
  }

  // ----- one block or line to a frame -----

  function StripSpace(value: Bytes): Bytes {
    if |value| > 0 && value[0] == SPACE then value[1..] else value
  }

  /** What the lines of a block have said so far. */
  datatype Fields = Fields(event: Option<Bytes>, data: seq<Bytes>)

  function Field(raw: Bytes, acc: Fields): Fields {
    var line := StripCr(raw);
    match IndexOf(line, COLON)
    case None => acc
    case Some(colon) =>
      var value := StripSpace(line[colon + 1..]);
      if line[..colon] == EVENT then acc.(event := Some(value))
      else if line[..colon] == DATA then acc.(data := acc.data + [value])
      else acc
  }

  function FoldFields(lines: seq<Bytes>, acc: Fields): Fields {
    if lines == [] then acc else FoldFields(lines[1..], Field(lines[0], acc))
  }

  function BlockFrame(block: Bytes): Option<Frame> {
    var f := FoldFields(Split(block, LF), Fields(None, []));
    if f.event.None? && f.data == [] then None else Some(Frame(f.event, Join(f.data, LF), None))
  }

  function LineFrame(line: Bytes): Option<Frame> {
    var l := StripCr(line);
    if l == [] then None else Some(Frame(None, l, None))
  }

  function FrameOf(g: Grammar, block: Bytes): Option<Frame> {
    match g
    case SseBlocks => BlockFrame(block)
    case NdjsonLines => LineFrame(if |block| > 0 && block[|block| - 1] == LF then block[..|block| - 1] else block)
  }

  function Emit(g: Grammar, block: Bytes): seq<Frame> {
    match FrameOf(g, block)
    case Some(f) => [f]
    case None => []
  }

  /** The frames of the complete blocks of a stream, and what is left after the last block. */
  function Frames(g: Grammar, s: Bytes): seq<Frame>
    decreases |s|
  {
    match Cut(g, s)
    case Some(e) => Emit(g, s[..e]) + Frames(g, s[e..])
    case None => []
  }

  function Tail(g: Grammar, s: Bytes): Bytes
    decreases |s|
  {
    match Cut(g, s)
    case Some(e) => Tail(g, s[e..])
    case None => s
  }

  lemma {:induction false} FramesStep(g: Grammar, s: Bytes, e: nat)
    requires Cut(g, s) == Some(e)
    ensures Frames(g, s) == Emit(g, s[..e]) + Frames(g, s[e..])
    ensures Tail(g, s) == Tail(g, s[e..])
  {
    hide Emit, IndexOf, FrameEnd;
  }

  /** Later bytes never disturb the frames already complete. */
  lemma {:induction false} FramesAppend(g: Grammar, s: Bytes, x: Bytes)
    ensures Frames(g, s + x) == Frames(g, s) + Frames(g, Tail(g, s) + x)
    ensures Tail(g, s + x) == Tail(g, Tail(g, s) + x)
    decreases |s|
  {
    if Cut(g, s).Some? {
      hide Emit, Cut, Frames, Tail;
      var e := Cut(g, s).value;
      var rest := s[e..];
      CutIsStable(g, s, x);
      FramesStep(g, s, e);
      FramesStep(g, s + x, e);
      assert (s + x)[..e] == s[..e] && (s + x)[e..] == rest + x;
      FramesAppend(g, rest, x);
      var first, last := Emit(g, s[..e]), Frames(g, Tail(g, rest) + x);
      assert first + (Frames(g, rest) + last) == (first + Frames(g, rest)) + last;
    } else {
      hide Emit, Cut;
    }
  }

  lemma {:induction false} TailIsUncut(g: Grammar, s: Bytes)
    ensures Cut(g, Tail(g, s)).None?
    decreases |s|
  {
    match Cut(g, s)
    case Some(e) => TailIsUncut(g, s[e..]);
    case None =>
  }

  /** One leading mark is ignored, on the SSE grammar only. */
  function Body(g: Grammar, received: Bytes): Bytes {
    if g.SseBlocks? && BOM <= received then received[3..] else received
  }

  /** The frames complete in what has been received. */
  function Ready(g: Grammar, received: Bytes): seq<Frame> {
    Frames(g, Body(g, received))
  }

  /** The frames an end of input flushes: the unterminated last block, if it says anything. */
  function Flush(g: Grammar, received: Bytes): seq<Frame> {
    Emit(g, Tail(g, Body(g, received)))
  }

  /** The whole-input parse every chunking must agree with. */
  function WholeParse(g: Grammar, input: Bytes): seq<Frame> {
    Ready(g, input) + Flush(g, input)
  }

  /** An undecided mark: the next byte could still complete or break it. */
  predicate Undecided(received: Bytes) {
    |received| < 3 && received <= BOM
  }

  lemma {:induction false} UndecidedHasNoBlock(s: Bytes)
    requires Undecided(s)
    ensures Frames(SseBlocks, s) == [] && Tail(SseBlocks, s) == s
  {
    FrameEndFinds(s, 0);
    assert forall j: nat :: j < |s| ==> s[j] == BOM[j];
  }

  /** Once the mark is decided, a longer input has the longer body. */
  lemma {:induction false} BodyGrows(g: Grammar, r: Bytes, x: Bytes)
    requires g.SseBlocks? ==> !Undecided(r)
    ensures Body(g, r + x) == Body(g, r) + x
  {
    if g.SseBlocks? {
      if BOM <= r {
        assert (r + x)[..3] == r[..3];
        assert (r + x)[3..] == r[3..] + x;
      }
    }
  }

  /** What was ready stays ready, and the rest is what the held tail and the new bytes complete. */
  lemma {:induction false} ReadyGrows(g: Grammar, r: Bytes, x: Bytes)
    requires g.SseBlocks? ==> !Undecided(r)
    ensures Ready(g, r + x) == Ready(g, r) + Frames(g, Tail(g, Body(g, r)) + x)
    ensures Tail(g, Body(g, r + x)) == Tail(g, Tail(g, Body(g, r)) + x)
  {
    BodyGrows(g, r, x);
    FramesAppend(g, Body(g, r), x);
  }

  lemma {:induction false} ReadyIsPrefix(g: Grammar, r: Bytes, x: Bytes)
    ensures Ready(g, r) <= Ready(g, r + x) <= WholeParse(g, r + x)
  {
    if g.SseBlocks? && Undecided(r) {
      UndecidedHasNoBlock(r);
    } else {
      ReadyGrows(g, r, x);
    }
  }
}
