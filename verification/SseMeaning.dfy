/** What the framing grammars of src/protocol/sse.rs mean, said from the lines of an input alone:
    which frames a stream of fields, comments and blank lines stands for, and which a stream of
    JSON lines. */
module SseMeaning {
  import opened Base
  import opened AsciiText
  import opened SseGrammar

  // ----- the lines of a block -----

  /** One line as a sender may write it: a field with or without the space behind its colon, or
      anything else a block may hold, a comment, another field or a bare token; ended by LF or by
      CR LF. */
  datatype FieldLine =
    | EventLine(value: Bytes, spaced: bool, crlf: bool)
    | DataLine(value: Bytes, spaced: bool, crlf: bool)
    | OtherLine(text: Bytes, crlf: bool)

  function Content(l: FieldLine): Bytes {
    match l
    case EventLine(value, spaced, _) => EVENT + [COLON] + (if spaced then [SPACE] else []) + value
    case DataLine(value, spaced, _) => DATA + [COLON] + (if spaced then [SPACE] else []) + value
    case OtherLine(text, _) => text
  }

  function Raw(l: FieldLine): Bytes {
    Content(l) + if l.crlf then [CR] else []
  }

  function LineText(l: FieldLine): Bytes {
    Raw(l) + [LF]
  }

  function Text(lines: seq<FieldLine>): Bytes {
    if lines == [] then [] else LineText(lines[0]) + Text(lines[1..])
  }

  /** The line is spelt unambiguously: it is one line, its ending is not part of it, a value
      written without the optional space does not begin with one, and other text is no field. */
  predicate Fits(l: FieldLine) {
    && LF !in Content(l)
    && (!l.crlf ==> Content(l) == [] || Last(Content(l)) != CR)
    && match l
       case EventLine(value, spaced, _) => spaced || value == [] || value[0] != SPACE
       case DataLine(value, spaced, _) => spaced || value == [] || value[0] != SPACE
       case OtherLine(text, _) => text != [] && !(EVENT + [COLON] <= text) && !(DATA + [COLON] <= text)
  }

  predicate AllFit(lines: seq<FieldLine>) {
    forall l <- lines :: Fits(l)
  }

  // ----- what the lines say -----

  function DataValues(lines: seq<FieldLine>): seq<Bytes> {
    if lines == [] then []
    else (if lines[0].DataLine? then [lines[0].value] else []) + DataValues(lines[1..])
  }

  function LastEvent(lines: seq<FieldLine>): Option<Bytes> {
    if lines == [] then None
    else Or(LastEvent(lines[1..]), if lines[0].EventLine? then Some(lines[0].value) else None)
  }

  /** The frame of a block. */
  function Meaning(lines: seq<FieldLine>): Option<Frame> {
    if LastEvent(lines).None? && DataValues(lines) == [] then None
    else Some(Frame(LastEvent(lines), Join(DataValues(lines), LF), None))
  }

  /** A block is no frame exactly when it holds neither field. Its frame's event is the value of
      its last event line; its data splits at the line feeds into the values of its data lines,
      all of them and in order, and is empty when there are none. */
  lemma {:induction false} MeaningIs(lines: seq<FieldLine>)
    requires AllFit(lines)
    ensures Meaning(lines).None? <==> forall l <- lines :: l.OtherLine?
    ensures Meaning(lines).Some? ==>
      var f := Meaning(lines).value;
      && f.status == None
      && (if DataValues(lines) == [] then f.data == [] else Split(f.data, LF) == DataValues(lines))
      && match f.event
         case None => forall l <- lines :: !l.EventLine?
         case Some(v) =>
           exists i :: 0 <= i < |lines| && lines[i].EventLine? && lines[i].value == v
                       && forall j :: i < j < |lines| ==> !lines[j].EventLine?
  {
    LastEventIs(lines);
    DataValuesFit(lines);
    hide Fits, LastEvent, DataValues;
    if forall l <- lines :: l.OtherLine? {
      assert forall l <- lines :: !l.EventLine? && !l.DataLine?;
    } else {
      var k :| k in lines && !k.OtherLine?;
      assert k.EventLine? || k.DataLine?;
    }
    if DataValues(lines) != [] {
      SplitJoin(DataValues(lines), LF);
    }
    hide Join, Split;
  }

  lemma {:induction false} LastEventIs(lines: seq<FieldLine>)
    ensures match LastEvent(lines)
            case None => forall l <- lines :: !l.EventLine?
            case Some(v) =>
              exists i :: 0 <= i < |lines| && lines[i].EventLine? && lines[i].value == v
                          && forall j :: i < j < |lines| ==> !lines[j].EventLine?
  {
    if lines != [] {
      var rest := lines[1..];
      LastEventIs(rest);
      assert forall l <- lines :: l == lines[0] || l in rest;
      if LastEvent(rest).Some? {
        var i :| 0 <= i < |rest| && rest[i].EventLine? && rest[i].value == LastEvent(rest).value
                 && forall j :: i < j < |rest| ==> !rest[j].EventLine?;
        forall j | i + 1 < j < |lines|
          ensures !lines[j].EventLine?
        {
          assert lines[j] == rest[j - 1];
        }
        assert lines[i + 1] == rest[i];
      } else if lines[0].EventLine? {
        forall j | 0 < j < |lines|
          ensures !lines[j].EventLine?
        {
          assert lines[j] == rest[j - 1] && rest[j - 1] in rest;
        }
        assert lines[0].value == LastEvent(lines).value;
      }
    }
  }

  lemma {:induction false} DataValuesFit(lines: seq<FieldLine>)
    requires AllFit(lines)
    ensures forall v <- DataValues(lines) :: LF !in v
    ensures DataValues(lines) == [] <==> forall l <- lines :: !l.DataLine?
  {
    if lines != [] {
      var l := lines[0];
      assert Fits(l) && forall k <- lines :: k == l || k in lines[1..];
      if l.DataLine? {
        assert forall b <- l.value :: b in Content(l);
      }
      hide Fits, Content;
      DataValuesFit(lines[1..]);
    }
  }

  lemma {:induction false} SaysAppend(a: seq<FieldLine>, b: seq<FieldLine>)
    ensures DataValues(a + b) == DataValues(a) + DataValues(b)
    ensures LastEvent(a + b) == Or(LastEvent(b), LastEvent(a))
  {
    if a == [] {
      assert a + b == b;
    } else {
      assert (a + b)[1..] == a[1..] + b;
      SaysAppend(a[1..], b);
    }
  }

  lemma {:induction false} TextAppend(a: seq<FieldLine>, b: seq<FieldLine>)
    ensures Text(a + b) == Text(a) + Text(b)
  {
    hide LineText;
    if a == [] {
      assert a + b == b;
    } else {
      assert (a + b)[1..] == a[1..] + b;
      TextAppend(a[1..], b);
    }
  }

  // ----- a block is read as it is meant -----

  lemma {:induction false} RawStrips(l: FieldLine)
    requires Fits(l)
    ensures StripCr(Raw(l)) == Content(l) && LF !in Raw(l)
  {
    hide Content;
    assert Content(l) + [] == Content(l);
  }

  lemma {:induction false} FieldSplits(name: Bytes, value: Bytes, spaced: bool)
    requires COLON !in name && (spaced || value == [] || value[0] != SPACE)
    ensures
      var line := name + [COLON] + (if spaced then [SPACE] else []) + value;
      && IndexOf(line, COLON) == Some(|name|) && line[..|name|] == name
      && StripSpace(line[|name| + 1..]) == value
  {
    var line := name + [COLON] + (if spaced then [SPACE] else []) + value;
    IndexOfIs(line, COLON, |name|);
    assert line[|name| + 1..] == (if spaced then [SPACE] else []) + value;
    if !spaced {
      assert [] + value == value;
    }
  }

  lemma {:induction false} OtherSaysNothing(text: Bytes)
    requires !(EVENT + [COLON] <= text) && !(DATA + [COLON] <= text)
    ensures
      var colon := IndexOf(text, COLON);
      colon.Some? ==> text[..colon.value] != EVENT && text[..colon.value] != DATA
  {
    var colon := IndexOf(text, COLON);
    if colon.Some? {
      assert text[..colon.value + 1] == text[..colon.value] + [COLON];
    }
  }

  lemma {:induction false} FieldReads(l: FieldLine, acc: Fields)
    requires Fits(l)
    ensures SseGrammar.Field(Raw(l), acc) ==
      match l
      case EventLine(v, _, _) => acc.(event := Some(v))
      case DataLine(v, _, _) => acc.(data := acc.data + [v])
      case OtherLine(_, _) => acc
  {
    RawStrips(l);
    hide StripCr, Raw, IndexOf, StripSpace;
    match l
    case EventLine(v, spaced, _) => FieldSplits(EVENT, v, spaced);
    case DataLine(v, spaced, _) =>
      FieldSplits(DATA, v, spaced);
      assert |EVENT| != |DATA|;
    case OtherLine(text, _) => OtherSaysNothing(text);
  }

  function Raws(lines: seq<FieldLine>): seq<Bytes> {
    if lines == [] then [] else [Raw(lines[0])] + Raws(lines[1..])
  }

  lemma {:induction false} TextSplits(lines: seq<FieldLine>, rest: Bytes)
    requires AllFit(lines)
    ensures Split(Text(lines) + rest, LF) == Raws(lines) + Split(rest, LF)
  {
    hide Raw, Split, Fits;
    if lines == [] {
      assert Text(lines) + rest == rest;
    } else {
      RawStrips(lines[0]);
      var raw, more := Raw(lines[0]), Text(lines[1..]) + rest;
      assert Text(lines) + rest == raw + [LF] + more;
      SplitFirst(raw, LF, more);
      TextSplits(lines[1..], rest);
    }
  }

  /** What the lines so far and those to come say together. */
  function Said(lines: seq<FieldLine>, acc: Fields): Fields {
    Fields(Or(LastEvent(lines), acc.event), acc.data + DataValues(lines))
  }

  lemma {:induction false} SaidStep(lines: seq<FieldLine>, acc: Fields)
    requires lines != [] && Fits(lines[0])
    ensures Said(lines, acc) == Said(lines[1..], SseGrammar.Field(Raw(lines[0]), acc))
  {
    hide SseGrammar.Field, Fits, Raw;
    FieldReads(lines[0], acc);
    var l, event, rest := lines[0], LastEvent(lines[1..]), DataValues(lines[1..]);
    assert LastEvent(lines) == Or(event, if l.EventLine? then Some(l.value) else None);
    assert DataValues(lines) == (if l.DataLine? then [l.value] else []) + rest;
    hide LastEvent, DataValues;
    assert l.DataLine? ==> acc.data + ([l.value] + rest) == acc.data + [l.value] + rest;
    assert [] + rest == rest;
  }

  lemma {:induction false} SaidNothing(acc: Fields)
    ensures Said([], acc) == acc
  {
    assert acc.data + [] == acc.data;
  }

  lemma {:induction false} RawsRead(lines: seq<FieldLine>, more: seq<Bytes>, acc: Fields)
    requires AllFit(lines)
    ensures FoldFields(Raws(lines) + more, acc) == FoldFields(more, Said(lines, acc))
  {
    hide SseGrammar.Field, Fits, Raw, Said;
    if lines == [] {
      SaidNothing(acc);
      assert Raws(lines) + more == more;
    } else {
      SaidStep(lines, acc);
      assert (Raws(lines) + more)[1..] == Raws(lines[1..]) + more;
      RawsRead(lines[1..], more, SseGrammar.Field(Raw(lines[0]), acc));
    }
  }

  /** Lines that say nothing by themselves, which is what the blank line and the end leave. */
  predicate Blank(raws: seq<Bytes>) {
    forall r <- raws :: r == [] || r == [CR]
  }

  lemma {:induction false} BlankSaysNothing(raws: seq<Bytes>, acc: Fields)
    requires Blank(raws)
    ensures FoldFields(raws, acc) == acc
  {
    if raws != [] {
      assert raws[0] in raws && StripCr(raws[0]) == [];
      assert forall r <- raws[1..] :: r in raws;
      BlankSaysNothing(raws[1..], acc);
    }
  }

  /** A block's lines, then whatever blank rest its terminator or the end of the input leaves. */
  lemma {:induction false} BlockMeans(lines: seq<FieldLine>, rest: Bytes)
    requires AllFit(lines) && Blank(Split(rest, LF))
    ensures BlockFrame(Text(lines) + rest) == Meaning(lines)
  {
    TextSplits(lines, rest);
    RawsRead(lines, Split(rest, LF), Fields(None, []));
    BlankSaysNothing(Split(rest, LF), Said(lines, Fields(None, [])));
    assert [] + DataValues(lines) == DataValues(lines);
    hide Split, FoldFields, Text, Raws;
  }

  // ----- where a block ends -----

  /** The blank line that closes a block is ended as the line before it. */
  function BlankLine(lines: seq<FieldLine>): Bytes {
    if lines != [] && Last(lines).crlf then [CR, LF] else [LF]
  }

  function BlockText(lines: seq<FieldLine>): Bytes {
    Text(lines) + BlankLine(lines)
  }

  /** What follows a line inside a block does not look like a blank line. */
  predicate Opens(more: Bytes) {
    more != [] && more[0] != LF && !([CR, LF] <= more)
  }

  lemma {:induction false} LineOpens(l: FieldLine, more: Bytes)
    requires Fits(l)
    ensures Opens(LineText(l) + more)
  {
    var c, all := Content(l), LineText(l) + more;
    assert c != [] && c[0] != LF && all[0] == c[0];
    if |c| >= 2 {
      assert all[1] == c[1] && c[1] != LF;
    } else {
      assert all[1] == (if l.crlf then CR else LF) && (!l.crlf ==> Last(c) == c[0] != CR);
    }
  }

  /** No terminator begins in a line that another line follows. */
  lemma {:induction false} LineEndsNothing(l: FieldLine, more: Bytes)
    requires Fits(l) && Opens(more)
    ensures NoEnd(LineText(l) + more, 0, |LineText(l)|)
  {
    RawStrips(l);
    var raw, b := Raw(l), LineText(l) + more;
    hide Raw, Content, Fits;
    forall j: nat | j < |LineText(l)|
      ensures TermLen(b, j) == 0
    {
      assert j < |raw| ==> b[j] == raw[j] && b[j] != LF;
      assert j + 1 < |raw| ==> b[j + 1] == raw[j + 1] && b[j + 1] != LF;
      assert b[|raw|] == LF && forall k :: 0 <= k < |more| ==> b[|raw| + 1 + k] == more[k];
    }
  }

  lemma {:induction false} LastLineEnds(l: FieldLine, rest: Bytes)
    requires Fits(l)
    ensures
      var blank: Bytes := if l.crlf then [CR, LF] else [LF];
      FrameEnd(LineText(l) + blank + rest, 0) == Some(|LineText(l) + blank|)
  {
    RawStrips(l);
    var blank: Bytes := if l.crlf then [CR, LF] else [LF];
    var raw, b := Raw(l), LineText(l) + blank + rest;
    var i: nat := if l.crlf then |raw| - 1 else |raw|;
    assert b[|raw|] == LF && b[|raw| + 1] == blank[0] && (l.crlf ==> b[|raw| - 1] == CR && b[|raw| + 2] == LF);
    hide Raw, Content, Fits;
    assert TermLen(b, i) == |blank| * 2;
    forall j: nat | j < i
      ensures TermLen(b, j) == 0
    {
      assert b[j] == raw[j] && b[j] != LF;
      assert j + 1 < |raw| ==> b[j + 1] == raw[j + 1] && b[j + 1] != LF;
    }
    assert FirstEnd(b, 0, i + TermLen(b, i));
    FrameEndIs(b, i + TermLen(b, i));
  }

  lemma {:induction false} BlockSteps(lines: seq<FieldLine>, rest: Bytes)
    requires |lines| > 1
    ensures BlockText(lines) + rest == LineText(lines[0]) + (BlockText(lines[1..]) + rest)
    ensures |BlockText(lines)| == |LineText(lines[0])| + |BlockText(lines[1..])|
    ensures BlockText(lines[1..]) + rest == LineText(lines[1]) + (Text(lines[2..]) + BlankLine(lines) + rest)
  {
    hide LineText;
    assert Last(lines[1..]) == Last(lines) && lines[1..][1..] == lines[2..];
  }

  /** The first terminator in a block's text is the block's own blank line. */
  lemma {:induction false} BlockEnds(lines: seq<FieldLine>, rest: Bytes)
    requires lines != [] && AllFit(lines)
    ensures FrameEnd(BlockText(lines) + rest, 0) == Some(|BlockText(lines)|)
  {
    hide Fits, LineText, TermLen, FrameEnd, Opens, NoEnd;
    var l := lines[0];
    if |lines| == 1 {
      LastLineEnds(l, rest);
      assert Text(lines) == LineText(l) + [] == LineText(l);
    } else {
      var tail := BlockText(lines[1..]) + rest;
      BlockSteps(lines, rest);
      LineOpens(lines[1], Text(lines[2..]) + BlankLine(lines) + rest);
      BlockEnds(lines[1..], rest);
      hide Text, BlankLine, BlockText;
      LineEndsNothing(l, tail);
      SearchMayResume(LineText(l) + tail, |LineText(l)|);
      assert (LineText(l) + tail)[|LineText(l)|..] == tail;
    }
  }

  lemma {:induction false} BlankSplits()
    ensures Split([], LF) == [[]]
    ensures Split([LF], LF) == [[], []]
    ensures Split([CR, LF], LF) == [[CR], []]
  {
    var none: Bytes := [];
    SplitWhole([], LF);
    SplitFirst([], LF, []);
    assert none + [LF] + none == [LF];
    SplitFirst([CR], LF, []);
    assert [CR] + [LF] + none == [CR, LF];
  }

  // ----- a whole stream -----

  /** Complete blocks, then what the input ends in without a blank line: some lines, the last of
      which may lack even its line feed. */
  datatype Stream = Stream(marked: bool, blocks: seq<seq<FieldLine>>, tail: seq<FieldLine>, cut: bool)

  predicate WellFormed(s: Stream) {
    && (forall b <- s.blocks :: b != [] && AllFit(b))
    && AllFit(s.tail)
    && (s.marked || !(BOM <= StreamText(s.blocks) + TailText(s.tail, s.cut)))
  }

  function StreamText(blocks: seq<seq<FieldLine>>): Bytes {
    if blocks == [] then [] else BlockText(blocks[0]) + StreamText(blocks[1..])
  }

  function TailText(tail: seq<FieldLine>, cut: bool): Bytes {
    if tail == [] then []
    else if |tail| == 1 then (if cut then Raw(tail[0]) else LineText(tail[0]))
    else LineText(tail[0]) + TailText(tail[1..], cut)
  }

  /** The input: an optional byte-order mark, the blocks, the tail. */
  function Input(s: Stream): Bytes {
    (if s.marked then BOM else []) + (StreamText(s.blocks) + TailText(s.tail, s.cut))
  }

  function Told(lines: seq<FieldLine>): seq<Frame> {
    match Meaning(lines)
    case Some(f) => [f]
    case None => []
  }

  function Meanings(blocks: seq<seq<FieldLine>>): seq<Frame> {
    if blocks == [] then [] else Told(blocks[0]) + Meanings(blocks[1..])
  }

  lemma {:induction false} TailUncut(lines: seq<FieldLine>, cut: bool)
    requires AllFit(lines)
    ensures NoEnd(TailText(lines, cut), 0, |TailText(lines, cut)|)
    decreases |lines|
  {
    hide Fits, LineText, Raw, TermLen, Opens;
    if |lines| == 1 {
      LoneLineUncut(lines[0], cut);
    } else if lines != [] {
      var rest := TailText(lines[1..], cut);
      TailUncut(lines[1..], cut);
      TailOpens(lines[1..], cut);
      hide TailText;
      LineEndsNothing(lines[0], rest);
      NoEndJoins(LineText(lines[0]), rest);
    }
  }

  lemma {:induction false} NoEndJoins(a: Bytes, b: Bytes)
    requires NoEnd(a + b, 0, |a|) && NoEnd(b, 0, |b|)
    ensures NoEnd(a + b, 0, |a + b|)
  {
    forall j: nat | |a| <= j < |a + b|
      ensures TermLen(a + b, j) == 0
    {
      assert TermLen(b, j - |a|) == TermLen(a + b, j);
    }
  }

  lemma {:induction false} TailOpens(lines: seq<FieldLine>, cut: bool)
    requires lines != [] && AllFit(lines)
    ensures Opens(TailText(lines, cut))
  {
    hide Fits, LineText, Raw, Opens;
    if |lines| == 1 {
      LoneLineOpens(lines[0], cut);
    } else {
      LineOpens(lines[0], TailText(lines[1..], cut));
    }
  }

  lemma {:induction false} LoneLineOpens(l: FieldLine, cut: bool)
    requires Fits(l)
    ensures Opens(if cut then Raw(l) else LineText(l))
  {
    LineOpens(l, []);
    assert LineText(l) + [] == LineText(l);
    assert Content(l) != [] && Raw(l)[0] == LineText(l)[0];
    assert |Raw(l)| > 1 ==> Raw(l)[1] == LineText(l)[1];
  }

  lemma {:induction false} LoneLineUncut(l: FieldLine, cut: bool)
    requires Fits(l)
    ensures
      var b := if cut then Raw(l) else LineText(l);
      NoEnd(b, 0, |b|)
  {
    RawStrips(l);
    var raw := Raw(l);
    hide Raw, Content, Fits;
    var b := if cut then raw else LineText(l);
    forall j: nat | j < |b|
      ensures TermLen(b, j) == 0
    {
      assert j < |raw| ==> b[j] == raw[j] && b[j] != LF;
      assert j + 1 < |raw| ==> b[j + 1] == raw[j + 1] && b[j + 1] != LF;
    }
  }

  lemma {:induction false} TailSplits(lines: seq<FieldLine>, cut: bool)
    requires AllFit(lines)
    ensures Split(TailText(lines, cut), LF) == Raws(lines) + if cut && lines != [] then [] else [[]]
    decreases |lines|
  {
    hide Raw, Split, Fits;
    if lines == [] {
      SplitWhole([], LF);
    } else if |lines| == 1 {
      RawStrips(lines[0]);
      var raw, none: Bytes := Raw(lines[0]), [];
      SplitWhole(raw, LF);
      SplitFirst(raw, LF, none);
      SplitWhole(none, LF);
      assert raw + [LF] + none == raw + [LF];
      assert Raws(lines) == [raw] + Raws(lines[1..]) && Raws(lines[1..]) == [];
    } else {
      RawStrips(lines[0]);
      SplitFirst(Raw(lines[0]), LF, TailText(lines[1..], cut));
      TailSplits(lines[1..], cut);
    }
  }

  /** What the input ends in is read as it is meant, blank line or none. */
  lemma {:induction false} TailMeans(lines: seq<FieldLine>, cut: bool)
    requires AllFit(lines)
    ensures BlockFrame(TailText(lines, cut)) == Meaning(lines)
  {
    var rest: seq<Bytes> := if cut && lines != [] then [] else [[]];
    TailSplits(lines, cut);
    RawsRead(lines, rest, Fields(None, []));
    BlankSaysNothing(rest, Said(lines, Fields(None, [])));
    assert [] + DataValues(lines) == DataValues(lines);
    hide Split, FoldFields, TailText, Raws;
  }

  lemma {:induction false} FullBlockMeans(lines: seq<FieldLine>)
    requires AllFit(lines)
    ensures BlockFrame(BlockText(lines)) == Meaning(lines)
  {
    BlankSplits();
    BlockMeans(lines, BlankLine(lines));
  }

  lemma {:induction false} StreamFrames(blocks: seq<seq<FieldLine>>, tail: seq<FieldLine>, cut: bool)
    requires (forall b <- blocks :: b != [] && AllFit(b)) && AllFit(tail)
    ensures
      var text := StreamText(blocks) + TailText(tail, cut);
      Frames(SseBlocks, text) == Meanings(blocks) && Tail(SseBlocks, text) == TailText(tail, cut)
    decreases |blocks|
  {
    hide AllFit, BlockText, TailText, Meaning, BlockFrame, FrameEnd;
    var text := StreamText(blocks) + TailText(tail, cut);
    if blocks == [] {
      assert text == TailText(tail, cut);
      TailUncut(tail, cut);
      FrameEndFinds(text, 0);
    } else {
      var b, rest := blocks[0], StreamText(blocks[1..]) + TailText(tail, cut);
      assert b in blocks && forall more <- blocks[1..] :: more in blocks;
      assert text == BlockText(b) + rest;
      BlockEnds(b, rest);
      assert text[..|BlockText(b)|] == BlockText(b) && text[|BlockText(b)|..] == rest;
      FramesStep(SseBlocks, text, |BlockText(b)|);
      FullBlockMeans(b);
      StreamFrames(blocks[1..], tail, cut);
      hide Frames, Tail, StreamText;
    }
  }

  /** The parse of an input is what its blocks mean, and what it ends in means, each once and in
      order; one leading byte-order mark is ignored. By `DecodeSse` the decoder finds the same
      under every chunking. */
  lemma {:induction false} InputMeans(s: Stream)
    requires WellFormed(s)
    ensures WholeParse(SseBlocks, Input(s)) == Meanings(s.blocks) + Told(s.tail)
  {
    hide AllFit, TailText, StreamText, Meaning, BlockFrame, Frames, Tail;
    var text := StreamText(s.blocks) + TailText(s.tail, s.cut);
    assert Body(SseBlocks, Input(s)) == text by {
      assert [] + text == text && (BOM + text)[3..] == text;
    }
    StreamFrames(s.blocks, s.tail, s.cut);
    TailMeans(s.tail, s.cut);
  }

  /** Of a cut-off input only the complete blocks are told. */
  lemma {:induction false} ReadyMeans(s: Stream)
    requires WellFormed(s)
    ensures Ready(SseBlocks, Input(s)) == Meanings(s.blocks)
  {
    hide AllFit, TailText, StreamText, Frames, Tail;
    var text := StreamText(s.blocks) + TailText(s.tail, s.cut);
    assert Body(SseBlocks, Input(s)) == text by {
      assert [] + text == text && (BOM + text)[3..] == text;
    }
    StreamFrames(s.blocks, s.tail, s.cut);
  }

  // ----- JSON lines -----

  /** One line of an NDJSON stream, ended by LF or CR LF. */
  datatype JsonLine = JsonLine(text: Bytes, crlf: bool)

  predicate IsLine(l: JsonLine) {
    LF !in l.text && (!l.crlf ==> l.text == [] || Last(l.text) != CR)
  }

  function RawLine(l: JsonLine): Bytes {
    l.text + if l.crlf then [CR] else []
  }

  function Lines(lines: seq<JsonLine>): Bytes {
    if lines == [] then [] else RawLine(lines[0]) + [LF] + Lines(lines[1..])
  }

  /** A line that is not blank is one frame, verbatim. */
  function LineFrames(lines: seq<JsonLine>): seq<Frame> {
    if lines == [] then []
    else (if lines[0].text == [] then [] else [Frame(None, lines[0].text, None)]) + LineFrames(lines[1..])
  }

  lemma {:induction false} LineMeans(l: JsonLine)
    requires IsLine(l)
    ensures LineFrame(RawLine(l)) == if l.text == [] then None else Some(Frame(None, l.text, None))
    ensures LF !in RawLine(l)
  {
    assert l.text + [] == l.text;
  }

  lemma {:induction false} LinesFrames(lines: seq<JsonLine>, last: JsonLine)
    requires (forall l <- lines :: IsLine(l)) && IsLine(last)
    ensures
      var text := Lines(lines) + RawLine(last);
      Frames(NdjsonLines, text) == LineFrames(lines) && Tail(NdjsonLines, text) == RawLine(last)
  {
    hide LineFrame;
    var text := Lines(lines) + RawLine(last);
    LineMeans(last);
    if lines == [] {
      assert text == RawLine(last);
    } else {
      var raw, rest := RawLine(lines[0]), Lines(lines[1..]) + RawLine(last);
      LineMeans(lines[0]);
      assert text == raw + [LF] + rest;
      IndexOfIs(text, LF, |raw|);
      assert text[..|raw| + 1] == raw + [LF] && text[|raw| + 1..] == rest && (raw + [LF])[..|raw|] == raw;
      FramesStep(NdjsonLines, text, |raw| + 1);
      LinesFrames(lines[1..], last);
      hide Frames, Tail, Lines, RawLine, IndexOf;
    }
  }

  /** Every line that is not blank is one frame, the unterminated last one included. */
  lemma {:induction false} LinesMean(lines: seq<JsonLine>, last: JsonLine)
    requires (forall l <- lines :: IsLine(l)) && IsLine(last)
    ensures WholeParse(NdjsonLines, Lines(lines) + RawLine(last)) == LineFrames(lines + [last])
  {
    LinesFrames(lines, last);
    LineMeans(last);
    LineFramesSnoc(lines, last);
    hide Frames, Tail, Lines, LineFrame;
    assert LF !in RawLine(last);
    var raw := RawLine(last);
    hide RawLine;
    assert raw != [] ==> raw[|raw| - 1] in raw;
  }

  lemma {:induction false} LineFramesSnoc(lines: seq<JsonLine>, last: JsonLine)
    ensures LineFrames(lines + [last]) == LineFrames(lines) + if last.text == [] then [] else [Frame(None, last.text, None)]
  {
    if lines == [] {
      assert lines + [last] == [last] && [last][1..] == [];
    } else {
      assert (lines + [last])[1..] == lines[1..] + [last];
      LineFramesSnoc(lines[1..], last);
      var first: seq<Frame> := if lines[0].text == [] then [] else [Frame(None, lines[0].text, None)];
      var more: seq<Frame> := if last.text == [] then [] else [Frame(None, last.text, None)];
      assert first + (LineFrames(lines[1..]) + more) == first + LineFrames(lines[1..]) + more;
    }
  }
}
