/** The SSE text the masquerade encoders write (src/ingress/openai_chat/chunks.rs,
    src/ingress/anthropic_messages/frames.rs), and the proof that this repository's own
    framer reads it back, whatever the chunking. */
module SseWire {
  import opened Base
  import opened SseGrammar
  import Sse = SseMeaning

  /** The bytes of ": brazen adaptation=", "event: " and "data: ". */
  const NOTE: Bytes := [58, 32, 98, 114, 97, 122, 101, 110, 32, 97, 100, 97, 112, 116, 97, 116, 105, 111, 110, 61]
  const EVENT_FIELD: Bytes := EVENT + [COLON, SPACE]
  const DATA_FIELD: Bytes := DATA + [COLON, SPACE]

  /** One frame to render: the adaptation names still pending, then the frame itself. */
  datatype Item = Item(notes: seq<Bytes>, event: Option<Bytes>, data: Bytes)

  function NoteLines(notes: seq<Bytes>): seq<Bytes> {
    if notes == [] then [] else [NOTE + notes[0]] + NoteLines(notes[1..])
  }

  function FieldLines(it: Item): seq<Bytes> {
    (if it.event.Some? then [EVENT_FIELD + it.event.value] else []) + [DATA_FIELD + it.data]
  }

  function LinesText(lines: seq<Bytes>): Bytes {
    if lines == [] then [] else lines[0] + [LF] + LinesText(lines[1..])
  }

  /** The text of one frame, closed by its blank line. */
  function Text(it: Item): Bytes {
    LinesText(NoteLines(it.notes) + FieldLines(it)) + [LF]
  }

  function Stream(items: seq<Item>): Bytes {
    if items == [] then [] else Text(items[0]) + Stream(items[1..])
  }

  function Payloads(items: seq<Item>): seq<Frame> {
    if items == [] then [] else [Frame(items[0].event, items[0].data, None)] + Payloads(items[1..])
  }

  /** A value that fits on one line and keeps its last byte through the framer. */
  predicate OneLine(v: Bytes) {
    LF !in v && (|v| > 0 ==> v[|v| - 1] != CR)
  }

  predicate Renderable(it: Item) {
    && (forall n <- it.notes :: LF !in n)
    && (it.event.Some? ==> OneLine(it.event.value))
    && OneLine(it.data)
  }

  // ----- the text as lines of the grammar -----

  /** A comment line; a carriage return at its end is read as part of the ending. */
  function NoteField(name: Bytes): Sse.FieldLine {
    if name != [] && Last(name) == CR then Sse.OtherLine(NOTE + Front(name), true) else Sse.OtherLine(NOTE + name, false)
  }

  function NoteFields(notes: seq<Bytes>): seq<Sse.FieldLine> {
    if notes == [] then [] else [NoteField(notes[0])] + NoteFields(notes[1..])
  }

  function Fields(it: Item): seq<Sse.FieldLine> {
    (if it.event.Some? then [Sse.EventLine(it.event.value, true, false)] else []) + [Sse.DataLine(it.data, true, false)]
  }

  function Block(it: Item): seq<Sse.FieldLine> {
    NoteFields(it.notes) + Fields(it)
  }

  function Blocks(items: seq<Item>): seq<seq<Sse.FieldLine>> {
    if items == [] then [] else [Block(items[0])] + Blocks(items[1..])
  }

  lemma {:induction false} NoteIsField(name: Bytes)
    requires LF !in name
    ensures Sse.LineText(NoteField(name)) == NOTE + name + [LF] && Sse.Fits(NoteField(name))
  {
    assert EVENT[0] != NOTE[0] && DATA[0] != NOTE[0] && LF !in NOTE && NOTE[|NOTE| - 1] != CR;
    var text := Sse.Content(NoteField(name));
    assert text[0] == NOTE[0] && !(EVENT + [COLON] <= text) && !(DATA + [COLON] <= text);
    if name != [] && Last(name) == CR {
      assert NOTE + Front(name) + [CR] == NOTE + name;
    } else {
      assert NOTE + name + [] == NOTE + name;
      assert Last(text) == if name == [] then Last(NOTE) else Last(name);
    }
  }

  lemma {:induction false} NotesAreFields(notes: seq<Bytes>)
    requires forall n <- notes :: LF !in n
    ensures Sse.Text(NoteFields(notes)) == LinesText(NoteLines(notes)) && Sse.AllFit(NoteFields(notes))
    ensures Sse.DataValues(NoteFields(notes)) == [] && Sse.LastEvent(NoteFields(notes)) == None
  {
    if notes != [] {
      NoteIsField(notes[0]);
      NotesAreFields(notes[1..]);
      hide Sse.LineText, Sse.Fits;
    }
  }

  lemma {:induction false} LinesTextAppend(a: seq<Bytes>, b: seq<Bytes>)
    ensures LinesText(a + b) == LinesText(a) + LinesText(b)
  {
    if a == [] {
      assert a + b == b;
    } else {
      assert (a + b)[1..] == a[1..] + b;
      LinesTextAppend(a[1..], b);
    }
  }

  lemma {:induction false} EventIsField(value: Bytes)
    requires OneLine(value)
    ensures
      var l := Sse.EventLine(value, true, false);
      Sse.LineText(l) == EVENT_FIELD + value + [LF] && Sse.Fits(l)
  {
    assert EVENT + [COLON] + [SPACE] + value + [] == EVENT_FIELD + value;
    assert LF !in EVENT_FIELD && Last(EVENT_FIELD) != CR;
  }

  lemma {:induction false} DataIsField(value: Bytes)
    requires OneLine(value)
    ensures
      var l := Sse.DataLine(value, true, false);
      Sse.LineText(l) == DATA_FIELD + value + [LF] && Sse.Fits(l)
  {
    assert DATA + [COLON] + [SPACE] + value + [] == DATA_FIELD + value;
    assert LF !in DATA_FIELD && Last(DATA_FIELD) != CR;
  }

  lemma {:induction false} FieldsAreLines(it: Item)
    requires Renderable(it)
    ensures Sse.Text(Fields(it)) == LinesText(FieldLines(it)) && Sse.AllFit(Fields(it))
    ensures Sse.DataValues(Fields(it)) == [it.data] && Sse.LastEvent(Fields(it)) == it.event
  {
    var none: seq<Sse.FieldLine>, blank: seq<Bytes> := [], [];
    var last, line := Sse.DataLine(it.data, true, false), DATA_FIELD + it.data;
    DataIsField(it.data);
    assert [last][1..] == none && [line][1..] == blank;
    assert Sse.Text([last]) == LinesText([line]) == line + [LF];
    assert Sse.DataValues([last]) == [it.data] && Sse.LastEvent([last]) == None;
    if it.event.Some? {
      var first, start := Sse.EventLine(it.event.value, true, false), EVENT_FIELD + it.event.value;
      EventIsField(it.event.value);
      hide Sse.LineText, Sse.Fits;
      assert Fields(it) == [first, last] && [first, last][1..] == [last];
      assert FieldLines(it) == [start, line] && [start, line][1..] == [line];
    } else {
      hide Sse.LineText, Sse.Fits;
      assert Fields(it) == [last] && FieldLines(it) == [line];
    }
  }

  lemma {:induction false} BlockIsItem(it: Item)
    requires Renderable(it)
    ensures Sse.BlockText(Block(it)) == Text(it) && Block(it) != [] && Sse.AllFit(Block(it))
    ensures Sse.Told(Block(it)) == [Frame(it.event, it.data, None)]
  {
    NotesAreFields(it.notes);
    FieldsAreLines(it);
    hide Sse.AllFit;
    Sse.TextAppend(NoteFields(it.notes), Fields(it));
    Sse.SaysAppend(NoteFields(it.notes), Fields(it));
    LinesTextAppend(NoteLines(it.notes), FieldLines(it));
    assert Last(Block(it)) == Sse.DataLine(it.data, true, false);
    FitAppend(NoteFields(it.notes), Fields(it));
    assert [] + [it.data] == [it.data];
    hide Sse.Text, Sse.DataValues, Sse.LastEvent, LinesText, NoteFields, Fields, FieldLines, NoteLines;
  }

  lemma {:induction false} FitAppend(a: seq<Sse.FieldLine>, b: seq<Sse.FieldLine>)
    requires Sse.AllFit(a) && Sse.AllFit(b)
    ensures Sse.AllFit(a + b)
  {
    hide Sse.Fits;
  }

  // ----- the whole stream -----

  lemma {:induction false} BlocksAreItems(items: seq<Item>)
    requires forall it <- items :: Renderable(it)
    ensures Sse.StreamText(Blocks(items)) == Stream(items)
    ensures forall b <- Blocks(items) :: b != [] && Sse.AllFit(b)
    ensures Sse.Meanings(Blocks(items)) == Payloads(items)
  {
    hide Sse.AllFit, Sse.BlockText, Sse.Told, Block, Text, Renderable;
    if items != [] {
      BlockIsItem(items[0]);
      BlocksAreItems(items[1..]);
    }
  }

  /** What the encoder writes is read back frame for frame, adaptation comments unseen;
      by `DecodeSse` this holds under every chunking. */
  lemma {:induction false} WrittenStreamReadsBack(items: seq<Item>)
    requires forall it <- items :: Renderable(it)
    ensures WholeParse(SseBlocks, Stream(items)) == Payloads(items)
  {
    BlocksAreItems(items);
    NoMark(items);
    var s := Sse.Stream(false, Blocks(items), [], false);
    var text := Stream(items);
    assert [] + (text + []) == text && text + [] == text;
    hide Stream, Payloads, Blocks, Sse.StreamText, Sse.Meanings, WholeParse, Renderable;
    Sse.InputMeans(s);
    assert Payloads(items) + [] == Payloads(items);
  }

  lemma {:induction false} NoMark(items: seq<Item>)
    ensures !(BOM <= Stream(items))
  {
    if items != [] {
      FirstByte(items[0]);
      assert Stream(items)[0] == (NoteLines(items[0].notes) + FieldLines(items[0]))[0][0];
    }
  }

  lemma {:induction false} FirstByte(it: Item)
    ensures
      var lines := NoteLines(it.notes) + FieldLines(it);
      |lines| > 0 && |lines[0]| > 0 && lines[0][0] != BOM[0]
  {
    if it.notes != [] {
      assert (NOTE + it.notes[0])[0] == COLON;
    }
  }
}
