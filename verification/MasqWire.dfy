/** What both dialects' turns share (src/run/masq/mod.rs:115-153): the bytes an encoder says event
    by event, put on the HTTP responder, and how the client finds them. */
module MasqWire {
  import opened Base
  import opened HttpResponses
  import opened SseWire
  import Sse = SseGrammar
  import Wire = Envelope

  // ----- lines as they are spelt -----

  /** An adaptation comment, an SSE frame closed by its blank line, or an aggregate body. */
  datatype Spelt = SpeltNote(name: Bytes) | SpeltFrame(event: Option<Bytes>, data: Bytes) | SpeltBody(body: Bytes)

  function BytesOf(s: Spelt): Bytes {
    match s
    case SpeltNote(name) => NOTE + name + [LF]
    case SpeltFrame(event, data) => LinesText(FieldLines(Item([], event, data))) + [LF]
    case SpeltBody(body) => body
  }

  function Written(lines: seq<Spelt>): Bytes {
    if lines == [] then [] else BytesOf(lines[0]) + Written(lines[1..])
  }

  /** Names and JSON text fit on a line; a body is not empty. */
  predicate Tidy(s: Spelt) {
    match s
    case SpeltNote(name) => LF !in name
    case SpeltFrame(event, data) => OneLine(data) && (event.Some? ==> OneLine(event.value))
    case SpeltBody(body) => body != []
  }

  lemma {:induction false} TidySays(s: Spelt)
    requires Tidy(s)
    ensures BytesOf(s) != []
  {
  }

  lemma {:induction false} WrittenAppend(a: seq<Spelt>, b: seq<Spelt>)
    ensures Written(a + b) == Written(a) + Written(b)
  {
    if a == [] {
      assert a + b == b;
    } else {
      assert (a + b)[1..] == a[1..] + b;
      WrittenAppend(a[1..], b);
    }
  }

  // ----- written lines read back as their frames -----

  /** The frames among the lines; comments are for the eye alone. */
  function FramesOf(lines: seq<Spelt>): seq<Sse.Frame> {
    if lines == [] then []
    else (if lines[0].SpeltFrame? then [Sse.Frame(lines[0].event, lines[0].data, None)] else []) + FramesOf(lines[1..])
  }

  /** The lines of a stream: no body among them, and every comment rides ahead of a frame. */
  predicate Streamed(lines: seq<Spelt>) {
    && (forall s <- lines :: Tidy(s) && !s.SpeltBody?)
    && (lines != [] ==> Last(lines).SpeltFrame?)
  }

  function Items(lines: seq<Spelt>, notes: seq<Bytes>): seq<Item> {
    if lines == [] then []
    else
      match lines[0]
      case SpeltNote(name) => Items(lines[1..], notes + [name])
      case SpeltFrame(event, data) => [Item(notes, event, data)] + Items(lines[1..], [])
      case SpeltBody(_) => Items(lines[1..], notes)
  }

  lemma {:induction false} NoteLinesSnoc(notes: seq<Bytes>, name: Bytes)
    ensures LinesText(NoteLines(notes + [name])) == LinesText(NoteLines(notes)) + (NOTE + name + [LF])
  {
    if notes == [] {
      assert notes + [name] == [name] && [name][1..] == [];
      assert NoteLines([name]) == [NOTE + name] && [NOTE + name][1..] == [];
    } else {
      assert (notes + [name])[1..] == notes[1..] + [name];
      NoteLinesSnoc(notes[1..], name);
    }
  }

  lemma {:induction false} NoNotes()
    ensures LinesText(NoteLines([])) == []
  {
  }

  lemma {:induction false} ItemsAreLines(lines: seq<Spelt>, notes: seq<Bytes>)
    requires Streamed(lines) && (lines == [] ==> notes == []) && forall n <- notes :: LF !in n
    ensures Stream(Items(lines, notes)) == LinesText(NoteLines(notes)) + Written(lines)
    ensures Payloads(Items(lines, notes)) == FramesOf(lines)
    ensures forall it <- Items(lines, notes) :: Renderable(it)
    decreases |lines|
  {
    if lines != [] {
      var rest := lines[1..];
      assert rest != [] ==> Last(rest) == Last(lines);
      assert lines[0] in lines && Tidy(lines[0]);
      match lines[0]
      case SpeltNote(name) =>
        hide LinesText, NoteLines, Renderable, Stream, Payloads;
        ItemsAreLines(rest, notes + [name]);
        NoteLinesSnoc(notes, name);
      case SpeltFrame(event, data) =>
        ItemsAreLines(rest, []);
        FrameItem(Item(notes, event, data), Items(rest, []));
        NoNotes();
        hide LinesText, NoteLines, Stream, Payloads, BytesOf;
    }
  }

  lemma {:induction false} FrameItem(it: Item, rest: seq<Item>)
    ensures Stream([it] + rest)
         == LinesText(NoteLines(it.notes)) + (BytesOf(SpeltFrame(it.event, it.data)) + Stream(rest))
    ensures Payloads([it] + rest) == [Sse.Frame(it.event, it.data, None)] + Payloads(rest)
  {
    assert ([it] + rest)[1..] == rest;
    LinesTextAppend(NoteLines(it.notes), FieldLines(it));
    assert FieldLines(it) == FieldLines(Item([], it.event, it.data));
  }

  /** The framer finds in written lines exactly their frames, however they are cut. */
  lemma {:induction false} WrittenLinesReadBack(lines: seq<Spelt>)
    requires Streamed(lines)
    ensures Sse.WholeParse(Sse.SseBlocks, Written(lines)) == FramesOf(lines)
  {
    hide Items, Stream, Payloads, Renderable, NoteLines, LinesText, Written, Streamed, FramesOf, Sse.WholeParse;
    ItemsAreLines(lines, []);
    NoNotes();
    assert [] + Written(lines) == Written(lines);
    WrittenStreamReadsBack(Items(lines, []));
  }

  // ----- pieces -----

  /** What one event came to: the status the encoder reports after it, and its bytes. */
  datatype Piece = Piece(status: nat, bytes: Bytes)

  /** The pieces that say anything; the silent ones are skipped. */
  function Said(pieces: seq<Piece>): (said: seq<Bytes>)
    ensures forall b <- said :: b != []
  {
    if pieces == [] then []
    else (if pieces[0].bytes == [] then [] else [pieces[0].bytes]) + Said(pieces[1..])
  }

  /** The status in force when the first piece said something. */
  function Began(pieces: seq<Piece>): nat {
    if pieces == [] then 200
    else if pieces[0].bytes != [] then pieces[0].status
    else Began(pieces[1..])
  }

  /** What is on the wire before the end. */
  function Sent(pieces: seq<Piece>, sse: bool): Bytes {
    if sse && Said(pieces) != [] then SseHead(Began(pieces)) + Frames(Said(pieces)) else []
  }

  /** The whole response. */
  function Response(pieces: seq<Piece>, sse: bool): Bytes {
    if sse && Said(pieces) != [] then SseHead(Began(pieces)) + Coded(Said(pieces))
    else BodyHead(Began(pieces), |Flatten(Said(pieces))|) + Flatten(Said(pieces))
  }

  // ----- pieces, one more at a time -----

  lemma {:induction false} SaidAppend(a: seq<Piece>, b: seq<Piece>)
    ensures Said(a + b) == Said(a) + Said(b)
    ensures Began(a + b) == if Said(a) != [] then Began(a) else Began(b)
    ensures Said(a) == [] ==> Began(a) == 200
  {
    if a == [] {
      assert a + b == b;
    } else {
      assert (a + b)[1..] == a[1..] + b;
      SaidAppend(a[1..], b);
    }
  }

  lemma {:induction false} SaidOne(p: Piece)
    ensures Said([p]) == (if p.bytes == [] then [] else [p.bytes])
    ensures Began([p]) == if p.bytes == [] then 200 else p.status
  {
    assert [p][1..] == [];
  }

  lemma {:induction false} FramesAppend(a: seq<Bytes>, b: seq<Bytes>)
    ensures Frames(a + b) == Frames(a) + Frames(b)
  {
    hide ChunkFrame;
    if a == [] {
      assert a + b == b;
    } else {
      assert (a + b)[1..] == a[1..] + b;
      FramesAppend(a[1..], b);
    }
  }

  lemma {:induction false} FramesOne(c: Bytes)
    ensures Frames([c]) == ChunkFrame(c)
  {
    hide ChunkFrame;
    assert [c][1..] == [];
  }

  /** What one more piece adds before the end. */
  lemma {:induction false} SentSnoc(done: seq<Piece>, p: Piece)
    ensures p.bytes == [] ==> Sent(done + [p], true) == Sent(done, true)
    ensures p.bytes != [] && Said(done) != [] ==> Sent(done + [p], true) == Sent(done, true) + ChunkFrame(p.bytes)
    ensures p.bytes != [] && Said(done) == [] ==> Sent(done + [p], true) == SseHead(p.status) + ChunkFrame(p.bytes)
    ensures Said(done) == [] ==> Sent(done, true) == [] && Flatten(Said(done)) == []
    ensures Sent(done, false) == Sent(done + [p], false) == []
  {
    hide SseHead, ChunkFrame;
    SaidAppend(done, [p]);
    SaidOne(p);
    assert p.bytes == [] ==> Said(done + [p]) == Said(done);
    if p.bytes != [] {
      FramesAppend(Said(done), [p.bytes]);
      FramesOne(p.bytes);
    }
  }

  /** Once begun, what is on the wire only grows into the whole response. */
  lemma {:induction false} SentGrows(done: seq<Piece>, rest: seq<Piece>)
    requires Said(done) != []
    ensures Sent(done, true) <= Sent(done + rest, true) <= Response(done + rest, true)
    ensures SseHead(Began(done)) <= Sent(done, true)
  {
    hide SseHead, Frames, Said, Began;
    SaidAppend(done, rest);
    FramesAppend(Said(done), Said(rest));
    Lengthens(SseHead(Began(done)), Frames(Said(done)), Frames(Said(rest)), LAST_CHUNK);
  }

  lemma {:induction false} Lengthens(head: Bytes, a: Bytes, b: Bytes, last: Bytes)
    ensures head <= head + a <= head + (a + b) <= head + (a + b + last)
  {
    assert head + (a + b) == head + a + b;
    assert head + (a + b + last) == head + (a + b) + last;
  }

  // ----- the turn -----

  /** One more event's worth on the wire. The response begins with the first piece that says
      something, an aggregate's bytes are buffered, and a client that has had its fill of
      `Sent` has had its fill of the whole response. */
  method Put(p: Piece, begun: bool, sse: bool, r: HttpRespond, ghost done: seq<Piece>, ghost rest: seq<Piece>)
    returns (begun': bool, ok: bool)
    requires OnWire(r, begun, sse, done)
    modifies r, r.w
    ensures ok ==> OnWire(r, begun', sse, done + [p])
    ensures ok == (|Sent(done + [p], sse)| <= r.w.room)
    ensures !ok ==> Full(r, done + [p] + rest, sse)
  {
    hide Sent, Said, Began, Response, Taken, Flatten, SseHead, ChunkFrame;
    SaidAppend(done, [p]);
    SaidOne(p);
    SentSnoc(done, p);
    begun', ok := begun, true;
    if p.bytes == [] {
      assert Said(done + [p]) == Said(done);
      return;
    }
    FlattenSnoc(Said(done), p.bytes);
    if !begun {
      ok := r.Begin(p.status, sse);
      if !ok {
        SentGrows(done + [p], rest);
        FullAtOnce(r, SseHead(p.status), done + [p] + rest, sse);
        return;
      }
      begun' := true;
    }
    ok := r.Chunk(p.bytes);
    if !ok {
      SentGrows(done + [p], rest);
      FullAtOnce(r, Sent(done + [p], true), done + [p] + rest, sse);
    }
  }

  /** The responder after some pieces. */
  ghost predicate OnWire(r: HttpRespond, begun: bool, sse: bool, done: seq<Piece>)
    reads r, r.w
  {
    && r.Valid() && !r.dead
    && begun == (Said(done) != []) && r.asked == Sent(done, sse)
    && r.sse == (begun && sse) && r.status == Began(done)
    && r.body == (if sse then [] else Flatten(Said(done)))
  }

  /** The client took what it had room for and no more of it would have fitted. */
  ghost predicate Full(r: HttpRespond, pieces: seq<Piece>, sse: bool)
    reads r, r.w
  {
    r.w.received == Taken(Response(pieces, sse), r.w.room) && |Response(pieces, sse)| > r.w.room
  }

  lemma {:induction false} FullAtOnce(r: HttpRespond, part: Bytes, pieces: seq<Piece>, sse: bool)
    requires r.Valid() && r.dead && r.asked == part && part <= Response(pieces, sse)
    ensures Full(r, pieces, sse)
  {
    hide Response;
    StaysTaken(part, Response(pieces, sse), r.w.room);
  }

  /** What ends the response: the last chunk, or the head and the body; a turn that said nothing
      is answered by an empty aggregate. */
  lemma {:induction false} Ends(pieces: seq<Piece>, sse: bool)
    ensures Response(pieces, sse) ==
      if sse && Said(pieces) != [] then Sent(pieces, sse) + LAST_CHUNK
      else
        var body := if sse then [] else Flatten(Said(pieces));
        Sent(pieces, sse) + (BodyHead(Began(pieces), |body|) + body)
  {
    hide SseHead, BodyHead, Frames;
    if sse && Said(pieces) != [] {
      assert SseHead(Began(pieces)) + Frames(Said(pieces)) + LAST_CHUNK == SseHead(Began(pieces)) + Coded(Said(pieces));
    } else {
      assert sse ==> Flatten(Said(pieces)) == [];
      var body := if sse then [] else Flatten(Said(pieces));
      assert [] + (BodyHead(Began(pieces), |body|) + body) == BodyHead(Began(pieces), |body|) + body;
    }
  }

  /** What did not fit before does not fit now. */
  lemma {:induction false} SentFits(done: seq<Piece>, rest: seq<Piece>, sse: bool, room: nat)
    requires |Sent(done, sse)| > room
    ensures |Sent(done + rest, sse)| > room
  {
    hide SseHead, Frames, Response, Began;
    SentGrows(done, rest);
  }

  /** One aggregate response, begun, filled and ended at once. */
  method AnswerWhole(status: nat, body: Bytes, r: HttpRespond) returns (ok: bool)
    requires OnWire(r, false, false, [])
    modifies r, r.w
    ensures
      var response := BodyHead(status, |body|) + body;
      r.w.received == Taken(response, r.w.room) && ok == (|response| <= r.w.room)
  {
    hide BodyHead, SseHead, Taken, Frames;
    ok := r.Begin(status, false);
    ok := r.Chunk(body);
    assert [] + body == body;
    ok := r.End();
    assert [] + (BodyHead(status, |body|) + body) == BodyHead(status, |body|) + body;
  }

  // ----- what the client makes of it -----

  lemma {:induction false} SaidFirst(p: Piece, rest: seq<Piece>)
    ensures Flatten(Said([p] + rest)) == p.bytes + Flatten(Said(rest))
  {
    assert ([p] + rest)[1..] == rest;
    var said := Said(rest);
    if p.bytes != [] {
      assert ([p.bytes] + said)[1..] == said;
    } else {
      assert [] + said == said;
    }
  }

  /** A response as its reader finds it: the status, and what stands behind the head. */
  predicate ReadsAs(response: Bytes, status: nat, behind: Bytes) {
    var head := Wire.ReadHead(response);
    && head.Ok? && head.value.Some?
    && head.value.value.head.status == status && response[head.value.value.bodyStart..] == behind
  }

  lemma {:induction false} StreamReadsAs(status: nat, chunks: seq<Bytes>)
    requires status <= 65535 && forall c <- chunks :: c != []
    ensures ReadsAs(SseHead(status) + Coded(chunks), status, Coded(chunks))
    ensures Dechunk(Coded(chunks)) == Some((Flatten(chunks), []))
  {
    hide SseHead, Dechunk, Coded, Flatten, SseHeaders, Wire.ReadHead, Wire.RetryAfterIn;
    SseResponseReadsBack(status, chunks);
  }

  lemma {:induction false} BodyReadsAs(status: nat, body: Bytes)
    requires status <= 65535
    ensures ReadsAs(BodyHead(status, |body|) + body, status, body)
  {
    hide BodyHead, BodyHeaders, Wire.ReadHead, Wire.RetryAfterIn;
    AggregateReadsBack(status, body);
  }
}
