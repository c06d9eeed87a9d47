/** The masquerade's response writer (src/run/masq/http.rs:91-176): chunked SSE or a
    Content-Length aggregate, over a socket that may fail at any byte. */
module HttpResponses {
  import opened Base
  import opened AsciiText
  import opened Envelope

  // ----- chunked coding (section 7.1 of RFC 9112) -----

  function HexByte(n: nat): Byte
    requires n < 16
  {
    if n < 10 then 48 + n else 87 + n
  }

  /** `{:x}`. */
  function HexDigits(n: nat): Bytes {
    if n < 16 then [HexByte(n)] else HexDigits(n / 16) + [HexByte(n % 16)]
  }

  /** A size read digit by digit onto what was read before it, and where it stops. */
  function ReadSize(s: Bytes, soFar: nat): (r: (nat, Bytes))
    ensures |r.1| <= |s|
  {
    if s == [] || Nibble(s[0]).None? then (soFar, s)
    else ReadSize(s[1..], 16 * soFar + Nibble(s[0]).value)
  }

  const LAST_CHUNK: Bytes := [48, 13, 10, 13, 10]

  function ChunkFrame(c: Bytes): Bytes {
    HexDigits(|c|) + CRLF + c + CRLF
  }

  function Frames(chunks: seq<Bytes>): Bytes {
    if chunks == [] then [] else ChunkFrame(chunks[0]) + Frames(chunks[1..])
  }

  function Coded(chunks: seq<Bytes>): Bytes {
    Frames(chunks) + LAST_CHUNK
  }

  /** A recipient without extensions or trailers: the decoded body and what follows it. */
  function Dechunk(s: Bytes): Option<(Bytes, Bytes)>
    decreases |s|
  {
    var (size, tail) := ReadSize(s, 0);
    if |tail| == |s| || !(CRLF <= tail) then None
    else
      var data := tail[2..];
      if |data| < size + 2 || data[size..size + 2] != CRLF then None
      else if size == 0 then Some(([], data[2..]))
      else
        match Dechunk(data[size + 2..])
        case None => None
        case Some((body, rest)) => Some((data[..size] + body, rest))
  }

  lemma {:induction false} SizeReadsBack(n: nat, tail: Bytes)
    requires tail != [] && Nibble(tail[0]).None?
    ensures ReadSize(HexDigits(n) + tail, 0) == (n, tail) && HexDigits(n) != []
  {
    SizeOnto(n, tail);
    assert ReadSize(tail, n) == (n, tail);
  }

  lemma {:induction false} SizeOnto(n: nat, tail: Bytes)
    ensures ReadSize(HexDigits(n) + tail, 0) == ReadSize(tail, n) && HexDigits(n) != []
    decreases n
  {
    if n < 16 {
      assert (HexDigits(n) + tail)[1..] == tail;
    } else {
      var d := HexByte(n % 16);
      assert HexDigits(n) + tail == HexDigits(n / 16) + ([d] + tail);
      SizeOnto(n / 16, [d] + tail);
      assert ([d] + tail)[1..] == tail;
      hide HexDigits;
    }
  }

  lemma {:induction false} FrameReadsBack(c: Bytes, rest: Bytes)
    requires c != []
    ensures Dechunk(ChunkFrame(c) + rest) ==
      match Dechunk(rest)
      case None => None
      case Some((body, after)) => Some((c + body, after))
  {
    var tail := CRLF + (c + CRLF + rest);
    var data := c + CRLF + rest;
    assert ChunkFrame(c) + rest == HexDigits(|c|) + tail;
    SizeReadsBack(|c|, tail);
    assert tail[2..] == data && data[..|c|] == c && data[|c|..|c| + 2] == CRLF && data[|c| + 2..] == rest;
    hide ReadSize, HexDigits, ChunkFrame;
  }

  lemma {:induction false} LastReadsBack(rest: Bytes)
    ensures Dechunk(LAST_CHUNK + rest) == Some(([], rest)) && ChunkFrame([]) == LAST_CHUNK
  {
    var tail := CRLF + (CRLF + rest);
    assert HexDigits(0) == [48] && LAST_CHUNK + rest == HexDigits(0) + tail;
    SizeReadsBack(0, tail);
    assert tail[2..] == CRLF + rest && (CRLF + rest)[2..] == rest && (CRLF + rest)[0..2] == CRLF;
    hide ReadSize, HexDigits;
  }

  /** How many chunks come before the first empty one. */
  function FullChunks(chunks: seq<Bytes>): (n: nat)
    ensures n <= |chunks|
    ensures forall i :: 0 <= i < n ==> chunks[i] != []
    ensures n < |chunks| ==> chunks[n] == []
  {
    if chunks == [] || chunks[0] == [] then 0 else 1 + FullChunks(chunks[1..])
  }

  /** The coded bytes decode up to the first empty chunk, which a recipient takes for the last;
      the chunks after it are left over as garbage on the connection. */
  lemma {:induction false} CodingReadsBack(chunks: seq<Bytes>, rest: Bytes)
    ensures
      var n := FullChunks(chunks);
      Dechunk(Coded(chunks) + rest) == Some((Flatten(chunks[..n]), if n == |chunks| then rest else Coded(chunks[n + 1..]) + rest))
    decreases |chunks|
  {
    hide Dechunk;
    var n := FullChunks(chunks);
    if chunks == [] {
      LastReadsBack(rest);
      assert Coded(chunks) + rest == LAST_CHUNK + rest;
    } else {
      var more := Coded(chunks[1..]) + rest;
      assert Coded(chunks) + rest == ChunkFrame(chunks[0]) + more;
      if chunks[0] == [] {
        LastReadsBack(more);
      } else {
        FrameReadsBack(chunks[0], more);
        CodingReadsBack(chunks[1..], rest);
        assert chunks[..n][1..] == chunks[1..][..n - 1];
        assert n < |chunks| ==> chunks[n + 1..] == chunks[1..][n..];
      }
      hide Coded, ChunkFrame;
    }
  }

  /** A recipient gets exactly the concatenated chunks, and nothing else, if and only if no
      chunk is empty. */
  lemma {:induction false} CodingIsFaithful(chunks: seq<Bytes>, rest: Bytes)
    ensures Dechunk(Coded(chunks) + rest) == Some((Flatten(chunks), rest)) <==> forall c <- chunks :: c != []
  {
    CodingReadsBack(chunks, rest);
    var n := FullChunks(chunks);
    hide Dechunk, Frames;
    if n == |chunks| {
      assert chunks[..n] == chunks;
    } else {
      assert chunks[n] in chunks && |Coded(chunks[n + 1..]) + rest| > |rest|;
    }
  }

  // ----- the socket and the writer -----

  /** A client that hangs up after `room` more bytes. */
  class Client {
    const room: nat
    var received: Bytes

    constructor (room: nat)
      ensures this.room == room && received == []
    {
      this.room, received := room, [];
    }

    /** `write_all`: what still fits arrives, the rest is an error. */
    method WriteAll(bytes: Bytes) returns (ok: bool)
      requires |received| <= room
      modifies this
      ensures received == Taken(old(received) + bytes, room)
      ensures ok <==> |old(received) + bytes| <= room
    {
      ok := |received| + |bytes| <= room;
      received := if ok then received + bytes else received + bytes[..room - |received|];
    }
  }

  function Taken(bytes: Bytes, room: nat): (t: Bytes)
    ensures |t| <= room && t <= bytes
  {
    if |bytes| <= room then bytes else bytes[..room]
  }

  function Reason(status: nat): Bytes {
    if status == 200 then Ascii("OK")
    else if status == 400 then Ascii("Bad Request")
    else if status == 401 then Ascii("Unauthorized")
    else if status == 404 then Ascii("Not Found")
    else if status == 429 then Ascii("Too Many Requests")
    else if status == 500 then Ascii("Internal Server Error")
    else if status == 502 then Ascii("Bad Gateway")
    else []
  }

  function EventStreamType(): Bytes {
    Ascii("content-type: text/event-stream")
  }

  function NoCache(): Bytes {
    Ascii("cache-control: no-cache")
  }

  function ChunkedCoding(): Bytes {
    Ascii("transfer-encoding: chunked")
  }

  function JsonType(): Bytes {
    Ascii("content-type: application/json")
  }

  function LengthName(): Bytes {
    Ascii("content-length")
  }

  function LengthLine(length: nat): Bytes {
    LengthName() + [COLON] + ([SPACE] + Digits(length))
  }

  function SseHeaders(): seq<Bytes> {
    [EventStreamType(), NoCache(), ChunkedCoding()]
  }

  function BodyHeaders(length: nat): seq<Bytes> {
    [JsonType(), LengthLine(length)]
  }

  function SseHead(status: nat): Bytes {
    StatusLine(status, Reason(status)) + Tail(SseHeaders())
  }

  function BodyHead(status: nat, length: nat): Bytes {
    StatusLine(status, Reason(status)) + Tail(BodyHeaders(length))
  }

  class HttpRespond {
    const w: Client
    var sse: bool
    var status: nat
    var body: Bytes
    var dead: bool
    /** Everything this response was asked to put on the wire so far. */
    ghost var asked: Bytes

    ghost predicate Valid()
      reads this, w
    {
      w.received == Taken(asked, w.room) && (dead <==> |asked| > w.room)
    }

    constructor (w: Client)
      requires w.received == []
      ensures Valid() && this.w == w && asked == [] && body == [] && !sse && status == 200
    {
      this.w, sse, status, body, dead, asked := w, false, 200, [], false, [];
    }

    /** Write one piece, remembering a failure. */
    method Track(piece: Bytes) returns (ok: bool)
      requires Valid()
      modifies this`dead, this`asked, w
      ensures Valid() && asked == old(asked) + piece
      ensures ok ==> !dead || old(dead)
      ensures piece != [] || !old(dead) ==> (ok <==> !dead)
    {
      TakenAppend(asked, piece, w.room);
      ok := w.WriteAll(piece);
      asked := asked + piece;
      dead := dead || !ok;
    }

    method Begin(status: nat, sse: bool) returns (ok: bool)
      requires Valid() && !dead
      modifies this, w
      ensures Valid() && this.status == status && this.sse == sse && body == old(body)
      ensures asked == old(asked) + if sse then SseHead(status) else []
      ensures ok <==> !dead
    {
      hide SseHead, Taken;
      this.status, this.sse := status, sse;
      ok := true;
      if sse {
        ok := Track(SseHead(status));
      } else {
        assert asked + [] == asked;
      }
    }

    /** One chunked frame per encoded event, or one more piece of the aggregate. */
    method Chunk(bytes: Bytes) returns (ok: bool)
      requires Valid() && !dead
      modifies this`body, this`dead, this`asked, w
      ensures Valid() && sse == old(sse) && status == old(status)
      ensures sse ==> asked == old(asked) + ChunkFrame(bytes) && body == old(body)
      ensures !sse ==> asked == old(asked) && body == old(body) + bytes
      ensures ok <==> !dead
    {
      hide Taken, HexDigits;
      ok := true;
      if sse {
        ghost var before := asked;
        ok := Track(HexDigits(|bytes|) + CRLF);
        if ok {
          ok := Track(bytes);
        }
        if ok {
          ok := Track(CRLF);
        }
        if !ok {
          // The rest of the frame was never tried, and could not have arrived.
          StaysTaken(asked, before + ChunkFrame(bytes), w.room);
        }
        FrameIs(before, bytes);
        asked := before + ChunkFrame(bytes);
      } else {
        body := body + bytes;
      }
    }

    method End() returns (ok: bool)
      requires Valid() && !dead
      modifies this`body, this`dead, this`asked, w
      ensures Valid() && sse == old(sse) && status == old(status)
      ensures sse ==> asked == old(asked) + LAST_CHUNK && body == old(body)
      ensures !sse ==> asked == old(asked) + (BodyHead(status, |old(body)|) + old(body)) && body == []
      ensures ok <==> !dead
    {
      hide Taken, BodyHead;
      if sse {
        ok := Track(LAST_CHUNK);
      } else {
        var all := body;
        body := [];
        ghost var before := asked;
        ok := Track(BodyHead(status, |all|));
        if ok {
          ok := Track(all);
        }
        if !ok {
          StaysTaken(asked, before + (BodyHead(status, |all|) + all), w.room);
        }
        assert before + BodyHead(status, |all|) + all == before + (BodyHead(status, |all|) + all);
        asked := before + (BodyHead(status, |all|) + all);
      }
    }
  }

  lemma {:induction false} TakenAppend(asked: Bytes, piece: Bytes, room: nat)
    ensures Taken(Taken(asked, room) + piece, room) == Taken(asked + piece, room)
    ensures |Taken(asked, room) + piece| <= room ==> |asked| <= room || piece == []
  {
    if |asked| > room {
      assert (asked[..room] + piece)[..room] == asked[..room] == (asked + piece)[..room];
    }
  }

  lemma {:induction false} StaysTaken(asked: Bytes, more: Bytes, room: nat)
    requires asked <= more && |asked| > room
    ensures Taken(more, room) == Taken(asked, room) && |more| > room
  {
  }

  lemma {:induction false} FrameIs(before: Bytes, bytes: Bytes)
    ensures before + (HexDigits(|bytes|) + CRLF) + bytes + CRLF == before + ChunkFrame(bytes)
  {
    hide HexDigits;
  }

  // ----- what the client can read back -----

  lemma {:induction false} EventStreamTypeIsPlain()
    ensures EventStreamType() != [] && LF !in EventStreamType()
  {
    AsciiLacks("content-type: text/event-stream", '\n');
  }

  lemma {:induction false} NoCacheIsPlain()
    ensures NoCache() != [] && LF !in NoCache()
  {
    AsciiLacks("cache-control: no-cache", '\n');
  }

  lemma {:induction false} ChunkedCodingIsPlain()
    ensures ChunkedCoding() != [] && LF !in ChunkedCoding()
  {
    AsciiLacks("transfer-encoding: chunked", '\n');
  }

  lemma {:induction false} JsonTypeIsPlain()
    ensures JsonType() != [] && LF !in JsonType()
  {
    AsciiLacks("content-type: application/json", '\n');
  }

  lemma {:induction false} LengthNameIsPlain()
    ensures LF !in LengthName()
  {
    AsciiLacks("content-length", '\n');
  }

  lemma {:induction false} LengthNameHasNoColon()
    ensures COLON !in LengthName()
  {
    AsciiLacks("content-length", ':');
  }

  lemma {:induction false} LengthLineReadsBack(length: nat)
    ensures LengthLine(length) != [] && LF !in LengthLine(length)
    ensures SplitOnce(LengthLine(length), COLON) == Some((LengthName(), [SPACE] + Digits(length)))
  {
    LengthNameIsPlain();
    LengthNameHasNoColon();
    DigitsReadBack(length);
    hide LengthName, Digits;
    SplitOnceAt(LengthName(), COLON, [SPACE] + Digits(length));
  }

  lemma {:induction false} PlainLines(a: Bytes, b: Bytes, c: Bytes)
    requires a != [] && LF !in a && b != [] && LF !in b && c != [] && LF !in c
    ensures Plain([a, b]) && Plain([a, b, c])
  {
  }

  lemma {:induction false} HeadersArePlain(length: nat)
    ensures Plain(SseHeaders()) && Plain(BodyHeaders(length))
  {
    hide EventStreamType, NoCache, ChunkedCoding, JsonType, LengthLine, Plain, LengthName, Digits, SplitOnce;
    EventStreamTypeIsPlain();
    NoCacheIsPlain();
    ChunkedCodingIsPlain();
    JsonTypeIsPlain();
    LengthLineReadsBack(length);
    PlainLines(EventStreamType(), NoCache(), ChunkedCoding());
    PlainLines(JsonType(), LengthLine(length), NoCache());
  }

  lemma {:induction false} ReasonIsPlain(status: nat)
    ensures LF !in Reason(status)
  {
    hide Ascii;
    AsciiLacks("OK", '\n');
    AsciiLacks("Bad Request", '\n');
    AsciiLacks("Unauthorized", '\n');
    AsciiLacks("Not Found", '\n');
    AsciiLacks("Too Many Requests", '\n');
    AsciiLacks("Internal Server Error", '\n');
    AsciiLacks("Bad Gateway", '\n');
  }

  /** A complete SSE response reads back as its status and, behind the head, a chunked body
      that decodes to the concatenated events exactly when none of them is empty. */
  lemma {:induction false} SseResponseReadsBack(status: nat, chunks: seq<Bytes>)
    requires status <= 65535
    ensures ReadHead(SseHead(status) + Coded(chunks))
         == Ok(Some(EnvelopeHead(Head(status, RetryAfterIn(SseHeaders())), |SseHead(status)|)))
    ensures Dechunk(Coded(chunks)) == Some((Flatten(chunks), [])) <==> forall c <- chunks :: c != []
  {
    hide ReadHead, Coded, Dechunk, SseHeaders, Reason, StatusLine, Tail, Flatten, Plain, RetryAfterIn, Ascii;
    HeadersArePlain(0);
    ReasonIsPlain(status);
    HeadReadsBack(status, Reason(status), SseHeaders(), Coded(chunks));
    CodingIsFaithful(chunks, []);
    assert Coded(chunks) + [] == Coded(chunks);
  }

  /** An aggregate response reads back as its status with the body at the end of the head. */
  lemma {:induction false} AggregateReadsBack(status: nat, body: Bytes)
    requires status <= 65535
    ensures ReadHead(BodyHead(status, |body|) + body)
         == Ok(Some(EnvelopeHead(Head(status, RetryAfterIn(BodyHeaders(|body|))), |BodyHead(status, |body|)|)))
  {
    hide ReadHead, BodyHeaders, Reason, StatusLine, Tail, Plain, RetryAfterIn, Ascii, LengthLine, SplitOnce, Digits,
         LengthName;
    HeadersArePlain(|body|);
    ReasonIsPlain(status);
    HeadReadsBack(status, Reason(status), BodyHeaders(|body|), body);
  }
}
