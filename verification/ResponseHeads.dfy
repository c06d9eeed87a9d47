/** What a client finds in the heads the masquerade writes (src/run/masq/http.rs:131-192): the
    header lines, read as the same file reads a request's, and the reason phrase. */
module ResponseHeads {
  import opened Base
  import opened AsciiText
  import opened Envelope
  import opened HttpRequests
  import opened HttpResponses

  const CONTENT_TYPE: Bytes := [99, 111, 110, 116, 101, 110, 116, 45, 116, 121, 112, 101]
  const EVENT_STREAM: Bytes := [116, 101, 120, 116, 47, 101, 118, 101, 110, 116, 45, 115, 116, 114, 101, 97, 109]
  const JSON: Bytes := [97, 112, 112, 108, 105, 99, 97, 116, 105, 111, 110, 47, 106, 115, 111, 110]
  const CACHE_CONTROL: Bytes := [99, 97, 99, 104, 101, 45, 99, 111, 110, 116, 114, 111, 108]
  const NO_CACHE: Bytes := [110, 111, 45, 99, 97, 99, 104, 101]
  const TRANSFER_ENCODING: Bytes := [116, 114, 97, 110, 115, 102, 101, 114, 45, 101, 110, 99, 111, 100, 105, 110, 103]
  const CHUNKED: Bytes := [99, 104, 117, 110, 107, 101, 100]

  /** A header as the servers write it: a lower-case name, a value without blanks around it. */
  predicate Tidy(h: (Bytes, Bytes)) {
    && (forall b <- h.0 :: !IsSpace(b) && !(65 <= b <= 90)) && COLON !in h.0
    && h.1 != [] && LF !in h.1 && !IsSpace(h.1[0]) && !IsSpace(Last(h.1))
  }

  /** Its line: the name, a colon, a space and the value. */
  function HeadLine(h: (Bytes, Bytes)): Bytes {
    h.0 + [COLON] + ([SPACE] + h.1)
  }

  function HeadLines(headers: Headers): seq<Bytes> {
    if headers == [] then [] else [HeadLine(headers[0])] + HeadLines(headers[1..])
  }

  function Spaced(headers: Headers): Headers {
    if headers == [] then [] else [(headers[0].0, [SPACE] + headers[0].1)] + Spaced(headers[1..])
  }

  predicate AnyText(line: Bytes) {
    true
  }

  lemma {:induction false} NameTrims(name: Bytes)
    requires forall b <- name :: !IsSpace(b) && !(65 <= b <= 90)
    ensures LowerBytes(Trim(name)) == name
  {
    assert name != [] ==> name[0] in name && Last(name) in name;
    LowerStays(name);
    hide Trim, LowerBytes;
    NothingToTrim(name);
  }

  lemma {:induction false} ValueTrims(value: Bytes)
    requires value != [] && !IsSpace(value[0]) && !IsSpace(Last(value))
    ensures Trim([SPACE] + value) == Trim(value) == value
  {
    hide TrimEnd;
    NothingToTrim(value);
    var spaced := [SPACE] + value;
    assert spaced[0] == SPACE && spaced[1..] == value;
    assert TrimStart(spaced) == TrimStart(value);
  }

  lemma {:induction false} TidyTrims(h: (Bytes, Bytes))
    requires Tidy(h)
    ensures LowerBytes(Trim(h.0)) == h.0 && Trim([SPACE] + h.1) == h.1
  {
    hide Trim, LowerBytes, IsSpace;
    NameTrims(h.0);
    ValueTrims(h.1);
  }

  lemma {:induction false} LowerStays(s: Bytes)
    requires forall b <- s :: !(65 <= b <= 90)
    ensures LowerBytes(s) == s
  {
    if s != [] {
      assert s[0] in s && forall b <- s[1..] :: b in s;
      LowerStays(s[1..]);
    }
  }

  lemma {:induction false} TidyReadsBack(headers: Headers)
    requires forall h <- headers :: Tidy(h)
    ensures ReadAs(Spaced(headers)) == headers && GoodHeaders(Spaced(headers), AnyText)
  {
    hide Trim, LowerBytes;
    if headers != [] {
      var h := headers[0];
      assert h in headers && forall x <- headers[1..] :: x in headers;
      TidyTrims(h);
      assert LF !in h.0 by {
        assert IsSpace(LF);
      }
      TidyReadsBack(headers[1..]);
      assert Spaced(headers)[1..] == Spaced(headers[1..]);
      hide Tidy;
    }
  }

  lemma {:induction false} LinesAreHeaders(headers: Headers)
    ensures Written(HeadLines(headers)) + [CR, LF] == HeaderLines(Spaced(headers))
  {
    if headers != [] {
      LinesAreHeaders(headers[1..]);
      assert HeadLines(headers)[1..] == HeadLines(headers[1..]) && Spaced(headers)[1..] == Spaced(headers[1..]);
    }
  }

  lemma {:induction false} HeadCuts(first: Bytes, written: Bytes, body: Bytes)
    ensures
      var line, whole := first + [CR, LF], first + ([CR, LF] + written + [CR, LF]) + body;
      line <= whole && whole[|line|..] == written + [CR, LF] + body
  {
    var line := first + [CR, LF];
    assert first + ([CR, LF] + written + [CR, LF]) + body == line + (written + [CR, LF] + body);
  }

  /** Any head of tidy header lines reads back as those headers, up to the body. */
  lemma {:induction false} HeadersRead(headers: Headers, status: nat, reason: Bytes, body: Bytes)
    requires forall h <- headers :: Tidy(h)
    ensures
      var line := StatusLine(status, reason) + [CR, LF];
      var whole := StatusLine(status, reason) + Tail(HeadLines(headers)) + body;
      line <= whole && ReadHeaders(whole[|line|..], AnyText, []) == Ok((headers, body))
  {
    hide StatusLine, HeaderLines, Spaced, HeadLines, Written, ReadHeaders, ReadAs, Tidy, GoodHeaders;
    TidyReadsBack(headers);
    LinesAreHeaders(headers);
    HeadersReadBack(Spaced(headers), [], body, AnyText);
    HeadCuts(StatusLine(status, reason), Written(HeadLines(headers)), body);
    assert [] + ReadAs(Spaced(headers)) == headers;
  }

  // ----- the masquerade's own heads -----

  lemma {:induction false} StreamTypeIs()
    ensures EventStreamType() == HeadLine((CONTENT_TYPE, EVENT_STREAM))
  {
    hide Ascii;
  }

  lemma {:induction false} StreamTypeIsTidy()
    ensures Tidy((CONTENT_TYPE, EVENT_STREAM))
  {
  }

  lemma {:induction false} NoCacheIs()
    ensures NoCache() == HeadLine((CACHE_CONTROL, NO_CACHE))
  {
    hide Ascii;
  }

  lemma {:induction false} NoCacheIsTidy()
    ensures Tidy((CACHE_CONTROL, NO_CACHE))
  {
  }

  lemma {:induction false} CodingIs()
    ensures ChunkedCoding() == HeadLine((TRANSFER_ENCODING, CHUNKED))
  {
    hide Ascii;
  }

  lemma {:induction false} CodingIsTidy()
    ensures Tidy((TRANSFER_ENCODING, CHUNKED))
  {
  }

  lemma {:induction false} JsonTypeIs()
    ensures JsonType() == HeadLine((CONTENT_TYPE, JSON))
  {
    hide Ascii;
  }

  lemma {:induction false} JsonTypeIsTidy()
    ensures Tidy((CONTENT_TYPE, JSON))
  {
  }

  lemma {:induction false} LengthIs(length: nat)
    ensures LengthLine(length) == HeadLine((CONTENT_LENGTH, Digits(length))) && Tidy((CONTENT_LENGTH, Digits(length)))
  {
    DigitsReadBack(length);
    hide Digits, Ascii, Value;
    assert LengthName() == CONTENT_LENGTH;
    assert Digits(length)[0] in Digits(length) && Last(Digits(length)) in Digits(length);
  }

  lemma {:induction false} SseLinesAre()
    ensures
      var headers := [(CONTENT_TYPE, EVENT_STREAM), (CACHE_CONTROL, NO_CACHE), (TRANSFER_ENCODING, CHUNKED)];
      SseHeaders() == HeadLines(headers) && forall h <- headers :: Tidy(h)
  {
    StreamTypeIs();
    StreamTypeIsTidy();
    NoCacheIs();
    NoCacheIsTidy();
    CodingIs();
    CodingIsTidy();
    hide EventStreamType, NoCache, ChunkedCoding, Tidy, HeadLine;
    var headers := [(CONTENT_TYPE, EVENT_STREAM), (CACHE_CONTROL, NO_CACHE), (TRANSFER_ENCODING, CHUNKED)];
    var rest := headers[1..];
    var last := rest[1..];
    assert rest == [(CACHE_CONTROL, NO_CACHE), (TRANSFER_ENCODING, CHUNKED)];
    assert last == [(TRANSFER_ENCODING, CHUNKED)];
    assert last[1..] == [];
    assert HeadLines(last) == [ChunkedCoding()];
  }

  /** A streamed response announces an event stream, uncached and in chunked coding, and nothing
      else. */
  lemma {:induction false} SseHeadSays(status: nat, body: Bytes)
    ensures
      var line := StatusLine(status, Reason(status)) + [CR, LF];
      var whole := SseHead(status) + body;
      && line <= whole
      && ReadHeaders(whole[|line|..], AnyText, [])
         == Ok(([(CONTENT_TYPE, EVENT_STREAM), (CACHE_CONTROL, NO_CACHE), (TRANSFER_ENCODING, CHUNKED)], body))
  {
    hide SseHeaders, HeadLines, Tidy, StatusLine, Reason, Tail, ReadHeaders;
    SseLinesAre();
    HeadersRead([(CONTENT_TYPE, EVENT_STREAM), (CACHE_CONTROL, NO_CACHE), (TRANSFER_ENCODING, CHUNKED)], status, Reason(status), body);
  }

  lemma {:induction false} BodyLinesAre(length: nat)
    ensures
      var headers := [(CONTENT_TYPE, JSON), (CONTENT_LENGTH, Digits(length))];
      BodyHeaders(length) == HeadLines(headers) && forall h <- headers :: Tidy(h)
  {
    JsonTypeIs();
    JsonTypeIsTidy();
    LengthIs(length);
    hide JsonType, LengthLine, Digits, Tidy, HeadLine;
    var rest := [(CONTENT_TYPE, JSON), (CONTENT_LENGTH, Digits(length))][1..];
    assert rest == [(CONTENT_LENGTH, Digits(length))];
    assert rest[1..] == [];
    assert HeadLines(rest) == [LengthLine(length)];
  }

  /** An aggregate response announces JSON and the body's exact length. */
  lemma {:induction false} BodyHeadSays(status: nat, body: Bytes)
    ensures
      var line := StatusLine(status, Reason(status)) + [CR, LF];
      var whole := BodyHead(status, |body|) + body;
      && line <= whole
      && ReadHeaders(whole[|line|..], AnyText, []) == Ok(([(CONTENT_TYPE, JSON), (CONTENT_LENGTH, Digits(|body|))], body))
  {
    hide BodyHeaders, HeadLines, Tidy, StatusLine, Reason, Tail, ReadHeaders, Digits;
    BodyLinesAre(|body|);
    HeadersRead([(CONTENT_TYPE, JSON), (CONTENT_LENGTH, Digits(|body|))], status, Reason(status), body);
  }

  /** Each status this edge emits has its phrase; any other goes bare. */
  lemma {:induction false} ReasonIs(status: nat)
    ensures
      match status
      case 200 => Reason(status) == Ascii("OK")
      case 400 => Reason(status) == Ascii("Bad Request")
      case 401 => Reason(status) == Ascii("Unauthorized")
      case 404 => Reason(status) == Ascii("Not Found")
      case 429 => Reason(status) == Ascii("Too Many Requests")
      case 500 => Reason(status) == Ascii("Internal Server Error")
      case 502 => Reason(status) == Ascii("Bad Gateway")
      case _ => Reason(status) == []
  {
    hide Ascii;
  }
}
