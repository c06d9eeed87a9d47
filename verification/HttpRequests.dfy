/** The masquerade's request reader (src/run/masq/http.rs:43-86) and the keep-alive loop above
    it (src/run/masq/listen.rs:139-157). */
module HttpRequests {
  import opened Base
  import opened AsciiText

  const USIZE_MAX: nat := 0xFFFF_FFFF_FFFF_FFFF

  datatype Fault = NotUtf8 | BadRequestLine | BadVersion | ClosedInHead | BadHeader | BadLength | ShortBody

  type Headers = seq<(Bytes, Bytes)>

  datatype HttpRequest = HttpRequest(verb: Bytes, path: Bytes, headers: Headers, body: Bytes)

  /** Which lines decode as UTF-8 is the standard library's to say. */
  type Utf8 = Bytes -> bool

  /** The bytes of "connection", "close", "content-length" and "HTTP/1". */
  const CONNECTION: Bytes := [99, 111, 110, 110, 101, 99, 116, 105, 111, 110]
  const CLOSE: Bytes := [99, 108, 111, 115, 101]
  const CONTENT_LENGTH: Bytes := [99, 111, 110, 116, 101, 110, 116, 45, 108, 101, 110, 103, 116, 104]
  const HTTP_1: Bytes := [72, 84, 84, 80, 47, 49]

  /** The first value of an already-lowercased name. */
  function Header(headers: Headers, name: Bytes): Option<Bytes> {
    if headers == [] then None
    else if headers[0].0 == name then Some(headers[0].1)
    else Header(headers[1..], name)
  }

  predicate WantsClose(req: HttpRequest) {
    var v := Header(req.headers, CONNECTION);
    v.Some? && LowerBytes(v.value) == CLOSE
  }

  // ----- reading one request, as a function of the bytes ahead -----

  /** How many bytes `read_line` takes: through the first LF, or all there are. */
  function LineLength(s: Bytes): (n: nat)
    ensures n <= |s| && (s != [] ==> n > 0)
  {
    if s == [] then 0 else if s[0] == LF then 1 else 1 + LineLength(s[1..])
  }

  function ParseRequestLine(line: Bytes): Result<(Bytes, Bytes), Fault> {
    var words := Words(line);
    if |words| < 3 then Err(BadRequestLine)
    else if !(HTTP_1 <= words[2]) then Err(BadVersion)
    else Ok((words[0], words[1]))
  }

  function ParseHeader(line: Bytes): Option<(Bytes, Bytes)> {
    match SplitOnce(TrimEnd(line), COLON)
    case Some((name, value)) => Some((LowerBytes(Trim(name)), Trim(value)))
    case None => None
  }

  /** The header block, through its blank line. */
  function ReadHeaders(s: Bytes, utf8: Utf8, headers: Headers): (r: Result<(Headers, Bytes), Fault>)
    ensures r.Ok? ==> |r.value.1| < |s|
    decreases |s|
  {
    var line, rest := s[..LineLength(s)], s[LineLength(s)..];
    if !utf8(line) then Err(NotUtf8)
    else if line == [] then Err(ClosedInHead)
    else if TrimEnd(line) == [] then Ok((headers, rest))
    else
      match ParseHeader(line)
      case None => Err(BadHeader)
      case Some(h) => ReadHeaders(rest, utf8, headers + [h])
  }

  function BodyLength(headers: Headers): Option<nat> {
    match Header(headers, CONTENT_LENGTH)
    case None => Some(0)
    case Some(v) => ParseUnsigned(v, USIZE_MAX)
  }

  function FinishRequest(
    verb: Bytes, path: Bytes, headers: Headers, rest: Bytes): (r: Result<(HttpRequest, Bytes), Fault>)
    ensures r.Ok? ==> |r.value.1| <= |rest|
  {
    match BodyLength(headers)
    case None => Err(BadLength)
    case Some(n) => if n > |rest| then Err(ShortBody) else Ok((HttpRequest(verb, path, headers, rest[..n]), rest[n..]))
  }

  /** One request and the bytes after it; `None` at a clean end. */
  function ReadRequest(s: Bytes, utf8: Utf8): (r: Result<Option<(HttpRequest, Bytes)>, Fault>)
    ensures r.Ok? && r.value.Some? ==> |r.value.value.1| < |s|
    ensures r == Ok(None) ==> s == []
  {
    var line, rest := s[..LineLength(s)], s[LineLength(s)..];
    if !utf8(line) then Err(NotUtf8)
    else if line == [] then Ok(None)
    else
      match ParseRequestLine(line)
      case Err(e) => Err(e)
      case Ok((verb, path)) =>
        match ReadHeaders(rest, utf8, [])
        case Err(e) => Err(e)
        case Ok((headers, after)) =>
          match FinishRequest(verb, path, headers, after)
          case Err(e) => Err(e)
          case Ok(done) => Ok(Some(done))
  }

  // ----- the reader that does it -----

  class Reader {
    var ahead: Bytes

    constructor (ahead: Bytes)
      ensures this.ahead == ahead
    {
      this.ahead := ahead;
    }

    method ReadLine() returns (line: Bytes)
      modifies this
      ensures line == old(ahead)[..LineLength(old(ahead))] && ahead == old(ahead)[LineLength(old(ahead))..]
    {
      var i := 0;
      while i < |ahead| && ahead[i] != LF
        invariant i <= |ahead|
        invariant LineLength(ahead) == i + LineLength(ahead[i..])
      {
        assert ahead[i..][1..] == ahead[i + 1..];
        i := i + 1;
      }
      if i < |ahead| {
        i := i + 1;
      }
      line := ahead[..i];
      ahead := ahead[i..];
    }

    method ReadBlock(utf8: Utf8) returns (r: Result<Headers, Fault>)
      modifies this
      ensures
        match ReadHeaders(old(ahead), utf8, [])
        case Ok((headers, rest)) => r == Ok(headers) && ahead == rest
        case Err(e) => r == Err(e)
    {
      var headers: Headers := [];
      ghost var start := ahead;
      while true
        invariant ReadHeaders(start, utf8, []) == ReadHeaders(ahead, utf8, headers)
        decreases |ahead|
      {
        var line := ReadLine();
        if !utf8(line) {
          return Err(NotUtf8);
        }
        if line == [] {
          return Err(ClosedInHead);
        }
        if TrimEnd(line) == [] {
          return Ok(headers);
        }
        var h := ParseHeader(line);
        if h.None? {
          return Err(BadHeader);
        }
        headers := headers + [h.value];
      }
    }

    method Read(utf8: Utf8) returns (r: Result<Option<HttpRequest>, Fault>)
      modifies this
      ensures
        match ReadRequest(old(ahead), utf8)
        case Ok(Some((req, rest))) => r == Ok(Some(req)) && ahead == rest
        case Ok(None) => r == Ok(None) && ahead == []
        case Err(e) => r == Err(e)
      ensures r.Ok? && r.value.Some? ==> |ahead| < |old(ahead)|
    {
      var line := ReadLine();
      if !utf8(line) {
        return Err(NotUtf8);
      }
      if line == [] {
        return Ok(None);
      }
      var first := ParseRequestLine(line);
      if first.Err? {
        return Err(first.error);
      }
      var block := ReadBlock(utf8);
      if block.Err? {
        return Err(block.error);
      }
      var headers := block.value;
      var length := BodyLength(headers);
      if length.None? {
        return Err(BadLength);
      }
      if length.value > |ahead| {
        return Err(ShortBody);
      }
      r := Ok(Some(HttpRequest(first.value.0, first.value.1, headers, ahead[..length.value])));
      ahead := ahead[length.value..];
    }

    /** The keep-alive loop: serve until the client hangs up, asks to close, breaks the grammar
        or a write of the k-th response fails. */
    method Connection(utf8: Utf8, dies: nat -> bool) returns (served: seq<HttpRequest>, fault: Option<Fault>)
      modifies this
      ensures served == Serve(old(ahead), utf8, dies, 0).0 && fault == Serve(old(ahead), utf8, dies, 0).1
    {
      hide WantsClose, Serve, ReadRequest;
      served, fault := [], None;
      ghost var start := ahead;
      while true
        invariant Serve(start, utf8, dies, 0).0 == served + Serve(ahead, utf8, dies, |served|).0
        invariant Serve(start, utf8, dies, 0).1 == Serve(ahead, utf8, dies, |served|).1
        decreases |ahead|
      {
        ghost var before := ahead;
        ServeStop(before, utf8, dies, |served|);
        var got := Read(utf8);
        if got.Err? {
          fault := Some(got.error);
          return;
        }
        if got.value.None? {
          return;
        }
        var req := got.value.value;
        var k := |served|;
        served := served + [req];
        ServeOne(before, utf8, dies, k);
        if dies(k) || WantsClose(req) {
          return;
        }
      }
    }
  }

  function Serve(s: Bytes, utf8: Utf8, dies: nat -> bool, k: nat): (seq<HttpRequest>, Option<Fault>)
    decreases |s|
  {
    match ReadRequest(s, utf8)
    case Err(e) => ([], Some(e))
    case Ok(None) => ([], None)
    case Ok(Some((req, rest))) =>
      if dies(k) || WantsClose(req) then ([req], None)
      else
        var (more, fault) := Serve(rest, utf8, dies, k + 1);
        ([req] + more, fault)
  }

  lemma {:induction false} ServeStop(s: Bytes, utf8: Utf8, dies: nat -> bool, k: nat)
    ensures
      var all := Serve(s, utf8, dies, k);
      match ReadRequest(s, utf8)
      case Err(e) => all.0 == [] && all.1 == Some(e)
      case Ok(None) => all.0 == [] && all.1 == None
      case Ok(Some(_)) => true
  {
    hide ReadRequest;
  }

  // ----- well-formed requests read back -----

  /** A request as a client writes it: one space between tokens, header text verbatim. */
  datatype Raw = Raw(verb: Bytes, path: Bytes, version: Bytes, headers: Headers, body: Bytes)

  function RequestLine(r: Raw): Bytes {
    r.verb + [SPACE] + (r.path + [SPACE] + (r.version + CRLF))
  }

  function HeaderLine(h: (Bytes, Bytes)): Bytes {
    h.0 + [COLON] + h.1 + CRLF
  }

  function HeaderLines(headers: Headers): Bytes {
    if headers == [] then CRLF else HeaderLine(headers[0]) + HeaderLines(headers[1..])
  }

  function Wire(r: Raw): Bytes {
    RequestLine(r) + HeaderLines(r.headers) + r.body
  }

  function ReadAs(headers: Headers): Headers {
    if headers == [] then [] else [(LowerBytes(Trim(headers[0].0)), Trim(headers[0].1))] + ReadAs(headers[1..])
  }

  function Parsed(r: Raw): HttpRequest {
    HttpRequest(r.verb, r.path, ReadAs(r.headers), r.body)
  }

  predicate Token(s: Bytes) {
    s != [] && NoSpace(s)
  }

  predicate GoodHeaders(headers: Headers, utf8: Utf8) {
    forall h <- headers :: LF !in h.0 && COLON !in h.0 && LF !in h.1 && utf8(HeaderLine(h))
  }

  /** Three tokens, an HTTP/1 version, headers that are lines, and a declared length that is the
      body's; no more. */
  predicate WellFormed(r: Raw, utf8: Utf8) {
    && Token(r.verb) && Token(r.path) && Token(r.version) && HTTP_1 <= r.version
    && utf8(RequestLine(r)) && utf8(CRLF) && GoodHeaders(r.headers, utf8)
    && BodyLength(ReadAs(r.headers)) == Some(|r.body|)
  }

  /** The value of the first header of that name. */
  lemma {:induction false} HeaderIs(headers: Headers, name: Bytes)
    ensures match Header(headers, name)
            case None => forall h <- headers :: h.0 != name
            case Some(v) =>
              exists i :: 0 <= i < |headers| && headers[i] == (name, v) && forall j :: 0 <= j < i ==> headers[j].0 != name
  {
    if headers != [] {
      var rest := headers[1..];
      HeaderIs(rest, name);
      assert forall h <- headers :: h == headers[0] || h in rest;
      if headers[0].0 == name {
        assert headers[0] == (name, headers[0].1);
      } else if Header(rest, name).Some? {
        var i :| 0 <= i < |rest| && rest[i] == (name, Header(rest, name).value) && forall j :: 0 <= j < i ==> rest[j].0 != name;
        forall j | 0 <= j < i + 1
          ensures headers[j].0 != name
        {
          assert j > 0 ==> headers[j] == rest[j - 1];
        }
        assert headers[i + 1] == (name, Header(rest, name).value);
      }
    }
  }

  /** The declared length: none declared is no body, a decimal that fits is that many bytes,
      anything else is a fault. */
  lemma {:induction false} BodyLengthIs(headers: Headers, n: nat)
    ensures (forall h <- headers :: h.0 != CONTENT_LENGTH) ==> BodyLength(headers) == Some(0)
    ensures Header(headers, CONTENT_LENGTH) == Some(Digits(n)) ==>
      BodyLength(headers) == if n <= 18446744073709551615 then Some(n) else None
    ensures
      var v := Header(headers, CONTENT_LENGTH);
      v.Some? && (exists b <- v.value :: b != 43 && !IsDigitByte(b)) ==> BodyLength(headers) == None
  {
    HeaderIs(headers, CONTENT_LENGTH);
    DigitsParse(n, USIZE_MAX);
    hide Digits, ParseUnsigned, Header;
    var v := Header(headers, CONTENT_LENGTH);
    if v.Some? && ParseUnsigned(v.value, USIZE_MAX).Some? {
      forall b | b in v.value
        ensures b == 43 || IsDigitByte(b)
      {
        NumberBytes(v.value, USIZE_MAX, b);
      }
    }
  }

  /** A request asks to close exactly when its first connection header says so, case aside. */
  lemma {:induction false} WantsCloseIs(req: HttpRequest)
    ensures WantsClose(req) <==>
      var v := Header(req.headers, CONNECTION);
      v.Some? && |v.value| == 5 && forall k :: 0 <= k < 5 ==> LowerByte(v.value[k]) == CLOSE[k]
  {
    hide Header;
    var v := Header(req.headers, CONNECTION);
    if v.Some? && |v.value| == 5 {
      assert |LowerBytes(v.value)| == 5;
    }
  }

  // ----- what is no request, and why -----

  /** The first line decides first: too few words, then the version. */
  lemma {:induction false} LineFaults(line: Bytes, rest: Bytes, utf8: Utf8)
    requires line != [] && LineLength(line + rest) == |line|
    ensures !utf8(line) ==> ReadRequest(line + rest, utf8) == Err(NotUtf8)
    ensures utf8(line) && |Words(line)| < 3 ==> ReadRequest(line + rest, utf8) == Err(BadRequestLine)
    ensures utf8(line) && |Words(line)| >= 3 && !(HTTP_1 <= Words(line)[2]) ==>
      ReadRequest(line + rest, utf8) == Err(BadVersion)
  {
    assert (line + rest)[..|line|] == line && (line + rest)[|line|..] == rest;
    hide Words, ReadHeaders, FinishRequest;
  }

  /** Then the header lines, in order: the first that is not text, ends the input or has no colon is
      the fault; the blank line ends them. */
  lemma {:induction false} HeaderFaults(line: Bytes, rest: Bytes, utf8: Utf8, headers: Headers)
    requires LineLength(line + rest) == |line|
    ensures !utf8(line) ==> ReadHeaders(line + rest, utf8, headers) == Err(NotUtf8)
    ensures utf8(line) && line == [] ==> ReadHeaders(line + rest, utf8, headers) == Err(ClosedInHead)
    ensures utf8(line) && line != [] && TrimEnd(line) != [] && COLON !in TrimEnd(line) ==>
      ReadHeaders(line + rest, utf8, headers) == Err(BadHeader)
    ensures utf8(line) && line != [] && TrimEnd(line) == [] ==> ReadHeaders(line + rest, utf8, headers) == Ok((headers, rest))
  {
    assert (line + rest)[..|line|] == line && (line + rest)[|line|..] == rest;
    hide TrimEnd;
  }

  /** Last the body: a length that is no number, or more than there is. */
  lemma {:induction false} BodyFaults(verb: Bytes, path: Bytes, headers: Headers, rest: Bytes)
    ensures BodyLength(headers) == None ==> FinishRequest(verb, path, headers, rest) == Err(BadLength)
    ensures BodyLength(headers).Some? && BodyLength(headers).value > |rest| ==>
      FinishRequest(verb, path, headers, rest) == Err(ShortBody)
    ensures BodyLength(headers).Some? && BodyLength(headers).value <= |rest| ==>
      FinishRequest(verb, path, headers, rest).Ok?
  {
  }

  lemma {:induction false} LineEnds(line: Bytes, rest: Bytes)
    requires LF !in line
    ensures LineLength(line + [LF] + rest) == |line| + 1
  {
    if line == [] {
      assert (line + [LF] + rest)[0] == LF;
    } else {
      assert (line + [LF] + rest)[1..] == line[1..] + [LF] + rest && line[0] in line;
      LineEnds(line[1..], rest);
    }
  }

  /** A written line is taken whole and nothing else. */
  lemma {:induction false} LineIsCut(text: Bytes, rest: Bytes)
    requires LF !in text
    ensures
      var s, n := text + CRLF + rest, LineLength(text + CRLF + rest);
      s[..n] == text + CRLF && s[n..] == rest
  {
    LineEnds(text + [CR], rest);
    assert text + CRLF + rest == text + [CR] + [LF] + rest;
  }

  lemma {:induction false} RequestLineParses(r: Raw)
    requires Token(r.verb) && Token(r.path) && Token(r.version) && HTTP_1 <= r.version
    ensures ParseRequestLine(RequestLine(r)) == Ok((r.verb, r.path))
  {
    WordsFirst(r.verb, SPACE, r.path + [SPACE] + (r.version + CRLF));
    WordsFirst(r.path, SPACE, r.version + CRLF);
    WordsFirst(r.version, CR, [LF]);
    assert r.version + CRLF == r.version + [CR] + [LF];
    hide Words, NoSpace;
    assert Words(RequestLine(r))[2] == r.version;
  }

  lemma {:induction false} TokenHasNoLf(t: Bytes)
    requires Token(t)
    ensures LF !in t
  {
  }

  lemma {:induction false} RequestLineIsLine(r: Raw)
    requires Token(r.verb) && Token(r.path) && Token(r.version)
    ensures
      var text := r.verb + [SPACE] + r.path + [SPACE] + r.version;
      LF !in text && RequestLine(r) == text + CRLF
  {
    TokenHasNoLf(r.verb);
    TokenHasNoLf(r.path);
    TokenHasNoLf(r.version);
    hide Token;
  }

  lemma {:induction false} HeaderReadsBack(h: (Bytes, Bytes))
    requires COLON !in h.0
    ensures TrimEnd(HeaderLine(h)) != []
    ensures ParseHeader(HeaderLine(h)) == Some((LowerBytes(Trim(h.0)), Trim(h.1)))
  {
    assert HeaderLine(h) == h.0 + [COLON] + (h.1 + CRLF);
    TrimEndStopsAt(h.0, COLON, h.1 + CRLF);
    TrimEndAbsorbs(h.1, CRLF);
    SplitOnceAt(h.0, COLON, TrimEnd(h.1));
    TrimEndTwice(h.1);
    hide TrimEnd, SplitOnce, LowerBytes, Trim;
  }

  lemma {:induction false} HeaderIsTaken(h: (Bytes, Bytes), more: Bytes, utf8: Utf8, before: Headers)
    requires LF !in h.0 && COLON !in h.0 && LF !in h.1 && utf8(HeaderLine(h))
    ensures
      var s := HeaderLine(h) + more;
      ReadHeaders(s, utf8, before) == ReadHeaders(more, utf8, before + [(LowerBytes(Trim(h.0)), Trim(h.1))])
  {
    HeaderReadsBack(h);
    LineIsCut(h.0 + [COLON] + h.1, more);
    hide LineLength, ParseHeader, TrimEnd, Trim, LowerBytes;
    assert HeaderLine(h) != [];
  }

  lemma {:induction false} BlankIsTaken(rest: Bytes, utf8: Utf8, before: Headers)
    requires utf8(CRLF)
    ensures ReadHeaders(CRLF + rest, utf8, before) == Ok((before, rest))
  {
    LineIsCut([], rest);
    assert [] + CRLF == CRLF;
    assert Front(CRLF) == [CR] && Front([CR]) == [] && TrimEnd([CR]) == TrimEnd([]) == [];
    hide LineLength;
  }

  lemma {:induction false} HeadersReadBack(headers: Headers, before: Headers, rest: Bytes, utf8: Utf8)
    requires GoodHeaders(headers, utf8) && utf8(CRLF)
    ensures ReadHeaders(HeaderLines(headers) + rest, utf8, before) == Ok((before + ReadAs(headers), rest))
    decreases |headers|
  {
    if headers == [] {
      BlankIsTaken(rest, utf8, before);
      assert before + [] == before;
    } else {
      var h, more := headers[0], HeaderLines(headers[1..]) + rest;
      var read := (LowerBytes(Trim(h.0)), Trim(h.1));
      assert h in headers && forall x <- headers[1..] :: x in headers;
      HeaderIsTaken(h, more, utf8, before);
      HeadersReadBack(headers[1..], before + [read], rest, utf8);
      HeadersJoin(headers, before, rest);
      hide ReadHeaders, HeaderLines, HeaderLine, Trim, LowerBytes, ReadAs;
    }
  }

  lemma {:induction false} HeadersJoin(headers: Headers, before: Headers, rest: Bytes)
    requires headers != []
    ensures
      var h := headers[0];
      && HeaderLines(headers) + rest == HeaderLine(h) + (HeaderLines(headers[1..]) + rest)
      && before + ReadAs(headers) == before + [(LowerBytes(Trim(h.0)), Trim(h.1))] + ReadAs(headers[1..])
  {
    hide HeaderLine, Trim, LowerBytes;
  }

  /** A well-formed request is read back as itself, taking its head and Content-Length bytes
      and not one more. */
  lemma {:induction false} RequestReadsBack(r: Raw, utf8: Utf8, rest: Bytes)
    requires WellFormed(r, utf8)
    ensures ReadRequest(Wire(r) + rest, utf8) == Ok(Some((Parsed(r), rest)))
  {
    hide Wire, RequestLine, ReadRequest, ReadHeaders, BodyLength, ReadAs, HeaderLines, GoodHeaders, Token,
         FinishRequest;
    WireSplits(r, rest);
    RequestHead(r, utf8, HeaderLines(r.headers) + (r.body + rest));
    HeadersReadBack(r.headers, [], r.body + rest, utf8);
    BodyIsCut(r.verb, r.path, ReadAs(r.headers), r.body, rest);
    assert [] + ReadAs(r.headers) == ReadAs(r.headers);
  }

  lemma {:induction false} WireSplits(r: Raw, rest: Bytes)
    ensures Wire(r) + rest == RequestLine(r) + (HeaderLines(r.headers) + (r.body + rest))
  {
    hide RequestLine, HeaderLines;
  }

  lemma {:induction false} RequestHead(r: Raw, utf8: Utf8, block: Bytes)
    requires Token(r.verb) && Token(r.path) && Token(r.version) && HTTP_1 <= r.version && utf8(RequestLine(r))
    ensures ReadRequest(RequestLine(r) + block, utf8) ==
      match ReadHeaders(block, utf8, [])
      case Err(e) => Err(e)
      case Ok((headers, after)) =>
        match FinishRequest(r.verb, r.path, headers, after)
        case Err(e) => Err(e)
        case Ok(done) => Ok(Some(done))
  {
    RequestLineIsLine(r);
    LineIsCut(r.verb + [SPACE] + r.path + [SPACE] + r.version, block);
    RequestLineParses(r);
    hide Token, LineLength, ParseRequestLine, ReadHeaders, FinishRequest;
    assert RequestLine(r) != [];
    hide RequestLine;
  }

  lemma {:induction false} BodyIsCut(verb: Bytes, path: Bytes, headers: Headers, body: Bytes, rest: Bytes)
    requires BodyLength(headers) == Some(|body|)
    ensures FinishRequest(verb, path, headers, body + rest) == Ok((HttpRequest(verb, path, headers, body), rest))
  {
    assert (body + rest)[..|body|] == body && (body + rest)[|body|..] == rest;
    hide BodyLength;
  }

  function Wires(raws: seq<Raw>): Bytes {
    if raws == [] then [] else Wire(raws[0]) + Wires(raws[1..])
  }

  /** The requests up to and with the first that closes or whose response dies. */
  function Answered(raws: seq<Raw>, dies: nat -> bool, k: nat): seq<HttpRequest>
    decreases |raws|
  {
    if raws == [] then []
    else if dies(k) || WantsClose(Parsed(raws[0])) then [Parsed(raws[0])]
    else [Parsed(raws[0])] + Answered(raws[1..], dies, k + 1)
  }

  /** Over any concatenation of well-formed requests the connection serves exactly them, in
      order, up to one that closes it, and then ends cleanly. */
  lemma {:induction false} ConnectionServesAll(raws: seq<Raw>, utf8: Utf8, dies: nat -> bool, k: nat)
    requires utf8([]) && forall r <- raws :: WellFormed(r, utf8)
    ensures Serve(Wires(raws), utf8, dies, k).0 == Answered(raws, dies, k) && Serve(Wires(raws), utf8, dies, k).1 == None
    decreases |raws|
  {
    hide ReadRequest, WantsClose, Parsed, Wire, WellFormed;
    if raws == [] {
      NothingAhead(utf8);
    } else {
      assert raws[0] in raws && forall r <- raws[1..] :: r in raws;
      RequestReadsBack(raws[0], utf8, Wires(raws[1..]));
      ConnectionServesAll(raws[1..], utf8, dies, k + 1);
      ServeOne(Wires(raws), utf8, dies, k);
      hide Serve;
    }
  }

  lemma {:induction false} NothingAhead(utf8: Utf8)
    requires utf8([])
    ensures ReadRequest([], utf8) == Ok(None)
  {
  }

  lemma {:induction false} ServeOne(s: Bytes, utf8: Utf8, dies: nat -> bool, k: nat)
    requires ReadRequest(s, utf8).Ok? && ReadRequest(s, utf8).value.Some?
    ensures
      var (req, rest) := ReadRequest(s, utf8).value.value;
      var all := Serve(s, utf8, dies, k);
      if dies(k) || WantsClose(req) then all.0 == [req] && all.1 == None
      else all.0 == [req] + Serve(rest, utf8, dies, k + 1).0 && all.1 == Serve(rest, utf8, dies, k + 1).1
  {
    hide ReadRequest, WantsClose;
  }
}
