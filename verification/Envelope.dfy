/** A delegate's response head, parsed out of whatever bytes have arrived
    (src/transport/envelope.rs), and the relay that hands the rest on as the body
    (src/native/relay.rs). */
module Envelope {
  import opened Base
  import opened AsciiText
  import opened Canonical
  import opened SseGrammar

  const MAX_HEAD: nat := 65536

  // ----- where the head ends -----

  /** A blank line, LF LF or CR LF CR LF, ends just before `e`. */
  predicate EndsAt(b: Bytes, e: nat) {
    (e >= 2 && LfLf(b, e - 2)) || (e >= 4 && CrLfCrLf(b, e - 4))
  }

  /** `windows(2).position(..)`. */
  function FirstLfLf(b: Bytes, from: nat): (r: Option<nat>)
    ensures r.Some? ==> from <= r.value && LfLf(b, r.value) && forall i: nat :: from <= i < r.value ==> !LfLf(b, i)
    ensures r.None? ==> forall i: nat :: from <= i ==> !LfLf(b, i)
    decreases |b| - from
  {
    if from >= |b| then None else if LfLf(b, from) then Some(from) else FirstLfLf(b, from + 1)
  }

  function FirstCrLfCrLf(b: Bytes, from: nat): (r: Option<nat>)
    ensures r.Some? ==> from <= r.value && CrLfCrLf(b, r.value) && forall i: nat :: from <= i < r.value ==> !CrLfCrLf(b, i)
    ensures r.None? ==> forall i: nat :: from <= i ==> !CrLfCrLf(b, i)
    decreases |b| - from
  {
    if from >= |b| then None else if CrLfCrLf(b, from) then Some(from) else FirstCrLfCrLf(b, from + 1)
  }

  /** Just past the blank line, of whichever kind ends first. */
  function HeadEnd(b: Bytes): (e: Option<nat>)
    ensures e.Some? ==> EndsAt(b, e.value) && e.value <= |b| && forall j: nat :: j < e.value ==> !EndsAt(b, j)
    ensures e.None? ==> forall j: nat :: !EndsAt(b, j)
  {
    match (FirstLfLf(b, 0), FirstCrLfCrLf(b, 0))
    case (Some(i), Some(k)) => Some(Min(i + 2, k + 4))
    case (Some(i), None) => Some(i + 2)
    case (None, Some(k)) => Some(k + 4)
    case (None, None) => None
  }

  lemma {:induction false} HeadEndIs(b: Bytes, e: nat)
    requires EndsAt(b, e) && forall j: nat :: j < e ==> !EndsAt(b, j)
    ensures HeadEnd(b) == Some(e)
  {
  }

  /** A shorter read sees the same head end or none: the end never moves as bytes arrive. */
  lemma {:induction false} HeadEndOfPrefix(b: Bytes, p: nat)
    requires p <= |b|
    ensures HeadEnd(b[..p]) == if HeadEnd(b).Some? && HeadEnd(b).value <= p then HeadEnd(b) else None
  {
    assert forall j: nat :: EndsAt(b[..p], j) <==> j <= p && EndsAt(b, j);
    hide EndsAt;
    if HeadEnd(b).Some? && HeadEnd(b).value <= p {
      HeadEndIs(b[..p], HeadEnd(b).value);
    }
  }

  // ----- what the head says -----

  function StripCrs(lines: seq<Bytes>): seq<Bytes> {
    if lines == [] then [] else [StripCr(lines[0])] + StripCrs(lines[1..])
  }

  /** `str::lines`. */
  function Lines(text: Bytes): seq<Bytes> {
    var parts := Split(text, LF);
    StripCrs(Front(parts)) + if Last(parts) == [] then [] else [Last(parts)]
  }

  const RETRY_AFTER := Ascii("retry-after")

  /** The first header of that name, any case, trimmed. */
  function RetryAfterIn(lines: seq<Bytes>): Option<Bytes> {
    if lines == [] then None
    else
      match SplitOnce(lines[0], COLON)
      case Some((name, value)) => if LowerBytes(Trim(name)) == RETRY_AFTER then Some(Trim(value)) else RetryAfterIn(lines[1..])
      case None => RetryAfterIn(lines[1..])
  }

  predicate RetryLine(line: Bytes, name: Bytes, value: Bytes) {
    line == name + [COLON] + value && COLON !in name && LowerBytes(Trim(name)) == RETRY_AFTER
  }

  /** This line is a retry-after header, whatever the case and the blanks. */
  ghost predicate NamesRetry(line: Bytes) {
    exists name, value :: RetryLine(line, name, value)
  }

  /** And this is what follows its colon, trimmed. */
  ghost predicate SaysRetry(line: Bytes, said: Bytes) {
    exists name, value :: RetryLine(line, name, value) && said == Trim(value)
  }

  lemma {:induction false} LineSays(line: Bytes)
    ensures
      match SplitOnce(line, COLON)
      case None => !NamesRetry(line)
      case Some((n, v)) =>
        (NamesRetry(line) <==> LowerBytes(Trim(n)) == RETRY_AFTER) && (NamesRetry(line) ==> SaysRetry(line, Trim(v)))
  {
    hide Trim, LowerBytes;
    forall name: Bytes, value: Bytes | RetryLine(line, name, value)
      ensures SplitOnce(line, COLON) == Some((name, value))
    {
      SplitOnceAt(name, COLON, value);
    }
    SplitOnceJoins(line, COLON);
    hide SplitOnce;
    match SplitOnce(line, COLON)
    case None =>
    case Some((n, v)) => assert RetryLine(line, n, v) <==> LowerBytes(Trim(n)) == RETRY_AFTER;
  }

  /** The first such header decides. */
  lemma {:induction false} RetryAfterIs(lines: seq<Bytes>)
    ensures RetryAfterIn(lines).None? <==> forall line <- lines :: !NamesRetry(line)
    ensures RetryAfterIn(lines).Some? ==>
      exists i: nat :: i < |lines| && SaysRetry(lines[i], RetryAfterIn(lines).value) && forall j: nat :: j < i ==> !NamesRetry(lines[j])
  {
    if lines != [] {
      var rest := lines[1..];
      RetryAfterIs(rest);
      LineSays(lines[0]);
      hide Trim, LowerBytes, SplitOnce, SaysRetry, NamesRetry;
      assert forall line :: line in lines <==> line == lines[0] || line in rest;
      if NamesRetry(lines[0]) {
        assert SaysRetry(lines[0], RetryAfterIn(lines).value);
      } else if RetryAfterIn(rest).Some? {
        var i: nat :| i < |rest| && SaysRetry(rest[i], RetryAfterIn(rest).value) && forall j: nat :: j < i ==> !NamesRetry(rest[j]);
        assert SaysRetry(lines[i + 1], RetryAfterIn(lines).value);
        forall j: nat | j < i + 1
          ensures !NamesRetry(lines[j])
        {
          assert j > 0 ==> lines[j] == rest[j - 1];
        }
      }
    }
  }

  function StatusIn(line: Bytes): Option<nat> {
    var words := Words(line);
    if |words| < 2 then None else ParseUnsigned(words[1], 65535)
  }

  datatype Head = Head(status: nat, retryAfter: Option<Bytes>)

  function ParseHead(text: Bytes): Option<Head> {
    var lines := Lines(text);
    if lines == [] then None
    else
      match StatusIn(lines[0])
      case Some(status) => Some(Head(status, RetryAfterIn(lines[1..])))
      case None => None
  }

  function Fault(reason: string): CanonicalError {
    CanonicalError(Transport, "stdio transport: " + reason, None, None)
  }

  const OVERSIZED := Fault("response head exceeds 64 KiB with no blank line")
  const NO_STATUS := Fault("response carries no HTTP status line")
  const CLOSED := Fault("delegate closed stdout before the response head")

  datatype EnvelopeHead = EnvelopeHead(head: Head, bodyStart: nat)

  /** Parse the head out of the bytes so far; `None` asks for more. */
  function ReadHead(buf: Bytes): (r: Result<Option<EnvelopeHead>, CanonicalError>)
    ensures r.Ok? && r.value.Some? ==> r.value.value.bodyStart <= |buf|
  {
    match HeadEnd(buf)
    case None => if |buf| > MAX_HEAD then Err(OVERSIZED) else Ok(None)
    case Some(end) =>
      match ParseHead(buf[..end])
      case Some(head) => Ok(Some(EnvelopeHead(head, end)))
      case None => Err(NO_STATUS)
  }

  // ----- the relay -----

  datatype ChildItem = Chunk(bytes: Bytes) | Failed(message: string)

  datatype Response = Response(head: Head, body: seq<ChildItem>)

  /** What pulling on from a buffer comes to. */
  function RespondFrom(buf: Bytes, items: seq<ChildItem>): Result<Response, CanonicalError>
    decreases |items|
  {
    match ReadHead(buf)
    case Err(e) => Err(e)
    case Ok(Some(h)) =>
      var prefix := buf[h.bodyStart..];
      Ok(Response(h.head, (if prefix == [] then [] else [Chunk(prefix)]) + items))
    case Ok(None) =>
      if items == [] then Err(CLOSED)
      else
        match items[0]
        case Chunk(bytes) => RespondFrom(buf + bytes, items[1..])
        case Failed(e) => Err(Fault("delegate failed before the response head: " + e))
  }

  method Respond(child: seq<ChildItem>) returns (r: Result<Response, CanonicalError>)
    ensures r == RespondFrom([], child)
  {
    var buf: Bytes := [];
    var i := 0;
    assert child[i..] == child;
    while true
      invariant i <= |child| && RespondFrom([], child) == RespondFrom(buf, child[i..])
      decreases |child| - i
    {
      var parsed := ReadHead(buf);
      if parsed.Err? {
        return Err(parsed.error);
      }
      if parsed.value.Some? {
        var h := parsed.value.value;
        var prefix := buf[h.bodyStart..];
        return Ok(Response(h.head, (if prefix == [] then [] else [Chunk(prefix)]) + child[i..]));
      }
      if i == |child| {
        return Err(CLOSED);
      }
      assert child[i..][1..] == child[i + 1..];
      if child[i].Failed? {
        return Err(Fault("delegate failed before the response head: " + child[i].message));
      }
      buf := buf + child[i].bytes;
      i := i + 1;
    }
  }

  // ----- the head does not depend on the chunking -----

  /** The parts as a child delivers them, and then whatever else it reports. */
  function Feed(parts: seq<Bytes>, rest: seq<ChildItem>): seq<ChildItem> {
    if parts == [] then rest else [Chunk(parts[0])] + Feed(parts[1..], rest)
  }

  /** After `n` bytes, some read still short of the head end `e` passes the ceiling. */
  predicate Overruns(n: nat, parts: seq<Bytes>, e: nat)
    decreases |parts|
  {
    n < e && (n > MAX_HEAD || (parts != [] && Overruns(n + |parts[0]|, parts[1..], e)))
  }

  lemma {:induction false} ShortHeadsNeverOverrun(n: nat, parts: seq<Bytes>, e: nat)
    requires e <= MAX_HEAD + 1
    ensures !Overruns(n, parts, e)
    decreases |parts|
  {
    if parts != [] {
      ShortHeadsNeverOverrun(n + |parts[0]|, parts[1..], e);
    }
  }

  /** The response whose head ends at `e` of these bytes, its body led on by `lead`. */
  ghost predicate Leads(r: Result<Response, CanonicalError>, all: Bytes, e: nat, lead: seq<Bytes>, rest: seq<ChildItem>)
    requires e <= |all|
  {
    match ParseHead(all[..e])
    case None => r == Err(NO_STATUS)
    case Some(head) => r == Ok(Response(head, Feed(lead, rest))) && Flatten(lead) == all[e..]
  }

  /** The body that leads on from a head is what is left of the buffer and of the parts. */
  lemma {:induction false} RelayFrom(
    buf: Bytes, parts: seq<Bytes>, rest: seq<ChildItem>, e: nat) returns (lead: seq<Bytes>)
    requires HeadEnd(buf + Flatten(parts)) == Some(e)
    ensures
      var all := buf + Flatten(parts);
      var r := RespondFrom(buf, Feed(parts, rest));
      if Overruns(|buf|, parts, e) then r == Err(OVERSIZED) else Leads(r, all, e, lead, rest)
    decreases |parts|
  {
    HeadOfBuffer(buf, parts, e);
    lead := [];
    hide ParseHead, HeadEnd, Feed, Flatten, Leads, RespondFrom;
    if e <= |buf| {
      lead := RelayHere(buf, parts, rest, e);
    } else if |buf| > MAX_HEAD {
      RefusedHere(buf, Feed(parts, rest));
    } else {
      PullOne(buf, parts, rest);
      FlattenPulled(buf, parts);
      lead := RelayFrom(buf + parts[0], parts[1..], rest, e);
    }
  }

  lemma {:induction false} HeadOfBuffer(buf: Bytes, parts: seq<Bytes>, e: nat)
    requires HeadEnd(buf + Flatten(parts)) == Some(e)
    ensures HeadEnd(buf) == (if e <= |buf| then Some(e) else None) && (parts == [] ==> e <= |buf|)
  {
    var all := buf + Flatten(parts);
    HeadEndOfPrefix(all, |buf|);
    assert all[..|buf|] == buf;
    hide HeadEnd;
  }

  lemma {:induction false} RefusedHere(buf: Bytes, items: seq<ChildItem>)
    requires HeadEnd(buf).None? && |buf| > MAX_HEAD
    ensures RespondFrom(buf, items) == Err(OVERSIZED)
  {
    hide HeadEnd;
  }

  lemma {:induction false} PullOne(buf: Bytes, parts: seq<Bytes>, rest: seq<ChildItem>)
    requires HeadEnd(buf).None? && |buf| <= MAX_HEAD && parts != []
    ensures RespondFrom(buf, Feed(parts, rest)) == RespondFrom(buf + parts[0], Feed(parts[1..], rest))
  {
    hide HeadEnd, Flatten;
    assert Feed(parts, rest)[1..] == Feed(parts[1..], rest);
    hide Feed;
  }

  lemma {:induction false} FlattenPulled(buf: Bytes, parts: seq<Bytes>)
    requires parts != []
    ensures buf + Flatten(parts) == buf + parts[0] + Flatten(parts[1..])
  {
    assert Flatten(parts) == parts[0] + Flatten(parts[1..]);
    hide Flatten;
  }

  /** The head is all there: what is left of the buffer is the body's first chunk. */
  lemma {:induction false} RelayHere(
    buf: Bytes, parts: seq<Bytes>, rest: seq<ChildItem>, e: nat) returns (lead: seq<Bytes>)
    requires HeadEnd(buf) == Some(e)
    ensures
      var all := buf + Flatten(parts);
      Leads(RespondFrom(buf, Feed(parts, rest)), all, e, lead, rest)
  {
    var all, prefix := buf + Flatten(parts), buf[e..];
    assert all[..e] == buf[..e] && all[e..] == prefix + Flatten(parts);
    hide ParseHead, HeadEnd;
    if prefix == [] {
      lead := parts;
      assert [] + Feed(parts, rest) == Feed(parts, rest);
    } else {
      lead := [prefix] + parts;
      assert lead[1..] == parts;
    }
  }

  /** Every chunking of an output whose head ends within the ceiling yields one and the same
      status and retry-after, and a body that concatenates to exactly the bytes after the head
      terminator, followed by whatever the child reports next. */
  lemma {:induction false} RelayIgnoresChunking(
    parts: seq<Bytes>, rest: seq<ChildItem>, e: nat) returns (lead: seq<Bytes>)
    requires HeadEnd(Flatten(parts)) == Some(e) && e <= MAX_HEAD + 1
    ensures
      var all := Flatten(parts);
      var r := RespondFrom([], Feed(parts, rest));
      match ParseHead(all[..e])
      case None => r == Err(NO_STATUS)
      case Some(head) => r == Ok(Response(head, Feed(lead, rest))) && Flatten(lead) == all[e..]
  {
    assert [] + Flatten(parts) == Flatten(parts);
    ShortHeadsNeverOverrun(0, parts, e);
    lead := RelayFrom([], parts, rest, e);
    hide RespondFrom, HeadEnd, ParseHead, Overruns, Feed, Flatten;
  }

  /** One byte past that bound the chunking shows: read whole the head parses, read in two it
      is refused as oversized. */
  lemma {:induction false} LongHeadsDependOnChunking(all: Bytes, e: nat)
    requires HeadEnd(all) == Some(e) && e > MAX_HEAD + 1 && ParseHead(all[..e]).Some?
    ensures RespondFrom([], Feed([all], [])).Ok?
    ensures RespondFrom([], Feed([all[..MAX_HEAD + 1], all[MAX_HEAD + 1..]], [])) == Err(OVERSIZED)
  {
    var whole := [all];
    TwoParts(all, MAX_HEAD + 1, e);
    assert whole[1..] == [] && [] + Flatten(whole) == all;
    hide ParseHead, HeadEnd, RespondFrom;
    var a := RelayFrom([], whole, [], e);
    assert !Overruns(0, whole, e);
    hide Overruns, Flatten;
    var cut := [all[..MAX_HEAD + 1], all[MAX_HEAD + 1..]];
    var b := RelayFrom([], cut, [], e);
  }

  lemma {:induction false} TwoParts(all: Bytes, n: nat, e: nat)
    requires MAX_HEAD < n < e && n <= |all|
    ensures [] + Flatten([all[..n], all[n..]]) == all && Overruns(0, [all[..n], all[n..]], e)
  {
    var cut := [all[..n], all[n..]];
    var second := cut[1..];
    assert second == [all[n..]] && second[1..] == [];
    assert Flatten(second) == all[n..];
    assert Overruns(|cut[0]|, second, e);
  }

  // ----- a head that is written reads back -----

  const BLANK_LINE: seq<Bytes> := [[]]

  /** Head lines, each closed by CR LF. */
  function Written(lines: seq<Bytes>): Bytes {
    if lines == [] then [] else lines[0] + [CR, LF] + Written(lines[1..])
  }

  predicate Plain(lines: seq<Bytes>) {
    forall l <- lines :: l != [] && LF !in l
  }

  lemma {:induction false} LineReadsBack(line: Bytes, more: Bytes)
    requires LF !in line
    ensures Lines(line + [CR, LF] + more) == [line] + Lines(more)
  {
    var first, rest := line + [CR], Split(more, LF);
    SplitFirst(first, LF, more);
    assert line + [CR, LF] + more == first + [LF] + more;
    hide Split;
    assert Front([first] + rest) == [first] + Front(rest) && Last([first] + rest) == Last(rest);
    assert ([first] + Front(rest))[1..] == Front(rest) && Front(first) == line;
  }

  lemma {:induction false} LinesReadBack(lines: seq<Bytes>)
    requires forall l <- lines :: LF !in l
    ensures Lines(Written(lines)) == lines
  {
    if lines != [] {
      assert lines[0] in lines && forall l <- lines[1..] :: l in lines;
      LinesReadBack(lines[1..]);
      hide Lines;
      LineReadsBack(lines[0], Written(lines[1..]));
      assert lines == [lines[0]] + lines[1..];
    }
  }

  /** What follows the last byte of a line: the break, the lines after it, and the blank one. */
  function Tail(lines: seq<Bytes>): Bytes {
    [CR, LF] + Written(lines) + [CR, LF]
  }

  lemma {:induction false} BlankLineEnds(lines: seq<Bytes>)
    requires Plain(lines)
    ensures HeadEnd(Tail(lines)) == Some(|Tail(lines)|)
  {
    if lines == [] {
      HeadEndIs(Tail(lines), 4);
    } else {
      var l, g := lines[0], Tail(lines[1..]);
      assert l in lines && forall x <- lines[1..] :: x in lines;
      BlankLineEnds(lines[1..]);
      TailStep(lines);
      hide HeadEnd, Tail;
      EndMovesPast(l, g);
    }
  }

  lemma {:induction false} TailStep(lines: seq<Bytes>)
    requires lines != []
    ensures Tail(lines) == [CR, LF] + lines[0] + Tail(lines[1..])
    ensures |Tail(lines)| == 2 + |lines[0]| + |Tail(lines[1..])|
    ensures Tail(lines[1..])[0] == CR && Tail(lines[1..])[1] == LF && |Tail(lines[1..])| >= 4
  {
  }

  lemma {:induction false} EndMovesPast(l: Bytes, g: Bytes)
    requires l != [] && LF !in l && HeadEnd(g) == Some(|g|) && |g| >= 4 && g[0] == CR && g[1] == LF
    ensures HeadEnd([CR, LF] + l + g) == Some(2 + |l| + |g|)
  {
    var b := [CR, LF] + l + g;
    forall j: nat | j <= |b|
      ensures EndsAt(b, j) <==> j >= 2 + |l| && EndsAt(g, j - 2 - |l|)
    {
      assert forall i :: 2 <= i < 2 + |l| ==> b[i] in l;
      assert forall i :: 2 + |l| <= i < |b| ==> b[i] == g[i - 2 - |l|];
    }
    hide EndsAt;
    HeadEndIs(b, |b|);
  }

  lemma {:induction false} FirstLineMovesPast(l: Bytes, g: Bytes)
    requires l != [] && LF !in l && HeadEnd(g) == Some(|g|) && |g| >= 4 && g[0] == CR && g[1] == LF
    ensures HeadEnd(l + g) == Some(|l| + |g|)
  {
    var b := l + g;
    forall j: nat | j <= |b|
      ensures EndsAt(b, j) <==> j >= |l| && EndsAt(g, j - |l|)
    {
      assert forall i :: 0 <= i < |l| ==> b[i] in l;
      assert forall i :: |l| <= i < |b| ==> b[i] == g[i - |l|];
    }
    hide EndsAt;
    HeadEndIs(b, |b|);
  }

  function StatusLine(status: nat, reason: Bytes): Bytes {
    Ascii("HTTP/1.1") + [SPACE] + (Digits(status) + [SPACE] + reason)
  }

  /** A status line says its status, if that fits 16 bits. */
  lemma {:induction false} StatusReadsBack(status: nat, reason: Bytes)
    ensures StatusIn(StatusLine(status, reason)) == if status <= 65535 then Some(status) else None
  {
    var http := Ascii("HTTP/1.1");
    assert http == [72, 84, 84, 80, 47, 49, 46, 49];
    DigitsReadBack(status);
    DigitsParse(status, 65535);
    WordsFirst(http, SPACE, Digits(status) + [SPACE] + reason);
    WordsFirst(Digits(status), SPACE, reason);
    hide Ascii, Words, ParseUnsigned;
  }

  /** A response written with any body after it is read as its status, its first retry-after
      whatever the case, and a body that starts at its first byte. */
  lemma {:induction false} HeadReadsBack(status: nat, reason: Bytes, headers: seq<Bytes>, body: Bytes)
    requires status <= 65535 && LF !in reason && Plain(headers)
    ensures
      var head := StatusLine(status, reason) + Tail(headers);
      ReadHead(head + body) == Ok(Some(EnvelopeHead(Head(status, RetryAfterIn(headers)), |head|)))
  {
    var first := StatusLine(status, reason);
    var head := first + Tail(headers);
    StatusLineIsPlain(status, reason);
    BlankLineEnds(headers);
    FirstLineMovesPast(first, Tail(headers));
    assert (head + body)[..|head|] == head;
    HeadEndOfPrefix(head + body, |head|);
    HeadParses(status, reason, headers);
    hide HeadEnd, ParseHead, StatusLine, Tail;
  }

  lemma {:induction false} HeadIsWritten(first: Bytes, headers: seq<Bytes>)
    ensures first + Tail(headers) == Written([first] + headers + BLANK_LINE)
  {
    WrittenAppend([first] + headers, BLANK_LINE);
    assert ([first] + headers)[1..] == headers && BLANK_LINE[1..] == [];
    assert Written(BLANK_LINE) == [CR, LF];
  }

  lemma {:induction false} HeadParses(status: nat, reason: Bytes, headers: seq<Bytes>)
    requires status <= 65535 && LF !in reason && Plain(headers)
    ensures ParseHead(StatusLine(status, reason) + Tail(headers)) == Some(Head(status, RetryAfterIn(headers)))
  {
    var first := StatusLine(status, reason);
    var lines := [first] + headers + BLANK_LINE;
    StatusLineIsPlain(status, reason);
    HeadIsWritten(first, headers);
    StatusReadsBack(status, reason);
    BlankNamesNothing(headers);
    hide Lines, StatusIn, RetryAfterIn, StatusLine, Tail, Written;
    LinesReadBack(lines);
    assert lines[1..] == headers + BLANK_LINE;
  }

  lemma {:induction false} StatusLineIsPlain(status: nat, reason: Bytes)
    requires LF !in reason
    ensures StatusLine(status, reason) != [] && LF !in StatusLine(status, reason)
  {
    assert Ascii("HTTP/1.1") == [72, 84, 84, 80, 47, 49, 46, 49];
    DigitsReadBack(status);
    hide Ascii, Digits;
  }

  lemma {:induction false} WrittenAppend(a: seq<Bytes>, b: seq<Bytes>)
    ensures Written(a + b) == Written(a) + Written(b)
  {
    if a == [] {
      assert a + b == b;
    } else {
      assert (a + b)[1..] == a[1..] + b;
      WrittenAppend(a[1..], b);
    }
  }

  lemma {:induction false} BlankNamesNothing(headers: seq<Bytes>)
    ensures RetryAfterIn(headers + BLANK_LINE) == RetryAfterIn(headers)
  {
    if headers == [] {
      assert headers + BLANK_LINE == BLANK_LINE && BLANK_LINE[1..] == [];
    } else {
      assert (headers + BLANK_LINE)[1..] == headers[1..] + [[]];
      BlankNamesNothing(headers[1..]);
    }
  }
}
