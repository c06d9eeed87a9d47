/** The form-urlencoded codec of src/auth/urlencode.rs and the loopback callback that reads it
    back (src/auth/wire.rs:114-144). Text is its UTF-8 bytes. */
module UrlCodec {
  import opened Base
  import opened AsciiText

  const PERCENT: Byte := 37
  const AMP: Byte := 38
  const PLUS: Byte := 43
  const EQUALS: Byte := 61
  const QUESTION: Byte := 63

  // ----- percent coding -----

  predicate IsUnreserved(b: Byte) {
    || 48 <= b <= 57 || 65 <= b <= 90 || 97 <= b <= 122
    || b == 45 || b == 95 || b == 46 || b == 126
  }

  function HexDigit(n: nat): Byte
    requires n < 16
  {
    if n < 10 then 48 + n else 55 + n
  }

  /** Two hex digits, or `None` if either is not one. */
  function Hex(hi: Byte, lo: Byte): Option<Byte> {
    if Nibble(hi).Some? && Nibble(lo).Some? then Some(Nibble(hi).value * 16 + Nibble(lo).value) else None
  }

  lemma {:induction false} HexReadsBack(b: Byte)
    ensures Hex(HexDigit(b / 16), HexDigit(b % 16)) == Some(b)
  {
  }

  function EncodeByte(b: Byte): Bytes {
    if IsUnreserved(b) then [b] else [PERCENT, HexDigit(b / 16), HexDigit(b % 16)]
  }

  function Encode(s: Bytes): Bytes {
    if s == [] then [] else EncodeByte(s[0]) + Encode(s[1..])
  }

  /** The escape that begins `s`, if one does. */
  function Escape(s: Bytes): Option<Byte> {
    if |s| >= 3 && s[0] == PERCENT then Hex(s[1], s[2]) else None
  }

  function Decode(s: Bytes): (d: Bytes)
    ensures |d| <= |s|
  {
    if s == [] then []
    else if Escape(s).Some? then [Escape(s).value] + Decode(s[3..])
    else if s[0] == PLUS then [SPACE] + Decode(s[1..])
    else [s[0]] + Decode(s[1..])
  }

  lemma {:induction false} EncodeStep(out: Bytes, s: Bytes, i: nat)
    requires i < |s|
    ensures out + Encode(s[i..]) == out + EncodeByte(s[i]) + Encode(s[i + 1..])
  {
    assert s[i..][1..] == s[i + 1..];
  }

  method EncodeText(s: Bytes) returns (out: Bytes)
    ensures out == Encode(s)
  {
    out := [];
    var i := 0;
    while i < |s|
      invariant i <= |s| && Encode(s) == out + Encode(s[i..])
    {
      var b := s[i];
      EncodeStep(out, s, i);
      hide Encode;
      if IsUnreserved(b) {
        out := out + [b];
      } else {
        var before := out;
        out := out + [PERCENT];
        out := out + [HexDigit(b / 16)];
        out := out + [HexDigit(b % 16)];
        assert out == before + EncodeByte(b);
      }
      i := i + 1;
    }
  }

  method DecodeText(s: Bytes) returns (out: Bytes)
    ensures out == Decode(s)
  {
    out := [];
    var i := 0;
    while i < |s|
      invariant i <= |s| && Decode(s) == out + Decode(s[i..])
    {
      DecodeStep(out, s[i..]);
      assert s[i..][1..] == s[i + 1..];
      if s[i] == PLUS {
        out := out + [SPACE];
        i := i + 1;
      } else if s[i] == PERCENT && i + 2 < |s| {
        assert s[i..][1] == s[i + 1] && s[i..][2] == s[i + 2] && s[i..][3..] == s[i + 3..];
        var b := Hex(s[i + 1], s[i + 2]);
        if b.Some? {
          out := out + [b.value];
          i := i + 3;
        } else {
          out := out + [PERCENT];
          i := i + 1;
        }
      } else {
        out := out + [s[i]];
        i := i + 1;
      }
    }
  }

  lemma {:induction false} DecodeStep(out: Bytes, s: Bytes)
    requires s != []
    ensures out + Decode(s) ==
      if Escape(s).Some? then out + [Escape(s).value] + Decode(s[3..])
      else out + [if s[0] == PLUS then SPACE else s[0]] + Decode(s[1..])
  {
  }

  lemma {:induction false} DecodeEncoded(b: Byte, rest: Bytes)
    ensures Decode(EncodeByte(b) + rest) == [b] + Decode(rest)
  {
    var s := EncodeByte(b) + rest;
    HexReadsBack(b);
    if IsUnreserved(b) {
      assert s[1..] == rest;
    } else {
      assert s[3..] == rest && s[1] == HexDigit(b / 16) && s[2] == HexDigit(b % 16);
    }
  }

  /** Decoding undoes encoding, for every byte string. */
  lemma {:induction false} DecodeEncode(s: Bytes)
    ensures Decode(Encode(s)) == s
  {
    if s != [] {
      DecodeEncoded(s[0], Encode(s[1..]));
      DecodeEncode(s[1..]);
      assert [s[0]] + s[1..] == s;
    }
  }

  /** The bytes of "0123456789ABCDEF". */
  const HEX: Bytes := [48, 49, 50, 51, 52, 53, 54, 55, 56, 57, 65, 66, 67, 68, 69, 70]

  /** Letters, digits and the four unreserved marks stand for themselves; any other byte is a
      percent sign and its two upper-case hexadecimal digits. */
  lemma {:induction false} EncodedByteIs(b: Byte)
    ensures EncodeByte(b) ==
      if 48 <= b <= 57 || 65 <= b <= 90 || 97 <= b <= 122 || b == 45 || b == 46 || b == 95 || b == 126 then [b]
      else [37, HEX[b / 16], HEX[b % 16]]
  {
    HexIs(b / 16);
    HexIs(b % 16);
  }

  lemma {:induction false} HexIs(n: nat)
    requires n < 16
    ensures HexDigit(n) == HEX[n]
  {
  }

  /** A text is encoded byte by byte. */
  lemma {:induction false} EncodedIs(s: Bytes, i: nat)
    requires i < |s|
    ensures Encode(s) == Encode(s[..i]) + EncodeByte(s[i]) + Encode(s[i + 1..])
  {
    EncodeAppend(s[..i], s[i..]);
    assert s == s[..i] + s[i..] && s[i..][1..] == s[i + 1..];
    hide EncodeByte;
  }

  lemma {:induction false} EncodeAppend(a: Bytes, b: Bytes)
    ensures Encode(a + b) == Encode(a) + Encode(b)
  {
    if a == [] {
      assert a + b == b;
    } else {
      assert (a + b)[1..] == a[1..] + b;
      EncodeAppend(a[1..], b);
    }
  }

  /** A plus is a space, an escape of either case its byte, anything else itself. */
  lemma {:induction false} DecodedIs(s: Bytes)
    requires s != []
    ensures
      var whole := |s| >= 3 && s[0] == 37 && Nibble(s[1]).Some? && Nibble(s[2]).Some?;
      Decode(s) ==
        if whole then [16 * Nibble(s[1]).value + Nibble(s[2]).value] + Decode(s[3..])
        else [if s[0] == 43 then 32 else s[0]] + Decode(s[1..])
  {
  }

  predicate Safe(b: Byte) {
    IsUnreserved(b) || b == PERCENT
  }

  /** Nothing a query, a request line or a header could trip over comes out of the encoder. */
  lemma {:induction false} EncodedIsSafe(s: Bytes, b: Byte)
    requires !Safe(b)
    ensures b !in Encode(s)
  {
    if s != [] {
      EncodedIsSafe(s[1..], b);
    }
  }

  predicate HasEscape(s: Bytes) {
    exists i :: 0 <= i < |s| && Escapes(s, i)
  }

  predicate Escapes(s: Bytes, i: nat)
    requires i < |s|
  {
    s[i] == PLUS || (i + 2 < |s| && s[i] == PERCENT && Hex(s[i + 1], s[i + 2]).Some?)
  }

  /** A truncated or non-hex escape is left literal: decoding changes a text exactly when it
      holds a plus or a whole escape. */
  lemma {:induction false} DecodeLeavesTheRest(s: Bytes)
    ensures Decode(s) == s <==> !HasEscape(s)
  {
    if s != [] {
      DecodeLeavesTheRest(s[1..]);
      assert s == [s[0]] + s[1..];
      assert forall i :: 0 <= i < |s| - 1 ==> Escapes(s[1..], i) == Escapes(s, i + 1);
      if Escape(s).Some? || s[0] == PLUS {
        assert Escapes(s, 0);
      } else {
        assert !Escapes(s, 0);
        assert Decode(s) == s <==> Decode(s[1..]) == s[1..];
        if HasEscape(s) {
          var i :| 0 <= i < |s| && Escapes(s, i);
          assert Escapes(s[1..], i - 1);
        }
      }
    }
  }

  // ----- pairs -----

  type Pairs = seq<(Bytes, Bytes)>

  function EncodePair(p: (Bytes, Bytes)): Bytes {
    Encode(p.0) + [EQUALS] + Encode(p.1)
  }

  function Segments(pairs: Pairs): (segs: seq<Bytes>)
    ensures |segs| == |pairs|
    ensures forall i :: 0 <= i < |pairs| ==> segs[i] == EncodePair(pairs[i])
  {
    seq(|pairs|, i requires 0 <= i < |pairs| => EncodePair(pairs[i]))
  }

  function EncodePairs(pairs: Pairs): Bytes {
    Join(Segments(pairs), AMP)
  }

  function DecodeSegment(seg: Bytes): (Bytes, Bytes) {
    match SplitOnce(seg, EQUALS)
    case Some((k, v)) => (Decode(k), Decode(v))
    case None => (Decode(seg), [])
  }

  function DecodeSegments(segs: seq<Bytes>): Pairs {
    if segs == [] then []
    else (if segs[0] == [] then [] else [DecodeSegment(segs[0])]) + DecodeSegments(segs[1..])
  }

  function QueryPairs(query: Bytes): Pairs {
    DecodeSegments(Split(query, AMP))
  }

  lemma {:induction false} SegmentBytes(p: (Bytes, Bytes), b: Byte)
    requires !Safe(b) && b != EQUALS
    ensures b !in EncodePair(p)
  {
    EncodedIsSafe(p.0, b);
    EncodedIsSafe(p.1, b);
    hide Encode;
  }

  lemma {:induction false} SegmentReadsBack(p: (Bytes, Bytes))
    ensures DecodeSegment(EncodePair(p)) == p && EncodePair(p) != []
  {
    EncodedIsSafe(p.0, EQUALS);
    SplitOnceAt(Encode(p.0), EQUALS, Encode(p.1));
    DecodeEncode(p.0);
    DecodeEncode(p.1);
    hide Encode, Decode, SplitOnce;
  }

  lemma {:induction false} SegmentsReadBack(pairs: Pairs)
    ensures DecodeSegments(Segments(pairs)) == pairs
  {
    if pairs != [] {
      SegmentReadsBack(pairs[0]);
      assert Segments(pairs)[1..] == Segments(pairs[1..]);
      SegmentsReadBack(pairs[1..]);
      assert [pairs[0]] + pairs[1..] == pairs;
    }
  }

  /** Every list of pairs survives the query string, empty keys and values included. */
  lemma {:induction false} QueryRoundTrip(pairs: Pairs)
    ensures QueryPairs(EncodePairs(pairs)) == pairs
  {
    if pairs == [] {
      assert Segments(pairs) == [] && EncodePairs(pairs) == [];
      var none := Split([], AMP);
      assert none == [[]] && none[1..] == [] && DecodeSegments(none[1..]) == [];
    } else {
      forall s | s in Segments(pairs)
        ensures AMP !in s
      {
        var i :| 0 <= i < |pairs| && s == Segments(pairs)[i];
        SegmentBytes(pairs[i], AMP);
      }
      SplitJoin(Segments(pairs), AMP);
      SegmentsReadBack(pairs);
    }
  }

  lemma {:induction false} JoinedBytes(parts: seq<Bytes>, sep: Byte, b: Byte)
    requires b != sep && forall p <- parts :: b !in p
    ensures b !in Join(parts, sep)
  {
    if |parts| > 1 {
      JoinedBytes(parts[1..], sep, b);
    }
  }

  lemma {:induction false} QueryHasNoBlank(pairs: Pairs)
    ensures SPACE !in EncodePairs(pairs)
  {
    forall s | s in Segments(pairs)
      ensures SPACE !in s
    {
      var i :| 0 <= i < |pairs| && s == Segments(pairs)[i];
      SegmentBytes(pairs[i], SPACE);
    }
    JoinedBytes(Segments(pairs), AMP, SPACE);
  }

  // ----- the loopback callback -----

  datatype Callback = Callback(code: Bytes, state: Bytes)

  datatype AuthError = Denied(reason: Bytes) | MissingCode | MissingState | StateMismatch

  const CODE := Ascii("code")
  const STATE := Ascii("state")
  const ERROR := Ascii("error")

  /** The last value under a key. */
  function LastUnder(pairs: Pairs, key: Bytes): Option<Bytes> {
    if pairs == [] then None
    else if Last(pairs).0 == key then Some(Last(pairs).1)
    else LastUnder(Front(pairs), key)
  }

  function Judge(pairs: Pairs, expected: Bytes): Result<Callback, AuthError> {
    var code, state, error := LastUnder(pairs, CODE), LastUnder(pairs, STATE), LastUnder(pairs, ERROR);
    if error.Some? then Err(Denied(error.value))
    else if code.None? then Err(MissingCode)
    else if state.None? then Err(MissingState)
    else if state.value != expected then Err(StateMismatch)
    else Ok(Callback(code.value, state.value))
  }

  lemma {:induction false} KeysDiffer()
    ensures CODE != STATE && CODE != ERROR && STATE != ERROR
  {
    assert CODE[0] == 99 && STATE[0] == 115 && ERROR[0] == 101;
  }

  method ParseCallback(query: Bytes, expected: Bytes) returns (r: Result<Callback, AuthError>)
    ensures r == Judge(QueryPairs(query), expected)
  {
    var pairs := QueryPairs(query);
    var code, state, error: Option<Bytes> := None, None, None;
    var i := 0;
    KeysDiffer();
    while i < |pairs|
      invariant i <= |pairs|
      invariant code == LastUnder(pairs[..i], CODE)
      invariant state == LastUnder(pairs[..i], STATE)
      invariant error == LastUnder(pairs[..i], ERROR)
    {
      var (key, value) := pairs[i];
      assert Front(pairs[..i + 1]) == pairs[..i] && Last(pairs[..i + 1]) == pairs[i];
      if key == CODE {
        code := Some(value);
      } else if key == STATE {
        state := Some(value);
      } else if key == ERROR {
        error := Some(value);
      }
      i := i + 1;
    }
    assert pairs[..i] == pairs;
    if error.Some? {
      return Err(Denied(error.value));
    }
    if code.None? {
      return Err(MissingCode);
    }
    if state.None? {
      return Err(MissingState);
    }
    if state.value != expected {
      return Err(StateMismatch);
    }
    return Ok(Callback(code.value, state.value));
  }

  /** The query of a request line's target, the second space-separated field. */
  function QueryFromRequestLine(line: Bytes): Option<Bytes> {
    var parts := Split(line, SPACE);
    if |parts| < 2 then None
    else
      match SplitOnce(parts[1], QUESTION)
      case Some((_, query)) => Some(query)
      case None => None
  }

  /** Of any line: the second of its words at single spaces, from its first question mark on. */
  lemma {:induction false} QueryIs(verb: Bytes, path: Bytes, query: Bytes, tail: Bytes)
    requires SPACE !in verb && SPACE !in path && QUESTION !in path && SPACE !in query
    requires tail == [] || tail[0] == SPACE
    ensures QueryFromRequestLine(verb + [SPACE] + (path + [QUESTION] + query + tail)) == Some(query)
    ensures QueryFromRequestLine(verb + [SPACE] + (path + tail)) == None
    ensures QueryFromRequestLine(verb) == None
  {
    var target := path + [QUESTION] + query;
    SecondWord(verb, target, tail);
    SecondWord(verb, path, tail);
    SplitOnceAt(path, QUESTION, query);
    SplitWhole(verb, SPACE);
    SplitOnceNone(path, QUESTION);
    hide Split, SplitOnce;
  }

  lemma {:induction false} SecondWord(verb: Bytes, target: Bytes, tail: Bytes)
    requires SPACE !in verb && SPACE !in target && (tail == [] || tail[0] == SPACE)
    ensures
      var words := Split(verb + [SPACE] + (target + tail), SPACE);
      |words| >= 2 && words[1] == target
  {
    hide Split;
    var rest := target + tail;
    SplitFirst(verb, SPACE, rest);
    if tail == [] {
      assert rest == target;
      SplitWhole(target, SPACE);
    } else {
      assert rest == target + [SPACE] + tail[1..];
      SplitFirst(target, SPACE, tail[1..]);
    }
    assert Split(rest, SPACE)[0] == target;
  }

  lemma {:induction false} SplitWhole(s: Bytes, sep: Byte)
    requires sep !in s
    ensures Split(s, sep) == [s]
  {
  }

  lemma {:induction false} SplitOnceNone(s: Bytes, sep: Byte)
    requires sep !in s
    ensures SplitOnce(s, sep) == None
  {
  }

  function RequestLine(path: Bytes, query: Bytes): Bytes {
    Ascii("GET") + [SPACE] + (path + [QUESTION] + query + [SPACE] + Ascii("HTTP/1.1"))
  }

  lemma {:induction false} LineReadsBack(path: Bytes, query: Bytes)
    requires SPACE !in path && QUESTION !in path && SPACE !in query
    ensures QueryFromRequestLine(RequestLine(path, query)) == Some(query)
  {
    hide Split, SplitOnce;
    var target := path + [QUESTION] + query;
    assert SPACE !in Ascii("GET") by {
      assert Ascii("GET") == [71, 69, 84];
    }
    SplitFirst(Ascii("GET"), SPACE, target + [SPACE] + Ascii("HTTP/1.1"));
    SplitFirst(target, SPACE, Ascii("HTTP/1.1"));
    SplitOnceAt(path, QUESTION, query);
  }

  lemma {:induction false} JudgeAccepts(pairs: Pairs, expected: Bytes, code: Bytes)
    ensures Judge(pairs, expected) == Ok(Callback(code, expected)) <==>
      LastUnder(pairs, ERROR).None? && LastUnder(pairs, CODE) == Some(code) && LastUnder(pairs, STATE) == Some(expected)
  {
    hide LastUnder, Ascii;
  }

  /** A callback carrying any pairs through the request line is accepted exactly when nothing
      was denied, a code came and the state is the expected one; the code is then recovered. */
  lemma {:induction false} CallbackRoundTrip(pairs: Pairs, path: Bytes, expected: Bytes, code: Bytes)
    requires SPACE !in path && QUESTION !in path
    ensures
      var query := QueryFromRequestLine(RequestLine(path, EncodePairs(pairs)));
      && query.Some?
      && (Judge(QueryPairs(query.value), expected) == Ok(Callback(code, expected)) <==>
          LastUnder(pairs, ERROR).None? && LastUnder(pairs, CODE) == Some(code) && LastUnder(pairs, STATE) == Some(expected))
  {
    QueryHasNoBlank(pairs);
    QueryRoundTrip(pairs);
    LineReadsBack(path, EncodePairs(pairs));
    JudgeAccepts(pairs, expected, code);
    hide QueryPairs, EncodePairs, LastUnder, RequestLine, QueryFromRequestLine, Ascii, Judge;
  }

  /** No state but the expected one, byte for byte, ever yields a callback. */
  lemma {:induction false} ForgedStateIsRefused(code: Bytes, state: Bytes, path: Bytes, expected: Bytes)
    requires SPACE !in path && QUESTION !in path
    ensures
      var query := QueryFromRequestLine(RequestLine(path, EncodePairs([(CODE, code), (STATE, state)])));
      && query.Some?
      && Judge(QueryPairs(query.value), expected) == if state == expected then Ok(Callback(code, state)) else Err(StateMismatch)
  {
    var pairs := [(CODE, code), (STATE, state)];
    KeysDiffer();
    QueryHasNoBlank(pairs);
    QueryRoundTrip(pairs);
    LineReadsBack(path, EncodePairs(pairs));
    assert Front(pairs) == [(CODE, code)] && Front(Front(pairs)) == [];
    hide QueryPairs, EncodePairs, RequestLine, QueryFromRequestLine;
    assert LastUnder(pairs, STATE) == Some(state);
    assert LastUnder(pairs, CODE) == LastUnder(Front(pairs), CODE) == Some(code);
    assert LastUnder(pairs, ERROR) == LastUnder(Front(pairs), ERROR) == LastUnder([], ERROR) == None;
  }
}
