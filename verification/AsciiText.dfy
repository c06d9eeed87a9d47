/** ASCII text over bytes, as the hand-written parsers read it: splitting, trimming, case,
    decimal numbers. */
module AsciiText {
  import opened Base

  function AsciiByte(c: char): Byte {
    if c as int < 128 then c as int else 63
  }

  /** A literal's bytes. */
  function Ascii(s: string): (b: Bytes)
    ensures |b| == |s|
    ensures forall i :: 0 <= i < |s| ==> b[i] == AsciiByte(s[i])
  {
    if s == "" then [] else [AsciiByte(s[0])] + Ascii(s[1..])
  }

  lemma {:induction false} AsciiLacks(s: string, c: char)
    requires c !in s && c as int < 128 && c != '?'
    ensures c as int !in Ascii(s)
  {
    forall i | 0 <= i < |s|
      ensures Ascii(s)[i] != c as int
    {
      assert s[i] in s;
    }
  }

  const CRLF: Bytes := [CR, LF]

  // ----- splitting -----

  /** `iter().position(|&b| b == x)`. */
  function IndexOf(b: Bytes, x: Byte): (r: Option<nat>)
    ensures r.Some? ==> r.value < |b| && b[r.value] == x && forall j :: 0 <= j < r.value ==> b[j] != x
    ensures r.None? <==> x !in b
  {
    if b == [] then None
    else if b[0] == x then Some(0)
    else
      var r := IndexOf(b[1..], x);
      assert b == [b[0]] + b[1..];
      if r.Some? then Some(r.value + 1) else None
  }

  lemma {:induction false} IndexOfIs(b: Bytes, x: Byte, k: nat)
    requires k < |b| && b[k] == x && forall j :: 0 <= j < k ==> b[j] != x
    ensures IndexOf(b, x) == Some(k)
  {
    assert x in b;
  }

  /** `split(|&b| b == sep)`: at least one piece, the separators dropped. */
  function Split(b: Bytes, sep: Byte): (pieces: seq<Bytes>)
    ensures |pieces| > 0
    decreases |b|
  {
    match IndexOf(b, sep)
    case None => [b]
    case Some(k) => [b[..k]] + Split(b[k + 1..], sep)
  }

  /** `parts.join(sep)`. */
  function Join(parts: seq<Bytes>, sep: Byte): Bytes {
    if parts == [] then [] else if |parts| == 1 then parts[0] else parts[0] + [sep] + Join(parts[1..], sep)
  }

  lemma {:induction false} SplitWhole(s: Bytes, sep: Byte)
    requires sep !in s
    ensures Split(s, sep) == [s]
  {
  }

  lemma {:induction false} SplitFirst(a: Bytes, sep: Byte, b: Bytes)
    requires sep !in a
    ensures Split(a + [sep] + b, sep) == [a] + Split(b, sep)
  {
    var s := a + [sep] + b;
    IndexOfIs(s, sep, |a|);
    assert s[..|a|] == a && s[|a| + 1..] == b;
  }

  /** Splitting undoes joining when no part holds the separator. */
  lemma {:induction false} SplitJoin(parts: seq<Bytes>, sep: Byte)
    requires parts != [] && forall p <- parts :: sep !in p
    ensures Split(Join(parts, sep), sep) == parts
  {
    assert parts[0] in parts;
    if |parts| == 1 {
      SplitWhole(parts[0], sep);
    } else {
      SplitJoin(parts[1..], sep);
      SplitFirst(parts[0], sep, Join(parts[1..], sep));
      assert parts == [parts[0]] + parts[1..];
    }
  }

  /** `split_once(sep)`. */
  function SplitOnce(s: Bytes, sep: Byte): Option<(Bytes, Bytes)> {
    match IndexOf(s, sep)
    case None => None
    case Some(k) => Some((s[..k], s[k + 1..]))
  }

  lemma {:induction false} SplitOnceJoins(s: Bytes, sep: Byte)
    ensures match SplitOnce(s, sep)
            case None => sep !in s
            case Some((a, b)) => s == a + [sep] + b && sep !in a
  {
  }

  lemma {:induction false} SplitOnceAt(a: Bytes, sep: Byte, b: Bytes)
    requires sep !in a
    ensures SplitOnce(a + [sep] + b, sep) == Some((a, b))
  {
    var s := a + [sep] + b;
    IndexOfIs(s, sep, |a|);
    assert s[..|a|] == a && s[|a| + 1..] == b;
  }

  /** One carriage return off the end of a line. */
  function StripCr(line: Bytes): Bytes {
    if |line| > 0 && line[|line| - 1] == CR then line[..|line| - 1] else line
  }

  // ----- whitespace and case -----

  predicate IsSpace(b: Byte) {
    9 <= b <= 13 || b == SPACE
  }

  /** Tab, line feed, vertical tab, form feed, carriage return and space. */
  lemma {:induction false} SpacesAre(b: Byte)
    ensures IsSpace(b) <==> b in {9, 10, 11, 12, 13, 32}
  {
  }

  function TrimStart(s: Bytes): (t: Bytes)
    ensures |t| <= |s| && t == s[|s| - |t|..]
  {
    if s != [] && IsSpace(s[0]) then TrimStart(s[1..]) else s
  }

  function TrimEnd(s: Bytes): (t: Bytes)
    ensures t <= s
  {
    if s != [] && IsSpace(Last(s)) then TrimEnd(Front(s)) else s
  }

  function Trim(s: Bytes): Bytes {
    TrimEnd(TrimStart(s))
  }

  predicate NoSpace(s: Bytes) {
    forall b <- s :: !IsSpace(b)
  }

  /** Trailing whitespace goes whether it is trimmed now or with more of it later. */
  lemma {:induction false} TrimEndAbsorbs(s: Bytes, tail: Bytes)
    requires forall b <- tail :: IsSpace(b)
    ensures TrimEnd(s + tail) == TrimEnd(s)
  {
    if tail == [] {
      assert s + tail == s;
    } else {
      assert Front(s + tail) == s + Front(tail) && Last(tail) in tail;
      TrimEndAbsorbs(s, Front(tail));
    }
  }

  /** Trimming the end stops at a byte that is no whitespace. */
  lemma {:induction false} TrimEndStopsAt(a: Bytes, stop: Byte, b: Bytes)
    requires !IsSpace(stop)
    ensures TrimEnd(a + [stop] + b) == a + [stop] + TrimEnd(b)
  {
    if b == [] || !IsSpace(Last(b)) {
      assert Last(a + [stop] + b) == if b == [] then stop else Last(b);
      assert a + [stop] + [] == a + [stop];
    } else {
      assert Front(a + [stop] + b) == a + [stop] + Front(b);
      TrimEndStopsAt(a, stop, Front(b));
    }
  }

  lemma {:induction false} TrimEndTwice(s: Bytes)
    ensures Trim(TrimEnd(s)) == Trim(s)
  {
    if s != [] && IsSpace(Last(s)) {
      TrimEndTwice(Front(s));
      TrimStartFront(s);
    }
  }

  lemma {:induction false} TrimStartFront(s: Bytes)
    requires s != [] && IsSpace(Last(s))
    ensures Trim(Front(s)) == Trim(s)
  {
    hide IsSpace;
    if |s| == 1 {
      assert s[1..] == [] && Front(s) == [];
    } else if IsSpace(s[0]) {
      assert Front(s)[0] == s[0] && Front(s)[1..] == Front(s[1..]) && Last(s[1..]) == Last(s);
      assert TrimStart(s) == TrimStart(s[1..]) && TrimStart(Front(s)) == TrimStart(Front(s[1..]));
      TrimStartFront(s[1..]);
    } else {
      assert Front(s)[0] == s[0] && TrimStart(s) == s && TrimStart(Front(s)) == Front(s);
    }
  }

  lemma {:induction false} NothingToTrim(s: Bytes)
    requires s == [] || (!IsSpace(s[0]) && !IsSpace(Last(s)))
    ensures Trim(s) == s && TrimEnd(s) == s && TrimStart(s) == s
  {
  }

  function LowerByte(b: Byte): Byte {
    if 65 <= b <= 90 then b + 32 else b
  }

  /** The twenty-six capitals go to their small letters, every other byte to itself. */
  lemma {:induction false} LowerIs(b: Byte, k: nat)
    requires k < 26
    ensures LowerByte(65 + k) == 97 + k
    ensures b < 65 || b > 90 ==> LowerByte(b) == b
  {
  }

  /** `to_ascii_lowercase`. */
  function LowerBytes(s: Bytes): (l: Bytes)
    ensures |l| == |s|
    ensures forall i :: 0 <= i < |s| ==> l[i] == LowerByte(s[i])
  {
    seq(|s|, i requires 0 <= i < |s| => LowerByte(s[i]))
  }

  /** `split_whitespace`: the maximal runs without whitespace. */
  function Words(s: Bytes): seq<Bytes> {
    if s == [] then []
    else if IsSpace(s[0]) then Words(s[1..])
    else
      var rest := Words(s[1..]);
      if |s| > 1 && !IsSpace(s[1]) && rest != [] then [[s[0]] + rest[0]] + rest[1..] else [[s[0]]] + rest
  }

  lemma {:induction false} WordsFirst(w: Bytes, gap: Byte, rest: Bytes)
    requires w != [] && NoSpace(w) && IsSpace(gap)
    ensures Words(w + [gap] + rest) == [w] + Words(rest)
  {
    var s := w + [gap] + rest;
    assert w[0] in w;
    if |w| == 1 {
      assert s[1..] == [gap] + rest && s[1..][1..] == rest && w == [w[0]];
    } else {
      assert s[1..] == w[1..] + [gap] + rest && w[1] in w;
      WordsFirst(w[1..], gap, rest);
      assert ([w[1..]] + Words(rest))[1..] == Words(rest) && [w[0]] + w[1..] == w;
    }
  }

  // ----- numbers -----

  predicate IsDigitByte(b: Byte) {
    48 <= b <= 57
  }

  predicate AllDigits(s: Bytes) {
    forall b <- s :: IsDigitByte(b)
  }

  function Value(s: Bytes): nat
    requires AllDigits(s)
  {
    if s == [] then 0
    else
      assert Last(s) in s;
      var last: int := Last(s);
      10 * Value(Front(s)) + (last - 48)
  }

  /** `parse::<uN>()`: one optional plus, at least one digit, no overflow. */
  function ParseUnsigned(s: Bytes, max: nat): (n: Option<nat>)
    ensures n.Some? ==> n.value <= max
  {
    var digits := if s != [] && s[0] == 43 then s[1..] else s;
    if digits != [] && AllDigits(digits) && Value(digits) <= max then Some(Value(digits)) else None
  }

  /** `parse::<iN>()`: also an optional minus. */
  function ParseSigned(s: Bytes, min: int, max: nat): Option<int> {
    if s != [] && s[0] == 45 then
      var digits := s[1..];
      if digits == [] || !AllDigits(digits) then None
      else
        var n: int := Value(digits);
        if -n >= min then Some(-n) else None
    else
      match ParseUnsigned(s, max)
      case Some(n) => Some(n)
      case None => None
  }

  /** `n.to_string()` as bytes. */
  function Digits(n: nat): Bytes {
    if n < 10 then [48 + n] else Digits(n / 10) + [48 + n % 10]
  }

  lemma {:induction false} DigitsReadBack(n: nat)
    ensures Digits(n) != [] && AllDigits(Digits(n)) && Value(Digits(n)) == n
  {
    if n < 10 {
      assert Front(Digits(n)) == [];
    } else {
      DigitsReadBack(n / 10);
      assert Front(Digits(n)) == Digits(n / 10);
    }
  }

  /** A signed number reads back, its minus too, whenever it is in range. */
  lemma {:induction false} SignedParse(n: nat, min: int, max: nat)
    ensures
      var m: int := n;
      ParseSigned([45] + Digits(n), min, max) == if -m >= min then Some(-m) else None
    ensures ParseSigned(Digits(n), min, max) == if n <= max then Some(n) else None
  {
    DigitsReadBack(n);
    DigitsParse(n, max);
    hide Digits, Value, ParseUnsigned;
    assert ([45] + Digits(n))[1..] == Digits(n) && Digits(n)[0] in Digits(n);
  }

  lemma {:induction false} DigitsParse(n: nat, max: nat)
    ensures ParseUnsigned(Digits(n), max) == if n <= max then Some(n) else None
  {
    DigitsReadBack(n);
    assert Digits(n)[0] in Digits(n);
  }

  /** One hex digit, in either case. */
  function Nibble(b: Byte): (n: Option<nat>)
    ensures n.Some? ==> n.value < 16
  {
    if 48 <= b <= 57 then Some(b as int - 48)
    else if 97 <= b <= 102 then Some(b as int - 97 + 10)
    else if 65 <= b <= 70 then Some(b as int - 65 + 10)
    else None
  }

  /** What an unsigned number is spelled with. */
  lemma {:induction false} NumberBytes(s: Bytes, max: nat, b: Byte)
    requires ParseUnsigned(s, max).Some? && b in s
    ensures IsDigitByte(b) || b == 43
  {
    if s[0] == 43 {
      assert s == [s[0]] + s[1..];
    }
  }
}
