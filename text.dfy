/**
 * The pieces of Go's `fmt`, `strconv` and `strings` packages that the client's
 * logic relies on, written out so that their behaviour is part of the model:
 * `%d` formatting, `strconv.Atoi` on a 64-bit platform, `strings.TrimSpace`,
 * `strings.ToLower` on ASCII letters, `strings.HasPrefix` and the byte length
 * that Go's `len` gives for a string.
 */
module Text {
  import opened Wrappers

  const MaxInt64: int := 0x7FFF_FFFF_FFFF_FFFF
  const MinInt64: int := -0x8000_0000_0000_0000
  const MaxUint64: int := 0xFFFF_FFFF_FFFF_FFFF

  predicate IsInt64(n: int) { MinInt64 <= n <= MaxInt64 }

  predicate IsDigit(c: char) { '0' <= c <= '9' }

  predicate AllDigits(s: string) { forall i :: 0 <= i < |s| ==> IsDigit(s[i]) }

  function DigitChar(d: nat): (c: char)
    requires d < 10
    ensures IsDigit(c) && (c as int) - ('0' as int) == d
  {
    (('0' as int) + d) as char
  }

  function DigitValue(c: char): (d: nat)
    requires IsDigit(c)
    ensures d < 10 && DigitChar(d) == c
  {
    (c as int) - ('0' as int)
  }

  // ---------------------------------------------------------------------------
  // `%d` and strconv.Itoa

  /** The decimal digits of `n`, most significant first, without leading zeros. */
  function NatDecimal(n: nat): (s: string)
    ensures |s| >= 1 && AllDigits(s)
    ensures s[0] == '0' <==> n == 0
    ensures n < 10 <==> |s| == 1
  {
    if n < 10 then [DigitChar(n)] else NatDecimal(n / 10) + [DigitChar(n % 10)]
  }

  /** Go's `fmt.Sprintf("%d", n)` and `strconv.Itoa(n)`: a minus sign, then the digits of |n|. */
  function Decimal(n: int): (s: string)
    ensures |s| >= 1
    ensures n >= 0 ==> AllDigits(s)
    ensures n < 0 ==> s[0] == '-' && AllDigits(s[1..]) && |s| >= 2
    ensures forall i :: 0 <= i < |s| ==> s[i] == '-' || IsDigit(s[i])
  {
    if n < 0 then "-" + NatDecimal(-n) else NatDecimal(n)
  }

  /** The number a non-empty digit string denotes (reference reading of `%d` output). */
  function DigitsValue(s: string): (v: nat)
    requires AllDigits(s)
  {
    if s == [] then 0 else DigitsValue(s[..|s| - 1]) * 10 + DigitValue(s[|s| - 1])
  }

  lemma {:induction false} DecimalDigitsRoundTrip(n: nat)
    ensures DigitsValue(NatDecimal(n)) == n
  {
    if n >= 10 {
      var s := NatDecimal(n);
      assert s[..|s| - 1] == NatDecimal(n / 10);
      DecimalDigitsRoundTrip(n / 10);
    }
  }

  // ---------------------------------------------------------------------------
  // strconv.Atoi (64-bit `int`)

  datatype UintScan = Scanned(n: nat) | SyntaxError | RangeError

  /**
   * strconv.ParseUint's digit loop for base 10: characters are consumed left to
   * right; a non-digit is a syntax error, and a digit that would take the value
   * past 2^64-1 is a range error reported at once, before any later character is read.
   */
  function ScanDigits(s: string): (r: UintScan)
    ensures r.Scanned? ==> AllDigits(s) && r.n <= MaxUint64
  {
    if s == [] then Scanned(0)
    else
      match ScanDigits(s[..|s| - 1])
      case Scanned(n) =>
        var c := s[|s| - 1];
        if !IsDigit(c) then SyntaxError
        else if n * 10 + DigitValue(c) > MaxUint64 then RangeError
        else Scanned(n * 10 + DigitValue(c))
      case SyntaxError => SyntaxError
      case RangeError => RangeError
  }

  /** The result pair of `strconv.Atoi`: the value Go returns, and whether the error was nil. */
  datatype AtoiResult = AtoiResult(value: int, ok: bool)

  /**
   * strconv.Atoi on a 64-bit platform: an optional sign and at least one decimal
   * digit. A syntax error yields 0; a range error yields the nearest int64 bound.
   * (Go's fast path for short inputs computes the same results.)
   */
  function Atoi(s: string): (r: AtoiResult)
    ensures IsInt64(r.value)
    ensures !r.ok && r.value != MaxInt64 && r.value != MinInt64 ==> r.value == 0
    ensures s == [] ==> r == AtoiResult(0, false)
  {
    if s == [] then AtoiResult(0, false)
    else
      var neg := s[0] == '-';
      var body := if s[0] == '-' || s[0] == '+' then s[1..] else s;
      if body == [] then AtoiResult(0, false)
      else
        match ScanDigits(body)
        case SyntaxError => AtoiResult(0, false)
        case RangeError =>
          if neg then AtoiResult(MinInt64, false) else AtoiResult(MaxInt64, false)
        case Scanned(u) =>
          if !neg && u > MaxInt64 then AtoiResult(MaxInt64, false)
          else if neg && u > -MinInt64 then AtoiResult(MinInt64, false)
          else AtoiResult(if neg then -(u as int) else u, true)
  }

  lemma {:induction false} ScanDecimal(n: nat)
    requires n <= MaxUint64
    ensures ScanDigits(NatDecimal(n)) == Scanned(n)
  {
    var s := NatDecimal(n);
    if n < 10 {
      assert s[..|s| - 1] == [];
    } else {
      assert s[..|s| - 1] == NatDecimal(n / 10);
      ScanDecimal(n / 10);
    }
  }

  /** Itoa then Atoi is the identity on every 64-bit integer. */
  lemma AtoiDecimal(n: int)
    requires IsInt64(n)
    ensures Atoi(Decimal(n)) == AtoiResult(n, true)
  {
    var s := Decimal(n);
    if n < 0 {
      assert s[0] == '-' && s[1..] == NatDecimal(-n);
      ScanDecimal(-n);
    } else {
      assert IsDigit(s[0]);
      ScanDecimal(n);
    }
  }

  /** `%d` never writes a character other than '-' and the digits. */
  lemma NoSeparatorInDecimal(n: int, c: char)
    requires c != '-' && !IsDigit(c)
    ensures c !in Decimal(n)
  {
    var s := Decimal(n);
    forall i | 0 <= i < |s| ensures s[i] != c {
      assert s[i] == '-' || IsDigit(s[i]);
    }
  }

  // ---------------------------------------------------------------------------
  // strings.TrimSpace

  /** unicode.IsSpace: the Latin-1 spaces and the other White_Space code points. */
  predicate IsSpace(c: char) {
    c == '\t' || c == '\n' || c == '\U{0B}' || c == '\U{0C}' || c == '\r' || c == ' '
    || c == '\U{85}' || c == '\U{A0}' || c == '\U{1680}'
    || ('\U{2000}' <= c <= '\U{200A}')
    || c == '\U{2028}' || c == '\U{2029}' || c == '\U{202F}' || c == '\U{205F}' || c == '\U{3000}'
  }

  predicate AllSpace(s: string) { forall i :: 0 <= i < |s| ==> IsSpace(s[i]) }

  /** Neither the first nor the last character (if any) is a space. */
  predicate Trimmed(s: string) { s == [] || (!IsSpace(s[0]) && !IsSpace(s[|s| - 1])) }

  function TrimLeft(s: string): (r: string)
    ensures |r| <= |s| && r == s[|s| - |r|..]
    ensures AllSpace(s[..|s| - |r|])
    ensures r == [] || !IsSpace(r[0])
  {
    if s != [] && IsSpace(s[0]) then TrimLeft(s[1..]) else s
  }

  function TrimRight(s: string): (r: string)
    ensures |r| <= |s| && r == s[..|r|]
    ensures AllSpace(s[|r|..])
    ensures r == [] || !IsSpace(r[|r| - 1])
  {
    if s != [] && IsSpace(s[|s| - 1]) then TrimRight(s[..|s| - 1]) else s
  }

  /** strings.TrimSpace: drops the leading and trailing white space. */
  function TrimSpace(s: string): (r: string)
    ensures Trimmed(r) && |r| <= |s|
  {
    TrimRight(TrimLeft(s))
  }

  lemma {:induction false} TrimLeftPadded(a: string, u: string)
    requires AllSpace(a) && (u == [] || !IsSpace(u[0]))
    ensures TrimLeft(a + u) == u
  {
    if a != [] {
      assert (a + u)[1..] == a[1..] + u;
      TrimLeftPadded(a[1..], u);
    }
  }

  lemma {:induction false} TrimRightPadded(u: string, b: string)
    requires AllSpace(b) && (u == [] || !IsSpace(u[|u| - 1]))
    ensures TrimRight(u + b) == u
  {
    if b != [] {
      assert (u + b)[..|u + b| - 1] == u + b[..|b| - 1];
      TrimRightPadded(u, b[..|b| - 1]);
    }
  }

  /** TrimSpace removes exactly the white-space padding around a trimmed text. */
  lemma TrimSpacePadded(a: string, t: string, b: string)
    requires AllSpace(a) && AllSpace(b) && Trimmed(t)
    ensures TrimSpace(a + t + b) == t
  {
    if t == [] {
      assert a + t + b == (a + b) + [];
      assert AllSpace(a + b);
      TrimLeftPadded(a + b, []);
    } else {
      assert a + t + b == a + (t + b);
      TrimLeftPadded(a, t + b);
      TrimRightPadded(t, b);
    }
  }

  /** Trimming twice is trimming once. */
  lemma TrimSpaceIdempotent(s: string)
    ensures TrimSpace(TrimSpace(s)) == TrimSpace(s)
  {
    var t := TrimSpace(s);
    assert [] + t + [] == t;
    TrimSpacePadded([], t, []);
  }

  // ---------------------------------------------------------------------------
  // strings.ToLower, strings.HasPrefix

  /** strings.ToLower restricted to ASCII: 'A'..'Z' become 'a'..'z', everything else is kept. */
  function LowerChar(c: char): (l: char)
    ensures ('A' <= c <= 'Z') ==> l as int == c as int + 32
    ensures !('A' <= c <= 'Z') ==> l == c
  {
    if 'A' <= c <= 'Z' then ((c as int) + 32) as char else c
  }

  function ToLower(s: string): (r: string)
    ensures |r| == |s| && forall i :: 0 <= i < |s| ==> r[i] == LowerChar(s[i])
  {
    if s == [] then [] else [LowerChar(s[0])] + ToLower(s[1..])
  }

  predicate HasPrefix(s: string, prefix: string) {
    |prefix| <= |s| && s[..|prefix|] == prefix
  }

  // ---------------------------------------------------------------------------
  // Go's len() on a string: its UTF-8 byte count

  function Utf8Width(c: char): (w: nat)
    ensures 1 <= w <= 4 && (w == 1 <==> c as int < 0x80)
  {
    if c as int < 0x80 then 1 else if c as int < 0x800 then 2 else if c as int < 0x1_0000 then 3 else 4
  }

  /** `len(s)` in Go: the number of bytes of the UTF-8 encoding. */
  function ByteLen(s: string): (n: nat)
    ensures |s| <= n <= 4 * |s|
  {
    if s == [] then 0 else Utf8Width(s[0]) + ByteLen(s[1..])
  }

  // ---------------------------------------------------------------------------
  // Searching and splitting (used by the connection-string readers)

  function FirstIndex(s: string, c: char): (r: Option<nat>)
    ensures r.Some? ==> r.value < |s| && s[r.value] == c && c !in s[..r.value]
    ensures r.None? ==> c !in s
  {
    if s == [] then None
    else if s[0] == c then Some(0)
    else match FirstIndex(s[1..], c)
      case None => None
      case Some(i) => Some(i + 1)
  }

  function LastIndex(s: string, c: char): (r: Option<nat>)
    ensures r.Some? ==> r.value < |s| && s[r.value] == c && c !in s[r.value + 1..]
    ensures r.None? ==> c !in s
  {
    if s == [] then None
    else if s[|s| - 1] == c then Some(|s| - 1)
    else LastIndex(s[..|s| - 1], c)
  }

  lemma FirstIndexAt(a: string, c: char, b: string)
    requires c !in a
    ensures FirstIndex(a + [c] + b, c) == Some(|a|)
  {
    var s := a + [c] + b;
    assert s[|a|] == c;
    assert forall i :: 0 <= i < |a| ==> s[i] == a[i];
    forall k | |a| < k <= |s|
      ensures c in s[..k]
    {
      assert s[..k][|a|] == c;
    }
  }

  lemma LastIndexAt(a: string, c: char, b: string)
    requires c !in b
    ensures LastIndex(a + [c] + b, c) == Some(|a|)
  {
    var s := a + [c] + b;
    assert s[|a|] == c;
    assert s[|a| + 1..] == b;
    forall k | 1 <= k <= |a|
      ensures c in s[k..]
    {
      assert s[k..][|a| - k] == c;
    }
  }
}
