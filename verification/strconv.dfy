/** Fixed-width integers and the parts of Go's `strconv` package that the core calls. */
module Strconv {
  import opened Wrappers

  const MinInt64: int := -0x8000_0000_0000_0000
  const MaxInt64: int := 0x7FFF_FFFF_FFFF_FFFF
  const MaxUint64: int := 0xFFFF_FFFF_FFFF_FFFF
  const TwoTo64: int := 0x1_0000_0000_0000_0000

  type Int64 = i: int | MinInt64 <= i <= MaxInt64
  type Uint64 = u: int | 0 <= u <= MaxUint64
  type Int32 = i: int | -0x8000_0000 <= i <= 0x7FFF_FFFF
  type Uint32 = u: int | 0 <= u <= 0xFFFF_FFFF

  /** Go's conversion `uint64(i)`: the same 64 bits read as unsigned. */
  function Int64ToUint64(i: Int64): (u: Uint64)
    ensures (u - i) % TwoTo64 == 0
  {
    if i < 0 then i + TwoTo64 else i
  }

  /** Go's conversion `int64(u)`: the same 64 bits read as two's complement. */
  function Uint64ToInt64(u: Uint64): (i: Int64)
    ensures (u - i) % TwoTo64 == 0
    ensures i < 0 <==> u > MaxInt64
  {
    if u <= MaxInt64 then u else u - TwoTo64
  }

  /** The two conversions are inverse bijections between the 64-bit ranges. */
  lemma ConversionsAreInverse(i: Int64, u: Uint64)
    ensures Uint64ToInt64(Int64ToUint64(i)) == i
    ensures Int64ToUint64(Uint64ToInt64(u)) == u
  {
  }

  /** Every integer of magnitude up to 2^53 is a float64. */
  const TwoTo53: int := 0x20_0000_0000_0000

  /** The gap between neighbouring float64 values around a magnitude `n`:
      1 below 2^53, doubling with each binade above it. */
  function Ulp(n: nat): (u: nat)
    ensures u >= 1
    ensures n < TwoTo53 <==> u == 1
    ensures n >= 1 ==> u <= n
  {
    if n < TwoTo53 then 1 else 2 * Ulp(n / 2)
  }

  /** The float64 nearest to a magnitude `n`: every integer up to 2^53 is one; above,
      the multiple of `Ulp(n)` nearest to n, ties going to the even multiple. */
  function RoundToDouble(n: nat): (r: nat)
    ensures n <= TwoTo53 ==> r == n
    ensures 2 * (if r >= n then r - n else n - r) <= Ulp(n)
  {
    if n <= TwoTo53 then n
    else
      var u := Ulp(n);
      var q, rem := n / u, n % u;
      if 2 * rem > u || (2 * rem == u && q % 2 == 1) then n - rem + u else n - rem
  }

  /** Go's `float64(i)` for an integer, and `ParseFloat` of its decimal text:
      the nearest float64, rounding half to even. */
  function Float64OfInt(i: int): (r: int)
    ensures -TwoTo53 <= i <= TwoTo53 ==> r == i
    ensures (r < 0 ==> i < 0) && (i < 0 ==> r <= 0)
    ensures 2 * (if r >= i then r - i else i - r) <= Ulp(if i < 0 then -i else i)
  {
    if i < 0 then 0 - RoundToDouble(-i) else RoundToDouble(i)
  }

  /** 2^53 + 1 is the first integer with no float64 of its own; it rounds to 2^53. */
  lemma FirstInexactInt()
    ensures Float64OfInt(TwoTo53 + 1) == TwoTo53
    ensures Float64OfInt(TwoTo53 + 1) != TwoTo53 + 1
  {
    assert Ulp(TwoTo53 / 2) == 1;
    assert Ulp(TwoTo53 + 1) == 2;
  }

  predicate IsDigit(c: char) {
    '0' <= c <= '9'
  }

  predicate AllDigits(s: string) {
    forall i :: 0 <= i < |s| ==> IsDigit(s[i])
  }

  function DigitChar(d: nat): (c: char)
    requires d < 10
    ensures IsDigit(c) && (c as int) - ('0' as int) == d
  {
    "0123456789"[d]
  }

  /** The number written by a string of decimal digits. */
  function DigitsValue(s: string): nat
    requires AllDigits(s)
  {
    if s == [] then 0 else DigitsValue(s[..|s| - 1]) * 10 + ((s[|s| - 1] as int) - ('0' as int))
  }

  /** `strconv.FormatUint(n, 10)`: decimal text without leading zeros. */
  function FormatUint(n: nat): (r: string)
    ensures |r| > 0 && AllDigits(r)
    ensures r[0] == '0' ==> n == 0 && r == "0"
  {
    if n < 10 then [DigitChar(n)] else FormatUint(n / 10) + [DigitChar(n % 10)]
  }

  /** Reading back the decimal text of n gives n. */
  lemma {:induction false} FormatUintValue(n: nat)
    ensures DigitsValue(FormatUint(n)) == n
  {
    if n >= 10 {
      var s := FormatUint(n);
      assert s[..|s| - 1] == FormatUint(n / 10);
      FormatUintValue(n / 10);
    }
  }

  /** `strconv.FormatInt(i, 10)` and `strconv.Itoa`: a minus sign before the magnitude's digits. */
  function FormatInt(i: int): (r: string)
    ensures |r| > 0
    ensures r[0] == '-' <==> i < 0
    ensures i >= 0 ==> AllDigits(r)
    ensures i < 0 ==> AllDigits(r[1..]) && |r| >= 2
  {
    if i < 0 then "-" + FormatUint(-i) else FormatUint(i)
  }

  datatype NumError = ErrSyntax | ErrRange

  /** Length of the longest all-digit prefix. */
  function DigitPrefix(s: string): (j: nat)
    ensures j <= |s| && AllDigits(s[..j])
    ensures j < |s| ==> !IsDigit(s[j])
  {
    if s == [] || !IsDigit(s[0]) then 0
    else
      var k := DigitPrefix(s[1..]);
      assert s[..k + 1] == [s[0]] + s[1..][..k];
      k + 1
  }

  /** `strconv.ParseUint(s, 10, 64)`. Go scans left to right and stops at the first
      non-digit (syntax error) or at the first digit that overflows 64 bits (range
      error); since the value of a digit prefix only grows, the overflow happens
      before the first non-digit exactly when the whole digit prefix is too large. */
  function ParseUint(s: string): (r: Result<Uint64, NumError>)
    ensures r.Ok? ==> AllDigits(s) && s != "" && r.value == DigitsValue(s)
  {
    if s == [] then Err(ErrSyntax)
    else
      var j := DigitPrefix(s);
      if DigitsValue(s[..j]) > MaxUint64 then Err(ErrRange)
      else if j < |s| then Err(ErrSyntax)
      else assert s[..j] == s; Ok(DigitsValue(s))
  }

  /** `strconv.ParseInt(s, 10, 64)`: an optional sign, then `ParseUint`, then the signed range check. */
  function ParseInt(s: string): (r: Result<Int64, NumError>)
  {
    if s == [] then Err(ErrSyntax)
    else
      var neg := s[0] == '-';
      var body := if s[0] == '+' || s[0] == '-' then s[1..] else s;
      match ParseUint(body)
      case Err(e) => Err(e)
      case Ok(u) =>
        if !neg && u > MaxInt64 then Err(ErrRange)
        else if neg && u > -MinInt64 then Err(ErrRange)
        else Ok(if neg then -(u as int) else u as int)
  }

  /** `ParseInt` reads back what `FormatInt` writes, over the whole int64 range. */
  lemma FormatIntRoundTrip(i: Int64)
    ensures ParseInt(FormatInt(i)) == Ok(i)
  {
    var n: nat := if i < 0 then -(i as int) else i as int;
    var digits := FormatUint(n);
    FormatUintValue(n);
    assert DigitPrefix(digits) == |digits|;
    assert digits[..|digits|] == digits;
    if i < 0 {
      assert FormatInt(i)[1..] == digits;
    }
  }

  /** `ParseUint` reads back what `FormatUint` writes, over the whole uint64 range. */
  lemma FormatUintRoundTrip(u: Uint64)
    ensures ParseUint(FormatUint(u)) == Ok(u)
  {
    var digits := FormatUint(u);
    FormatUintValue(u);
    DigitPrefixOfDigits(digits);
    assert digits[..|digits|] == digits;
  }

  /** On text made of digits only, the digit prefix is the whole text. */
  lemma {:induction false} DigitPrefixOfDigits(s: string)
    requires AllDigits(s)
    ensures DigitPrefix(s) == |s|
  {
    if s != [] {
      DigitPrefixOfDigits(s[1..]);
    }
  }

  /** On text made of digits only, `ParseInt` succeeds exactly when the value fits in an int64. */
  lemma {:induction false} ParseIntOfDigits(s: string)
    requires s != "" && AllDigits(s)
    ensures ParseInt(s).Ok? <==> DigitsValue(s) <= MaxInt64
    ensures ParseInt(s).Ok? ==> ParseInt(s).value == DigitsValue(s)
  {
    assert s[0] != '-' && s[0] != '+';
    assert DigitPrefix(s) == |s|;
    assert s[..|s|] == s;
  }

  /** A non-digit anywhere in a sign-free text makes `ParseInt` fail. */
  lemma ParseIntNeedsDigits(s: string, k: nat)
    requires k < |s| && !IsDigit(s[k]) && (s[0] != '-' && s[0] != '+')
    ensures ParseInt(s).Err?
  {
  }

  /** `strconv.FormatBool`. */
  function FormatBool(b: bool): (r: string)
    ensures ParseBool(r) == Some(b)
  {
    if b then "true" else "false"
  }

  /** `strconv.ParseBool`: the twelve spellings Go accepts. */
  function ParseBool(s: string): (r: Option<bool>)
    ensures r == Some(true) <==> s in {"1", "t", "T", "TRUE", "true", "True"}
    ensures r == Some(false) <==> s in {"0", "f", "F", "FALSE", "false", "False"}
  {
    if s in {"1", "t", "T", "TRUE", "true", "True"} then Some(true)
    else if s in {"0", "f", "F", "FALSE", "false", "False"} then Some(false)
    else None
  }
}
