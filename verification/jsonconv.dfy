/** Model of jsonconv/jsonconv.go: the package's errors and options, the string
    escaper used for every key and string value, the fixed-point trimmer and the
    time layout. */
module JsonConv {
  import opened Wrappers
  import Strconv
  import GoStrings
  import Fields

  /** The package's error values (jsonconv/jsonconv.go and jsonconv/errors.go declare
      the same names), plus the `*strconv.NumError` that the root number parser passes on. */
  datatype Error =
    | DataTypeError | ParaError | JsonFormatError | JsonTypeError | IndexOutOfBoundsError
    | NotAnArrayError | NotAnObjectError | NotAStringError | NotANumberError | NotABoolError
    | ObjectNotFoundError
    | NumError(kind: Strconv.NumError)

  datatype Filter = Normal | IncludeMode | ExcludeMode

  type Uint8 = n: nat | n < 256

  datatype Option = Option(
    ShowNull: bool,
    EnsureAscii: bool,
    FloatDigits: Uint8,
    TimeDigits: Uint8,
    FilterMode: Filter,
    FilterList: seq<string>)

  /** `dftOption`, used when the caller passes no option. */
  const DftOption := Option(false, false, 0, 0, Normal, [])

  // ---------------------------------------------------------------------------
  // escapeJsonString

  /** The seven code points that get a two-character escape. */
  const Specials: set<char> := {'"', '/', '\U{8}', '\U{C}', '\t', '\n', '\r'}

  /** A lower-case hexadecimal digit. */
  predicate HexDigit(c: char) {
    '0' <= c <= '9' || 'a' <= c <= 'f'
  }

  /** Every character is a lower-case hexadecimal digit. */
  predicate AllHex(s: string) {
    forall i :: 0 <= i < |s| ==> HexDigit(s[i])
  }

  /** The digit written for a value below 16. */
  function DigitOf(d: nat): (c: char)
    requires d < 16
    ensures HexDigit(c) && ValueOf(c) == d
  {
    if d < 10 then ('0' as int + d) as char else ('a' as int + d - 10) as char
  }

  /** The value of a hexadecimal digit. */
  function ValueOf(c: char): nat
    requires HexDigit(c)
  {
    if c <= '9' then c as int - '0' as int else c as int - 'a' as int + 10
  }

  /** Lower-case hexadecimal digits of n, without leading zeros ("0" for zero). */
  function Hex(n: nat): (r: string)
    ensures |r| > 0 && AllHex(r)
  {
    if n < 16 then [DigitOf(n)] else Hex(n / 16) + [DigitOf(n % 16)]
  }

  /** The value written by lower-case hexadecimal digits. */
  function HexValue(s: string): nat
    requires AllHex(s)
  {
    if s == [] then 0 else HexValue(s[..|s| - 1]) * 16 + ValueOf(s[|s| - 1])
  }

  lemma {:induction false} HexRoundTrip(n: nat)
    ensures HexValue(Hex(n)) == n
  {
    if n >= 16 {
      var s := Hex(n);
      assert s[..|s| - 1] == Hex(n / 16);
      HexRoundTrip(n / 16);
    }
  }

  /** `fmt.Sprintf("%04x", n)`: lower-case hexadecimal, zero-padded to at least four digits. */
  function Hex04(n: nat): (r: string)
    ensures |r| == if |Hex(n)| < 4 then 4 else |Hex(n)|
    ensures AllHex(r)
    ensures HexValue(r) == n
  {
    var h := Hex(n);
    var pad := if |h| < 4 then 4 - |h| else 0;
    GoStrings.RepeatChar('0', pad);
    HexRoundTrip(n);
    HexValueLeadingZeros(pad, h);
    GoStrings.Repeat("0", pad) + h
  }

  lemma {:induction false} HexValueLeadingZeros(k: nat, h: string)
    requires AllHex(h)
    ensures AllHex(GoStrings.Repeat("0", k) + h)
    ensures HexValue(GoStrings.Repeat("0", k) + h) == HexValue(h)
    decreases |h|
  {
    GoStrings.RepeatChar('0', k);
    var z := GoStrings.Repeat("0", k);
    ZerosValue(k);
    if h == [] {
      assert z + h == z;
    } else {
      var h' := h[..|h| - 1];
      HexValueLeadingZeros(k, h');
      assert (z + h)[..|z + h| - 1] == z + h';
      assert (z + h)[|z + h| - 1] == h[|h| - 1];
    }
  }

  lemma {:induction false} ZerosValue(k: nat)
    ensures AllHex(GoStrings.Repeat("0", k))
    ensures HexValue(GoStrings.Repeat("0", k)) == 0
  {
    GoStrings.RepeatChar('0', k);
    if k > 0 {
      ZerosValue(k - 1);
      assert GoStrings.Repeat("0", k)[..k - 1] == GoStrings.Repeat("0", k - 1) by {
        GoStrings.RepeatChar('0', k - 1);
      }
    }
  }

  /** What `escapeJsonString` writes for one code point: the code point itself, or an
      escape that starts with a backslash (the full table is `EscapeRuneTable`). */
  function EscapeRune(c: char, ensureAscii: bool): (r: string)
    ensures c !in Specials && !(ensureAscii && c as int > 0x127) ==> r == [c]
    ensures c in Specials || (ensureAscii && c as int > 0x127) ==> |r| >= 2 && r[0] == '\\'
  {
    match c
    case '"' => "\\\""
    case '/' => "\\/"
    case '\U{8}' => "\\b"
    case '\U{C}' => "\\f"
    case '\t' => "\\t"
    case '\n' => "\\n"
    case '\r' => "\\r"
    case _ => if ensureAscii && c as int > 0x127 then "\\u" + Hex04(c as int) else [c]
  }

  /** The escape table: the seven specials become a backslash and a letter (or
      themselves) whatever the mode; in ASCII mode a code point above 0x127 becomes
      `\u` and at least four lower-case hex digits that read back as the code point;
      everything else, backslash and the other control characters included, is
      copied as it is. */
  lemma EscapeRuneTable(c: char, ensureAscii: bool)
    ensures var r := EscapeRune(c, ensureAscii);
      && (c in Specials ==> |r| == 2 && r[0] == '\\')
      && (c == '"' ==> r == "\\\"")
      && (c == '/' ==> r == "\\/")
      && (c == '\U{8}' ==> r == "\\b")
      && (c == '\U{C}' ==> r == "\\f")
      && (c == '\t' ==> r == "\\t")
      && (c == '\n' ==> r == "\\n")
      && (c == '\r' ==> r == "\\r")
      && (c !in Specials && ensureAscii && c as int > 0x127 ==>
            |r| >= 6 && r[..2] == "\\u" && AllHex(r[2..]) && HexValue(r[2..]) == c as int)
      && (c !in Specials && !(ensureAscii && c as int > 0x127) ==> r == [c])
  {
    if c !in Specials && ensureAscii && c as int > 0x127 {
      var h := Hex04(c as int);
      assert EscapeRune(c, ensureAscii) == "\\u" + h;
      assert ("\\u" + h)[2..] == h;
    }
  }

  /** The text `escapeJsonString` returns: the code points escaped one by one, in order;
      escaping never shortens the text. */
  function Escape(s: string, ensureAscii: bool): (r: string)
    ensures |r| >= |s|
  {
    if s == [] then [] else Escape(s[..|s| - 1], ensureAscii) + EscapeRune(s[|s| - 1], ensureAscii)
  }

  /** `escapeJsonString`: one pass over the code points, writing each escape into a buffer. */
  method EscapeJsonString(s: string, ensureAscii: bool) returns (r: string)
    ensures r == Escape(s, ensureAscii)
  {
    var b := "";
    var i := 0;
    while i < |s|
      invariant 0 <= i <= |s|
      invariant b == Escape(s[..i], ensureAscii)
    {
      assert s[..i + 1][..i] == s[..i];
      b := b + EscapeRune(s[i], ensureAscii);
      i := i + 1;
    }
    assert s[..i] == s;
    r := b;
  }

  /** Escaping works code point by code point: it distributes over concatenation. */
  lemma {:induction false} EscapeConcat(a: string, b: string, ensureAscii: bool)
    ensures Escape(a + b, ensureAscii) == Escape(a, ensureAscii) + Escape(b, ensureAscii)
    decreases |b|
  {
    if b != [] {
      EscapeConcat(a, b[..|b| - 1], ensureAscii);
      EscapeConcatStep(a, b, ensureAscii);
    } else {
      assert a + b == a;
    }
  }

  /** The induction step of `EscapeConcat`: from `b` without its last code point to `b`. */
  lemma EscapeConcatStep(a: string, b: string, ensureAscii: bool)
    requires b != []
    requires Escape(a + b[..|b| - 1], ensureAscii) == Escape(a, ensureAscii) + Escape(b[..|b| - 1], ensureAscii)
    ensures Escape(a + b, ensureAscii) == Escape(a, ensureAscii) + Escape(b, ensureAscii)
  {
    var b', c := b[..|b| - 1], b[|b| - 1];
    assert (a + b)[..|a + b| - 1] == a + b' && (a + b)[|a + b| - 1] == c;
    var ea, eb', ec := Escape(a, ensureAscii), Escape(b', ensureAscii), EscapeRune(c, ensureAscii);
    assert Escape(a + b, ensureAscii) == Escape(a + b', ensureAscii) + ec;
    assert Escape(b, ensureAscii) == eb' + ec;
    AppendAssoc(ea, eb', ec);
  }

  lemma AppendAssoc(x: string, y: string, z: string)
    ensures x + y + z == x + (y + z)
  {
  }

  /** Without ASCII mode, a string with none of the seven specials is returned unchanged
      (backslashes and the other control characters included). */
  lemma {:induction false} EscapeIdentity(s: string)
    requires forall i :: 0 <= i < |s| ==> s[i] !in Specials
    ensures Escape(s, false) == s
  {
    if s != [] {
      EscapeIdentity(s[..|s| - 1]);
      assert s == s[..|s| - 1] + [s[|s| - 1]];
    }
  }

  /** No bare control character among the five escaped ones, and every '"' and '/'
      right after a backslash. */
  ghost predicate NoBareSpecials(e: string) {
    forall i :: 0 <= i < |e| ==>
      e[i] !in {'\U{8}', '\U{C}', '\t', '\n', '\r'} && (e[i] in {'"', '/'} ==> i > 0 && e[i - 1] == '\\')
  }

  /** The output holds none of the five escaped control characters, and every '"' and '/'
      in it follows a backslash. */
  lemma {:induction false} EscapeHasNoBareSpecials(s: string, ensureAscii: bool)
    ensures NoBareSpecials(Escape(s, ensureAscii))
  {
    if s != [] {
      var c := s[|s| - 1];
      EscapeHasNoBareSpecials(s[..|s| - 1], ensureAscii);
      EscapeRuneHasNoBareSpecials(c, ensureAscii);
      var p := Escape(s[..|s| - 1], ensureAscii);
      var e := EscapeRune(c, ensureAscii);
      assert Escape(s, ensureAscii) == p + e;
      NoBareSpecialsConcat(p, e);
    }
  }

  lemma EscapeRuneHasNoBareSpecials(c: char, ensureAscii: bool)
    ensures NoBareSpecials(EscapeRune(c, ensureAscii))
  {
    if c in Specials {
      var e := EscapeRune(c, ensureAscii);
      assert |e| == 2 && e[0] == '\\' && e[1] in {'"', '/', 'b', 'f', 't', 'n', 'r'};
    } else if ensureAscii && c as int > 0x127 {
      HexEscapeHasNoBareSpecials(Hex04(c as int));
    }
  }

  lemma HexEscapeHasNoBareSpecials(h: string)
    requires AllHex(h)
    ensures NoBareSpecials("\\u" + h)
  {
    forall i | 0 <= i < |h|
      ensures h[i] !in {'\U{8}', '\U{C}', '\t', '\n', '\r', '"', '/'}
    {
      HexDigitIsPlain(h[i]);
    }
    var e := "\\u" + h;
    assert forall i :: 2 <= i < |e| ==> e[i] == h[i - 2];
  }

  lemma HexDigitIsPlain(c: char)
    requires HexDigit(c)
    ensures c !in {'\U{8}', '\U{C}', '\t', '\n', '\r', '"', '/'}
  {
  }

  lemma NoBareSpecialsConcat(p: string, e: string)
    requires NoBareSpecials(p) && NoBareSpecials(e)
    ensures NoBareSpecials(p + e)
  {
    var r := p + e;
    forall i | 0 <= i < |r|
      ensures r[i] !in {'\U{8}', '\U{C}', '\t', '\n', '\r'} && (r[i] in {'"', '/'} ==> i > 0 && r[i - 1] == '\\')
    {
      if i < |p| {
        assert r[i] == p[i];
        assert p[i] in {'"', '/'} ==> i > 0 && p[i - 1] == '\\';
        if i > 0 { assert r[i - 1] == p[i - 1]; }
      } else {
        var k := i - |p|;
        assert r[i] == e[k];
        assert e[k] in {'"', '/'} ==> k > 0 && e[k - 1] == '\\';
        if k > 0 { assert r[i - 1] == e[k - 1]; }
      }
    }
  }

  // ---------------------------------------------------------------------------
  // convertFloatToString and convertTimeToString

  /** The trimming `convertFloatToString` applies when digits is 0: trailing '0's, then trailing '.'s. */
  function TrimFloatText(s: string): (r: string)
  {
    GoStrings.TrimRight(GoStrings.TrimRight(s, {'0'}), {'.'})
  }

  /** `convertFloatToString(f, digits)`: with digits 0, `%f` (six decimals) then trimmed;
      otherwise exactly `digits` decimals. */
  function ConvertFloatToString(f: real, digits: Uint8, fmt: Fields.Formatters): (r: string)
    ensures digits == 0 ==> r <= fmt.fixed(f, 6) && (r == [] || r[|r| - 1] != '.')
    ensures digits == 0 ==> forall i :: |r| <= i < |fmt.fixed(f, 6)| ==> fmt.fixed(f, 6)[i] in {'0', '.'}
    ensures digits > 0 ==> r == fmt.fixed(f, digits)
  {
    if digits == 0 then TrimFloatText(fmt.fixed(f, 6)) else fmt.fixed(f, digits)
  }

  /** On fixed-point text `whole.frac`, trimming removes the trailing zeros of the
      fraction, and the point as well when no fraction digit is left. */
  lemma TrimFixedPoint(whole: string, frac: string)
    requires whole != [] && '.' !in whole
    requires '.' !in frac
    ensures var f := GoStrings.TrimRight(frac, {'0'});
      TrimFloatText(whole + "." + frac) == if f == [] then whole else whole + "." + f
  {
    var f := GoStrings.TrimRight(frac, {'0'});
    var w := whole + ".";
    assert whole + "." + frac == w + frac;
    TrimZeros(w, frac, f);
    if f == [] {
      TrimPoint(whole, w, f);
    } else {
      TrimKeepsFraction(w, frac, f);
    }
  }

  lemma TrimKeepsFraction(w: string, frac: string, f: string)
    requires '.' !in frac && f != [] && f <= frac
    ensures GoStrings.TrimRight(w + f, {'.'}) == w + f
  {
    assert f[|f| - 1] == frac[|f| - 1];
    assert (w + f)[|w + f| - 1] == f[|f| - 1];
  }

  lemma TrimZeros(w: string, frac: string, f: string)
    requires w != [] && w[|w| - 1] == '.'
    requires f == GoStrings.TrimRight(frac, {'0'})
    ensures GoStrings.TrimRight(w + frac, {'0'}) == w + f
  {
    TrimRightAppend(w, frac, {'0'});
  }

  lemma TrimPoint(whole: string, w: string, f: string)
    requires whole != [] && '.' !in whole
    requires w == whole + "." && f == []
    ensures GoStrings.TrimRight(w + f, {'.'}) == whole
  {
    assert whole[|whole| - 1] in whole;
    assert w + f == whole + ".";
    TrimRightAppend(whole, ".", {'.'});
    TrimRightUnique([], ".", {'.'});
    assert [] + "." == ".";
  }

  /** Trimming `p + q` where p's last character is kept trims only inside q. */
  lemma {:induction false} TrimRightAppend(p: string, q: string, cut: set<char>)
    requires p != [] && p[|p| - 1] !in cut
    ensures GoStrings.TrimRight(p + q, cut) == p + GoStrings.TrimRight(q, cut)
    decreases |q|
  {
    if q != [] {
      assert (p + q)[|p + q| - 1] == q[|q| - 1];
      if q[|q| - 1] in cut {
        assert (p + q)[..|p + q| - 1] == p + q[..|q| - 1];
        TrimRightAppend(p, q[..|q| - 1], cut);
      }
    } else {
      assert p + q == p;
    }
  }

  /** `TrimRight` keeps exactly the longest prefix that does not end in a cut character. */
  lemma {:induction false} TrimRightUnique(p: string, q: string, cut: set<char>)
    requires p == [] || p[|p| - 1] !in cut
    requires forall i :: 0 <= i < |q| ==> q[i] in cut
    ensures GoStrings.TrimRight(p + q, cut) == p
    decreases |q|
  {
    if q == [] {
      assert p + q == p;
    } else {
      assert (p + q)[..|p + q| - 1] == p + q[..|q| - 1];
      TrimRightUnique(p, q[..|q| - 1], cut);
    }
  }

  /** "1.100000": only the zeros after the last significant digit go. */
  lemma TrimFloatKeepsSignificantFraction()
    ensures TrimFloatText("1.100000") == "1.1"
  {
    TrimFixedPoint("1", "100000");
    TrimRightUnique("1", "00000", {'0'});
    assert "1" + "00000" == "100000";
    assert "1" + "." + "100000" == "1.100000";
  }

  /** "1.000000": an all-zero fraction goes with its point. */
  lemma TrimFloatDropsZeroFraction()
    ensures TrimFloatText("1.000000") == "1"
  {
    TrimFixedPoint("1", "000000");
    TrimRightUnique("", "000000", {'0'});
    assert "" + "000000" == "000000";
    assert "1" + "." + "000000" == "1.000000";
  }

  /** "100.000000": zeros of the integer part stay. */
  lemma TrimFloatKeepsIntegerZeros()
    ensures TrimFloatText("100.000000") == "100"
  {
    TrimFixedPoint("100", "000000");
    TrimRightUnique("", "000000", {'0'});
    assert "" + "000000" == "000000";
    assert "100" + "." + "000000" == "100.000000";
  }

  /** The layout string `convertTimeToString` hands to `time.Format`. */
  function TimeLayout(digits: Uint8): (r: string)
    ensures |r| >= 19 && r[..19] == "2006-01-02 15:04:05"
    ensures digits == 0 ==> r == "2006-01-02 15:04:05"
    ensures digits > 0 ==> |r| == 20 + digits && r[19] == '.' && forall i :: 20 <= i < |r| ==> r[i] == '0'
  {
    GoStrings.RepeatChar('0', digits);
    if digits == 0 then "2006-01-02 15:04:05"
    else "2006-01-02 15:04:05." + GoStrings.Repeat("0", digits)
  }

  /** `convertTimeToString(t, digits)`: the time formatted with `TimeLayout(digits)`. */
  function ConvertTimeToString(t: Fields.Time, digits: Uint8, fmt: Fields.Formatters): (r: string)
    ensures digits == 0 ==> r == fmt.timeFormat(t, "2006-01-02 15:04:05")
    ensures digits > 0 ==> r == fmt.timeFormat(t, "2006-01-02 15:04:05." + GoStrings.Repeat("0", digits))
  {
    fmt.timeFormat(t, TimeLayout(digits))
  }

  /** The default option: nulls are left out, no ASCII mode, no filter, floats with six
      decimals trimmed, times to the second. */
  lemma DefaultOption(f: real, t: Fields.Time, fmt: Fields.Formatters)
    ensures !DftOption.ShowNull && !DftOption.EnsureAscii && DftOption.FilterMode == Normal
    ensures ConvertFloatToString(f, DftOption.FloatDigits, fmt) == TrimFloatText(fmt.fixed(f, 6))
    ensures ConvertTimeToString(t, DftOption.TimeDigits, fmt) == fmt.timeFormat(t, "2006-01-02 15:04:05")
  {
  }
}
