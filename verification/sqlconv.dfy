/** Model of sqlconv/struct.go: `GetValidKVsFromStruct` lists the columns and SQL
    literals of a struct's fields, for building statements. Keys come from the `db`
    tag or the field name; strings are quoted and escaped for the chosen quote
    character; invalid nullable fields are left out. */
module SqlConv {
  import opened Wrappers
  import Str
  import GoStrings
  import Strconv
  import Fields
  import JsonConv

  /** The only error `GetValidKVsFromStruct` reports. */
  datatype Error = DataTypeError

  // ---------------------------------------------------------------------------
  // escapeStringWithQuote

  /** The three quote strings `escapeStringWithQuote` recognises. */
  predicate IsQuote(quote: string) {
    quote == "'" || quote == "\"" || quote == "`"
  }

  /** What the body loop writes for one code point, `q` being the active quote
      character: backslash and `&` are always doubled (backslash as `\\`), the active
      quote is escaped (`''`, `\"` or `` \` ``), everything else is copied. */
  function EscapeChar(c: char, q: char): string
  {
    match c
    case '\'' => if q == '\'' then "''" else "'"
    case '"' => if q == '"' then "\\\"" else "\""
    case '&' => "&&"
    case '`' => if q == '`' then "\\`" else "`"
    case '\\' => "\\\\"
    case _ => [c]
  }

  /** The escape table: backslash and `&` are doubled under every quote, only the
      active quote character is escaped, and the other two quote characters, like
      every other code point, are copied. */
  lemma EscapeCharTable(c: char, q: char)
    requires q in {'\'', '"', '`'}
    ensures c == '\\' ==> EscapeChar(c, q) == "\\\\"
    ensures c == '&' ==> EscapeChar(c, q) == "&&"
    ensures c == q && q == '\'' ==> EscapeChar(c, q) == "''"
    ensures c == q && q != '\'' ==> EscapeChar(c, q) == ['\\', q]
    ensures c != q && c !in {'\\', '&'} ==> EscapeChar(c, q) == [c]
  {
  }

  /** The texts a per-code-point writer produces, concatenated in order. */
  function Expand(s: string, w: char -> string): string
  {
    if s == [] then "" else Expand(s[..|s| - 1], w) + w(s[|s| - 1])
  }

  /** The escaped body: the code points escaped one by one, in order. */
  function QuoteBody(s: string, q: char): string
  {
    Expand(s, c => EscapeChar(c, q))
  }

  /** `escapeStringWithQuote(s, quote)`: for a recognised quote, the quote, the escaped
      body and the quote again; for any other quote string, s itself. */
  function EscapeWithQuote(s: string, quote: string): (r: string)
    ensures !IsQuote(quote) ==> r == s
    ensures IsQuote(quote) ==>
      |r| >= 2 && r[..1] == quote && r[|r| - 1..] == quote && r[1..|r| - 1] == QuoteBody(s, quote[0])
  {
    if IsQuote(quote) then
      var r := quote + QuoteBody(s, quote[0]) + quote;
      assert r[1..|r| - 1] == QuoteBody(s, quote[0]);
      r
    else s
  }

  /** The loop of `escapeStringWithQuote`, writing into a buffer. */
  method EscapeStringWithQuote(s: string, quote: string) returns (r: string)
    ensures r == EscapeWithQuote(s, quote)
  {
    var isSingle := false;
    var isDouble := false;
    var isBack := false;
    if quote == "'" {
      isSingle := true;
    } else if quote == "\"" {
      isDouble := true;
    } else if quote == "`" {
      isBack := true;
    } else {
      return s;
    }
    ghost var q := quote[0];
    var b := quote;
    var i := 0;
    while i < |s|
      invariant 0 <= i <= |s|
      invariant b == quote + QuoteBody(s[..i], q)
    {
      ExpandSnoc(s, i, c => EscapeChar(c, q));
      var c := s[i];
      var piece;
      if c == '\'' {
        piece := if isSingle then "''" else "'";
      } else if c == '"' {
        piece := if isDouble then "\\\"" else "\"";
      } else if c == '&' {
        piece := "&&";
      } else if c == '`' {
        piece := if isBack then "\\`" else "`";
      } else if c == '\\' {
        piece := "\\\\";
      } else {
        piece := [c];
      }
      assert piece == EscapeChar(c, q);
      b := b + piece;
      i := i + 1;
    }
    assert s[..i] == s;
    r := b + quote;
  }

  /** The writer's text for one more code point is appended to that of the prefix. */
  lemma ExpandSnoc(s: string, i: nat, w: char -> string)
    requires i < |s|
    ensures Expand(s[..i + 1], w) == Expand(s[..i], w) + w(s[i])
  {
    assert s[..i + 1][..i] == s[..i];
  }

  /** Escaping works code point by code point: it distributes over concatenation. */
  lemma QuoteBodyConcat(a: string, b: string, q: char)
    ensures QuoteBody(a + b, q) == QuoteBody(a, q) + QuoteBody(b, q)
  {
    ExpandConcat(a, b, c => EscapeChar(c, q));
  }

  lemma ExpandSingle(c: char, w: char -> string)
    ensures Expand([c], w) == w(c)
  {
    assert [c][..0] == [];
    assert "" + w(c) == w(c);
  }

  lemma {:induction false} ExpandConcat(a: string, b: string, w: char -> string)
    ensures Expand(a + b, w) == Expand(a, w) + Expand(b, w)
    decreases |b|
  {
    if b == [] {
      assert a + b == a;
    } else {
      var b' := b[..|b| - 1];
      var last := b[|b| - 1];
      assert (a + b)[..|a + b| - 1] == a + b';
      assert (a + b)[|a + b| - 1] == last;
      calc {
        Expand(a + b, w);
        Expand(a + b', w) + w(last);
        { ExpandConcat(a, b', w); }
        Expand(a, w) + Expand(b', w) + w(last);
        Expand(a, w) + (Expand(b', w) + w(last));
        Expand(a, w) + Expand(b, w);
      }
    }
  }

  /** Reading an escaped body back: `&&` is `&`, `''` is `'` under single quotes, a
      backslash before a backslash or before the active double or back quote stands for
      that character, anything else is itself. */
  function Unescape(e: string, q: char): string
    decreases |e|
  {
    if e == [] then ""
    else if |e| >= 2 && e[0] == '&' && e[1] == '&' then "&" + Unescape(e[2..], q)
    else if |e| >= 2 && e[0] == '\\' && (e[1] == '\\' || (e[1] == q && q != '\'')) then [e[1]] + Unescape(e[2..], q)
    else if |e| >= 2 && q == '\'' && e[0] == '\'' && e[1] == '\'' then "'" + Unescape(e[2..], q)
    else [e[0]] + Unescape(e[1..], q)
  }

  /** Decoding one escaped code point followed by anything gives back the code point. */
  lemma UnescapeChar(c: char, q: char, rest: string)
    requires q in {'\'', '"', '`'}
    ensures Unescape(EscapeChar(c, q) + rest, q) == [c] + Unescape(rest, q)
  {
    var x := EscapeChar(c, q);
    var e := x + rest;
    if |x| == 2 {
      assert e[0] == x[0] && e[1] == x[1] && e[2..] == rest;
    } else {
      assert x == [c] && c != '&' && c != '\\' && (c == '\'' ==> q != '\'');
      assert e[0] == c && e[1..] == rest;
    }
  }

  /** For each of the three quotes, reading the escaped body back gives the original
      string: the escaping loses nothing. */
  lemma {:induction false} QuoteBodyRoundTrip(s: string, q: char)
    requires q in {'\'', '"', '`'}
    ensures Unescape(QuoteBody(s, q), q) == s
    decreases |s|
  {
    if s != [] {
      var c := s[0];
      var rest := s[1..];
      assert s == [c] + rest;
      QuoteBodyConcat([c], rest, q);
      ExpandSingle(c, c => EscapeChar(c, q));
      UnescapeChar(c, q, QuoteBody(rest, q));
      QuoteBodyRoundTrip(rest, q);
    }
  }

  /** Under single quotes the body never holds a lone `'`: every quote character is one
      of a pair, so the literal cannot be closed early. */
  lemma {:induction false} SingleQuotesComeInPairs(s: string)
    ensures QuotesPaired(QuoteBody(s, '\''))
    decreases |s|
  {
    if s != [] {
      var p := s[..|s| - 1];
      SingleQuotesComeInPairs(p);
      PairedConcat(QuoteBody(p, '\''), EscapeChar(s[|s| - 1], '\''));
    }
  }

  /** The text splits into pieces that are either a pair of quotes or one non-quote. */
  predicate QuotesPaired(e: string)
    decreases |e|
  {
    if e == [] then true
    else if e[0] == '\'' then |e| >= 2 && e[1] == '\'' && QuotesPaired(e[2..])
    else QuotesPaired(e[1..])
  }

  lemma {:induction false} PairedConcat(a: string, b: string)
    requires QuotesPaired(a) && QuotesPaired(b)
    ensures QuotesPaired(a + b)
    decreases |a|
  {
    if a != [] {
      assert (a + b)[0] == a[0];
      if a[0] == '\'' {
        assert (a + b)[1] == a[1];
        assert (a + b)[2..] == a[2..] + b;
        PairedConcat(a[2..], b);
      } else {
        assert (a + b)[1..] == a[1..] + b;
        PairedConcat(a[1..], b);
      }
    } else {
      assert a + b == b;
    }
  }

  // ---------------------------------------------------------------------------
  // getFieldTag, getTimeString

  /** `getFieldTag(field)`: the db tag's text before its first comma, else the field
      name. The json tag plays no part. */
  function GetFieldTag(f: Fields.Field): (r: string)
    ensures GoStrings.BeforeComma(f.dbTag) != "" ==> r == GoStrings.BeforeComma(f.dbTag)
    ensures GoStrings.BeforeComma(f.dbTag) == "" ==> r == f.name
  {
    var tag := "";
    var fromDb := GoStrings.BeforeComma(f.dbTag);
    var tag := if Str.Empty(tag) && Str.Valid(fromDb) then fromDb else tag;
    var tag := if Str.Empty(tag) then f.name else tag;
    tag
  }

  /** The json tag does not change the column name. */
  lemma GetFieldTagIgnoresJson(f: Fields.Field, jsonTag: string)
    ensures GetFieldTag(f.(jsonTag := jsonTag)) == GetFieldTag(f)
  {
  }

  /** `getTimeString(t)`: the time in the layout "2006-01-02 15:04:05", unquoted. */
  function GetTimeString(t: Fields.Time, fmt: Fields.Formatters): (r: string)
    ensures r == JsonConv.ConvertTimeToString(t, 0, fmt)
  {
    fmt.timeFormat(t, "2006-01-02 15:04:05")
  }

  // ---------------------------------------------------------------------------
  // getKVs and GetValidKVsFromStruct

  /** The SQL literal `getKVs` writes for a value, or None when the field is left out
      (an invalid nullable value, an unknown struct type, any other kind). */
  function Literal(v: Fields.FieldValue, quote: string, fmt: Fields.Formatters): Option<string>
  {
    match v
    case IntValue(i) => Some(Strconv.FormatInt(i))
    case UintValue(u) => Some(Strconv.FormatUint(u))
    case StringValue(s) => Some(EscapeWithQuote(s, quote))
    case BoolValue(b) => Some(Strconv.FormatBool(b))
    case FloatValue(f) => Some(fmt.fixed(f, 6))
    case NullString(s, valid) => if valid then Some(EscapeWithQuote(s, quote)) else None
    case NullInt64(i, valid) => if valid then Some(Strconv.FormatInt(i)) else None
    case NullBool(b, valid) => if valid then Some(Strconv.FormatBool(b)) else None
    case NullFloat64(f, valid) => if valid then Some(fmt.fixed(f, 6)) else None
    case NullTime(t, valid) => if valid then Some(GetTimeString(t, fmt)) else None
    case TimeValue(t) => Some(GetTimeString(t, fmt))
    case OtherStruct(_) => None
    case OtherKind => None
  }

  /** The (column, literal) pair `getKVs` appends for one field, if any. */
  function FieldPairs(f: Fields.Field, quote: string, fmt: Fields.Formatters): (r: seq<(string, string)>)
    ensures |r| <= 1
  {
    var tag := GetFieldTag(f);
    if Str.Empty(tag) then []
    else match Literal(f.value, quote, fmt)
      case None => []
      case Some(text) => [(tag, text)]
  }

  /** The (column, literal) pairs of the fields, in field order. */
  function Pairs(fs: seq<Fields.Field>, quote: string, fmt: Fields.Formatters): (r: seq<(string, string)>)
    ensures |r| <= |fs|
  {
    if fs == [] then [] else Pairs(fs[..|fs| - 1], quote, fmt) + FieldPairs(fs[|fs| - 1], quote, fmt)
  }

  /** An invalid nullable field is left out: no `NULL` literal is ever produced for it. */
  lemma InvalidNullableLeftOut(f: Fields.Field, quote: string, fmt: Fields.Formatters)
    requires f.value.NullString? || f.value.NullInt64? || f.value.NullBool? || f.value.NullFloat64? || f.value.NullTime?
    requires !f.value.valid
    ensures Pairs([f], quote, fmt) == []
  {
    assert [f][..0] == [];
  }

  /** An unsigned field keeps its full 64-bit value: its literal reads back as it. */
  lemma UnsignedKeepsRange(f: Fields.Field, quote: string, fmt: Fields.Formatters)
    requires f.value.UintValue? && GetFieldTag(f) != ""
    ensures |Pairs([f], quote, fmt)| == 1
    ensures Strconv.ParseUint(Pairs([f], quote, fmt)[0].1) == Ok(f.value.u)
  {
    assert [f][..0] == [];
    Strconv.FormatUintRoundTrip(f.value.u);
  }

  /** The pairs of a struct are the pairs of its first fields followed by those of the rest. */
  lemma {:induction false} PairsConcat(a: seq<Fields.Field>, b: seq<Fields.Field>, quote: string, fmt: Fields.Formatters)
    ensures Pairs(a + b, quote, fmt) == Pairs(a, quote, fmt) + Pairs(b, quote, fmt)
    decreases |b|
  {
    if b == [] {
      assert a + b == a;
    } else {
      var b' := b[..|b| - 1];
      var last := FieldPairs(b[|b| - 1], quote, fmt);
      assert (a + b)[..|a + b| - 1] == a + b';
      assert (a + b)[|a + b| - 1] == b[|b| - 1];
      calc {
        Pairs(a + b, quote, fmt);
        Pairs(a + b', quote, fmt) + last;
        { PairsConcat(a, b', quote, fmt); }
        Pairs(a, quote, fmt) + Pairs(b', quote, fmt) + last;
        Pairs(a, quote, fmt) + (Pairs(b', quote, fmt) + last);
        Pairs(a, quote, fmt) + Pairs(b, quote, fmt);
      }
    }
  }

  /** `getKVs`: one pass over the fields, appending a column and a literal in step. */
  method GetKVs(fields: seq<Fields.Field>, quote: string, fmt: Fields.Formatters)
    returns (keys: seq<string>, values: seq<string>)
    ensures keys == Columns(Pairs(fields, quote, fmt)) && values == Literals(Pairs(fields, quote, fmt))
    ensures |keys| == |values| <= |fields|
  {
    keys := [];
    values := [];
    ghost var pairs := [];
    var i := 0;
    while i < |fields|
      invariant 0 <= i <= |fields|
      invariant pairs == Pairs(fields[..i], quote, fmt)
      invariant keys == Columns(pairs) && values == Literals(pairs)
    {
      PairsSnoc(fields, i, quote, fmt);
      var p := FieldPair(fields[i], quote, fmt);
      if p != [] {
        keys := keys + [p[0].0];
        values := values + [p[0].1];
        ProjectionsSnoc(pairs, p[0]);
      }
      pairs := pairs + p;
      i := i + 1;
    }
    assert fields[..i] == fields;
  }

  /** The pairs of one more field are those of the shorter prefix and the field's own. */
  lemma PairsSnoc(fs: seq<Fields.Field>, i: nat, quote: string, fmt: Fields.Formatters)
    requires i < |fs|
    ensures Pairs(fs[..i + 1], quote, fmt) == Pairs(fs[..i], quote, fmt) + FieldPairs(fs[i], quote, fmt)
  {
    assert fs[..i + 1][..i] == fs[..i];
  }

  /** One iteration of `getKVs`: the field is skipped when its column name is empty
      or its value has no literal, and otherwise yields one pair. */
  method FieldPair(f: Fields.Field, quote: string, fmt: Fields.Formatters)
    returns (p: seq<(string, string)>)
    ensures p == FieldPairs(f, quote, fmt)
  {
    var tag := GetFieldTag(f);
    if Str.Empty(tag) {
      return [];
    }
    var text := LiteralOf(f.value, quote, fmt);
    if text.Some? {
      p := [(tag, text.value)];
    } else {
      p := [];
    }
  }

  /** The column names of a list of pairs. */
  function Columns(ps: seq<(string, string)>): (r: seq<string>)
    ensures |r| == |ps| && forall i :: 0 <= i < |ps| ==> r[i] == ps[i].0
  {
    if ps == [] then [] else Columns(ps[..|ps| - 1]) + [ps[|ps| - 1].0]
  }

  /** Appending a pair appends its column name and its literal. */
  lemma ProjectionsSnoc(ps: seq<(string, string)>, q: (string, string))
    ensures Columns(ps + [q]) == Columns(ps) + [q.0]
    ensures Literals(ps + [q]) == Literals(ps) + [q.1]
  {
    assert (ps + [q])[..|ps|] == ps;
  }

  /** The literals of a list of pairs. */
  function Literals(ps: seq<(string, string)>): (r: seq<string>)
    ensures |r| == |ps| && forall i :: 0 <= i < |ps| ==> r[i] == ps[i].1
  {
    if ps == [] then [] else Literals(ps[..|ps| - 1]) + [ps[|ps| - 1].1]
  }

  /** The kind switch of `getKVs` for one value. */
  method LiteralOf(v: Fields.FieldValue, quote: string, fmt: Fields.Formatters) returns (r: Option<string>)
    ensures r == Literal(v, quote, fmt)
  {
    match v
    case IntValue(i) => r := Some(Strconv.FormatInt(i));
    case UintValue(u) => r := Some(Strconv.FormatUint(u));
    case StringValue(s) =>
      var e := EscapeStringWithQuote(s, quote);
      r := Some(e);
    case BoolValue(b) => r := Some(Strconv.FormatBool(b));
    case FloatValue(x) => r := Some(fmt.fixed(x, 6));
    case NullString(s, valid) =>
      r := None;
      if valid {
        var e := EscapeStringWithQuote(s, quote);
        r := Some(e);
      }
    case NullInt64(i, valid) => r := if valid then Some(Strconv.FormatInt(i)) else None;
    case NullBool(b, valid) => r := if valid then Some(Strconv.FormatBool(b)) else None;
    case NullFloat64(x, valid) => r := if valid then Some(fmt.fixed(x, 6)) else None;
    case NullTime(t, valid) => r := if valid then Some(GetTimeString(t, fmt)) else None;
    case TimeValue(t) => r := Some(GetTimeString(t, fmt));
    case OtherStruct(_) => r := None;
    case OtherKind => r := None;
  }

  /** `GetValidKVsFromStruct(s, quote)`: a pointer is followed to its struct, a struct is
      used as it is, anything else is refused. */
  method GetValidKVsFromStruct(s: Fields.Argument, quote: string, fmt: Fields.Formatters)
    returns (r: Result<(seq<string>, seq<string>), Error>)
    ensures s.OtherArg? <==> r == Err(DataTypeError)
    ensures r.Ok? ==>
      var ps := Pairs(if s.StructArg? then s.fields else s.target, quote, fmt);
      r.value == (Columns(ps), Literals(ps))
  {
    match s
    case PointerArg(target) =>
      var keys, values := GetKVs(target, quote, fmt);
      return Ok((keys, values));
    case StructArg(fields) =>
      var keys, values := GetKVs(fields, quote, fmt);
      return Ok((keys, values));
    case OtherArg =>
      return Err(DataTypeError);
  }
}
