/** Model of jsonconv/sql2json.go: `SqlToJson` turns a struct (given as its field
    records) into a JSON object text. `getFieldTag` picks and filters the key,
    the `processField*` functions append to a key list and a value list in step,
    and `sqlTypeToJson` assembles the two lists into `{"key":value,...}`. */
module JsonConvSql {
  import opened Wrappers
  import Str
  import GoStrings
  import Strconv
  import Fields
  import JsonConv

  // ---------------------------------------------------------------------------
  // getFieldTag

  /** The name a field is published under before filtering: the json tag's text before
      its first comma, else the db tag's, else the field name; None when the json tag
      says "-" (the field is ignored). */
  function ChosenTag(f: Fields.Field): Option<string>
  {
    var j := GoStrings.BeforeComma(f.jsonTag);
    var d := GoStrings.BeforeComma(f.dbTag);
    if j == "-" then None
    else if j != "" then Some(j)
    else if d != "" then Some(d)
    else Some(f.name)
  }

  /** Whether the filter lets an (unescaped) tag through. */
  predicate Admitted(mode: JsonConv.Filter, filter: set<string>, tag: string) {
    match mode
    case IncludeMode => tag in filter
    case ExcludeMode => tag !in filter
    case Normal => true
  }

  /** `getFieldTag(field, filterMode, filterMap, ensureAscii)`: the escaped key, or ""
      when the field is ignored or filtered out. */
  function GetFieldTag(f: Fields.Field, mode: JsonConv.Filter, filter: set<string>, ensureAscii: bool): (r: string)
    ensures ChosenTag(f).None? ==> r == ""
    ensures ChosenTag(f).Some? ==>
      r == if Admitted(mode, filter, ChosenTag(f).value) then JsonConv.Escape(ChosenTag(f).value, ensureAscii) else ""
  {
    match KeyName(f)
    case None => ""
    case Some(tag) =>
      if mode == JsonConv.IncludeMode && tag !in filter then ""
      else if mode == JsonConv.ExcludeMode && tag in filter then ""
      else JsonConv.Escape(tag, ensureAscii)
  }

  /** The first half of `getFieldTag`: the json tag's name unless it is empty (a "-"
      ends the search with no name), then the db tag's, then the field name. */
  function KeyName(f: Fields.Field): (r: Option<string>)
    ensures r == ChosenTag(f)
  {
    var fromJson := GoStrings.BeforeComma(f.jsonTag);
    if Str.Valid(fromJson) && fromJson == "-" then None
    else
      var tag := if Str.Valid(fromJson) then fromJson else "";
      var fromDb := GoStrings.BeforeComma(f.dbTag);
      var tag := if Str.Empty(tag) && Str.Valid(fromDb) then fromDb else tag;
      var tag := if Str.Empty(tag) then f.name else tag;
      Some(tag)
  }

  /** A field gets no key exactly when its json tag is "-", the filter rejects its name,
      or the chosen name is empty. */
  lemma FieldTagEmpty(f: Fields.Field, mode: JsonConv.Filter, filter: set<string>, ensureAscii: bool)
    ensures GetFieldTag(f, mode, filter, ensureAscii) == "" <==>
      ChosenTag(f).None? || !Admitted(mode, filter, ChosenTag(f).value) || ChosenTag(f).value == ""
  {
  }

  // ---------------------------------------------------------------------------
  // What each field contributes

  /** The value text `processField` hands on and the validity flag, or None for a kind
      it ignores (an unknown struct type or a non-scalar kind). Unsigned values go
      through `int64(...)` first. */
  function Rendering(v: Fields.FieldValue, opt: JsonConv.Option, fmt: Fields.Formatters): Option<(string, bool)>
  {
    match v
    case IntValue(i) => Some((Strconv.FormatInt(i), true))
    case UintValue(u) => Some((Strconv.FormatInt(Strconv.Uint64ToInt64(u)), true))
    case StringValue(s) => Some((Quoted(s, opt), true))
    case BoolValue(b) => Some((if b then "true" else "false", true))
    case FloatValue(f) => Some((JsonConv.ConvertFloatToString(f, opt.FloatDigits, fmt), true))
    case NullString(s, valid) => Some((Quoted(s, opt), valid))
    case NullInt64(i, valid) => Some((Strconv.FormatInt(i), valid))
    case NullBool(b, valid) => Some((if b then "true" else "false", valid))
    case NullFloat64(f, valid) => Some((JsonConv.ConvertFloatToString(f, opt.FloatDigits, fmt), valid))
    case NullTime(t, valid) => Some((QuotedTime(t, opt, fmt), valid))
    case TimeValue(t) => Some((QuotedTime(t, opt, fmt), true))
    case OtherStruct(_) => None
    case OtherKind => None
  }

  /** A string value: escaped and put between double quotes. */
  function Quoted(s: string, opt: JsonConv.Option): string {
    "\"" + JsonConv.Escape(s, opt.EnsureAscii) + "\""
  }

  /** A time value: formatted and put between double quotes. */
  function QuotedTime(t: Fields.Time, opt: JsonConv.Option, fmt: Fields.Formatters): string {
    "\"" + JsonConv.ConvertTimeToString(t, opt.TimeDigits, fmt) + "\""
  }

  /** The keys one `processFieldXxx` call appends: the key when the value is valid or
      nulls are shown, else nothing. */
  function AppendedKeys(tag: string, valid: bool, showNull: bool): (r: seq<string>)
    ensures r == [tag] <==> valid || showNull
    ensures r == [] <==> !valid && !showNull
  {
    if valid || showNull then [tag] else []
  }

  /** The values one `processFieldXxx` call appends, in step with `AppendedKeys`: the
      text when valid, `null` when invalid and nulls are shown. */
  function AppendedValues(text: string, valid: bool, showNull: bool): (r: seq<string>)
    ensures |r| == |AppendedKeys("", valid, showNull)|
    ensures valid ==> r == [text]
    ensures !valid && showNull ==> r == ["null"]
  {
    if valid then [text] else if showNull then ["null"] else []
  }

  /** The keys `processField` appends for a value under a key: none or one. */
  function TagKeys(tag: string, v: Fields.FieldValue, opt: JsonConv.Option, fmt: Fields.Formatters): (r: seq<string>)
    ensures |r| <= 1
  {
    match Rendering(v, opt, fmt)
    case None => []
    case Some((_, valid)) => AppendedKeys(tag, valid, opt.ShowNull)
  }

  /** The values `processField` appends for a value under a key, in step with `TagKeys`. */
  function TagValues(tag: string, v: Fields.FieldValue, opt: JsonConv.Option, fmt: Fields.Formatters): (r: seq<string>)
    ensures |r| == |TagKeys(tag, v, opt, fmt)|
  {
    match Rendering(v, opt, fmt)
    case None => []
    case Some((text, valid)) => AppendedValues(text, valid, opt.ShowNull)
  }

  /** For a value with a rendering, the appended keys and values are those of one
      `processFieldXxx` call with that text and validity. */
  lemma TagParts(tag: string, v: Fields.FieldValue, opt: JsonConv.Option, fmt: Fields.Formatters, text: string, valid: bool)
    requires Rendering(v, opt, fmt) == Some((text, valid))
    ensures TagKeys(tag, v, opt, fmt) == AppendedKeys(tag, valid, opt.ShowNull)
    ensures TagValues(tag, v, opt, fmt) == AppendedValues(text, valid, opt.ShowNull)
  {
  }

  /** The keys `processField` appends for one field. */
  function FieldKeys(f: Fields.Field, opt: JsonConv.Option, filter: set<string>, fmt: Fields.Formatters): (r: seq<string>)
    ensures |r| <= 1
  {
    var tag := GetFieldTag(f, opt.FilterMode, filter, opt.EnsureAscii);
    if Str.Empty(tag) then [] else TagKeys(tag, f.value, opt, fmt)
  }

  /** The values `processField` appends for one field, in step with `FieldKeys`. */
  function FieldValues(f: Fields.Field, opt: JsonConv.Option, filter: set<string>, fmt: Fields.Formatters): (r: seq<string>)
    ensures |r| == |FieldKeys(f, opt, filter, fmt)|
  {
    var tag := GetFieldTag(f, opt.FilterMode, filter, opt.EnsureAscii);
    if Str.Empty(tag) then [] else TagValues(tag, f.value, opt, fmt)
  }

  /** The parts of a sequence of fields, concatenated in field order. */
  function Flatten(fs: seq<Fields.Field>, part: Fields.Field -> seq<string>): seq<string>
  {
    if fs == [] then [] else Flatten(fs[..|fs| - 1], part) + part(fs[|fs| - 1])
  }

  /** Flattening keeps the field order: it distributes over concatenation. */
  lemma {:induction false} FlattenConcat(a: seq<Fields.Field>, b: seq<Fields.Field>, part: Fields.Field -> seq<string>)
    ensures Flatten(a + b, part) == Flatten(a, part) + Flatten(b, part)
    decreases |b|
  {
    if b == [] {
      assert a + b == a;
    } else {
      var b' := b[..|b| - 1];
      assert (a + b)[..|a + b| - 1] == a + b';
      assert (a + b)[|a + b| - 1] == b[|b| - 1];
      FlattenConcat(a, b', part);
    }
  }

  /** All keys, field by field in declaration order. */
  function StructKeys(fs: seq<Fields.Field>, opt: JsonConv.Option, filter: set<string>, fmt: Fields.Formatters): seq<string>
  {
    Flatten(fs, f => FieldKeys(f, opt, filter, fmt))
  }

  /** Parts of equal length flatten to sequences of equal length. */
  lemma {:induction false} FlattenInStep(fs: seq<Fields.Field>, p: Fields.Field -> seq<string>, q: Fields.Field -> seq<string>)
    requires forall f :: |p(f)| == |q(f)|
    ensures |Flatten(fs, p)| == |Flatten(fs, q)|
  {
    if fs != [] {
      FlattenInStep(fs[..|fs| - 1], p, q);
    }
  }

  /** All values, field by field in declaration order, in step with `StructKeys`. */
  function StructValues(fs: seq<Fields.Field>, opt: JsonConv.Option, filter: set<string>, fmt: Fields.Formatters): (r: seq<string>)
    ensures |r| == |StructKeys(fs, opt, filter, fmt)|
  {
    FlattenInStep(fs, f => FieldValues(f, opt, filter, fmt), f => FieldKeys(f, opt, filter, fmt));
    Flatten(fs, f => FieldValues(f, opt, filter, fmt))
  }

  /** The key list and the value list always have the same length, at most one entry
      per field. */
  lemma {:induction false} StructListsInStep(fs: seq<Fields.Field>, opt: JsonConv.Option, filter: set<string>, fmt: Fields.Formatters)
    ensures |StructKeys(fs, opt, filter, fmt)| == |StructValues(fs, opt, filter, fmt)| <= |fs|
  {
    if fs != [] {
      var n := |fs| - 1;
      StructListsInStep(fs[..n], opt, filter, fmt);
      assert |FieldValues(fs[n], opt, filter, fmt)| == |FieldKeys(fs[n], opt, filter, fmt)| <= 1;
    }
  }

  /** The keys of a struct are the keys of its first fields followed by those of the
      rest: declaration order is kept. */
  lemma StructKeysConcat(a: seq<Fields.Field>, b: seq<Fields.Field>, opt: JsonConv.Option,
                         filter: set<string>, fmt: Fields.Formatters)
    ensures StructKeys(a + b, opt, filter, fmt) == StructKeys(a, opt, filter, fmt) + StructKeys(b, opt, filter, fmt)
    ensures StructValues(a + b, opt, filter, fmt) == StructValues(a, opt, filter, fmt) + StructValues(b, opt, filter, fmt)
  {
    FlattenConcat(a, b, f => FieldKeys(f, opt, filter, fmt));
    FlattenConcat(a, b, f => FieldValues(f, opt, filter, fmt));
  }

  /** Null handling for a nullable field that has a key: a valid value is written, an
      invalid one becomes `null` with ShowNull and disappears without it. */
  lemma NullableField(f: Fields.Field, opt: JsonConv.Option, filter: set<string>, fmt: Fields.Formatters)
    requires f.value.NullString? || f.value.NullInt64? || f.value.NullBool? || f.value.NullFloat64? || f.value.NullTime?
    requires GetFieldTag(f, opt.FilterMode, filter, opt.EnsureAscii) != ""
    ensures var tag := GetFieldTag(f, opt.FilterMode, filter, opt.EnsureAscii);
      && (f.value.valid ==>
            FieldKeys(f, opt, filter, fmt) == [tag] && FieldValues(f, opt, filter, fmt) == [Rendering(f.value, opt, fmt).value.0])
      && (!f.value.valid && opt.ShowNull ==>
            FieldKeys(f, opt, filter, fmt) == [tag] && FieldValues(f, opt, filter, fmt) == ["null"])
      && (!f.value.valid && !opt.ShowNull ==>
            FieldKeys(f, opt, filter, fmt) == [] && FieldValues(f, opt, filter, fmt) == [])
  {
  }

  /** An unsigned value of 2^63 or more is written as a negative number. */
  lemma UnsignedPrintsSigned(f: Fields.Field, opt: JsonConv.Option, filter: set<string>, fmt: Fields.Formatters)
    requires f.value.UintValue? && f.value.u > Strconv.MaxInt64
    requires GetFieldTag(f, opt.FilterMode, filter, opt.EnsureAscii) != ""
    ensures var vs := FieldValues(f, opt, filter, fmt);
      |vs| == 1 && vs[0] == Strconv.FormatInt(f.value.u - Strconv.TwoTo64) && vs[0][0] == '-'
  {
  }

  // ---------------------------------------------------------------------------
  // The two lists and the processField* functions

  /** `keyList` and `valList`, the two slices `sqlTypeToJson` passes by pointer. */
  class KeyValueLists {
    var keys: seq<string>
    var values: seq<string>

    constructor ()
      ensures keys == [] && values == []
    {
      keys := [];
      values := [];
    }

    /** The shared shape of every `processFieldXxx`: a valid value is appended with
        its key, an invalid one as `null` when ShowNull is set, else nothing. */
    method AppendField(tag: string, text: string, valid: bool, opt: JsonConv.Option)
      modifies this
      ensures keys == old(keys) + AppendedKeys(tag, valid, opt.ShowNull)
      ensures values == old(values) + AppendedValues(text, valid, opt.ShowNull)
    {
      if valid {
        keys := keys + [tag];
        values := values + [text];
      } else {
        if opt.ShowNull {
          keys := keys + [tag];
          values := values + ["null"];
        }
      }
    }

    /** `processFieldInt64`. */
    method ProcessFieldInt64(tag: string, i: Strconv.Int64, valid: bool, opt: JsonConv.Option)
      modifies this
      ensures keys == old(keys) + AppendedKeys(tag, valid, opt.ShowNull)
      ensures values == old(values) + AppendedValues(Strconv.FormatInt(i), valid, opt.ShowNull)
    {
      AppendField(tag, Strconv.FormatInt(i), valid, opt);
    }

    /** `processFieldString`: the value is escaped and quoted. */
    method ProcessFieldString(tag: string, s: string, valid: bool, opt: JsonConv.Option)
      modifies this
      ensures keys == old(keys) + AppendedKeys(tag, valid, opt.ShowNull)
      ensures values == old(values) + AppendedValues(Quoted(s, opt), valid, opt.ShowNull)
    {
      var e := JsonConv.EscapeJsonString(s, opt.EnsureAscii);
      AppendField(tag, "\"" + e + "\"", valid, opt);
    }

    /** `processFieldBool`. */
    method ProcessFieldBool(tag: string, b: bool, valid: bool, opt: JsonConv.Option)
      modifies this
      ensures keys == old(keys) + AppendedKeys(tag, valid, opt.ShowNull)
      ensures values == old(values) + AppendedValues(if b then "true" else "false", valid, opt.ShowNull)
    {
      if b {
        AppendField(tag, "true", valid, opt);
      } else {
        AppendField(tag, "false", valid, opt);
      }
    }

    /** `processFieldFloat64`. */
    method ProcessFieldFloat64(tag: string, f: real, valid: bool, opt: JsonConv.Option, fmt: Fields.Formatters)
      modifies this
      ensures keys == old(keys) + AppendedKeys(tag, valid, opt.ShowNull)
      ensures values == old(values) + AppendedValues(JsonConv.ConvertFloatToString(f, opt.FloatDigits, fmt), valid, opt.ShowNull)
    {
      AppendField(tag, JsonConv.ConvertFloatToString(f, opt.FloatDigits, fmt), valid, opt);
    }

    /** `processFieldTime`: the formatted time is quoted. */
    method ProcessFieldTime(tag: string, t: Fields.Time, valid: bool, opt: JsonConv.Option, fmt: Fields.Formatters)
      modifies this
      ensures keys == old(keys) + AppendedKeys(tag, valid, opt.ShowNull)
      ensures values == old(values) + AppendedValues(QuotedTime(t, opt, fmt), valid, opt.ShowNull)
    {
      AppendField(tag, "\"" + JsonConv.ConvertTimeToString(t, opt.TimeDigits, fmt) + "\"", valid, opt);
    }

    /** `processField`: skips fields without a key, then dispatches on the kind. */
    method ProcessField(f: Fields.Field, opt: JsonConv.Option, filter: set<string>, fmt: Fields.Formatters)
      modifies this
      ensures keys == old(keys) + FieldKeys(f, opt, filter, fmt)
      ensures values == old(values) + FieldValues(f, opt, filter, fmt)
    {
      var tag := GetFieldTag(f, opt.FilterMode, filter, opt.EnsureAscii);
      if Str.Empty(tag) {
        return;
      }
      ProcessValue(tag, f.value, opt, fmt);
    }

    /** The kind switch of `processField`, once the key is known. */
    method ProcessValue(tag: string, v: Fields.FieldValue, opt: JsonConv.Option, fmt: Fields.Formatters)
      modifies this
      ensures keys == old(keys) + TagKeys(tag, v, opt, fmt)
      ensures values == old(values) + TagValues(tag, v, opt, fmt)
    {
      match v
      case IntValue(i) =>
        TagParts(tag, v, opt, fmt, Strconv.FormatInt(i), true);
        ProcessFieldInt64(tag, i, true, opt);
      case UintValue(u) =>
        TagParts(tag, v, opt, fmt, Strconv.FormatInt(Strconv.Uint64ToInt64(u)), true);
        ProcessFieldInt64(tag, Strconv.Uint64ToInt64(u), true, opt);
      case StringValue(s) =>
        TagParts(tag, v, opt, fmt, Quoted(s, opt), true);
        ProcessFieldString(tag, s, true, opt);
      case BoolValue(b) =>
        TagParts(tag, v, opt, fmt, if b then "true" else "false", true);
        ProcessFieldBool(tag, b, true, opt);
      case FloatValue(x) =>
        TagParts(tag, v, opt, fmt, JsonConv.ConvertFloatToString(x, opt.FloatDigits, fmt), true);
        ProcessFieldFloat64(tag, x, true, opt, fmt);
      case NullString(s, valid) =>
        TagParts(tag, v, opt, fmt, Quoted(s, opt), valid);
        ProcessFieldString(tag, s, valid, opt);
      case NullInt64(i, valid) =>
        TagParts(tag, v, opt, fmt, Strconv.FormatInt(i), valid);
        ProcessFieldInt64(tag, i, valid, opt);
      case NullBool(b, valid) =>
        TagParts(tag, v, opt, fmt, if b then "true" else "false", valid);
        ProcessFieldBool(tag, b, valid, opt);
      case NullFloat64(x, valid) =>
        TagParts(tag, v, opt, fmt, JsonConv.ConvertFloatToString(x, opt.FloatDigits, fmt), valid);
        ProcessFieldFloat64(tag, x, valid, opt, fmt);
      case NullTime(t, valid) =>
        TagParts(tag, v, opt, fmt, QuotedTime(t, opt, fmt), valid);
        ProcessFieldTime(tag, t, valid, opt, fmt);
      case TimeValue(t) =>
        TagParts(tag, v, opt, fmt, QuotedTime(t, opt, fmt), true);
        ProcessFieldTime(tag, t, true, opt, fmt);
      case OtherStruct(_) =>
      case OtherKind =>
    }
  }

  // ---------------------------------------------------------------------------
  // sqlTypeToJson and SqlToJson

  /** One member: the key between double quotes, a colon, the value. */
  function Member(key: string, value: string): string {
    "\"" + key + "\":" + value
  }

  /** The members joined by commas. */
  function Members(keys: seq<string>, values: seq<string>): string
    requires |keys| == |values|
  {
    if keys == [] then ""
    else
      var n := |keys| - 1;
      Members(keys[..n], values[..n]) + (if n == 0 then "" else ",") + Member(keys[n], values[n])
  }

  /** The object text: the members between braces. */
  function ObjectText(keys: seq<string>, values: seq<string>): (r: string)
    requires |keys| == |values|
    ensures |r| >= 2 && r[0] == '{' && r[|r| - 1] == '}'
  {
    "{" + Members(keys, values) + "}"
  }

  /** No member gives `{}`. */
  lemma ObjectTextEmpty()
    ensures ObjectText([], []) == "{}"
  {
  }

  /** One member gives `{"key":value}`. */
  lemma ObjectTextSingle(k: string, v: string)
    ensures ObjectText([k], [v]) == "{" + Member(k, v) + "}"
  {
    assert [k][..0] == [] && [v][..0] == [];
    assert Members([k], [v]) == "" + "" + Member(k, v);
    assert "" + "" + Member(k, v) == Member(k, v);
  }

  /** Adding a member to a non-empty object adds a comma and the member before the
      closing brace. */
  lemma ObjectTextAppend(keys: seq<string>, values: seq<string>, k: string, v: string)
    requires |keys| == |values| && keys != []
    ensures ObjectText(keys + [k], values + [v]) == "{" + (Members(keys, values) + "," + Member(k, v)) + "}"
  {
    MembersAppend(keys, values, k, v);
  }

  lemma MembersAppend(keys: seq<string>, values: seq<string>, k: string, v: string)
    requires |keys| == |values| && keys != []
    ensures Members(keys + [k], values + [v]) == Members(keys, values) + "," + Member(k, v)
  {
    assert (keys + [k])[..|keys|] == keys;
    assert (values + [v])[..|values|] == values;
  }

  /** The filter set: the filter list in Include and Exclude modes, empty otherwise. */
  function FilterSet(opt: JsonConv.Option): set<string> {
    if opt.FilterMode == JsonConv.IncludeMode || opt.FilterMode == JsonConv.ExcludeMode
    then set k | k in opt.FilterList
    else {}
  }

  /** `sqlTypeToJson`: builds the filter set, runs `processField` over the fields and
      writes the members into a buffer. It never reports an error. */
  method SqlTypeToJson(fields: seq<Fields.Field>, opt: JsonConv.Option, fmt: Fields.Formatters) returns (r: string)
    ensures r == ObjectText(StructKeys(fields, opt, FilterSet(opt), fmt), StructValues(fields, opt, FilterSet(opt), fmt))
  {
    var filter := BuildFilter(opt);
    var lists := new KeyValueLists();
    var i := 0;
    while i < |fields|
      invariant 0 <= i <= |fields|
      invariant lists.keys == StructKeys(fields[..i], opt, filter, fmt)
      invariant lists.values == StructValues(fields[..i], opt, filter, fmt)
    {
      assert fields[..i + 1][..i] == fields[..i];
      lists.ProcessField(fields[i], opt, filter, fmt);
      i := i + 1;
    }
    assert fields[..i] == fields;
    r := WriteObject(lists.keys, lists.values);
  }

  /** The filter map of `sqlTypeToJson`, filled from the filter list in Include and
      Exclude modes. */
  method BuildFilter(opt: JsonConv.Option) returns (filter: set<string>)
    ensures filter == FilterSet(opt)
  {
    filter := {};
    if opt.FilterMode == JsonConv.IncludeMode || opt.FilterMode == JsonConv.ExcludeMode {
      var j := 0;
      while j < |opt.FilterList|
        invariant 0 <= j <= |opt.FilterList|
        invariant filter == set k | k in opt.FilterList[..j]
      {
        assert opt.FilterList[..j + 1] == opt.FilterList[..j] + [opt.FilterList[j]];
        filter := filter + {opt.FilterList[j]};
        j := j + 1;
      }
      assert opt.FilterList[..j] == opt.FilterList;
    }
  }

  /** The buffer loop of `sqlTypeToJson`: an opening brace, the members separated by
      commas, a closing brace. */
  method WriteObject(keys: seq<string>, values: seq<string>) returns (r: string)
    requires |keys| == |values|
    ensures r == ObjectText(keys, values)
  {
    var b := "{";
    var isFirst := true;
    var n := 0;
    while n < |values|
      invariant 0 <= n <= |values|
      invariant isFirst <==> n == 0
      invariant b == "{" + Members(keys[..n], values[..n])
    {
      assert keys[..n + 1][..n] == keys[..n];
      assert values[..n + 1][..n] == values[..n];
      if !isFirst {
        b := b + ",";
      } else {
        isFirst := false;
      }
      b := b + Member(keys[n], values[n]);
      n := n + 1;
    }
    assert keys[..n] == keys && values[..n] == values;
    r := b + "}";
  }

  /** `SqlToJson(u, options...)`: the first option or the default; a pointer is
      followed to its struct, a struct is used as it is, anything else is refused. */
  method SqlToJson(u: Fields.Argument, options: seq<JsonConv.Option>, fmt: Fields.Formatters)
    returns (r: Result<string, JsonConv.Error>)
    ensures u.OtherArg? <==> r == Err(JsonConv.DataTypeError)
    ensures !u.OtherArg? ==>
      var opt := if |options| > 0 then options[0] else JsonConv.DftOption;
      var fs := if u.StructArg? then u.fields else u.target;
      r == Ok(ObjectText(StructKeys(fs, opt, FilterSet(opt), fmt), StructValues(fs, opt, FilterSet(opt), fmt)))
  {
    var opt := if |options| > 0 then options[0] else JsonConv.DftOption;
    match u
    case PointerArg(target) =>
      var s := SqlTypeToJson(target, opt, fmt);
      return Ok(s);
    case StructArg(fields) =>
      var s := SqlTypeToJson(fields, opt, fmt);
      return Ok(s);
    case OtherArg =>
      return Err(JsonConv.DataTypeError);
  }
}
