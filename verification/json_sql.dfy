/** Model of json/sql2json.go, the older struct-to-JSON mapper: the same tag precedence
    without filtering or ASCII mode, fields written into a map keyed by tag (so a later
    field with the same key overwrites an earlier one), and the map's entries written out
    in whatever order the map is walked. */
module JsonSql {
  import opened Wrappers
  import Str
  import GoStrings
  import Strconv
  import Fields
  import JsonConv
  import JsonConvSql

  /** `Option`: OmitNull drops invalid nullable fields instead of writing `null`. */
  datatype Option = Option(OmitNull: bool, FloatDigits: JsonConv.Uint8, TimeDigits: JsonConv.Uint8)

  /** `dftOption`: nulls are omitted. */
  const DftOption := Option(true, 0, 0)

  /** The only error `SqlToJson` reports. */
  datatype Error = DataTypeError

  /** The options of the newer mapper that behave like these: no ASCII mode, no filter,
      and ShowNull the opposite of OmitNull. */
  function Newer(opt: Option): (n: JsonConv.Option)
    ensures n.ShowNull == !opt.OmitNull && !n.EnsureAscii && n.FilterMode == JsonConv.Normal
    ensures n.FloatDigits == opt.FloatDigits && n.TimeDigits == opt.TimeDigits
  {
    JsonConv.Option(!opt.OmitNull, false, opt.FloatDigits, opt.TimeDigits, JsonConv.Normal, [])
  }

  /** Both mappers' defaults leave nulls out: the default here is the newer default. */
  lemma DefaultsAgree()
    ensures Newer(DftOption) == JsonConv.DftOption
  {
  }

  // ---------------------------------------------------------------------------
  // escapeJsonString, convertFloatToString, convertTimeToString

  /** `escapeJsonString(s)`: the seven special code points are escaped and everything
      else is copied; this is the newer escaper with ASCII mode off. */
  method EscapeJsonString(s: string) returns (r: string)
    ensures r == JsonConv.Escape(s, false)
    ensures |r| >= |s|
  {
    r := JsonConv.EscapeJsonString(s, false);
  }

  /** The format string built by `fmt.Sprintf("%%df", digits)` as written: `%%` gives a
      percent sign, `d` and `f` are copied, and the unused argument is reported by fmt
      as `%!(EXTRA uint8=<digits>)`. */
  function FloatLayout(digits: JsonConv.Uint8): (r: string)
    ensures |r| > 3 && r[..3] == "%df"
  {
    "%df%!(EXTRA uint8=" + Strconv.FormatUint(digits) + ")"
  }

  /** The format the author evidently meant, as the newer mapper builds it with
      `"%%.%df"`: fixed point with `digits` decimals. */
  function FloatLayoutIntended(digits: JsonConv.Uint8): (r: string)
    ensures |r| >= 3 && r[..2] == "%." && r[|r| - 1] == 'f'
    ensures r[2..|r| - 1] == Strconv.FormatUint(digits)
  {
    var r := "%." + Strconv.FormatUint(digits) + "f";
    assert r[2..|r| - 1] == Strconv.FormatUint(digits);
    r
  }

  /** For two digits the layout as written is `%df%!(EXTRA uint8=2)`, which formats a
      float with the integer verb `%d`; the intended layout is `%.2f`. */
  lemma FloatLayoutIsNotPrecision()
    ensures FloatLayout(2) == "%df%!(EXTRA uint8=2)"
    ensures FloatLayoutIntended(2) == "%.2f"
    ensures FloatLayout(2) != FloatLayoutIntended(2)
  {
    assert Strconv.FormatUint(2) == "2";
    assert FloatLayout(2)[1] == 'd';
  }

  /** `convertFloatToString(f, digits)` as written: `%f` (six decimals, untrimmed) for
      digits 0, else `Sprintf` with the layout `FloatLayout(digits)`. */
  function ConvertFloatToStringAsWritten(f: real, digits: JsonConv.Uint8, fmt: Fields.Formatters): (r: string)
    ensures digits == 0 ==> r == ConvertFloatToString(f, 0, fmt)
    ensures digits > 0 ==> r == fmt.sprintf(FloatLayout(digits), f)
  {
    if digits == 0 then fmt.fixed(f, 6) else fmt.sprintf(FloatLayout(digits), f)
  }

  /** `convertFloatToString(f, digits)` with the intended layout: `%f` for digits 0,
      else exactly `digits` decimals, the text the newer converter gives. */
  function ConvertFloatToString(f: real, digits: JsonConv.Uint8, fmt: Fields.Formatters): (r: string)
    ensures digits == 0 ==> r == fmt.fixed(f, 6)
    ensures digits > 0 ==> r == JsonConv.ConvertFloatToString(f, digits, fmt)
    ensures digits > 0 && Fields.SprintfIsFixed(fmt) ==> r == fmt.sprintf(FloatLayoutIntended(digits), f)
  {
    if digits == 0 then fmt.fixed(f, 6) else fmt.fixed(f, digits)
  }

  /** For every positive precision the code as written hands `Sprintf` a layout other
      than the fixed-point one the corrected converter formats with. */
  lemma AsWrittenMissesPrecision(f: real, digits: JsonConv.Uint8, fmt: Fields.Formatters)
    requires digits > 0 && Fields.SprintfIsFixed(fmt)
    ensures ConvertFloatToStringAsWritten(f, digits, fmt) == fmt.sprintf(FloatLayout(digits), f)
    ensures ConvertFloatToString(f, digits, fmt) == fmt.sprintf(FloatLayoutIntended(digits), f)
    ensures FloatLayout(digits) != FloatLayoutIntended(digits)
  {
    assert FloatLayout(digits)[1] == 'd';
    assert FloatLayoutIntended(digits)[1] == '.';
  }

  // ---------------------------------------------------------------------------
  // getFieldTag

  /** `getFieldTag(field)`: json tag, else db tag, else field name, escaped; "" for a
      json tag of "-". Unlike the newer mapper it returns as soon as a tag is found. */
  function GetFieldTag(f: Fields.Field): (r: string)
    ensures r == match JsonConvSql.ChosenTag(f)
      case None => ""
      case Some(t) => JsonConv.Escape(t, false)
  {
    var fromJson := GoStrings.BeforeComma(f.jsonTag);
    if Str.Valid(fromJson) then
      if fromJson == "-" then "" else JsonConv.Escape(fromJson, false)
    else
      var fromDb := GoStrings.BeforeComma(f.dbTag);
      if Str.Valid(fromDb) then JsonConv.Escape(fromDb, false)
      else JsonConv.Escape(f.name, false)
  }

  /** The tag is the one the newer mapper gives without a filter and without ASCII mode. */
  lemma GetFieldTagMatchesNewer(f: Fields.Field)
    ensures GetFieldTag(f) == JsonConvSql.GetFieldTag(f, JsonConv.Normal, {}, false)
  {
  }

  // ---------------------------------------------------------------------------
  // The map and the processField* functions

  /** The value text `processField` hands on and the validity flag, or None for a kind
      it ignores. Strings are quoted; times are written without quotes; unsigned values
      go through `int64(...)` first. */
  function Rendering(v: Fields.FieldValue, opt: Option, fmt: Fields.Formatters): Wrappers.Option<(string, bool)>
  {
    match v
    case IntValue(i) => Some((Strconv.FormatInt(i), true))
    case UintValue(u) => Some((Strconv.FormatInt(Strconv.Uint64ToInt64(u)), true))
    case StringValue(s) => Some((JsonConvSql.Quoted(s, Newer(opt)), true))
    case BoolValue(b) => Some((Strconv.FormatBool(b), true))
    case FloatValue(f) => Some((ConvertFloatToString(f, opt.FloatDigits, fmt), true))
    case NullString(s, valid) => Some((JsonConvSql.Quoted(s, Newer(opt)), valid))
    case NullInt64(i, valid) => Some((Strconv.FormatInt(i), valid))
    case NullBool(b, valid) => Some((Strconv.FormatBool(b), valid))
    case NullFloat64(f, valid) => Some((ConvertFloatToString(f, opt.FloatDigits, fmt), valid))
    case NullTime(t, valid) => Some((JsonConv.ConvertTimeToString(t, opt.TimeDigits, fmt), valid))
    case TimeValue(t) => Some((JsonConv.ConvertTimeToString(t, opt.TimeDigits, fmt), true))
    case OtherStruct(_) => None
    case OtherKind => None
  }

  /** Both mappers skip the same kinds and agree on which values are valid; with the
      same digits they write the same integers, strings and booleans. */
  lemma RenderingMatchesNewer(v: Fields.FieldValue, opt: Option, fmt: Fields.Formatters)
    ensures Rendering(v, opt, fmt).None? <==> JsonConvSql.Rendering(v, Newer(opt), fmt).None?
    ensures Rendering(v, opt, fmt).Some? ==>
      Rendering(v, opt, fmt).value.1 == JsonConvSql.Rendering(v, Newer(opt), fmt).value.1
    ensures v.IntValue? || v.UintValue? || v.StringValue? || v.BoolValue? || v.NullString? || v.NullInt64? || v.NullBool? ==>
      Rendering(v, opt, fmt) == JsonConvSql.Rendering(v, Newer(opt), fmt)
  {
  }

  /** A time value is written bare, so the member is `"key":<layout text>` with no quotes. */
  lemma TimeIsUnquoted(t: Fields.Time, opt: Option, fmt: Fields.Formatters)
    ensures Rendering(Fields.TimeValue(t), opt, fmt) == Some((fmt.timeFormat(t, JsonConv.TimeLayout(opt.TimeDigits)), true))
    ensures JsonConvSql.Rendering(Fields.TimeValue(t), Newer(opt), fmt).value.0 ==
      "\"" + fmt.timeFormat(t, JsonConv.TimeLayout(opt.TimeDigits)) + "\""
  {
  }

  /** The map entry one `processFieldXxx` call writes: the text when valid, `null` when
      invalid and nulls are kept, nothing otherwise. */
  function Entry(tag: string, text: string, valid: bool, omitNull: bool): (r: Wrappers.Option<(string, string)>)
    ensures r.Some? <==> valid || !omitNull
    ensures r.Some? ==> r.value.0 == tag && r.value.1 == if valid then text else "null"
  {
    if valid then Some((tag, text)) else if !omitNull then Some((tag, "null")) else None
  }

  /** The entry `processField` writes for a field, if any. */
  function FieldEntry(f: Fields.Field, opt: Option, fmt: Fields.Formatters): Wrappers.Option<(string, string)>
  {
    var tag := GetFieldTag(f);
    if tag == "" then None
    else match Rendering(f.value, opt, fmt)
      case None => None
      case Some((text, valid)) => Entry(tag, text, valid, opt.OmitNull)
  }

  /** A map after writing an entry (or nothing). */
  function Put(m: map<string, string>, e: Wrappers.Option<(string, string)>): (r: map<string, string>)
    ensures e.None? ==> r == m
    ensures e.Some? ==> r.Keys == m.Keys + {e.value.0} && r[e.value.0] == e.value.1
    ensures e.Some? ==> forall k :: k in m && k != e.value.0 ==> r[k] == m[k]
  {
    match e
    case None => m
    case Some((k, v)) => m[k := v]
  }

  /** The entries the fields write, in field order. */
  function Entries(fs: seq<Fields.Field>, opt: Option, fmt: Fields.Formatters): (es: seq<Wrappers.Option<(string, string)>>)
    ensures |es| == |fs| && forall i :: 0 <= i < |fs| ==> es[i] == FieldEntry(fs[i], opt, fmt)
  {
    seq(|fs|, i requires 0 <= i < |fs| => FieldEntry(fs[i], opt, fmt))
  }

  /** A map after writing a sequence of entries in order, starting empty. */
  function PutAll(es: seq<Wrappers.Option<(string, string)>>): map<string, string>
  {
    if es == [] then map[] else Put(PutAll(es[..|es| - 1]), es[|es| - 1])
  }

  /** The map after processing the fields in order. */
  function StructMap(fs: seq<Fields.Field>, opt: Option, fmt: Fields.Formatters): map<string, string>
  {
    PutAll(Entries(fs, opt, fmt))
  }

  /** Every key in the map was written by some field: the lemma names the field. */
  lemma KeySource(fs: seq<Fields.Field>, opt: Option, fmt: Fields.Formatters, k: string) returns (i: nat)
    requires k in StructMap(fs, opt, fmt)
    ensures i < |fs| && FieldEntry(fs[i], opt, fmt).Some? && FieldEntry(fs[i], opt, fmt).value.0 == k
  {
    i := EntrySource(Entries(fs, opt, fmt), k);
  }

  lemma {:induction false} EntrySource(es: seq<Wrappers.Option<(string, string)>>, k: string) returns (i: nat)
    requires k in PutAll(es)
    ensures i < |es| && es[i].Some? && es[i].value.0 == k
  {
    var n := |es| - 1;
    if es[n].Some? && es[n].value.0 == k {
      i := n;
    } else {
      i := EntrySource(es[..n], k);
    }
  }

  /** Every entry a field writes has its key in the map. */
  lemma KeyWritten(fs: seq<Fields.Field>, opt: Option, fmt: Fields.Formatters, i: nat)
    requires i < |fs| && FieldEntry(fs[i], opt, fmt).Some?
    ensures FieldEntry(fs[i], opt, fmt).value.0 in StructMap(fs, opt, fmt)
  {
    EntryWritten(Entries(fs, opt, fmt), i);
  }

  lemma {:induction false} EntryWritten(es: seq<Wrappers.Option<(string, string)>>, i: nat)
    requires i < |es| && es[i].Some?
    ensures es[i].value.0 in PutAll(es)
  {
    var n := |es| - 1;
    if i < n {
      EntryWritten(es[..n], i);
    }
  }

  /** The last field that writes under a key decides its value: later writes overwrite
      earlier ones. */
  lemma StructMapLastWins(fs: seq<Fields.Field>, opt: Option, fmt: Fields.Formatters, i: nat)
    requires i < |fs| && FieldEntry(fs[i], opt, fmt).Some?
    requires forall j :: i < j < |fs| && FieldEntry(fs[j], opt, fmt).Some? ==>
      FieldEntry(fs[j], opt, fmt).value.0 != FieldEntry(fs[i], opt, fmt).value.0
    ensures var (k, v) := FieldEntry(fs[i], opt, fmt).value;
      k in StructMap(fs, opt, fmt) && StructMap(fs, opt, fmt)[k] == v
  {
    EntryLastWins(Entries(fs, opt, fmt), i);
  }

  lemma {:induction false} EntryLastWins(es: seq<Wrappers.Option<(string, string)>>, i: nat)
    requires i < |es| && es[i].Some?
    requires forall j :: i < j < |es| && es[j].Some? ==> es[j].value.0 != es[i].value.0
    ensures es[i].value.0 in PutAll(es) && PutAll(es)[es[i].value.0] == es[i].value.1
  {
    var n := |es| - 1;
    if i < n {
      EntryLastWins(es[..n], i);
    }
  }

  /** The set of keys is the set of keys the newer mapper lists without a filter (the
      newer one keeps duplicates in its lists, the map keeps one entry per key). */
  lemma {:induction false} KeysMatchNewer(fs: seq<Fields.Field>, opt: Option, fmt: Fields.Formatters)
    ensures StructMap(fs, opt, fmt).Keys == set k | k in JsonConvSql.StructKeys(fs, Newer(opt), {}, fmt)
  {
    if fs != [] {
      var n := |fs| - 1;
      var f := fs[n];
      var before := JsonConvSql.StructKeys(fs[..n], Newer(opt), {}, fmt);
      var own := JsonConvSql.FieldKeys(f, Newer(opt), {}, fmt);
      KeysMatchNewer(fs[..n], opt, fmt);
      StructMapSnoc(fs, opt, fmt);
      assert JsonConvSql.StructKeys(fs, Newer(opt), {}, fmt) == before + own;
      ElementsConcat(before, own);
      FieldKeyMatchesNewer(f, opt, fmt);
    }
  }

  /** The keys after one more field are the earlier keys and the field's own entry key. */
  lemma StructMapSnoc(fs: seq<Fields.Field>, opt: Option, fmt: Fields.Formatters)
    requires fs != []
    ensures var e := FieldEntry(fs[|fs| - 1], opt, fmt);
            StructMap(fs, opt, fmt).Keys ==
              StructMap(fs[..|fs| - 1], opt, fmt).Keys + (if e.Some? then {e.value.0} else {})
  {
    assert Entries(fs, opt, fmt)[..|fs| - 1] == Entries(fs[..|fs| - 1], opt, fmt);
  }

  /** The elements of a concatenation are those of its two parts. */
  lemma ElementsConcat(a: seq<string>, b: seq<string>)
    ensures (set k | k in a + b) == (set k | k in a) + (set k | k in b)
  {
  }

  /** One field: it writes an entry exactly when the newer mapper lists a key for it, and
      under the same key. */
  lemma FieldKeyMatchesNewer(f: Fields.Field, opt: Option, fmt: Fields.Formatters)
    ensures FieldEntry(f, opt, fmt).None? <==> JsonConvSql.FieldKeys(f, Newer(opt), {}, fmt) == []
    ensures FieldEntry(f, opt, fmt).Some? ==>
      JsonConvSql.FieldKeys(f, Newer(opt), {}, fmt) == [FieldEntry(f, opt, fmt).value.0]
  {
    GetFieldTagMatchesNewer(f);
    RenderingMatchesNewer(f.value, opt, fmt);
  }

  /** `keyValue`, the map `sqlTypeToJson` passes to every `processField*` call. */
  class KeyValueMap {
    var keyValue: map<string, string>

    constructor ()
      ensures keyValue == map[]
    {
      keyValue := map[];
    }

    /** The shared shape of every `processFieldXxx`: a valid value is stored under its
        key, an invalid one as `null` unless OmitNull is set. */
    method Store(tag: string, text: string, valid: bool, opt: Option)
      modifies this
      ensures keyValue == Put(old(keyValue), Entry(tag, text, valid, opt.OmitNull))
    {
      if valid {
        keyValue := keyValue[tag := text];
      } else {
        if !opt.OmitNull {
          keyValue := keyValue[tag := "null"];
        }
      }
    }

    /** `processFieldInt64`. */
    method ProcessFieldInt64(tag: string, i: Strconv.Int64, valid: bool, opt: Option)
      modifies this
      ensures keyValue == Put(old(keyValue), Entry(tag, Strconv.FormatInt(i), valid, opt.OmitNull))
    {
      Store(tag, Strconv.FormatInt(i), valid, opt);
    }

    /** `processFieldString`: the value is escaped and quoted. */
    method ProcessFieldString(tag: string, s: string, valid: bool, opt: Option)
      modifies this
      ensures keyValue == Put(old(keyValue), Entry(tag, JsonConvSql.Quoted(s, Newer(opt)), valid, opt.OmitNull))
    {
      var e := EscapeJsonString(s);
      Store(tag, "\"" + e + "\"", valid, opt);
    }

    /** `processFieldBool`. */
    method ProcessFieldBool(tag: string, b: bool, valid: bool, opt: Option)
      modifies this
      ensures keyValue == Put(old(keyValue), Entry(tag, Strconv.FormatBool(b), valid, opt.OmitNull))
    {
      if b {
        Store(tag, "true", valid, opt);
      } else {
        Store(tag, "false", valid, opt);
      }
    }

    /** `processFieldFloat64`. */
    method ProcessFieldFloat64(tag: string, f: real, valid: bool, opt: Option, fmt: Fields.Formatters)
      modifies this
      ensures keyValue == Put(old(keyValue), Entry(tag, ConvertFloatToString(f, opt.FloatDigits, fmt), valid, opt.OmitNull))
    {
      Store(tag, ConvertFloatToString(f, opt.FloatDigits, fmt), valid, opt);
    }

    /** `processFieldTime`: the formatted time is stored without quotes. */
    method ProcessFieldTime(tag: string, t: Fields.Time, valid: bool, opt: Option, fmt: Fields.Formatters)
      modifies this
      ensures keyValue == Put(old(keyValue), Entry(tag, JsonConv.ConvertTimeToString(t, opt.TimeDigits, fmt), valid, opt.OmitNull))
    {
      Store(tag, JsonConv.ConvertTimeToString(t, opt.TimeDigits, fmt), valid, opt);
    }

    /** `processField`: skips fields without a key, then dispatches on the kind. */
    method ProcessField(f: Fields.Field, opt: Option, fmt: Fields.Formatters)
      modifies this
      ensures keyValue == Put(old(keyValue), FieldEntry(f, opt, fmt))
    {
      var tag := GetFieldTag(f);
      if tag == "" {
        return;
      }
      ProcessValue(tag, f.value, opt, fmt);
    }

    /** The kind switch of `processField`, once the key is known. */
    method ProcessValue(tag: string, v: Fields.FieldValue, opt: Option, fmt: Fields.Formatters)
      modifies this
      ensures keyValue == match Rendering(v, opt, fmt)
        case None => old(keyValue)
        case Some((text, valid)) => Put(old(keyValue), Entry(tag, text, valid, opt.OmitNull))
    {
      match v
      case IntValue(i) =>
        assert Rendering(v, opt, fmt) == Some((Strconv.FormatInt(i), true));
        ProcessFieldInt64(tag, i, true, opt);
      case UintValue(u) =>
        assert Rendering(v, opt, fmt) == Some((Strconv.FormatInt(Strconv.Uint64ToInt64(u)), true));
        ProcessFieldInt64(tag, Strconv.Uint64ToInt64(u), true, opt);
      case StringValue(s) =>
        assert Rendering(v, opt, fmt) == Some((JsonConvSql.Quoted(s, Newer(opt)), true));
        ProcessFieldString(tag, s, true, opt);
      case BoolValue(b) =>
        assert Rendering(v, opt, fmt) == Some((Strconv.FormatBool(b), true));
        ProcessFieldBool(tag, b, true, opt);
      case FloatValue(x) =>
        assert Rendering(v, opt, fmt) == Some((ConvertFloatToString(x, opt.FloatDigits, fmt), true));
        ProcessFieldFloat64(tag, x, true, opt, fmt);
      case NullString(s, valid) =>
        assert Rendering(v, opt, fmt) == Some((JsonConvSql.Quoted(s, Newer(opt)), valid));
        ProcessFieldString(tag, s, valid, opt);
      case NullInt64(i, valid) =>
        assert Rendering(v, opt, fmt) == Some((Strconv.FormatInt(i), valid));
        ProcessFieldInt64(tag, i, valid, opt);
      case NullBool(b, valid) =>
        assert Rendering(v, opt, fmt) == Some((Strconv.FormatBool(b), valid));
        ProcessFieldBool(tag, b, valid, opt);
      case NullFloat64(x, valid) =>
        assert Rendering(v, opt, fmt) == Some((ConvertFloatToString(x, opt.FloatDigits, fmt), valid));
        ProcessFieldFloat64(tag, x, valid, opt, fmt);
      case NullTime(t, valid) =>
        assert Rendering(v, opt, fmt) == Some((JsonConv.ConvertTimeToString(t, opt.TimeDigits, fmt), valid));
        ProcessFieldTime(tag, t, valid, opt, fmt);
      case TimeValue(t) =>
        assert Rendering(v, opt, fmt) == Some((JsonConv.ConvertTimeToString(t, opt.TimeDigits, fmt), true));
        ProcessFieldTime(tag, t, true, opt, fmt);
      case OtherStruct(_) =>
      case OtherKind =>
    }
  }

  // ---------------------------------------------------------------------------
  // sqlTypeToJson and SqlToJson

  /** The values of a map under a sequence of its keys. */
  function Lookups(order: seq<string>, m: map<string, string>): (r: seq<string>)
    requires forall k :: k in order ==> k in m
    ensures |r| == |order| && forall i :: 0 <= i < |order| ==> r[i] == m[order[i]]
  {
    if order == [] then [] else Lookups(order[..|order| - 1], m) + [m[order[|order| - 1]]]
  }

  /** No key occurs twice. */
  predicate Distinct(order: seq<string>) {
    forall i, j :: 0 <= i < j < |order| ==> order[i] != order[j]
  }

  /** `sqlTypeToJson`: processes the fields into the map, then writes one member per
      map entry. The entries come in the map's iteration order, which Go leaves
      unspecified: `order` is the order this run took, each key exactly once. */
  method SqlTypeToJson(fields: seq<Fields.Field>, opt: Option, fmt: Fields.Formatters)
    returns (r: string, ghost order: seq<string>)
    ensures Distinct(order) && (set k | k in order) == StructMap(fields, opt, fmt).Keys
    ensures r == JsonConvSql.ObjectText(order, Lookups(order, StructMap(fields, opt, fmt)))
  {
    ghost var es := Entries(fields, opt, fmt);
    var kv := new KeyValueMap();
    var i := 0;
    while i < |fields|
      invariant 0 <= i <= |fields|
      invariant kv.keyValue == PutAll(es[..i])
    {
      assert es[..i + 1][..i] == es[..i];
      kv.ProcessField(fields[i], opt, fmt);
      i := i + 1;
    }
    assert es[..i] == es;
    var m := kv.keyValue;
    r, order := WriteMap(m);
  }

  /** The buffer loop of `sqlTypeToJson` over the map's entries. */
  method WriteMap(m: map<string, string>) returns (r: string, ghost order: seq<string>)
    ensures Distinct(order) && (set k | k in order) == m.Keys
    ensures r == JsonConvSql.ObjectText(order, Lookups(order, m))
  {
    var remaining := m.Keys;
    var b := "{";
    var isFirst := true;
    order := [];
    while remaining != {}
      invariant Walked(order, remaining, m)
      invariant isFirst <==> order == []
      invariant b == "{" + JsonConvSql.Members(order, Lookups(order, m))
      decreases |remaining|
    {
      var key :| key in remaining;
      ghost var before := b;
      if !isFirst {
        b := b + ",";
      } else {
        isFirst := false;
      }
      b := b + JsonConvSql.Member(key, m[key]);
      BufferStep(order, m, key, before);
      WalkStep(order, remaining, m, key);
      order := order + [key];
      remaining := remaining - {key};
    }
    WalkDone(order, m);
    r := b + "}";
  }

  /** The walk so far: the keys written, each once, and the keys still to come make up
      the map's keys. */
  ghost predicate Walked(order: seq<string>, remaining: set<string>, m: map<string, string>) {
    && remaining <= m.Keys
    && (forall k :: k in order ==> k in m && k !in remaining)
    && (forall k :: k in m && k !in remaining ==> k in order)
    && Distinct(order)
  }

  lemma WalkStep(order: seq<string>, remaining: set<string>, m: map<string, string>, key: string)
    requires Walked(order, remaining, m) && key in remaining
    ensures Walked(order + [key], remaining - {key}, m)
  {
    var o := order + [key];
    assert forall i :: 0 <= i < |order| ==> o[i] == order[i];
  }

  lemma WalkDone(order: seq<string>, m: map<string, string>)
    requires Walked(order, {}, m)
    ensures Distinct(order) && (set k | k in order) == m.Keys
  {
  }

  /** One turn of the buffer loop: the separator (except before the first member) and
      the member extend the text to the members of the longer key sequence. */
  lemma BufferStep(order: seq<string>, m: map<string, string>, key: string, b: string)
    requires forall k :: k in order ==> k in m
    requires key in m
    requires b == "{" + JsonConvSql.Members(order, Lookups(order, m))
    ensures b + (if order == [] then "" else ",") + JsonConvSql.Member(key, m[key]) ==
      "{" + JsonConvSql.Members(order + [key], Lookups(order + [key], m))
  {
    MembersExtend(order, m, key);
    var ms := JsonConvSql.Members(order, Lookups(order, m));
    var sep := if order == [] then "" else ",";
    var e := JsonConvSql.Member(key, m[key]);
    assert "{" + ms + sep + e == "{" + (ms + sep + e);
  }

  /** Writing one more entry adds a separator (except before the first) and its member. */
  lemma MembersExtend(order: seq<string>, m: map<string, string>, key: string)
    requires forall k :: k in order ==> k in m
    requires key in m
    ensures JsonConvSql.Members(order + [key], Lookups(order + [key], m)) ==
      JsonConvSql.Members(order, Lookups(order, m)) + (if order == [] then "" else ",") + JsonConvSql.Member(key, m[key])
  {
    var o := order + [key];
    assert o[..|order|] == order;
    assert Lookups(o, m)[..|order|] == Lookups(order, m);
  }

  /** `SqlToJson(u, options...)`: the first option or the default; a pointer is
      followed to its struct, a struct is used as it is, anything else is refused. */
  method SqlToJson(u: Fields.Argument, options: seq<Option>, fmt: Fields.Formatters)
    returns (r: Result<string, Error>, ghost order: seq<string>)
    ensures u.OtherArg? <==> r == Err(DataTypeError)
    ensures !u.OtherArg? ==>
      var opt := if |options| > 0 then options[0] else DftOption;
      var m := StructMap(if u.StructArg? then u.fields else u.target, opt, fmt);
      Distinct(order) && (set k | k in order) == m.Keys &&
      r == Ok(JsonConvSql.ObjectText(order, Lookups(order, m)))
  {
    var opt := if |options| > 0 then options[0] else DftOption;
    order := [];
    match u
    case PointerArg(target) =>
      var s;
      s, order := SqlTypeToJson(target, opt, fmt);
      return Ok(s), order;
    case StructArg(fields) =>
      var s;
      s, order := SqlTypeToJson(fields, opt, fmt);
      return Ok(s), order;
    case OtherArg =>
      return Err(DataTypeError), order;
  }
}
