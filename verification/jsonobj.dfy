/** Model of jsonconv/jsonObj.go: the `JsonObj` node, its constructors, the root
    parser `NewFromString`, the child builders `parseObject` / `parseArray`, the
    typed getters and the lookups `GetByKey` / `GetAtIndex`.

    A node is a value here. `github.com/buger/jsonparser` is not modelled: the
    entries `ObjectEach` reports and the items `ArrayEach` reports are given as a
    `Raw` tree, and `NewFromString` receives the two scans as function parameters. */
module JsonObjects {
  import opened Wrappers
  import Strconv
  import GoStrings
  import JsonConv

  /** jsonparser's value types, in jsonparser's order (`NotExist` is the zero value). */
  datatype ValueType = NotExist | String | Number | Object | Array | Boolean | Null | Unknown

  /** One `*JsonObj`. Go leaves the maps and slices of a fresh node nil; they are empty here. */
  datatype JsonObj = JsonObj(
    origBytes: string,
    valueType: ValueType,
    stringValue: string,
    intValue: Strconv.Int64,
    floatValue: real,
    boolValue: bool,
    objChildren: map<string, JsonObj>,
    arrChildren: seq<JsonObj>)

  /** `new(JsonObj)`: every field at its zero value. */
  const Zero := JsonObj([], NotExist, [], 0, 0.0, false, map[], [])

  // ---------------------------------------------------------------------------
  // Getters

  /** `obj.String()`. */
  function StringOf(o: JsonObj): string {
    if o.valueType == String then o.stringValue else ""
  }

  /** `obj.Int()`. */
  function IntOf(o: JsonObj): Strconv.Int64 {
    if o.valueType == Number then o.intValue else 0
  }

  /** `obj.Float()`. */
  function FloatOf(o: JsonObj): real {
    if o.valueType == Number then o.floatValue else 0.0
  }

  /** `obj.Bool()`. */
  function BoolOf(o: JsonObj): bool {
    if o.valueType == Boolean then o.boolValue else false
  }

  /** A getter reads a field only on a node of its own kind, and the zero value on any
      other node. */
  lemma GettersReadOnlyTheirKind(o: JsonObj)
    ensures StringOf(o) != "" ==> IsString(o) && StringOf(o) == o.stringValue
    ensures IntOf(o) != 0 || FloatOf(o) != 0.0 ==> IsNumber(o)
    ensures BoolOf(o) ==> IsBool(o) && o.boolValue
    ensures !IsString(o) ==> StringOf(o) == ""
    ensures !IsNumber(o) ==> IntOf(o) == 0 && FloatOf(o) == 0.0
    ensures !IsBool(o) ==> !BoolOf(o)
  {
  }

  /** `obj.Type()`: the kind the node was built as, whose name `TypeString` gives. */
  function TypeOf(o: JsonObj): (t: ValueType)
    ensures t == o.valueType
    ensures TypeString(o) == "unknown" <==> t == NotExist || t == Unknown
  {
    o.valueType
  }

  /** `obj.TypeString()`: a distinct name per kind, "unknown" for `NotExist` and `Unknown`. */
  function TypeString(o: JsonObj): (r: string)
    ensures r == "unknown" <==> o.valueType == NotExist || o.valueType == Unknown
    ensures r in {"string", "number", "boolean", "null", "object", "array", "unknown"}
  {
    match o.valueType
    case String => "string"
    case Number => "number"
    case Boolean => "boolean"
    case Null => "null"
    case Object => "object"
    case Array => "array"
    case _ => "unknown"
  }

  /** Two nodes of different known kinds never share a type name. */
  lemma TypeStringDistinguishesKinds(a: JsonObj, b: JsonObj)
    requires a.valueType !in {NotExist, Unknown} && b.valueType !in {NotExist, Unknown}
    ensures TypeString(a) == TypeString(b) <==> a.valueType == b.valueType
  {
  }

  /** The kind tests: each holds exactly when `TypeString` names that kind. */
  function IsNull(o: JsonObj): (r: bool)
    ensures r <==> TypeString(o) == "null"
  {
    o.valueType == Null
  }

  function IsString(o: JsonObj): (r: bool)
    ensures r <==> TypeString(o) == "string"
  {
    o.valueType == String
  }

  function IsNumber(o: JsonObj): (r: bool)
    ensures r <==> TypeString(o) == "number"
  {
    o.valueType == Number
  }

  function IsObject(o: JsonObj): (r: bool)
    ensures r <==> TypeString(o) == "object"
  {
    o.valueType == Object
  }

  function IsBool(o: JsonObj): (r: bool)
    ensures r <==> TypeString(o) == "boolean"
  {
    o.valueType == Boolean
  }

  /** `IsBoollean` (sic) answers as `IsBool` does. */
  function IsBoollean(o: JsonObj): (r: bool)
    ensures r == IsBool(o)
  {
    o.valueType == Boolean
  }

  /** `obj.IsArray()` as written: it compares against `Object`, not `Array`. */
  function IsArray(o: JsonObj): (r: bool)
    ensures r <==> IsObject(o)
  {
    o.valueType == Object
  }

  /** What `IsArray` is evidently meant to report. */
  function IsArrayIntended(o: JsonObj): (r: bool)
    ensures r <==> o.valueType == Array
    ensures r ==> !IsObject(o)
  {
    o.valueType == Array
  }

  /** The as-written `IsArray` answers false for an array node and true for an object
      node; the intended predicate answers the other way round. */
  lemma IsArrayMisreports()
    ensures !IsArray(NewArrayObject()) && IsArray(NewObjectObject())
    ensures IsArrayIntended(NewArrayObject()) && !IsArrayIntended(NewObjectObject())
  {
  }

  // ---------------------------------------------------------------------------
  // Constructors

  /** `NewStringObject(s)`. */
  function NewStringObject(s: string): (o: JsonObj)
    ensures IsString(o) && StringOf(o) == s
    ensures IntOf(o) == 0 && FloatOf(o) == 0.0 && !BoolOf(o)
  {
    Zero.(valueType := String, stringValue := s)
  }

  /** `NewIntObject(i)`: the float field holds `float64(i)`, the same number whenever
      its magnitude is at most 2^53. */
  function NewIntObject(i: Strconv.Int64): (o: JsonObj)
    ensures IsNumber(o) && IntOf(o) == i && FloatOf(o) == Strconv.Float64OfInt(i) as real
    ensures -Strconv.TwoTo53 <= i <= Strconv.TwoTo53 ==> FloatOf(o) == i as real
    ensures StringOf(o) == "" && !BoolOf(o)
  {
    Zero.(valueType := Number, intValue := i, floatValue := Strconv.Float64OfInt(i) as real)
  }

  /** 2^53 + 1 has no float64 of its own: the float field holds 2^53. */
  lemma LargeIntFloatIsRounded()
    ensures IntOf(NewIntObject(Strconv.TwoTo53 + 1)) == Strconv.TwoTo53 + 1
    ensures FloatOf(NewIntObject(Strconv.TwoTo53 + 1)) == Strconv.TwoTo53 as real
  {
    Strconv.FirstInexactInt();
  }

  /** Go's `int64(f)`: truncation toward zero when the result fits; otherwise the
      language leaves the value to the implementation, which supplies `outOfRange`. */
  function Int64OfFloat(f: real, outOfRange: Strconv.Int64): (i: Strconv.Int64)
    ensures Strconv.MinInt64 as real <= f < Strconv.MaxInt64 as real + 1.0 ==>
      (i as real) <= f < (i as real) + 1.0 || (i as real) - 1.0 < f <= (i as real)
    ensures f >= 0.0 && f < Strconv.MaxInt64 as real + 1.0 ==> i as real <= f < (i as real) + 1.0
    ensures f < 0.0 && f > Strconv.MinInt64 as real - 1.0 ==> (i as real) - 1.0 < f <= i as real
  {
    var t := if f >= 0.0 then f.Floor else -((-f).Floor);
    if Strconv.MinInt64 <= t <= Strconv.MaxInt64 then t else outOfRange
  }

  /** `NewFloatObject(f)`: the int field holds the truncated value. */
  function NewFloatObject(f: real, outOfRange: Strconv.Int64): (o: JsonObj)
    ensures IsNumber(o) && FloatOf(o) == f && IntOf(o) == Int64OfFloat(f, outOfRange)
  {
    Zero.(valueType := Number, intValue := Int64OfFloat(f, outOfRange), floatValue := f)
  }

  /** `NewBoolObject(b)`. */
  function NewBoolObject(b: bool): (o: JsonObj)
    ensures IsBool(o) && BoolOf(o) == b
    ensures StringOf(o) == "" && IntOf(o) == 0
  {
    Zero.(valueType := Boolean, boolValue := b)
  }

  /** `NewNullObject()`. */
  function NewNullObject(): (o: JsonObj)
    ensures IsNull(o) && StringOf(o) == "" && IntOf(o) == 0 && !BoolOf(o)
  {
    Zero.(valueType := Null)
  }

  /** `NewObjectObject()`: an object with no children. */
  function NewObjectObject(): (o: JsonObj)
    ensures IsObject(o) && o.objChildren == map[]
    ensures GetByKey(o, []) == Ok(o)
  {
    Zero.(valueType := Object)
  }

  /** `NewArrayObject()`: an array with no children. */
  function NewArrayObject(): (o: JsonObj)
    ensures o.valueType == Array && o.arrChildren == []
    ensures GetAtIndex(o, 0) == Err(JsonConv.IndexOutOfBoundsError)
  {
    Zero.(valueType := Array)
  }

  // ---------------------------------------------------------------------------
  // parseObject / parseArray

  /** What jsonparser reports for one value: its type and the raw text, with the
      entries of a nested object and the items of a nested array already scanned.
      `RawOther` stands for `NotExist` and `Unknown`. */
  datatype Raw =
    | RawString(text: string)
    | RawNumber(text: string)
    | RawObject(entries: seq<RawEntry>)
    | RawArray(items: seq<Raw>)
    | RawBoolean(text: string)
    | RawNull
    | RawOther

  /** One `(key, value, dataType)` callback of `ObjectEach`. */
  datatype RawEntry = RawEntry(key: string, value: Raw)

  /** The child node the callbacks of `parseObject` and `parseArray` build for one
      value, or None when they skip it (a boolean text `ParseBool` rejects, or an
      unknown type). The nested `parseObject`/`parseArray` calls always return nil,
      so nested containers are always kept. A nested number keeps only its text. */
  function ChildOf(r: Raw): Option<JsonObj>
    decreases r, 1
  {
    match r
    case RawString(t) => Some(NewStringObject(t))
    case RawNumber(t) => Some(Zero.(valueType := Number, origBytes := t))
    case RawObject(es) => Some(NewObjectObject().(objChildren := ObjectChildren(es)))
    case RawArray(xs) => Some(NewArrayObject().(arrChildren := ArrayChildren(xs)))
    case RawBoolean(t) =>
      (match Strconv.ParseBool(t)
       case Some(b) => Some(NewBoolObject(b))
       case None => None)
    case RawNull => Some(NewNullObject())
    case RawOther => None
  }

  /** The child map `parseObject` leaves: entries stored in order, so a later entry
      with the same key overwrites an earlier one. */
  function ObjectChildren(es: seq<RawEntry>): map<string, JsonObj>
    decreases es, 0
  {
    if es == [] then map[]
    else
      var m := ObjectChildren(es[..|es| - 1]);
      var e := es[|es| - 1];
      match ChildOf(e.value)
      case Some(c) => m[e.key := c]
      case None => m
  }

  /** The child slice `parseArray` leaves: kept children appended in order. */
  function ArrayChildren(xs: seq<Raw>): seq<JsonObj>
    decreases xs, 0
  {
    if xs == [] then []
    else
      var s := ArrayChildren(xs[..|xs| - 1]);
      match ChildOf(xs[|xs| - 1])
      case Some(c) => s + [c]
      case None => s
  }

  /** The switch shared by the two callbacks: builds the child for one value. */
  method NewChild(r: Raw) returns (child: Option<JsonObj>)
    ensures child == ChildOf(r)
    decreases r, 1
  {
    match r
    case RawString(t) =>
      child := Some(NewStringObject(t));
    case RawNumber(t) =>
      var c := Zero;
      c := c.(valueType := Number);
      c := c.(origBytes := t);
      child := Some(c);
    case RawObject(es) =>
      var c := ParseObject(es);
      child := Some(c);
    case RawArray(xs) =>
      var c := ParseArray(xs);
      child := Some(c);
    case RawBoolean(t) =>
      var b := Strconv.ParseBool(t);
      if b.Some? {
        child := Some(NewBoolObject(b.value));
      } else {
        child := None;
      }
    case RawNull =>
      child := Some(NewNullObject());
    case RawOther =>
      child := None;
  }

  /** `NewObjectObject()` followed by `parseObject` on the reported entries. */
  method ParseObject(es: seq<RawEntry>) returns (obj: JsonObj)
    ensures obj == NewObjectObject().(objChildren := ObjectChildren(es))
    decreases es, 0
  {
    obj := NewObjectObject();
    var i := 0;
    while i < |es|
      invariant 0 <= i <= |es|
      invariant obj == NewObjectObject().(objChildren := ObjectChildren(es[..i]))
    {
      assert es[..i + 1][..i] == es[..i];
      var child := NewChild(es[i].value);
      if child.Some? {
        obj := obj.(objChildren := obj.objChildren[es[i].key := child.value]);
      }
      i := i + 1;
    }
    assert es[..i] == es;
  }

  /** `NewArrayObject()` followed by `parseArray` on the reported items. */
  method ParseArray(xs: seq<Raw>) returns (obj: JsonObj)
    ensures obj == NewArrayObject().(arrChildren := ArrayChildren(xs))
    decreases xs, 0
  {
    obj := NewArrayObject();
    var i := 0;
    while i < |xs|
      invariant 0 <= i <= |xs|
      invariant obj == NewArrayObject().(arrChildren := ArrayChildren(xs[..i]))
    {
      assert xs[..i + 1][..i] == xs[..i];
      var child := NewChild(xs[i]);
      if child.Some? {
        obj := obj.(arrChildren := obj.arrChildren + [child.value]);
      }
      i := i + 1;
    }
    assert xs[..i] == xs;
  }

  /** A key is present after `parseObject` exactly when some entry with that key
      produced a child. */
  lemma {:induction false} ObjectChildrenKeys(es: seq<RawEntry>, k: string)
    ensures k in ObjectChildren(es) <==>
      exists j :: 0 <= j < |es| && es[j].key == k && ChildOf(es[j].value).Some?
  {
    if es != [] {
      var p := es[..|es| - 1];
      ObjectChildrenKeys(p, k);
      assert forall j :: 0 <= j < |p| ==> p[j] == es[j];
    }
  }

  /** A repeated key keeps the child of its last kept entry. */
  lemma {:induction false} ObjectChildrenLastWins(es: seq<RawEntry>, j: nat)
    requires j < |es| && ChildOf(es[j].value).Some?
    requires forall l :: j < l < |es| && es[l].key == es[j].key ==> ChildOf(es[l].value).None?
    ensures es[j].key in ObjectChildren(es)
    ensures ObjectChildren(es)[es[j].key] == ChildOf(es[j].value).value
  {
    var p := es[..|es| - 1];
    if j < |es| - 1 {
      assert p[j] == es[j];
      ObjectChildrenLastWins(p, j);
    }
  }

  /** `parseArray` preserves source order: it distributes over concatenation. */
  lemma {:induction false} ArrayChildrenConcat(a: seq<Raw>, b: seq<Raw>)
    ensures ArrayChildren(a + b) == ArrayChildren(a) + ArrayChildren(b)
    decreases |b|
  {
    if b == [] {
      assert a + b == a;
    } else {
      var b' := b[..|b| - 1];
      assert (a + b)[..|a + b| - 1] == a + b';
      assert (a + b)[|a + b| - 1] == b[|b| - 1];
      ArrayChildrenConcat(a, b');
    }
  }

  /** When every item is kept, child j is built from item j. */
  lemma {:induction false} ArrayChildrenAllKept(xs: seq<Raw>)
    requires forall j :: 0 <= j < |xs| ==> ChildOf(xs[j]).Some?
    ensures |ArrayChildren(xs)| == |xs|
    ensures forall j :: 0 <= j < |xs| ==> ArrayChildren(xs)[j] == ChildOf(xs[j]).value
  {
    if xs != [] {
      var p := xs[..|xs| - 1];
      assert forall j :: 0 <= j < |p| ==> p[j] == xs[j];
      ArrayChildrenAllKept(p);
    }
  }

  /** A nested number keeps only its raw text: its `Int()` and `Float()` read 0. */
  lemma NestedNumberReadsZero(t: string)
    ensures ChildOf(RawNumber(t)).Some?
    ensures var c := ChildOf(RawNumber(t)).value;
      IsNumber(c) && c.origBytes == t && IntOf(c) == 0 && FloatOf(c) == 0.0
  {
  }

  // ---------------------------------------------------------------------------
  // NewFromString

  /** The two jsonparser scans `NewFromString` relies on, applied to the text from the
      first `{` or `[` onwards. */
  datatype Scanner = Scanner(objectEntries: string -> seq<RawEntry>, arrayItems: string -> seq<Raw>)

  /** The characters `NewFromString` dispatches on; every other character is skipped. */
  predicate IsStarter(c: char) {
    c == '{' || c == '[' || c == '"' || c == 't' || c == 'f' || Strconv.IsDigit(c)
  }

  /** The string case: the text up to the next quote of `u`, the rest after the
      opening quote, with no escape decoding. */
  function QuotedString(u: string): (r: Result<JsonObj, JsonConv.Error>)
    ensures r.Ok? <==> '"' in u
    ensures r.Ok? ==> IsString(r.value) && '"' !in r.value.stringValue && r.value.stringValue + "\"" <= u
    ensures r.Err? ==> r.error == JsonConv.JsonFormatError
  {
    var next := GoStrings.IndexRune(u, '"');
    if next < 0 then Err(JsonConv.JsonFormatError)
    else
      assert u[..next] + "\"" == u[..next + 1] <= u;
      Ok(Zero.(valueType := String, stringValue := u[..next]))
  }

  /** The number case: `ParseInt` of the whole text, and `ParseFloat` of it. */
  function NumberText(t: string): (r: Result<JsonObj, JsonConv.Error>)
    ensures r.Ok? <==> Strconv.ParseInt(t).Ok?
    ensures r.Ok? ==> IsNumber(r.value) && IntOf(r.value) == Strconv.ParseInt(t).value
    ensures r.Err? ==> r.error.NumError?
  {
    match Strconv.ParseInt(t)
    case Err(e) => Err(JsonConv.NumError(e))
    case Ok(n) => Ok(Zero.(valueType := Number, intValue := n, floatValue := Strconv.Float64OfInt(n) as real))
  }

  /** The outcome once the first starter character has been found at the head of `t`. */
  function Dispatch(t: string, scan: Scanner): (r: Result<JsonObj, JsonConv.Error>)
    requires t != [] && IsStarter(t[0])
    ensures t[0] == '{' ==> r.Ok? && IsObject(r.value)
    ensures t[0] == '[' ==> r.Ok? && r.value.valueType == Array
    ensures t[0] == '"' ==> (r.Ok? <==> '"' in t[1..])
    ensures t[0] == '"' && r.Ok? ==>
      IsString(r.value) && '"' !in r.value.stringValue && r.value.stringValue + "\"" <= t[1..]
    ensures t[0] == 't' || t[0] == 'f' ==> (r.Ok? <==> t == "true" || t == "false")
    ensures (t[0] == 't' || t[0] == 'f') && r.Ok? ==> IsBool(r.value) && r.value.boolValue == (t == "true")
    ensures Strconv.IsDigit(t[0]) ==> (r.Ok? <==> Strconv.ParseInt(t).Ok?)
    ensures Strconv.IsDigit(t[0]) && r.Ok? ==> IsNumber(r.value) && IntOf(r.value) == Strconv.ParseInt(t).value
    ensures r.Err? ==> r.error == JsonConv.JsonFormatError || r.error.NumError?
  {
    if t[0] == '{' then Ok(NewObjectObject().(objChildren := ObjectChildren(scan.objectEntries(t))))
    else if t[0] == '[' then Ok(NewArrayObject().(arrChildren := ArrayChildren(scan.arrayItems(t))))
    else if t[0] == '"' then QuotedString(t[1..])
    else if t[0] == 't' then
      if t == "true" then Ok(Zero.(valueType := Boolean, boolValue := true)) else Err(JsonConv.JsonFormatError)
    else if t[0] == 'f' then
      if t == "false" then Ok(Zero.(valueType := Boolean, boolValue := false)) else Err(JsonConv.JsonFormatError)
    else NumberText(t)
  }

  /** `NewFromString` from position i on. */
  function RootAt(s: string, i: nat, scan: Scanner): (r: Result<JsonObj, JsonConv.Error>)
    requires i <= |s|
    ensures r.Ok? ==> r.value.valueType in {String, Number, Boolean, Object, Array}
    ensures r.Err? ==> r.error == JsonConv.JsonFormatError || r.error.NumError?
    decreases |s| - i
  {
    if i == |s| then Err(JsonConv.JsonFormatError)
    else if IsStarter(s[i]) then Dispatch(s[i..], scan)
    else RootAt(s, i + 1, scan)
  }

  /** `NewFromString(s)`: walks the code points, skipping whitespace and any other
      non-starter character, and returns from the first starter character. */
  method NewFromString(s: string, scan: Scanner) returns (r: Result<JsonObj, JsonConv.Error>)
    ensures r == RootAt(s, 0, scan)
  {
    var index := 0;
    while index < |s|
      invariant 0 <= index <= |s|
      invariant RootAt(s, 0, scan) == RootAt(s, index, scan)
    {
      var chr := s[index];
      if chr == ' ' || chr == '\r' || chr == '\n' || chr == '\t' {
        // continue
      } else if chr == '{' {
        var obj := ParseObject(scan.objectEntries(s[index..]));
        return Ok(obj);
      } else if chr == '[' {
        var obj := ParseArray(scan.arrayItems(s[index..]));
        return Ok(obj);
      } else if Strconv.IsDigit(chr) {
        var obj := Zero;
        obj := obj.(valueType := Number);
        var n := Strconv.ParseInt(s[index..]);
        if n.Err? {
          return Err(JsonConv.NumError(n.error));
        }
        // ParseFloat accepts every text ParseInt accepts and rounds it to the nearest float64.
        obj := obj.(intValue := n.value, floatValue := Strconv.Float64OfInt(n.value) as real);
        return Ok(obj);
      } else if chr == '"' {
        var obj := Zero;
        obj := obj.(valueType := String);
        var next := GoStrings.IndexRune(s[index + 1..], '"');
        if next < 0 {
          return Err(JsonConv.JsonFormatError);
        } else {
          assert s[index..][1..] == s[index + 1..];
          assert s[index + 1..][..next] == s[index + 1..index + 1 + next];
          obj := obj.(stringValue := s[index + 1..index + 1 + next]);
          return Ok(obj);
        }
      } else if chr == 't' {
        if s[index..] == "true" {
          var obj := Zero;
          obj := obj.(valueType := Boolean, boolValue := true);
          return Ok(obj);
        } else {
          return Err(JsonConv.JsonFormatError);
        }
      } else if chr == 'f' {
        if s[index..] == "false" {
          var obj := Zero;
          obj := obj.(valueType := Boolean, boolValue := false);
          return Ok(obj);
        } else {
          return Err(JsonConv.JsonFormatError);
        }
      }
      index := index + 1;
    }
    return Err(JsonConv.JsonFormatError);
  }

  /** Non-starter characters between i and j do not matter. */
  lemma {:induction false} RootSkips(s: string, i: nat, j: nat, scan: Scanner)
    requires i <= j <= |s|
    requires forall k :: i <= k < j ==> !IsStarter(s[k])
    ensures RootAt(s, i, scan) == RootAt(s, j, scan)
    decreases j - i
  {
    if i < j {
      RootSkips(s, i + 1, j, scan);
    }
  }

  /** The first starter character decides the result, on the text from it onwards. */
  lemma FirstStarterDecides(s: string, i: nat, scan: Scanner)
    requires i < |s| && IsStarter(s[i])
    requires forall k :: 0 <= k < i ==> !IsStarter(s[k])
    ensures RootAt(s, 0, scan) == Dispatch(s[i..], scan)
  {
    RootSkips(s, 0, i, scan);
  }

  /** Text without a starter character, such as "null" or "", is a format error. */
  lemma NoStarterIsFormatError(s: string, scan: Scanner)
    requires forall k :: 0 <= k < |s| ==> !IsStarter(s[k])
    ensures RootAt(s, 0, scan) == Err(JsonConv.JsonFormatError)
  {
    RootSkips(s, 0, |s|, scan);
  }

  /** Prefixing text without starters changes nothing. */
  lemma {:induction false} RootIgnoresNonStarterPrefix(p: string, q: string, scan: Scanner)
    requires forall k :: 0 <= k < |p| ==> !IsStarter(p[k])
    ensures RootAt(p + q, 0, scan) == RootAt(q, 0, scan)
  {
    var s := p + q;
    assert forall k :: 0 <= k < |p| ==> s[k] == p[k];
    RootSkips(s, 0, |p|, scan);
    RootShift(p, q, 0, scan);
  }

  lemma {:induction false} RootShift(p: string, q: string, j: nat, scan: Scanner)
    requires j <= |q|
    ensures RootAt(p + q, |p| + j, scan) == RootAt(q, j, scan)
    decreases |q| - j
  {
    var s := p + q;
    if j < |q| {
      assert s[|p| + j] == q[j];
      assert s[|p| + j..] == q[j..];
      RootShift(p, q, j + 1, scan);
    }
  }

  /** A leading minus sign is skipped like any non-starter: "-5" is the number 5. */
  lemma RootSkipsMinusSign(scan: Scanner)
    ensures RootAt("-5", 0, scan) == Ok(NewIntObject(5))
  {
    assert !IsStarter('-');
    assert "-5"[1..] == "5";
    assert Strconv.DigitPrefix("5") == 1;
    assert "5"[..1] == "5";
    assert Strconv.DigitsValue("5") == 5;
  }

  /** A root number must be an integer that fills the rest of the text. */
  lemma RootRejectsFraction(scan: Scanner)
    ensures RootAt("1.5", 0, scan) == Err(JsonConv.NumError(Strconv.ErrSyntax))
  {
    assert "1.5"[0..] == "1.5";
    assert Strconv.DigitPrefix("1.5") == 1;
    assert "1.5"[..1] == "1";
  }

  /** `null` has no starter character at all. */
  lemma RootRejectsNull(scan: Scanner)
    ensures RootAt("null", 0, scan) == Err(JsonConv.JsonFormatError)
  {
    NoStarterIsFormatError("null", scan);
  }

  /** A root string is the raw text up to the next quote, with no escape decoding. */
  lemma RootStringIsRaw(scan: Scanner)
    ensures RootAt(" \"a\\\"b\"", 0, scan) == Ok(NewStringObject("a\\"))
  {
    var s := " \"a\\\"b\"";
    assert !IsStarter(s[0]);
    assert s[1..] == "\"a\\\"b\"";
    StringIsRaw(scan);
  }

  /** The string case of the dispatch stops at the first quote after the opening one,
      even when a backslash precedes it. */
  lemma StringIsRaw(scan: Scanner)
    ensures Dispatch("\"a\\\"b\"", scan) == Ok(NewStringObject("a\\"))
  {
    var t := "\"a\\\"b\"";
    var u := t[1..];
    assert u == "a\\\"b\"";
    assert u[1..][1..] == "\"b\"";
    assert GoStrings.IndexRune(u[1..][1..], '"') == 0;
    assert GoStrings.IndexRune(u[1..], '"') == 1;
    assert GoStrings.IndexRune(u, '"') == 2;
    assert u[..2] == "a\\";
  }

  /** A root string without a closing quote is a format error. */
  lemma RootStringNeedsClosingQuote(scan: Scanner)
    ensures RootAt("\"ab", 0, scan) == Err(JsonConv.JsonFormatError)
  {
    assert "\"ab"[0..] == "\"ab";
    assert "\"ab"[1..] == "ab";
  }

  /** A root boolean must be the whole remaining text. */
  lemma RootBooleanFillsText(scan: Scanner)
    ensures RootAt("true ", 0, scan) == Err(JsonConv.JsonFormatError)
    ensures RootAt("\tfalse", 0, scan) == Ok(NewBoolObject(false))
  {
    assert "true "[0..] == "true ";
    assert !IsStarter('\t');
    assert "\tfalse"[1..] == "false";
  }

  // ---------------------------------------------------------------------------
  // Lookups

  /** `obj.GetByKey(keys...)`. */
  function GetByKey(o: JsonObj, keys: seq<string>): (r: Result<JsonObj, JsonConv.Error>)
    ensures o.valueType != Object ==> r == Err(JsonConv.NotAnObjectError)
    ensures o.valueType == Object && keys == [] ==> r == Ok(o)
    ensures r.Err? ==> r.error == JsonConv.NotAnObjectError || r.error == JsonConv.ObjectNotFoundError
    ensures o.valueType == Object && r.Err? ==> r.error == JsonConv.ObjectNotFoundError
    decreases |keys|
  {
    if o.valueType != Object then Err(JsonConv.NotAnObjectError)
    else if |keys| == 0 then Ok(o)
    else if |keys| == 1 then
      if keys[0] in o.objChildren then Ok(o.objChildren[keys[0]]) else Err(JsonConv.ObjectNotFoundError)
    else if keys[0] !in o.objChildren then Err(JsonConv.ObjectNotFoundError)
    else
      match GetByKey(o.objChildren[keys[0]], keys[1..])
      case Err(_) => Err(JsonConv.ObjectNotFoundError)
      case Ok(c) => Ok(c)
  }

  /** A key path, followed one step at a time: every node that is stepped out of must
      be an object holding the next key. */
  function Walk(o: JsonObj, keys: seq<string>): Option<JsonObj>
    decreases |keys|
  {
    if keys == [] then Some(o)
    else if o.valueType == Object && keys[0] in o.objChildren then Walk(o.objChildren[keys[0]], keys[1..])
    else None
  }

  /** On an object, `GetByKey` finds exactly what the step-by-step walk finds, and
      reports every miss as ObjectNotFoundError. */
  lemma {:induction false} GetByKeyIsWalk(o: JsonObj, keys: seq<string>)
    requires o.valueType == Object
    ensures GetByKey(o, keys) == match Walk(o, keys)
      case Some(c) => Ok(c)
      case None => Err(JsonConv.ObjectNotFoundError)
    decreases |keys|
  {
    if |keys| >= 2 && keys[0] in o.objChildren {
      var c := o.objChildren[keys[0]];
      if c.valueType == Object {
        GetByKeyIsWalk(c, keys[1..]);
      } else {
        assert keys[1..] != [];
      }
    }
  }

  /** Walking p + q walks p, then q from where p ended. */
  lemma {:induction false} WalkConcat(o: JsonObj, p: seq<string>, q: seq<string>)
    ensures Walk(o, p + q) == match Walk(o, p)
      case Some(c) => Walk(c, q)
      case None => None
    decreases |p|
  {
    if p == [] {
      assert p + q == q;
    } else {
      assert (p + q)[0] == p[0];
      assert (p + q)[1..] == p[1..] + q;
      if o.valueType == Object && p[0] in o.objChildren {
        WalkConcat(o.objChildren[p[0]], p[1..], q);
      }
    }
  }

  /** `obj.GetAtIndex(index)`; Go panics on a negative index, so it is a `nat` here. */
  function GetAtIndex(o: JsonObj, index: nat): (r: Result<JsonObj, JsonConv.Error>)
    ensures r.Ok? <==> o.valueType == Array && index < |o.arrChildren|
    ensures r.Ok? ==> r.value == o.arrChildren[index]
    ensures o.valueType != Array ==> r == Err(JsonConv.NotAnArrayError)
    ensures o.valueType == Array && index >= |o.arrChildren| ==> r == Err(JsonConv.IndexOutOfBoundsError)
  {
    if o.valueType == Array then
      if index < |o.arrChildren| then Ok(o.arrChildren[index]) else Err(JsonConv.IndexOutOfBoundsError)
    else Err(JsonConv.NotAnArrayError)
  }

  /** Reading back a parsed array: item j of the source is child j when every item is kept. */
  lemma GetAtIndexOfParsedArray(xs: seq<Raw>, j: nat)
    requires forall k :: 0 <= k < |xs| ==> ChildOf(xs[k]).Some?
    ensures var o := NewArrayObject().(arrChildren := ArrayChildren(xs));
      GetAtIndex(o, j) == if j < |xs| then Ok(ChildOf(xs[j]).value) else Err(JsonConv.IndexOutOfBoundsError)
  {
    ArrayChildrenAllKept(xs);
  }

  /** Reading back a parsed object: the last kept entry for a key answers `GetByKey`. */
  lemma GetByKeyOfParsedObject(es: seq<RawEntry>, j: nat)
    requires j < |es| && ChildOf(es[j].value).Some?
    requires forall l :: j < l < |es| && es[l].key == es[j].key ==> ChildOf(es[l].value).None?
    ensures var o := NewObjectObject().(objChildren := ObjectChildren(es));
      GetByKey(o, [es[j].key]) == Ok(ChildOf(es[j].value).value)
  {
    ObjectChildrenLastWins(es, j);
  }
}
