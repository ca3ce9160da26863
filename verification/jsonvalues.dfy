/** Model of jsonconv/valueshortcuts.go: the `New*` constructors of `JsonValue` and
    the `Set*` / `Append*` / `Insert*` shortcuts.

    The `JsonValue` type itself and its `Set`, `Append` and `Insert` methods are not
    part of this model; the fields below are the ones the constructors assign, and
    the three methods are supplied as function parameters (`Editor`). */
module JsonValues {
  import opened Wrappers
  import Strconv
  import JsonConv
  import JsonObjects

  /** A `*JsonValue`, restricted to the fields the constructors touch. */
  datatype JsonValue = JsonValue(
    valueType: JsonObjects.ValueType,
    stringValue: string,
    intValue: Strconv.Int64,
    uintValue: Strconv.Uint64,
    floatValue: real,
    boolValue: bool,
    mustSigned: bool,
    mustUnsigned: bool,
    mustFloat: bool,
    objChildren: map<string, JsonValue>,
    arrChildren: seq<JsonValue>)

  /** `new(JsonValue)`. */
  const Zero := JsonValue(JsonObjects.NotExist, [], 0, 0, 0.0, false, false, false, false, map[], [])

  /** The mask `NewUint64` tests: 0x1000000000000000 is 2^60, bit 60. */
  const UnsignedMask: int := 0x1000_0000_0000_0000

  /** `NewString(s)`. */
  function NewString(s: string): (v: JsonValue)
    ensures v.valueType == JsonObjects.String && v.stringValue == s
    ensures !v.mustSigned && !v.mustUnsigned && !v.mustFloat
  {
    Zero.(valueType := JsonObjects.String, stringValue := s)
  }

  /** `NewInt64(i)`: the unsigned field holds the same 64 bits, exactly one of the
      two sign flags is set, by the sign of i, and the float field holds `float64(i)`. */
  function NewInt64(i: Strconv.Int64): (v: JsonValue)
    ensures v.valueType == JsonObjects.Number
    ensures v.intValue == i && v.floatValue == Strconv.Float64OfInt(i) as real
    ensures -Strconv.TwoTo53 <= i <= Strconv.TwoTo53 ==> v.floatValue == i as real
    ensures (v.uintValue - i) % Strconv.TwoTo64 == 0
    ensures v.mustSigned <==> i < 0
    ensures v.mustUnsigned <==> i >= 0
    ensures !v.mustFloat
  {
    var obj := Zero.(valueType := JsonObjects.Number, intValue := i, floatValue := Strconv.Float64OfInt(i) as real,
                     uintValue := Strconv.Int64ToUint64(i));
    if i < 0 then obj.(mustSigned := true) else obj.(mustUnsigned := true)
  }

  /** `NewUint64(u)` as written: the signed field holds the two's-complement reading
      of u, and `mustUnsigned` follows bit 60 of u. */
  function NewUint64(u: Strconv.Uint64): (v: JsonValue)
    ensures v.valueType == JsonObjects.Number
    ensures v.uintValue == u && v.floatValue == Strconv.Float64OfInt(u) as real
    ensures u <= Strconv.TwoTo53 ==> v.floatValue == u as real
    ensures (u - v.intValue) % Strconv.TwoTo64 == 0 && (v.intValue < 0 <==> u > Strconv.MaxInt64)
    ensures v.mustUnsigned <==> (u / UnsignedMask) % 2 == 1
    ensures !v.mustSigned && !v.mustFloat
  {
    var obj := Zero.(valueType := JsonObjects.Number, intValue := Strconv.Uint64ToInt64(u),
                     floatValue := Strconv.Float64OfInt(u) as real, uintValue := u);
    if (u / UnsignedMask) % 2 == 1 then obj.(mustUnsigned := true) else obj
  }

  /** The mask is bit 60, so the flag of `NewUint64` is set for 2^60, which fits in an
      int64, and not for 2^63, which does not and reads back as a negative int64. */
  lemma UnsignedFlagIsBit60()
    ensures NewUint64(0x1000_0000_0000_0000).mustUnsigned
    ensures NewUint64(0x1000_0000_0000_0000).intValue == 0x1000_0000_0000_0000
    ensures !NewUint64(0x8000_0000_0000_0000).mustUnsigned
    ensures NewUint64(0x8000_0000_0000_0000).intValue < 0
  {
  }

  /** `NewInt32(i)`: `NewInt64` of the widened value. */
  function NewInt32(i: Strconv.Int32): (v: JsonValue)
    ensures v == NewInt64(i)
    ensures v.mustSigned != v.mustUnsigned
    ensures v.intValue == i && v.floatValue == i as real
  {
    NewInt64(i as Strconv.Int64)
  }

  /** `NewInt(i)`: Go's `int` is taken to be 64 bits wide. */
  function NewInt(i: Strconv.Int64): (v: JsonValue)
    ensures v == NewInt64(i)
    ensures v.intValue == i && v.mustSigned != v.mustUnsigned
  {
    NewInt64(i)
  }

  /** `NewUint32(u)`: `NewUint64` of the widened value, which never has bit 60 set. */
  function NewUint32(u: Strconv.Uint32): (v: JsonValue)
    ensures v == NewUint64(u)
    ensures !v.mustUnsigned && !v.mustSigned && v.intValue == u
    ensures v.uintValue == u && v.floatValue == u as real
  {
    NewUint64(u as Strconv.Uint64)
  }

  /** `NewUint(u)`: Go's `uint` is taken to be 64 bits wide. */
  function NewUint(u: Strconv.Uint64): (v: JsonValue)
    ensures v == NewUint64(u)
    ensures v.uintValue == u && !v.mustSigned && !v.mustFloat
  {
    NewUint64(u)
  }

  /** `NewFloat(f)`: marked float and signed, with the truncated value in the int field
      (`outOfRange` is the implementation's `int64(f)` when f does not fit). */
  function NewFloat(f: real, outOfRange: Strconv.Int64): (v: JsonValue)
    ensures v.valueType == JsonObjects.Number && v.floatValue == f
    ensures v.intValue == JsonObjects.Int64OfFloat(f, outOfRange) && v.uintValue == 0
    ensures v.mustFloat && v.mustSigned && !v.mustUnsigned
  {
    Zero.(valueType := JsonObjects.Number, intValue := JsonObjects.Int64OfFloat(f, outOfRange),
          floatValue := f, mustFloat := true, mustSigned := true)
  }

  /** `NewBool(b)`. */
  function NewBool(b: bool): (v: JsonValue)
    ensures v.valueType == JsonObjects.Boolean && v.boolValue == b
    ensures !v.mustSigned && !v.mustUnsigned && !v.mustFloat
  {
    Zero.(valueType := JsonObjects.Boolean, boolValue := b)
  }

  /** `NewBoolean(b)`, written out separately in the source. */
  function NewBoolean(b: bool): (v: JsonValue)
    ensures v.valueType == JsonObjects.Boolean && v.boolValue == b
  {
    Zero.(valueType := JsonObjects.Boolean, boolValue := b)
  }

  /** The two boolean constructors build the same value. */
  lemma NewBoolIsNewBoolean(b: bool)
    ensures NewBool(b) == NewBoolean(b)
  {
  }

  /** `NewNull()`. */
  function NewNull(): (v: JsonValue)
    ensures v.valueType == JsonObjects.Null
    ensures v.stringValue == [] && v.intValue == 0 && !v.boolValue
  {
    Zero.(valueType := JsonObjects.Null)
  }

  /** `NewObject()`: an object with no members. */
  function NewObject(): (v: JsonValue)
    ensures v.valueType == JsonObjects.Object && v.objChildren == map[] && v.arrChildren == []
  {
    Zero.(valueType := JsonObjects.Object)
  }

  /** `NewArray()`: an array with no elements. */
  function NewArray(): (v: JsonValue)
    ensures v.valueType == JsonObjects.Array && v.arrChildren == [] && v.objChildren == map[]
  {
    Zero.(valueType := JsonObjects.Array)
  }

  // ---------------------------------------------------------------------------
  // Set* / Append* / Insert*

  /** One `interface{}` element of a path: an object key or an array index. */
  datatype PathKey = KeyName(name: string) | KeyIndex(index: int)

  /** What `Set`, `Append` and `Insert` return. */
  type Outcome = Result<JsonValue, JsonConv.Error>

  /** The three editing methods of `JsonValue`, whose code is not part of this model:
      `setValue(target, v, first, keys)` for `target.Set(v, first, keys...)`, and likewise `appendValue` and `insertValue`. */
  datatype Editor = Editor(
    setValue: (JsonValue, JsonValue, PathKey, seq<PathKey>) -> Outcome,
    appendValue: (JsonValue, JsonValue, seq<PathKey>) -> Outcome,
    insertValue: (JsonValue, JsonValue, PathKey, seq<PathKey>) -> Outcome)

  /** The value argument of a shortcut; the `Xxx` of `SetXxx`, `AppendXxx`, `InsertXxx`. */
  datatype Scalar =
    | ScalarString(s: string)
    | ScalarBoolean(b: bool)
    | ScalarBool(b: bool)
    | ScalarNull
    | ScalarInt64(i: Strconv.Int64)
    | ScalarUint64(u: Strconv.Uint64)
    | ScalarInt32(i32: Strconv.Int32)
    | ScalarUint32(u32: Strconv.Uint32)
    | ScalarInt(i: Strconv.Int64)
    | ScalarUint(u: Strconv.Uint64)
    | ScalarFloat(f: real, outOfRange: Strconv.Int64)

  /** The `New*` constructor each shortcut calls (both boolean shortcuts call `NewBool`). */
  function NewOf(x: Scalar): (v: JsonValue)
    ensures x.ScalarString? ==> v == NewString(x.s)
    ensures x.ScalarBoolean? || x.ScalarBool? ==> v == NewBool(x.b)
    ensures x.ScalarInt32? ==> v == NewInt64(x.i32)
    ensures x.ScalarUint32? ==> v == NewUint64(x.u32)
    ensures x.ScalarInt64? || x.ScalarInt? ==> v == NewInt64(x.i)
    ensures x.ScalarUint64? || x.ScalarUint? ==> v == NewUint64(x.u)
    ensures x.ScalarNull? ==> v == NewNull()
    ensures x.ScalarFloat? ==> v == NewFloat(x.f, x.outOfRange)
  {
    match x
    case ScalarString(s) => NewString(s)
    case ScalarBoolean(b) => NewBool(b)
    case ScalarBool(b) => NewBool(b)
    case ScalarNull => NewNull()
    case ScalarInt64(i) => NewInt64(i)
    case ScalarUint64(u) => NewUint64(u)
    case ScalarInt32(i) => NewInt32(i)
    case ScalarUint32(u) => NewUint32(u)
    case ScalarInt(i) => NewInt(i)
    case ScalarUint(u) => NewUint(u)
    case ScalarFloat(f, o) => NewFloat(f, o)
  }

  /** `this.SetXxx(x, first, keys...)`: `Set` of the value the matching constructor builds. */
  function SetScalar(ed: Editor, target: JsonValue, x: Scalar, first: PathKey, keys: seq<PathKey>): (r: Outcome)
    ensures x.ScalarString? ==> r == ed.setValue(target, NewString(x.s), first, keys)
    ensures x.ScalarBoolean? || x.ScalarBool? ==> r == ed.setValue(target, NewBool(x.b), first, keys)
    ensures x.ScalarNull? ==> r == ed.setValue(target, NewNull(), first, keys)
    ensures x.ScalarInt32? ==> r == ed.setValue(target, NewInt64(x.i32), first, keys)
    ensures x.ScalarInt64? || x.ScalarInt? ==> r == ed.setValue(target, NewInt64(x.i), first, keys)
    ensures x.ScalarUint32? ==> r == ed.setValue(target, NewUint64(x.u32), first, keys)
    ensures x.ScalarUint64? || x.ScalarUint? ==> r == ed.setValue(target, NewUint64(x.u), first, keys)
    ensures x.ScalarFloat? ==> r == ed.setValue(target, NewFloat(x.f, x.outOfRange), first, keys)
  {
    ed.setValue(target, NewOf(x), first, keys)
  }

  /** `this.AppendXxx(x, keys...)`: `Append` of the value the matching constructor builds. */
  function AppendScalar(ed: Editor, target: JsonValue, x: Scalar, keys: seq<PathKey>): (r: Outcome)
    ensures x.ScalarString? ==> r == ed.appendValue(target, NewString(x.s), keys)
    ensures x.ScalarBoolean? || x.ScalarBool? ==> r == ed.appendValue(target, NewBool(x.b), keys)
    ensures x.ScalarNull? ==> r == ed.appendValue(target, NewNull(), keys)
    ensures x.ScalarInt32? ==> r == ed.appendValue(target, NewInt64(x.i32), keys)
    ensures x.ScalarInt64? || x.ScalarInt? ==> r == ed.appendValue(target, NewInt64(x.i), keys)
    ensures x.ScalarUint32? ==> r == ed.appendValue(target, NewUint64(x.u32), keys)
    ensures x.ScalarUint64? || x.ScalarUint? ==> r == ed.appendValue(target, NewUint64(x.u), keys)
    ensures x.ScalarFloat? ==> r == ed.appendValue(target, NewFloat(x.f, x.outOfRange), keys)
  {
    ed.appendValue(target, NewOf(x), keys)
  }

  /** `this.InsertXxx(x, first, keys...)`: `Insert` of the value the matching constructor builds. */
  function InsertScalar(ed: Editor, target: JsonValue, x: Scalar, first: PathKey, keys: seq<PathKey>): (r: Outcome)
    ensures x.ScalarString? ==> r == ed.insertValue(target, NewString(x.s), first, keys)
    ensures x.ScalarBoolean? || x.ScalarBool? ==> r == ed.insertValue(target, NewBool(x.b), first, keys)
    ensures x.ScalarNull? ==> r == ed.insertValue(target, NewNull(), first, keys)
    ensures x.ScalarInt32? ==> r == ed.insertValue(target, NewInt64(x.i32), first, keys)
    ensures x.ScalarInt64? || x.ScalarInt? ==> r == ed.insertValue(target, NewInt64(x.i), first, keys)
    ensures x.ScalarUint32? ==> r == ed.insertValue(target, NewUint64(x.u32), first, keys)
    ensures x.ScalarUint64? || x.ScalarUint? ==> r == ed.insertValue(target, NewUint64(x.u), first, keys)
    ensures x.ScalarFloat? ==> r == ed.insertValue(target, NewFloat(x.f, x.outOfRange), first, keys)
  {
    ed.insertValue(target, NewOf(x), first, keys)
  }

  /** Shortcuts that differ only in the width or the spelling of their argument type
      do the same thing, whatever the editing methods do. */
  lemma ShortcutsAgree(ed: Editor, target: JsonValue, first: PathKey, keys: seq<PathKey>,
                       b: bool, i: Strconv.Int32, u: Strconv.Uint32, n: Strconv.Int64, m: Strconv.Uint64)
    ensures SetScalar(ed, target, ScalarBoolean(b), first, keys) == SetScalar(ed, target, ScalarBool(b), first, keys)
    ensures AppendScalar(ed, target, ScalarBoolean(b), keys) == AppendScalar(ed, target, ScalarBool(b), keys)
    ensures InsertScalar(ed, target, ScalarBoolean(b), first, keys) == InsertScalar(ed, target, ScalarBool(b), first, keys)
    ensures SetScalar(ed, target, ScalarInt32(i), first, keys) == SetScalar(ed, target, ScalarInt64(i), first, keys)
    ensures SetScalar(ed, target, ScalarUint32(u), first, keys) == SetScalar(ed, target, ScalarUint64(u), first, keys)
    ensures SetScalar(ed, target, ScalarInt(n), first, keys) == SetScalar(ed, target, ScalarInt64(n), first, keys)
    ensures SetScalar(ed, target, ScalarUint(m), first, keys) == SetScalar(ed, target, ScalarUint64(m), first, keys)
    ensures AppendScalar(ed, target, ScalarInt32(i), keys) == AppendScalar(ed, target, ScalarInt64(i), keys)
    ensures AppendScalar(ed, target, ScalarUint32(u), keys) == AppendScalar(ed, target, ScalarUint64(u), keys)
    ensures AppendScalar(ed, target, ScalarInt(n), keys) == AppendScalar(ed, target, ScalarInt64(n), keys)
    ensures AppendScalar(ed, target, ScalarUint(m), keys) == AppendScalar(ed, target, ScalarUint64(m), keys)
    ensures InsertScalar(ed, target, ScalarInt32(i), first, keys) == InsertScalar(ed, target, ScalarInt64(i), first, keys)
    ensures InsertScalar(ed, target, ScalarUint32(u), first, keys) == InsertScalar(ed, target, ScalarUint64(u), first, keys)
    ensures InsertScalar(ed, target, ScalarInt(n), first, keys) == InsertScalar(ed, target, ScalarInt64(n), first, keys)
    ensures InsertScalar(ed, target, ScalarUint(m), first, keys) == InsertScalar(ed, target, ScalarUint64(m), first, keys)
  {
    NewOfAgree(b, i, u, n, m);
  }

  /** The constructors behind shortcuts of the same family build the same value. */
  lemma NewOfAgree(b: bool, i: Strconv.Int32, u: Strconv.Uint32, n: Strconv.Int64, m: Strconv.Uint64)
    ensures NewOf(ScalarBoolean(b)) == NewOf(ScalarBool(b))
    ensures NewOf(ScalarInt32(i)) == NewOf(ScalarInt64(i))
    ensures NewOf(ScalarUint32(u)) == NewOf(ScalarUint64(u))
    ensures NewOf(ScalarInt(n)) == NewOf(ScalarInt64(n))
    ensures NewOf(ScalarUint(m)) == NewOf(ScalarUint64(m))
  {
  }
}
