/** What the core receives from Go's `reflect`, `time` and `fmt` packages, as plain
    values: a struct becomes the sequence of its field records, and the formatting
    routines of the standard library become function parameters. */
module Fields {
  import Strconv

  /** A `time.Time`; its formatting is supplied by `Formatters.timeFormat`. */
  datatype Time = Time(unixNano: int)

  /** Standard-library formatting the core calls but does not define. */
  datatype Formatters = Formatters(
    /** `fmt.Sprintf("%.<p>f", f)`, equally `strconv.FormatFloat(f, 'f', p, 64)`. */
    fixed: (real, nat) -> string,
    /** `t.Format(layout)`. */
    timeFormat: (Time, string) -> string,
    /** `fmt.Sprintf(layout, f)` with one float argument. */
    sprintf: (string, real) -> string)

  /** `fixed` is `Sprintf` with the layout `%.<p>f`. */
  ghost predicate SprintfIsFixed(fmt: Formatters) {
    forall p: nat, f: real {:trigger fmt.fixed(f, p)} ::
      fmt.sprintf("%." + Strconv.FormatUint(p) + "f", f) == fmt.fixed(f, p)
  }

  /** The value of one struct field, classified the way the mappers switch on it:
      by `reflect.Kind`, and for struct kinds by the type's name. */
  datatype FieldValue =
    | IntValue(i: Strconv.Int64)                  // int, int8 .. int64: value.Int()
    | UintValue(u: Strconv.Uint64)                // uint, uint8 .. uint64: value.Uint()
    | StringValue(s: string)
    | BoolValue(b: bool)
    | FloatValue(f: real)                         // float32, float64: value.Float()
    | NullString(s: string, valid: bool)          // sql.NullString
    | NullInt64(i: Strconv.Int64, valid: bool)    // sql.NullInt64
    | NullBool(b: bool, valid: bool)              // sql.NullBool
    | NullFloat64(f: real, valid: bool)           // sql.NullFloat64
    | NullTime(t: Time, valid: bool)              // mysql.NullTime
    | TimeValue(t: Time)                          // time.Time
    | OtherStruct(typeName: string)               // any other struct type
    | OtherKind                                   // maps, slices, pointers, ...

  /** One `reflect.StructField` with its value: the name, the full text of the
      `json` and `db` tags (`Tag.Get` gives "" for a missing tag) and the value. */
  datatype Field = Field(name: string, jsonTag: string, dbTag: string, value: FieldValue)

  /** The `interface{}` argument of the entry points: a struct, a non-nil pointer to
      a struct, or a non-nil value that is neither a struct nor a pointer. Go panics on
      the remaining arguments (nil, a nil pointer to a struct with fields, a pointer to
      something other than a struct), so they are not arguments here. */
  datatype Argument = StructArg(fields: seq<Field>) | PointerArg(target: seq<Field>) | OtherArg
}
