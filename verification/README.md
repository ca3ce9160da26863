# go-tools core, modelled in Dafny

This project models the data-conversion core of the Go module
`github.com/Andrew-M-C/go-tools` and proves properties of the model. It covers:

- **jsonconv**: the JSON string escaper, the float and time text helpers, and the
  SQL-row to JSON mapper (`jsonconv/sql2json.go`). The mapper collects keys and
  values into two parallel lists, and the class `KeyValueLists` models them.
- **jsonconv** also has a small JSON object reader (`jsonconv/jsonObj.go`). It
  builds a `JsonObj` tree from the scanner's output, and `GetByKey` and
  `GetAtIndex` look things up in it.
- **jsonconv** also has the `JsonValue` shortcut constructors
  (`jsonconv/valueshortcuts.go`).
- **json**: the older SQL-row to JSON mapper (`json/sql2json.go`), which stores
  into a `map[string]string`. The class `KeyValueMap` models it, and the model
  proves how it relates to the newer mapper.
- **sqlconv**: builds the column and literal lists of an `INSERT`/`UPDATE`
  statement from a struct, together with the quote-aware string escaper.
- **xmlconv**:
  - the `Item` tree;
  - its stack and decoder (`NewFromBytes`);
  - long-path access (`GetChild`, `SetChild`, `SetEmptyChild`,
    `SetChildBytes`, `SetChildString`);
  - marshalling back to text.
- **str**: `Empty` and `Valid`. **logger/console.go**: the goroutine-id padding
  `goidToStr`.

Go integers are modelled as unbounded `int` restricted to the Go type's range
(`Strconv.Int64`, `Strconv.Uint64`, …). Every conversion between signed and
unsigned is written out as a wrap-around modulo 2^64.

Go strings are sequences of code points (`string` here). `[]byte` and `string`
convert into each other unchanged in the xmlconv model.

Some standard-library and third-party calls fall outside the model. They become
parameters or records:

| Go call | Stand-in in the model |
|---|---|
| `fmt.Sprintf`, `time.Format` | the `Fields.Formatters` record |
| `reflect` struct walks | `Fields.Field` / `Fields.FieldValue` / `Fields.Argument` records |
| the order of a Go map `range` in the older SQL mapper | a key chosen with `:|` from the keys not yet written |
| `jsonparser` | the `Raw` tree and a `Scanner` |
| `encoding/xml` tokenizer | a `tokenize` function that yields tokens and an ending |
| the order of a Go map `range` in xmlconv | a `pick` function that chooses one key from a set |

## Model

| member | source | states |
|---|---|---|
| Str.Compare | str/str.go:7-13 | the result is -1, 0 or 1, and it is 0 exactly when the two strings are equal (the equality test `Empty` relies on) |
| Str.Empty | str/str.go:7-9 | true exactly when the string is "" |
| Str.Valid | str/str.go:11-13 | true exactly when the string has at least one character |
| Str.ValidIsNotEmpty | str/str.go:7-13 | `Valid` is the negation of `Empty` on every string |
| Console.GoidToStr | logger/console.go:33-47 | the text is the decimal form of the id, preceded by '0's up to a length of five; a form of five or more characters is kept as it is |
| Console.PaddingPrecedesSign | logger/console.go:34-45 | a negative id is padded in front of its sign: -5 gives "000-5" |
| Console.ShortIdIsPadded | logger/console.go:38-45 | 7 gives "00007" |
| Console.LongIdIsKept | logger/console.go:36-37 | 123456 is returned unpadded |
| Strconv.RoundToDouble | jsonconv/jsonObj.go:125 | at most half the float64 spacing at n's magnitude away from n, and n itself up to 2^53 |
| Strconv.Float64OfInt | jsonconv/valueshortcuts.go:155 | `float64(i)`: exact between -2^53 and 2^53, keeps the sign, and lies within half a float64 spacing of i |
| Strconv.FirstInexactInt | jsonconv/valueshortcuts.go:155 | 2^53 + 1 converts to 2^53 |
| JsonConv.DigitOf | jsonconv/jsonconv.go:72 | every digit below 16 has a lower-case hex character that reads back as that digit |
| JsonConv.Hex | jsonconv/jsonconv.go:72 | the hex text of a number is non-empty and all hex digits |
| JsonConv.HexRoundTrip | jsonconv/jsonconv.go:72 | reading the hex text of n back gives n |
| JsonConv.Hex04 | jsonconv/jsonconv.go:72 | `%04x`: at least four hex digits (exactly the hex text when that is longer), and the value reads back as n |
| JsonConv.HexValueLeadingZeros | jsonconv/jsonconv.go:72 | '0's in front of hex text do not change its value |
| JsonConv.ZerosValue | jsonconv/jsonconv.go:72 | a run of '0's is hex text of value 0 |
| JsonConv.EscapeRune | jsonconv/jsonconv.go:55-75 | a rune is written as itself exactly when it is not a special and not a rune above 0x127 in ASCII mode; otherwise its escape starts with a backslash |
| JsonConv.EscapeRuneTable | jsonconv/jsonconv.go:55-75 | the seven specials map to their two-character escapes; in ASCII mode a rune above 0x127 becomes `\u` and at least four hex digits that read back as the rune; every other rune is copied unchanged |
| JsonConv.EscapeJsonString | jsonconv/jsonconv.go:52-79 | the loop over the runes produces the rune-by-rune escape of the whole string |
| JsonConv.EscapeConcat | jsonconv/jsonconv.go:54-77 | escaping distributes over concatenation |
| JsonConv.Escape | jsonconv/jsonconv.go:52-79 | escaping never shortens a string |
| JsonConv.EscapeIdentity | jsonconv/jsonconv.go:73-75 | outside ASCII mode, a string without specials is returned unchanged |
| JsonConv.EscapeHasNoBareSpecials | jsonconv/jsonconv.go:55-69 | the output holds no raw backspace, form feed, tab, newline or carriage return, and every '"' and '/' in it follows a backslash |
| JsonConv.EscapeRuneHasNoBareSpecials | jsonconv/jsonconv.go:55-75 | the same, for the escape of one rune |
| JsonConv.HexEscapeHasNoBareSpecials | jsonconv/jsonconv.go:72 | a `\u` escape holds no bare special |
| JsonConv.HexDigitIsPlain | jsonconv/jsonconv.go:72 | no hex digit is a special |
| JsonConv.NoBareSpecialsConcat | jsonconv/jsonconv.go:54-77 | joining two strings without bare specials gives one without them |
| JsonConv.TrimFixedPoint | jsonconv/jsonconv.go:82-86 | trimming `whole.frac` drops the trailing zeros of the fraction only, and drops the point when no fraction digit is left; the whole part is never touched |
| JsonConv.TrimZeros | jsonconv/jsonconv.go:84 | trimming zeros after a point only touches the fraction |
| JsonConv.TrimKeepsFraction | jsonconv/jsonconv.go:85 | a fraction digit left at the end keeps the point from being trimmed |
| JsonConv.TrimPoint | jsonconv/jsonconv.go:85 | trimming the point of an empty fraction gives the whole part |
| JsonConv.TrimRightAppend | jsonconv/jsonconv.go:84-85 | `TrimRight` stops at a last character outside the cut set |
| JsonConv.TrimRightUnique | jsonconv/jsonconv.go:84-85 | `TrimRight` removes a suffix made only of cut characters |
| JsonConv.TrimFloatKeepsSignificantFraction | jsonconv/jsonconv.go:82-86 | "1.100000" becomes "1.1" |
| JsonConv.TrimFloatDropsZeroFraction | jsonconv/jsonconv.go:82-86 | "1.000000" becomes "1" |
| JsonConv.TrimFloatKeepsIntegerZeros | jsonconv/jsonconv.go:82-86 | "100.000000" becomes "100"; the zeros of the integer part stay |
| JsonConv.ConvertFloatToString | jsonconv/jsonconv.go:81-91 | with 0 digits the six-decimal text with only '0's and '.' cut off its end, never ending in '.'; otherwise exactly `digits` decimals |
| JsonConv.TimeLayout | jsonconv/jsonconv.go:93-99 | the layout is "2006-01-02 15:04:05", followed, when digits > 0, by '.' and exactly `digits` zeros |
| JsonConv.ConvertTimeToString | jsonconv/jsonconv.go:93-99 | the time formatted to the second, with `digits` fraction digits when digits > 0 |
| JsonConv.DefaultOption | jsonconv/jsonconv.go:44-50 | the default leaves nulls out, uses no ASCII mode or filter, trims the float text and formats times to the second |
| JsonObjects.GettersReadOnlyTheirKind | jsonconv/jsonObj.go:251-277 | `String`, `Int`, `Float` and `Bool` return the stored value only for a node of their kind, and the zero value otherwise |
| JsonObjects.TypeOf | jsonconv/jsonObj.go:280-282 | the node's kind; `TypeString` calls it unknown exactly for the not-exist and unknown kinds |
| JsonObjects.TypeString | jsonconv/jsonObj.go:284-301 | the name is one of the seven listed, and it is "unknown" exactly for the not-exist and unknown kinds |
| JsonObjects.TypeStringDistinguishesKinds | jsonconv/jsonObj.go:284-301 | two known kinds have the same name exactly when they are the same kind |
| JsonObjects.IsNull | jsonconv/jsonObj.go:303-305 | true exactly when the type name is "null" |
| JsonObjects.IsString | jsonconv/jsonObj.go:307-309 | true exactly when the type name is "string" |
| JsonObjects.IsNumber | jsonconv/jsonObj.go:311-313 | true exactly when the type name is "number" |
| JsonObjects.IsObject | jsonconv/jsonObj.go:315-317 | true exactly when the type name is "object" |
| JsonObjects.IsBool | jsonconv/jsonObj.go:327-329 | true exactly when the type name is "boolean" |
| JsonObjects.IsBoollean | jsonconv/jsonObj.go:323-325 | answers as `IsBool` |
| JsonObjects.IsArray | jsonconv/jsonObj.go:319-321 | as written: true exactly when the node is an object |
| JsonObjects.IsArrayIntended | jsonconv/jsonObj.go:319-321 | the corrected test: true exactly for an array, and never for an object |
| JsonObjects.IsArrayMisreports | jsonconv/jsonObj.go:319-321 | the written test says an empty array is no array and an empty object is one; the corrected test says the opposite |
| JsonObjects.NewStringObject | jsonconv/jsonObj.go:114-119 | a string node that reads back its text, with the other getters at their zero values |
| JsonObjects.NewIntObject | jsonconv/jsonObj.go:121-127 | a number node whose integer is i and whose float is `float64(i)`, the nearest float64, which is i itself when i lies between -2^53 and 2^53 |
| JsonObjects.LargeIntFloatIsRounded | jsonconv/jsonObj.go:125 | for i = 2^53 + 1 the float is 2^53, not i |
| JsonObjects.Int64OfFloat | jsonconv/jsonObj.go:129-135 | `int64(f)` truncates toward zero inside the int64 range |
| JsonObjects.NewFloatObject | jsonconv/jsonObj.go:129-135 | a number node with float f and integer `int64(f)` |
| JsonObjects.NewBoolObject | jsonconv/jsonObj.go:137-142 | a boolean node that reads back b |
| JsonObjects.NewNullObject | jsonconv/jsonObj.go:144-148 | a null node whose getters all give zero values |
| JsonObjects.NewObjectObject | jsonconv/jsonObj.go:150-155 | an object node with no children, which the empty key path returns itself |
| JsonObjects.NewArrayObject | jsonconv/jsonObj.go:157-162 | an array node with no children, whose index 0 is out of bounds |
| JsonObjects.NewChild | jsonconv/jsonObj.go:170-205 | the per-child switch of `parseObject`/`parseArray` builds the node of the value's kind, or skips it |
| JsonObjects.ParseObject | jsonconv/jsonObj.go:167-207 | the loop fills an object node with the child of each entry under its key |
| JsonObjects.ParseArray | jsonconv/jsonObj.go:209-245 | the loop fills an array node with the children in order, skipping unsupported values |
| JsonObjects.ObjectChildrenKeys | jsonconv/jsonObj.go:170-205 | a key is present exactly when some entry with that key yields a child |
| JsonObjects.ObjectChildrenLastWins | jsonconv/jsonObj.go:170-205 | of duplicate keys, the last entry that yields a child wins |
| JsonObjects.ArrayChildrenConcat | jsonconv/jsonObj.go:212-243 | array children are collected element by element, in order |
| JsonObjects.ArrayChildrenAllKept | jsonconv/jsonObj.go:212-243 | when every element yields a child, the array keeps all of them, at the same indexes |
| JsonObjects.NestedNumberReadsZero | jsonconv/jsonObj.go:175-179 | a nested number is created with integer 0 (the parsed value is discarded) |
| JsonObjects.NewFromString | jsonconv/jsonObj.go:41-112 | the scan for the first starter character returns exactly what the root reader defines |
| JsonObjects.QuotedString | jsonconv/jsonObj.go:78-88 | succeeds exactly when a closing quote follows, and gives the text before it, which holds no quote |
| JsonObjects.NumberText | jsonconv/jsonObj.go:66-77 | succeeds exactly when `ParseInt` accepts the whole text, with its value as the integer; a failure is the parser's number error |
| JsonObjects.Dispatch | jsonconv/jsonObj.go:46-106 | '{' and '[' always give an object or an array; '"' succeeds exactly when a closing quote follows and gives the text before it; 't'/'f' succeed exactly on the whole text "true"/"false"; a digit succeeds exactly when `ParseInt` does, with its value; any failure is a format or number error |
| JsonObjects.RootAt | jsonconv/jsonObj.go:41-112 | a success is never a null or not-exist node; a failure is a format or number error |
| JsonObjects.RootSkips | jsonconv/jsonObj.go:46-106 | characters that start no value are skipped |
| JsonObjects.FirstStarterDecides | jsonconv/jsonObj.go:46-106 | the first starter character alone decides the result |
| JsonObjects.NoStarterIsFormatError | jsonconv/jsonObj.go:107-111 | input without any starter is a format error |
| JsonObjects.RootIgnoresNonStarterPrefix | jsonconv/jsonObj.go:46-106 | a prefix without starters does not change the result |
| JsonObjects.RootShift | jsonconv/jsonObj.go:46-106 | reading from an offset into `p + q` is reading `q` |
| JsonObjects.RootSkipsMinusSign | jsonconv/jsonObj.go:66-77 | "-5" reads as the number 5: the '-' is not a starter |
| JsonObjects.RootRejectsFraction | jsonconv/jsonObj.go:66-77 | "1.5" fails with the integer parser's syntax error |
| JsonObjects.RootRejectsNull | jsonconv/jsonObj.go:107-111 | "null" is a format error: 'n' is not a starter |
| JsonObjects.RootStringIsRaw | jsonconv/jsonObj.go:78-88 | a root string ends at the first '"' and keeps backslashes raw |
| JsonObjects.StringIsRaw | jsonconv/jsonObj.go:78-88 | the same, for the dispatch on '"' |
| JsonObjects.RootStringNeedsClosingQuote | jsonconv/jsonObj.go:78-88 | an unterminated root string is a format error |
| JsonObjects.RootBooleanFillsText | jsonconv/jsonObj.go:89-106 | a boolean must fill the remaining text: "true " fails, while leading blanks are skipped |
| JsonObjects.GetByKey | jsonconv/jsonObj.go:332-358 | a non-object fails with not-an-object; the empty path returns the node itself; any failure on an object is object-not-found |
| JsonObjects.GetByKeyIsWalk | jsonconv/jsonObj.go:332-358 | on an object, the lookup succeeds exactly when the key walk through the children succeeds, and returns what the walk finds |
| JsonObjects.WalkConcat | jsonconv/jsonObj.go:339-357 | walking `p + q` is walking `p` and then `q` |
| JsonObjects.GetAtIndex | jsonconv/jsonObj.go:360-370 | succeeds exactly on an array with index < length and returns that element; otherwise not-an-array or index-out-of-bounds |
| JsonObjects.GetAtIndexOfParsedArray | jsonconv/jsonObj.go:209-245 | indexing a parsed array returns the child built from that element |
| JsonObjects.GetByKeyOfParsedObject | jsonconv/jsonObj.go:167-207 | looking up a key in a parsed object returns the child of the last entry with that key |
| JsonValues.NewString | jsonconv/valueshortcuts.go:144-149 | a string value holding s, with no number flags |
| JsonValues.NewInt64 | jsonconv/valueshortcuts.go:151-163 | a number with integer i, float `float64(i)` (i itself when i lies between -2^53 and 2^53) and the unsigned view of i modulo 2^64; signed flag exactly for negatives, unsigned flag exactly for the rest |
| JsonValues.NewUint64 | jsonconv/valueshortcuts.go:165-175 | a number with unsigned u, float `float64(u)` (u itself when u <= 2^53) and the signed view modulo 2^64 (negative above MaxInt64); unsigned flag exactly when bit 60 of u is set |
| JsonValues.UnsignedFlagIsBit60 | jsonconv/valueshortcuts.go:171 | 2^60 sets the unsigned flag; 2^63 does not, and reads as a negative integer |
| JsonValues.NewInt32 | jsonconv/valueshortcuts.go:177-179 | equal to `NewInt64`, with exactly one of the two sign flags set, and its float is exact |
| JsonValues.NewInt | jsonconv/valueshortcuts.go:185-187 | equal to `NewInt64`, with integer i and exactly one sign flag |
| JsonValues.NewUint32 | jsonconv/valueshortcuts.go:181-183 | equal to `NewUint64`; a 32-bit value never sets a flag, and its integer and float are the value itself |
| JsonValues.NewUint | jsonconv/valueshortcuts.go:189-191 | equal to `NewUint64`, with unsigned u and neither the signed nor the float flag |
| JsonValues.NewFloat | jsonconv/valueshortcuts.go:193-201 | a number with float f and integer `int64(f)`, flagged float and signed |
| JsonValues.NewBool | jsonconv/valueshortcuts.go:203-208 | a boolean value holding b, without number flags |
| JsonValues.NewBoolean | jsonconv/valueshortcuts.go:210-215 | a boolean value holding b |
| JsonValues.NewBoolIsNewBoolean | jsonconv/valueshortcuts.go:203-215 | the two boolean constructors agree |
| JsonValues.NewNull | jsonconv/valueshortcuts.go:217-221 | a null value with empty payloads |
| JsonValues.NewObject | jsonconv/valueshortcuts.go:223-228 | an object value with no children |
| JsonValues.NewArray | jsonconv/valueshortcuts.go:230-235 | an array value with no children |
| JsonValues.NewOf | jsonconv/valueshortcuts.go:6-139 | each shortcut builds its value with the constructor of its type |
| JsonValues.SetScalar | jsonconv/valueshortcuts.go:6-48 | each `SetXxx` hands `Set` the value of its type's constructor; the 32-bit, `int` and `uint` forms use the 64-bit constructors |
| JsonValues.AppendScalar | jsonconv/valueshortcuts.go:52-94 | the same for `AppendXxx` and `Append` |
| JsonValues.InsertScalar | jsonconv/valueshortcuts.go:98-139 | the same for `InsertXxx` and `Insert` |
| JsonValues.ShortcutsAgree | jsonconv/valueshortcuts.go:6-139 | the Bool/Boolean, Int32/Int64, Uint32/Uint64, Int/Int64 and Uint/Uint64 shortcuts of Set, Append and Insert do the same thing |
| JsonValues.NewOfAgree | jsonconv/valueshortcuts.go:177-191 | the narrow and platform-width constructors agree with the 64-bit ones |
| JsonConvSql.GetFieldTag | jsonconv/sql2json.go:15-60 | no usable tag gives ""; otherwise the escaped tag when the filter admits it, and "" when it does not |
| JsonConvSql.KeyName | jsonconv/sql2json.go:16-40 | the key is the json tag before its comma, else the db tag before its comma, else the field name; a json tag of "-" gives no key |
| JsonConvSql.FieldTagEmpty | jsonconv/sql2json.go:15-60 | the tag is empty exactly when there is no key or the filter rejects it |
| JsonConvSql.AppendedKeys | jsonconv/sql2json.go:62-124 | a field adds its key exactly when it is valid or nulls are shown |
| JsonConvSql.AppendedValues | jsonconv/sql2json.go:62-124 | a field adds as many values as keys: its text when valid, "null" when not |
| JsonConvSql.TagKeys | jsonconv/sql2json.go:133-167 | a field value adds at most one key |
| JsonConvSql.TagValues | jsonconv/sql2json.go:133-167 | it adds as many values as keys |
| JsonConvSql.TagParts | jsonconv/sql2json.go:133-167 | each supported kind behaves as its `processField…` helper |
| JsonConvSql.FieldKeys | jsonconv/sql2json.go:126-167 | a field adds at most one key |
| JsonConvSql.FieldValues | jsonconv/sql2json.go:126-167 | a field adds as many values as keys |
| JsonConvSql.FlattenConcat | jsonconv/sql2json.go:184-187 | the per-field lists are joined in field order |
| JsonConvSql.FlattenInStep | jsonconv/sql2json.go:184-187 | two per-field lists of equal lengths join to lists of equal lengths |
| JsonConvSql.StructValues | jsonconv/sql2json.go:184-187 | the value list is as long as the key list |
| JsonConvSql.StructListsInStep | jsonconv/sql2json.go:62-124 | key and value lists stay the same length, at most one entry per field |
| JsonConvSql.StructKeysConcat | jsonconv/sql2json.go:184-187 | both lists are built field by field, in order |
| JsonConvSql.NullableField | jsonconv/sql2json.go:146-156 | a nullable field adds its key and its text when valid; when invalid it adds "null" with nulls shown, and nothing otherwise |
| JsonConvSql.UnsignedPrintsSigned | jsonconv/sql2json.go:136-137 | an unsigned value above MaxInt64 is printed as its negative int64 view |
| JsonConvSql.KeyValueLists.constructor | jsonconv/sql2json.go:172-173 | both lists start empty |
| JsonConvSql.KeyValueLists.AppendField | jsonconv/sql2json.go:62-72 | appends key and value, or "null", or nothing, according to validity and `ShowNull` |
| JsonConvSql.KeyValueLists.ProcessFieldInt64 | jsonconv/sql2json.go:62-72 | appends the key and the decimal text |
| JsonConvSql.KeyValueLists.ProcessFieldString | jsonconv/sql2json.go:74-84 | appends the key and the escaped, quoted string |
| JsonConvSql.KeyValueLists.ProcessFieldBool | jsonconv/sql2json.go:86-100 | appends the key and "true" or "false" |
| JsonConvSql.KeyValueLists.ProcessFieldFloat64 | jsonconv/sql2json.go:102-112 | appends the key and the float text |
| JsonConvSql.KeyValueLists.ProcessFieldTime | jsonconv/sql2json.go:114-124 | appends the key and the quoted time text |
| JsonConvSql.KeyValueLists.ProcessField | jsonconv/sql2json.go:126-131 | appends exactly the field's key and value lists |
| JsonConvSql.KeyValueLists.ProcessValue | jsonconv/sql2json.go:133-167 | dispatches on the value's kind and appends its lists |
| JsonConvSql.ObjectText | jsonconv/sql2json.go:190-209 | the object text is enclosed in braces |
| JsonConvSql.ObjectTextEmpty | jsonconv/sql2json.go:190-209 | no keys give "{}" |
| JsonConvSql.ObjectTextSingle | jsonconv/sql2json.go:190-209 | one key gives `{"k":v}` |
| JsonConvSql.ObjectTextAppend | jsonconv/sql2json.go:190-209 | each further member is added after a comma |
| JsonConvSql.MembersAppend | jsonconv/sql2json.go:190-209 | members are comma-separated in list order |
| JsonConvSql.SqlTypeToJson | jsonconv/sql2json.go:170-210 | the output is the object text of the struct's key and value lists |
| JsonConvSql.BuildFilter | jsonconv/sql2json.go:175-181 | the filter map holds exactly the option's filter fields |
| JsonConvSql.WriteObject | jsonconv/sql2json.go:189-209 | the buffer loop writes the object text |
| JsonConvSql.SqlToJson | jsonconv/sql2json.go:215-236 | a non-struct argument is a data-type error; a struct, or a pointer to one, is converted with the first option or the default |
| JsonSql.Newer | json/sql2json.go:16-26 | the old options correspond to the new ones: `ShowNull` is `!OmitNull`, digits are kept, with no ASCII mode and no filter |
| JsonSql.DefaultsAgree | json/sql2json.go:22-26 | the older default maps to the newer default: both leave nulls out |
| JsonSql.EscapeJsonString | json/sql2json.go:28-51 | the old escaper is the new one without ASCII mode, and it never shortens |
| JsonSql.FloatLayout | json/sql2json.go:57 | as written: the layout begins with "%df" rather than a precision |
| JsonSql.FloatLayoutIntended | json/sql2json.go:57 | the corrected layout is "%." followed by the digits and "f" |
| JsonSql.FloatLayoutIsNotPrecision | json/sql2json.go:57 | for 2 digits the written layout is "%df%!(EXTRA uint8=2)", the intended one "%.2f" |
| JsonSql.ConvertFloatToStringAsWritten | json/sql2json.go:53-60 | as written: 0 digits give the six-decimal text; otherwise `Sprintf` of the float with the layout `FloatLayout(digits)` |
| JsonSql.ConvertFloatToString | json/sql2json.go:53-60 | corrected: 0 digits give the six-decimal text; otherwise `Sprintf` with `%.<digits>f`, the text of the newer converter |
| JsonSql.AsWrittenMissesPrecision | json/sql2json.go:57 | for every positive precision the written code formats with a layout other than `%.<digits>f` |
| JsonSql.GetFieldTag | json/sql2json.go:71-93 | the json tag, else the db tag, else the field name, escaped; "" for a json tag of "-" |
| JsonSql.GetFieldTagMatchesNewer | json/sql2json.go:71-93 | equal to the newer tag function without filter and ASCII mode |
| JsonSql.RenderingMatchesNewer | json/sql2json.go:150-193 | the old mapper supports the same kinds as the newer one, and renders integers, strings, booleans and their nullable forms identically |
| JsonSql.TimeIsUnquoted | json/sql2json.go:139-148 | the old mapper writes the time text without quotes, and the newer one quotes it |
| JsonSql.Entry | json/sql2json.go:95-103 | a field is stored exactly when it is valid or nulls are not omitted, with its text or "null" |
| JsonSql.Put | json/sql2json.go:95-148 | storing sets one key and keeps every other key |
| JsonSql.Entries | json/sql2json.go:200-203 | one entry per field, in order |
| JsonSql.KeySource | json/sql2json.go:200-203 | every key of the map comes from some field |
| JsonSql.EntrySource | json/sql2json.go:200-203 | every key of the map comes from some stored entry |
| JsonSql.KeyWritten | json/sql2json.go:200-203 | every stored field's key is in the map |
| JsonSql.EntryWritten | json/sql2json.go:200-203 | every stored entry's key is in the map |
| JsonSql.StructMapLastWins | json/sql2json.go:97-146 | of fields with the same key, the last stored one's value wins |
| JsonSql.EntryLastWins | json/sql2json.go:200-203 | of entries with the same key, the last one's value wins |
| JsonSql.KeysMatchNewer | json/sql2json.go:200-203 | the map's key set is exactly the set of keys the newer mapper lists |
| JsonSql.StructMapSnoc | json/sql2json.go:200-203 | the map is built by storing the fields one after another |
| JsonSql.ElementsConcat | json/sql2json.go:200-203 | the elements of joined lists are the union of their elements |
| JsonSql.FieldKeyMatchesNewer | json/sql2json.go:150-193 | a field is stored exactly when the newer mapper lists it, under the same key |
| JsonSql.KeyValueMap.constructor | json/sql2json.go:197 | the map starts empty |
| JsonSql.KeyValueMap.Store | json/sql2json.go:95-103 | the map gains the field's entry, or stays as it was |
| JsonSql.KeyValueMap.ProcessFieldInt64 | json/sql2json.go:95-103 | stores the decimal text |
| JsonSql.KeyValueMap.ProcessFieldString | json/sql2json.go:105-113 | stores the escaped, quoted string |
| JsonSql.KeyValueMap.ProcessFieldBool | json/sql2json.go:115-127 | stores "true" or "false" |
| JsonSql.KeyValueMap.ProcessFieldFloat64 | json/sql2json.go:129-137 | stores the float text of the old converter |
| JsonSql.KeyValueMap.ProcessFieldTime | json/sql2json.go:139-148 | stores the unquoted time text |
| JsonSql.KeyValueMap.ProcessField | json/sql2json.go:150-155 | stores the field's entry |
| JsonSql.KeyValueMap.ProcessValue | json/sql2json.go:157-192 | dispatches on the value's kind; unsupported kinds store nothing |
| JsonSql.Lookups | json/sql2json.go:205-221 | the values of the listed keys, in list order |
| JsonSql.SqlTypeToJson | json/sql2json.go:195-224 | the output lists every key of the field map exactly once, each with its value, in map order |
| JsonSql.WriteMap | json/sql2json.go:205-221 | the range over the map writes every key exactly once, with its value |
| JsonSql.WalkStep | json/sql2json.go:208-218 | one key more has been written and one fewer remains |
| JsonSql.WalkDone | json/sql2json.go:208-218 | when none remain, every key was written exactly once |
| JsonSql.BufferStep | json/sql2json.go:208-218 | writing a comma and a member extends the object text by that member |
| JsonSql.MembersExtend | json/sql2json.go:208-218 | the member list grows by one member per key |
| JsonSql.SqlToJson | json/sql2json.go:229-250 | a non-struct argument is a data-type error; otherwise the struct's object text under the first option or the default |
| SqlConv.EscapeCharTable | sqlconv/struct.go:149-176 | a backslash is doubled, '&' is doubled, the quote becomes `''` for a single quote and backslash-quote otherwise, and everything else is copied |
| SqlConv.EscapeWithQuote | sqlconv/struct.go:129-182 | an unsupported quote returns the string as it is; a supported one encloses the escaped body in the quote |
| SqlConv.EscapeStringWithQuote | sqlconv/struct.go:129-182 | the loop writes exactly the escaped, quoted string |
| SqlConv.ExpandSnoc | sqlconv/struct.go:149-176 | escaping a prefix one character longer appends that character's escape |
| SqlConv.QuoteBodyConcat | sqlconv/struct.go:149-176 | escaping distributes over concatenation |
| SqlConv.ExpandSingle | sqlconv/struct.go:149-176 | escaping one character is its table entry |
| SqlConv.ExpandConcat | sqlconv/struct.go:149-176 | character-wise escaping distributes over concatenation |
| SqlConv.UnescapeChar | sqlconv/struct.go:149-176 | every escape reads back as its character, whatever follows it |
| SqlConv.QuoteBodyRoundTrip | sqlconv/struct.go:149-176 | the escaped body reads back as the original string, for each of the three quotes |
| SqlConv.SingleQuotesComeInPairs | sqlconv/struct.go:151-156 | in a single-quoted body every `'` is doubled, so none can end the literal |
| SqlConv.PairedConcat | sqlconv/struct.go:151-156 | joining bodies whose quotes are paired keeps them paired |
| SqlConv.GetFieldTag | sqlconv/struct.go:103-121 | the db tag before its comma, or the field name when that is empty |
| SqlConv.GetFieldTagIgnoresJson | sqlconv/struct.go:103-121 | the json tag plays no part |
| SqlConv.GetTimeString | sqlconv/struct.go:124-126 | the time in the seconds layout |
| SqlConv.FieldPairs | sqlconv/struct.go:33-97 | a field contributes at most one column/literal pair |
| SqlConv.Pairs | sqlconv/struct.go:32-97 | no more pairs than fields |
| SqlConv.InvalidNullableLeftOut | sqlconv/struct.go:59-84 | an invalid nullable field contributes nothing |
| SqlConv.UnsignedKeepsRange | sqlconv/struct.go:45-47 | an unsigned value is printed as itself and parses back to it |
| SqlConv.PairsConcat | sqlconv/struct.go:32-97 | pairs are collected field by field, in order |
| SqlConv.GetKVs | sqlconv/struct.go:27-100 | the loop returns exactly the columns and literals of the fields' pairs, in step |
| SqlConv.PairsSnoc | sqlconv/struct.go:32-97 | one field more adds its pairs at the end |
| SqlConv.FieldPair | sqlconv/struct.go:33-96 | one iteration of the field loop computes that field's pairs |
| SqlConv.Columns | sqlconv/struct.go:93-94 | the columns are the pairs' first parts, in order |
| SqlConv.ProjectionsSnoc | sqlconv/struct.go:93-94 | a new pair adds one column and one literal at the end |
| SqlConv.Literals | sqlconv/struct.go:93-94 | the literals are the pairs' second parts, in order |
| SqlConv.LiteralOf | sqlconv/struct.go:41-96 | the kind switch yields the literal of the value, or none |
| SqlConv.GetValidKVsFromStruct | sqlconv/struct.go:12-25 | a non-struct argument is a data-type error; a struct, or a pointer to one, gives its columns and literals |
| XmlItem.NewItem | xmlconv/value.go:48-55 | a node with no payload, cache, attributes or children |
| XmlItem.Name | xmlconv/value.go:23-25 | the node's element name |
| XmlItem.Bytes | xmlconv/value.go:27-29 | the payload as last stored |
| XmlItem.Attrs | xmlconv/value.go:39-41 | the attribute map |
| XmlItem.GetAttr | xmlconv/value.go:43-46 | found exactly when the attribute exists; a missing one reads as "" |
| XmlItem.String | xmlconv/value.go:31-37 | the cached text if there is one, otherwise the payload, which is then cached |
| XmlItem.StringIsCached | xmlconv/value.go:31-37 | after the first call, changing the payload does not change the text |
| XmlItem.StringIsIdempotent | xmlconv/value.go:31-37 | a second call changes nothing |
| XmlItem.BytesEmpty | xmlconv/value.go:131-136 | true exactly for an empty slice |
| XmlItem.Enumerate | xmlconv/marshal.go:65 | a map range visits as many keys as the map holds, all from the map |
| XmlItem.EnumerateIsPermutation | xmlconv/marshal.go:85 | a map range visits every key exactly once |
| XmlStack.Pushed | xmlconv/stack.go:16-20 | pushing nil leaves the list; pushing an item appends it |
| XmlStack.Popped | xmlconv/stack.go:23-32 | popping an empty list gives nil; otherwise the last item and the rest |
| XmlStack.PopAfterPush | xmlconv/stack.go:16-32 | pop undoes push |
| XmlStack.PushNilThenPop | xmlconv/stack.go:16-32 | pushing nil has no effect on the next pop |
| XmlStack.Stack.constructor | xmlconv/stack.go:8-13 | the stack starts empty |
| XmlStack.Stack.Push | xmlconv/stack.go:16-20 | the list becomes the pushed list |
| XmlStack.Stack.Pop | xmlconv/stack.go:23-32 | returns and removes the last item, or nil when empty |
| XmlAccess.LookupAppend | xmlconv/longaccess.go:14-19 | following one more name looks that name up among the children |
| XmlAccess.ChildOrNew | xmlconv/longaccess.go:36-51 | an existing child is reused, a missing one is created fresh |
| XmlAccess.TargetIsLookupOrNew | xmlconv/longaccess.go:36-54 | the node `SetChild…` ends on is the existing node or a fresh one named after the last name |
| XmlAccess.TargetOfNew | xmlconv/longaccess.go:36-54 | below a fresh node every target is fresh |
| XmlAccess.Update | xmlconv/longaccess.go:36-54 | writing along a path changes only the children of the root and adds the first name |
| XmlAccess.UpdateThenLookup | xmlconv/longaccess.go:36-54 | after writing along a path, the path finds the changed target |
| XmlAccess.UpdateKeepsAncestors | xmlconv/longaccess.go:36-54 | every node along the path exists afterwards and keeps its other children |
| XmlAccess.UpdateElsewhere | xmlconv/longaccess.go:36-54 | paths that branch off elsewhere are unaffected |
| XmlAccess.UpdateAt | xmlconv/longaccess.go:36-54 | the descend-and-write-back loop performs exactly that write |
| XmlAccess.GetChild | xmlconv/longaccess.go:6-21 | returns the node at the path and whether it exists |
| XmlAccess.PathBlocked | xmlconv/longaccess.go:14-20 | once a name is missing, no longer path exists |
| XmlAccess.SetChild | xmlconv/longaccess.go:24-55 | nil or an empty first name changes nothing; otherwise the child, renamed to the last name, is stored at the path, and the result is the child (one name) or its parent |
| XmlAccess.StoredUnderParent | xmlconv/longaccess.go:41-45 | the returned parent holds the child under the last name |
| XmlAccess.HeldByParent | xmlconv/longaccess.go:41-45 | a node found at a path is held by its parent under the last name |
| XmlAccess.SetEmptyChild | xmlconv/longaccess.go:58-70 | stores a fresh node named after the last name at the path |
| XmlAccess.SetChildBytes | xmlconv/longaccess.go:78-107 | an empty first name changes nothing; otherwise the payload of the node at the path, created as needed, is replaced, and that node is returned |
| XmlAccess.SetChildString | xmlconv/longaccess.go:73-75 | the same as `SetChildBytes` with the string's bytes |
| XmlAccess.SetBytesKeepsCache | xmlconv/longaccess.go:91-104 | replacing the payload does not clear the string cache, so `String` keeps returning the old text |
| XmlDecode.AttrMapDomain | xmlconv/value.go:97-100 | an attribute name is in the map exactly when the start element lists it |
| XmlDecode.AttrMapLastWins | xmlconv/value.go:97-100 | of repeated attribute names, the last value wins |
| XmlDecode.AttrPairs | xmlconv/marshal.go:65-70 | the attributes in map order, each with its value |
| XmlDecode.AttrPairsRoundTrip | xmlconv/value.go:97-100 | reading back written attributes gives the same map |
| XmlDecode.AttrPairsDomain | xmlconv/value.go:97-100 | reading them back keeps the set of names |
| XmlDecode.AttrPairsValue | xmlconv/value.go:97-100 | reading them back keeps each value |
| XmlDecode.WriteBack | xmlconv/value.go:101-103 | the parent holds the child under its name, and nothing else of the parent changes |
| XmlDecode.Step | xmlconv/value.go:87-125 | comments and other tokens change nothing; a start tag makes a fresh node current, pushing the old one or becoming the root; an end tag pops one level and leaves the tree the root reaches unchanged; text keeps root and stack |
| XmlDecode.RunConcat | xmlconv/value.go:74-126 | processing two token runs in turn is processing their concatenation |
| XmlDecode.Decode | xmlconv/value.go:63-129 | empty input is a parameter error; a tokenizer error is returned as it is; reaching the end returns the root (nil if none) |
| XmlDecode.NewFromBytes | xmlconv/value.go:63-129 | the token loop with the stack computes exactly that |
| XmlDecode.MakeItem | xmlconv/value.go:89-100 | a start element gives a fresh node with its name and attribute map |
| XmlDecode.Consume | xmlconv/value.go:87-125 | one token moves current node, root and stack as one step of the decoder |
| XmlDecode.NewFromString | xmlconv/value.go:58-60 | decodes the string's bytes |
| XmlDecode.NoElementNoRoot | xmlconv/value.go:75-84 | without a start element there is no root |
| XmlDecode.CharDataIsTrimmed | xmlconv/value.go:113-124 | blank text is ignored; other text is trimmed and stored on the current node |
| XmlDecode.InsertedAll | xmlconv/value.go:101-103 | inserting children by name keeps each name's source node and the other entries |
| XmlDecode.RunElement | xmlconv/value.go:89-111 | the tokens of a node, decoded under a parent, rebuild that node as a child of the parent |
| XmlDecode.PopWritesBack | xmlconv/value.go:109-111 | closing an element returns to its parent, which holds the finished child |
| XmlDecode.RunRoot | xmlconv/value.go:104-107 | the tokens of a node, decoded from the start, make it the root |
| XmlDecode.RunData | xmlconv/value.go:113-121 | a node's text token sets its payload |
| XmlDecode.RunBody | xmlconv/value.go:87-125 | decoding a node's body rebuilds the node |
| XmlDecode.ShellFilled | xmlconv/value.go:89-121 | a node is its shell plus its payload and children |
| XmlDecode.InsertedEveryKey | xmlconv/value.go:101-103 | inserting every key rebuilds the child map |
| XmlDecode.RunChildren | xmlconv/value.go:89-111 | decoding the children in turn inserts each of them |
| XmlDecode.DecodeTokens | xmlconv/value.go:63-129 | for trimmed, cache-free trees, decoding the tokens of a tree gives that tree back |
| XmlDecode.LastRootWins | xmlconv/value.go:104-106 | of two top-level elements, the last one becomes the root |
| XmlMarshal.IndentOf | xmlconv/marshal.go:18-23 | the first option's indent, or the default "" |
| XmlMarshal.Prefix | xmlconv/marshal.go:57-61 | "" without indent, otherwise a newline and the indent repeated `depth` times |
| XmlMarshal.TextOf | xmlconv/marshal.go:73-82 | empty text writes nothing; text with markup characters is wrapped in CDATA; other text is copied |
| XmlMarshal.TextRoundTrip | xmlconv/marshal.go:73-82 | unwrapping the written text gives the node's text |
| XmlMarshal.InnerCloseIsNotSplit | xmlconv/marshal.go:75-78 | a "]]>" inside the text is written inside the CDATA section unchanged |
| XmlMarshal.ToBuffer | xmlconv/marshal.go:56-94 | appends the rendering of the node to the buffer |
| XmlMarshal.WriteText | xmlconv/marshal.go:73-82 | writes the text as `TextOf` says |
| XmlMarshal.WriteChildren | xmlconv/marshal.go:84-89 | writes each child's rendering at the next depth |
| XmlMarshal.WriteAttrs | xmlconv/marshal.go:65-70 | writes " k=v" for each attribute in map order |
| XmlMarshal.MarshalBytes | xmlconv/marshal.go:17-27 | the rendering at depth 0 with the chosen indent, and no error |
| XmlMarshal.MarshalString | xmlconv/marshal.go:30-40 | the same, as a string |
| XmlMarshal.Marshal | xmlconv/marshal.go:43-53 | the same, as a string |
| XmlMarshal.UnindentedHasNoNewline | xmlconv/marshal.go:57-61 | without indent, a tree without newlines in its names and text renders without newlines |
| XmlMarshal.HeadHasNoNewline | xmlconv/marshal.go:57-82 | the same, for the opening tag and text |
| XmlMarshal.ChildrenHaveNoNewline | xmlconv/marshal.go:84-89 | the same, for the children |
| XmlMarshal.AttrsHaveNoNewline | xmlconv/marshal.go:65-70 | the same, for the attributes |
| XmlMarshal.Render | xmlconv/marshal.go:56-94 | the rendering starts with the prefix and `<name`, and ends with `</name>` |
| XmlMarshal.HeadStartsWithTag | xmlconv/marshal.go:61-63 | the opening part starts with the prefix and `<name` |
| XmlMarshal.AttrExample | xmlconv/marshal.go:65-70 | attribute values are written unquoted: id 7 gives " id=7" |

## Left out

- Floating-point and time formatting (`fmt.Sprintf`, `strconv.FormatFloat`, `time.Format`) are parameters (`Fields.Formatters`). Only the trimming of the fixed text and the layout strings are modelled. Float fields are reals; the only float64 rounding modelled is that of an integer (`Strconv.Float64OfInt`).
- `reflect` is replaced by field records (`Fields.Field`): name, json tag, db tag and a value of one of the supported kinds, or `OtherStruct` / `OtherKind` for the rest. Unexported fields, and embedded structs and pointers beyond one level, are not modelled.
- JsonConvSql.SqlToJson, JsonSql.SqlToJson, SqlConv.GetValidKVsFromStruct: Go panics on a nil argument, on a pointer to something other than a struct, and on a nil pointer to a struct with fields (jsonconv/sql2json.go:228-230, json/sql2json.go:242-244, sqlconv/struct.go:17-19, then `NumField` / `Field`). `Fields.Argument` has no such values, so these panics are outside the model.
- `jsonparser` (the `ObjectEach`, `ArrayEach` and `Get` calls) is a pre-parsed `Raw` tree and a `Scanner` parameter. The root number's `ParseFloat` accepts whatever `ParseInt` accepts and gives the nearest float64, which is `Strconv.Float64OfInt` of the integer.
- The `encoding/xml` tokenizer is a `tokenize` parameter that yields tokens and an ending (end of input or an error message). Namespaces, processing instructions and directives are not modelled; comments are ignored, as in the source.
- The order of a Go map `range` is the `pick` parameter in xmlconv: the results hold for every order that depends only on the set of keys left. JsonSql.WriteMap instead chooses each next key with `:|` among those not yet written, and records the order it used in a ghost `order`; its results hold for every such order.
- XML items are values. Pointer aliasing and identity are not modelled: a returned `*Item` shares its node with the tree in Go, while here the updated tree is returned separately. `SetChild`'s renaming of the caller's child object is modelled on the stored copy only.
- Marshalling fills each node's string cache in Go. The marshal model returns only the text and does not write the cache back.
- The `JsonValue` struct and its Set/Append/Insert code (outside `valueshortcuts.go`) are not part of this model. They are a parameter (`Editor`), so JsonValues.SetScalar, JsonValues.AppendScalar and JsonValues.InsertScalar state only which value they hand to it.
- JsonValues.NewInt and JsonValues.NewUint take Go's `int` and `uint` as 64 bits.
- Strconv.RoundToDouble: the contract bounds the rounding error by half a spacing. That the result is a multiple of the spacing, with ties going to the even multiple, is how it is defined, not a stated `ensures`.
- JsonObjects.Int64OfFloat: Go leaves `int64(f)` unspecified outside the int64 range, so that value is a parameter (`outOfRange`).
- XmlAccess.GetChild: with more than one name and a missing first child, Go dereferences nil and panics. The model requires the first child to exist in that case.
- JsonSql.ConvertFloatToString: the older mapper is modelled with the corrected layout `%.<digits>f` (see Findings). What the written code prints, `Sprintf` with `FloatLayout(digits)`, is JsonSql.ConvertFloatToStringAsWritten, and its text is a parameter of the formatter, not modelled further.
- JsonObjects.GetAtIndex: a negative index is ruled out by the `nat` type, so only the source's upper-bound check is modelled.
- `[]byte` and `string` in xmlconv are modelled as the same sequence type, so UTF-8 decoding of invalid bytes is not modelled.
- The rest of `logger/console.go` (log levels, the call-stack prefix and the writer), the `log` package and the `compress` package are not part of this model.
- JsonConv.EscapeRuneTable: `%04x` of a code point above U+FFFF gives five or six hex digits, not a surrogate pair. The model keeps this written behaviour and proves only that the digits read back as the code point.

## Findings

| source | as written | input that shows it | evidently intended | confidence | as-written member | corrected member |
|---|---|---|---|---|---|---|
| jsonconv/jsonObj.go:319-321 | `IsArray` compares the node's type with `Object` | `NewArrayObject().IsArray()` is false and `NewObjectObject().IsArray()` is true | compare with `Array` | not executed | JsonObjects.IsArray (shown by JsonObjects.IsArrayMisreports) | JsonObjects.IsArrayIntended |
| json/sql2json.go:57 | the layout is built with `"%%df"`, so the precision is never written | `FloatDigits` = 2 gives the layout `%df%!(EXTRA uint8=2)` | `"%%.%df"`, giving `%.2f` | not executed | JsonSql.ConvertFloatToStringAsWritten with JsonSql.FloatLayout (shown by JsonSql.FloatLayoutIsNotPrecision and JsonSql.AsWrittenMissesPrecision) | JsonSql.ConvertFloatToString with JsonSql.FloatLayoutIntended |
