/** Model of str/str.go: emptiness tests written on top of `strings.Compare`. */
module Str {

  /** `strings.Compare`: -1, 0 or +1 by lexicographic order of code points
      (which is the byte order of the UTF-8 encodings). */
  function Compare(a: string, b: string): (r: int)
    ensures r == 0 || r == -1 || r == 1
    ensures r == 0 <==> a == b
  {
    if b == [] then (if a == [] then 0 else 1)
    else if a == [] then -1
    else if a[0] < b[0] then -1
    else if a[0] > b[0] then 1
    else
      var r := Compare(a[1..], b[1..]);
      assert a == [a[0]] + a[1..] && b == [b[0]] + b[1..];
      r
  }

  /** `Empty`: the comparison with "" is zero exactly for the empty string. */
  function Empty(s: string): (r: bool)
    ensures r <==> s == ""
  {
    0 == Compare(s, "")
  }

  /** `Valid`: the comparison with "" is non-zero exactly for a non-empty string. */
  function Valid(s: string): (r: bool)
    ensures r <==> |s| > 0
  {
    0 != Compare(s, "")
  }

  /** The two predicates are complementary on every string. */
  lemma ValidIsNotEmpty(s: string)
    ensures Valid(s) == !Empty(s)
  {
  }
}
