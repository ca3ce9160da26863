/** The few functions of Go's `strings` and `bytes` packages that the core calls,
    each defined by what it computes and characterised by its contract. */
module GoStrings {

  /** `strings.Repeat(s, n)`: n copies of s, one after the other. */
  function Repeat(s: string, n: nat): (r: string)
    ensures |r| == |s| * n
    ensures s == "" ==> r == ""
  {
    if n == 0 then "" else s + Repeat(s, n - 1)
  }

  /** Every character of `Repeat([c], n)` is `c`. */
  lemma {:induction false} RepeatChar(c: char, n: nat)
    ensures |Repeat([c], n)| == n
    ensures forall i :: 0 <= i < n ==> Repeat([c], n)[i] == c
  {
    if n > 0 {
      RepeatChar(c, n - 1);
    }
  }

  /** `strings.TrimRight(s, cutset)`: drops the longest suffix made only of cutset characters. */
  function TrimRight(s: string, cutset: set<char>): (r: string)
    ensures r <= s
    ensures r == [] || r[|r| - 1] !in cutset
    ensures forall i :: |r| <= i < |s| ==> s[i] in cutset
  {
    if s != [] && s[|s| - 1] in cutset then TrimRight(s[..|s| - 1], cutset) else s
  }

  /** `strings.TrimLeft(s, cutset)`: drops the longest prefix made only of cutset characters. */
  function TrimLeft(s: string, cutset: set<char>): (r: string)
    ensures |r| <= |s| && r == s[|s| - |r|..]
    ensures r == [] || r[0] !in cutset
    ensures forall i :: 0 <= i < |s| - |r| ==> s[i] in cutset
  {
    if s != [] && s[0] in cutset then TrimLeft(s[1..], cutset) else s
  }

  /** `bytes.Trim(b, cutset)`: both ends at once. */
  function Trim(s: string, cutset: set<char>): (r: string)
    ensures r == [] || (r[0] !in cutset && r[|r| - 1] !in cutset)
    ensures (forall i :: 0 <= i < |s| ==> s[i] in cutset) <==> r == []
  {
    var t := TrimRight(s, cutset);
    var r := TrimLeft(t, cutset);
    assert r == [] ==> t == [];
    assert r != [] ==> r[0] in s;
    r
  }

  /** `strings.IndexRune(s, c)`: the first position of c, or -1. */
  function IndexRune(s: string, c: char): (r: int)
    ensures -1 <= r < |s|
    ensures r == -1 <==> c !in s
    ensures r >= 0 ==> s[r] == c && c !in s[..r]
  {
    if s == [] then -1
    else if s[0] == c then 0
    else
      var k := IndexRune(s[1..], c);
      assert s == [s[0]] + s[1..];
      if k == -1 then -1 else
        assert s[..k + 1] == [s[0]] + s[1..][..k];
        k + 1
  }

  /** `strings.ContainsAny(s, chars)`. */
  function ContainsAny(s: string, chars: set<char>): (r: bool)
    ensures r <==> exists i :: 0 <= i < |s| && s[i] in chars
  {
    if s == [] then false
    else if s[0] in chars then true
    else
      var r := ContainsAny(s[1..], chars);
      assert forall i :: 1 <= i < |s| ==> s[i] == s[1..][i - 1];
      r
  }

  /** `strings.SplitN(s, ",", 2)[0]`: the text before the first comma (all of s without one). */
  function BeforeComma(s: string): (r: string)
    ensures r <= s && ',' !in r
    ensures r == s || s[|r|] == ','
  {
    var k := IndexRune(s, ',');
    if k < 0 then s else s[..k]
  }
}
