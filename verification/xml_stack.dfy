/** Model of xmlconv/stack.go: the stack of open ancestors used while a tree is
    built from tokens. */
module XmlStack {
  import opened Wrappers
  import opened XmlItem

  /** The contents after pushing `i`: a nil item is not pushed. */
  function Pushed(l: seq<Item>, i: Option<Item>): (r: seq<Item>)
    ensures i.None? ==> r == l
    ensures i.Some? ==> |r| == |l| + 1 && r[..|l|] == l && r[|l|] == i.value
  {
    if i.Some? then l + [i.value] else l
  }

  /** The item a pop returns and the contents it leaves: nil and the empty stack
      when the stack is empty, otherwise the top and everything below it. */
  function Popped(l: seq<Item>): (r: (Option<Item>, seq<Item>))
    ensures l == [] ==> r == (None, [])
    ensures l != [] ==> r.0 == Some(l[|l| - 1]) && r.1 + [l[|l| - 1]] == l
  {
    if |l| <= 0 then (None, l) else (Some(l[|l| - 1]), l[..|l| - 1])
  }

  /** A pop right after pushing a non-nil item returns that item and restores the
      earlier contents. */
  lemma PopAfterPush(l: seq<Item>, x: Item)
    ensures Popped(Pushed(l, Some(x))) == (Some(x), l)
  {
    assert (l + [x])[..|l|] == l;
  }

  /** Pushing nil and then popping is the same as popping. */
  lemma PushNilThenPop(l: seq<Item>)
    ensures Popped(Pushed(l, None)) == Popped(l)
  {
  }

  class Stack {
    /** The items, bottom first; the last one is the top. */
    var L: seq<Item>

    /** `newStack`: an empty stack. */
    constructor ()
      ensures L == []
    {
      L := [];
    }

    /** `Push(i)`: appends a non-nil item as the new top. */
    method Push(i: Option<Item>)
      modifies this
      ensures L == Pushed(old(L), i)
    {
      if i.Some? {
        L := L + [i.value];
      }
    }

    /** `Pop`: removes and returns the top, or nil on an empty stack. */
    method Pop() returns (r: Option<Item>)
      modifies this
      ensures (r, L) == Popped(old(L))
    {
      var l := |L|;
      if l <= 0 {
        r := None;
      } else {
        r := Some(L[l - 1]);
        L := L[0..l - 1];
      }
    }
  }
}
