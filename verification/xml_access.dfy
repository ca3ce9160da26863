/** Model of xmlconv/longaccess.go: reading and writing the node reached by a path
    of child names, creating missing nodes on the way down when writing.
    The tree is a value, so an operation that changes a node deep in the tree
    returns the new tree; the write-back of every node on the path is what the
    shared pointers of the Go tree do implicitly. */
module XmlAccess {
  import opened Wrappers
  import opened Str
  import opened XmlItem

  /** The node reached from `x` by following `path`, if every name on it exists. */
  function Lookup(x: Item, path: seq<string>): Option<Item>
    decreases path
  {
    if path == [] then Some(x)
    else if path[0] in x.child then Lookup(x.child[path[0]], path[1..])
    else None
  }

  /** Following one more name from the node a path reaches. */
  lemma {:induction false} LookupAppend(x: Item, path: seq<string>, n: string)
    ensures var c := Lookup(x, path);
            Lookup(x, path + [n]) ==
              if c.Some? && n in c.value.child then Some(c.value.child[n]) else None
    decreases path
  {
    if path != [] {
      assert (path + [n])[1..] == path[1..] + [n];
      if path[0] in x.child {
        LookupAppend(x.child[path[0]], path[1..], n);
      }
    }
  }

  /** The child named `n`, or the fresh node a write creates in its place. */
  function ChildOrNew(c: Item, n: string): (r: Item)
    ensures n in c.child ==> r == c.child[n]
    ensures n !in c.child ==> r == NewItem(n)
  {
    if n in c.child then c.child[n] else NewItem(n)
  }

  /** The node a write along `path` ends on: the existing one, or the fresh ones
      created for the missing part of the path. */
  function Target(x: Item, path: seq<string>): Item
    decreases path
  {
    if path == [] then x else Target(ChildOrNew(x, path[0]), path[1..])
  }

  /** A write reaches the node already at the path, and a fresh node named after
      the last name when any name on the path is missing. */
  lemma {:induction false} TargetIsLookupOrNew(x: Item, path: seq<string>)
    ensures Lookup(x, path).Some? ==> Target(x, path) == Lookup(x, path).value
    ensures Lookup(x, path).None? ==> path != [] && Target(x, path) == NewItem(path[|path| - 1])
    decreases path
  {
    if path != [] {
      if path[0] in x.child {
        TargetIsLookupOrNew(x.child[path[0]], path[1..]);
      } else {
        TargetOfNew(path[0], path[1..]);
      }
    }
  }

  /** Below a fresh node every further name is missing too. */
  lemma {:induction false} TargetOfNew(name: string, path: seq<string>)
    ensures Target(NewItem(name), path) == NewItem(if path == [] then name else path[|path| - 1])
    decreases path
  {
    if path != [] {
      TargetOfNew(path[0], path[1..]);
    }
  }

  /** The tree after the node at `path` (existing or created, see `Target`) is
      replaced by `f` of itself; every node on the way is written back with its
      child map updated and nothing else changed. */
  function Update(x: Item, path: seq<string>, f: Item -> Item): (r: Item)
    requires path != []
    ensures r.name == x.name && r.data == x.data && r.dataString == x.dataString
    ensures r.attrs == x.attrs && r.child.Keys == x.child.Keys + {path[0]}
    decreases path
  {
    var c := ChildOrNew(x, path[0]);
    x.(child := x.child[path[0] := if |path| == 1 then f(c) else Update(c, path[1..], f)])
  }

  /** After an update the path leads to `f` of the node that was its target. */
  lemma {:induction false} UpdateThenLookup(x: Item, path: seq<string>, f: Item -> Item)
    requires path != []
    ensures Lookup(Update(x, path, f), path) == Some(f(Target(x, path)))
    decreases path
  {
    var c := ChildOrNew(x, path[0]);
    if |path| > 1 {
      UpdateThenLookup(c, path[1..], f);
    }
  }

  /** Every node strictly above the target is still reached along the path, and it
      is the node that was there (or was created) with only its child map changed. */
  lemma {:induction false} UpdateKeepsAncestors(x: Item, path: seq<string>, f: Item -> Item, k: nat)
    requires k < |path|
    ensures var a := Lookup(Update(x, path, f), path[..k]);
            a.Some? && a.value.(child := Target(x, path[..k]).child) == Target(x, path[..k])
    ensures Lookup(Update(x, path, f), path[..k]).value.child.Keys ==
            Target(x, path[..k]).child.Keys + {path[k]}
    decreases path
  {
    if k > 0 {
      var c := ChildOrNew(x, path[0]);
      assert path[..k][0] == path[0] && path[..k][1..] == path[1..][..k - 1];
      UpdateKeepsAncestors(c, path[1..], f, k - 1);
    }
  }

  /** Paths that part ways: neither is a prefix of the other. */
  predicate Diverge(p: seq<string>, q: seq<string>)
  {
    !(p <= q) && !(q <= p)
  }

  /** An update changes nothing that is reached along a path diverging from its own:
      siblings and their subtrees are untouched. */
  lemma {:induction false} UpdateElsewhere(x: Item, path: seq<string>, f: Item -> Item, q: seq<string>)
    requires path != [] && Diverge(path, q)
    ensures Lookup(Update(x, path, f), q) == Lookup(x, q)
    decreases path
  {
    assert q != [];
    if q[0] == path[0] {
      assert |path| == 1 ==> path <= q;
      assert |q| == 1 ==> q <= path;
      var c := ChildOrNew(x, path[0]);
      assert path == [path[0]] + path[1..] && q == [q[0]] + q[1..];
      assert Diverge(path[1..], q[1..]);
      UpdateElsewhere(c, path[1..], f, q[1..]);
      if path[0] !in x.child {
        assert Lookup(c, q[1..]) == None;
      }
    }
  }

  /** The update walk of the Go code: a cursor goes down the path, taking the
      existing child or creating a fresh one; the changed nodes are then written
      back from the target up to the root. */
  method UpdateAt(x: Item, path: seq<string>, f: Item -> Item) returns (r: Item)
    requires path != []
    ensures r == Update(x, path, f)
  {
    var spine := [x];
    var i := 0;
    while i < |path|
      invariant 0 <= i <= |path| && |spine| == i + 1 && spine[0] == x
      invariant forall j :: 0 <= j < i ==> spine[j + 1] == ChildOrNew(spine[j], path[j])
    {
      spine := spine + [ChildOrNew(spine[i], path[i])];
      i := i + 1;
    }
    r := f(spine[|path|]);
    while i > 0
      invariant 0 <= i <= |path|
      invariant i == |path| ==> r == f(spine[i])
      invariant i < |path| ==> r == Update(spine[i], path[i..], f)
    {
      i := i - 1;
      assert path[i..][1..] == path[i + 1..];
      r := spine[i].(child := spine[i].child[path[i] := r]);
    }
  }

  /** `GetChild(n1, names...)`: the node at that path and whether it exists. With
      further names, `n1` itself must exist (the Go code dereferences it). */
  method GetChild(x: Item, n1: string, names: seq<string>) returns (c: Option<Item>, exist: bool)
    requires names != [] ==> n1 in x.child
    ensures c == Lookup(x, [n1] + names)
    ensures exist <==> c.Some?
  {
    c := if n1 in x.child then Some(x.child[n1]) else None;
    exist := n1 in x.child;
    if |names| == 0 {
      return;
    }
    var i := 0;
    while i < |names|
      invariant 0 <= i <= |names|
      invariant c.Some? && exist && c == Lookup(x, [n1] + names[..i])
    {
      var n := names[i];
      LookupAppend(x, [n1] + names[..i], n);
      assert [n1] + names[..i + 1] == [n1] + names[..i] + [n];
      if n !in c.value.child {
        PathBlocked(x, [n1] + names[..i + 1], [n1] + names);
        return None, false;
      }
      c := Some(c.value.child[n]);
      i := i + 1;
    }
    assert names[..i] == names;
  }

  /** Once a path is missing, every longer path is missing too. */
  lemma {:induction false} PathBlocked(x: Item, p: seq<string>, q: seq<string>)
    requires p <= q && Lookup(x, p) == None
    ensures Lookup(x, q) == None
    decreases p
  {
    if p[0] in x.child {
      PathBlocked(x.child[p[0]], p[1..], q[1..]);
    }
  }

  /** `SetChild(child, n1, names...)`: nothing for a nil child or an empty `n1`.
      Otherwise `child`, renamed after the last name of the path, is stored at the
      path (replacing any subtree there), and the node it was stored in is
      returned: the child itself when the path has one name, its parent otherwise. */
  method SetChild(x: Item, child: Option<Item>, n1: string, names: seq<string>)
    returns (y: Item, c: Option<Item>)
    ensures child.None? || n1 == "" ==> y == x && c == None
    ensures child.Some? && n1 != "" ==>
              var path := [n1] + names;
              var stored := child.value.(name := path[|path| - 1]);
              y == Update(x, path, _ => stored) &&
              Lookup(y, path) == Some(stored) &&
              c.Some? &&
              (names == [] ==> c == Some(stored)) &&
              (names != [] ==> c == Lookup(y, path[..|names|])) &&
              (names != [] ==> path[|path| - 1] in c.value.child &&
                               c.value.child[path[|path| - 1]] == stored)
  {
    if child.None? || Empty(n1) {
      return x, None;
    }
    var path := [n1] + names;
    var stored := child.value.(name := path[|path| - 1]);
    if |names| == 0 {
      y := x.(child := x.child[n1 := stored]);
      c := Some(stored);
      return;
    }
    y := UpdateAt(x, path, _ => stored);
    StoredUnderParent(x, path, _ => stored);
    c := Lookup(y, path[..|names|]);
  }

  /** After an update along a path of two names or more, the parent of the target
      is still reached, and it holds the new node under the last name. */
  lemma StoredUnderParent(x: Item, path: seq<string>, f: Item -> Item)
    requires |path| >= 2
    ensures var y := Update(x, path, f);
            var last := path[|path| - 1];
            var a := Lookup(y, path[..|path| - 1]);
            Lookup(y, path) == Some(f(Target(x, path))) &&
            a.Some? && last in a.value.child && a.value.child[last] == f(Target(x, path))
  {
    UpdateThenLookup(x, path, f);
    HeldByParent(Update(x, path, f), path);
  }

  /** A node reached by a path is held, under the path's last name, by the node the
      path without its last name reaches. */
  lemma HeldByParent(y: Item, path: seq<string>)
    requires path != [] && Lookup(y, path).Some?
    ensures var last := path[|path| - 1];
            var a := Lookup(y, path[..|path| - 1]);
            a.Some? && last in a.value.child && Some(a.value.child[last]) == Lookup(y, path)
  {
    var k := |path| - 1;
    assert path[..k] + [path[k]] == path;
    LookupAppend(y, path[..k], path[k]);
  }

  /** `SetEmptyChild(n1, names...)`: nothing for an empty `n1`; otherwise a fresh
      empty node named after the last name replaces whatever was at the path. */
  method SetEmptyChild(x: Item, n1: string, names: seq<string>) returns (y: Item, c: Option<Item>)
    ensures n1 == "" ==> y == x && c == None
    ensures n1 != "" ==>
              var path := [n1] + names;
              var blank := NewItem(path[|path| - 1]);
              y == Update(x, path, _ => blank) &&
              Lookup(y, path) == Some(blank) &&
              c.Some? &&
              (names == [] ==> c == Some(blank)) &&
              (names != [] ==> c == Lookup(y, path[..|names|]))
  {
    if Empty(n1) {
      return x, None;
    }
    var l := |names|;
    if l == 0 {
      y, c := SetChild(x, Some(NewItem(n1)), n1, names);
    } else {
      var n := names[l - 1];
      y, c := SetChild(x, Some(NewItem(n)), n1, names);
    }
  }

  /** `SetChildBytes(b, n1, names...)`: nothing for an empty `n1`; otherwise the
      node at the path (created with any missing ancestors) gets `b` as payload,
      keeping its name, attributes, children and string cache, and is returned. */
  method SetChildBytes(x: Item, b: string, n1: string, names: seq<string>) returns (y: Item, c: Option<Item>)
    ensures n1 == "" ==> y == x && c == None
    ensures n1 != "" ==>
              var path := [n1] + names;
              var node := Target(x, path).(data := b);
              y == Update(x, path, (t: Item) => t.(data := b)) &&
              Lookup(y, path) == Some(node) && c == Some(node)
  {
    if Empty(n1) {
      return x, None;
    }
    var path := [n1] + names;
    y := UpdateAt(x, path, (t: Item) => t.(data := b));
    UpdateThenLookup(x, path, (t: Item) => t.(data := b));
    c := Some(Target(x, path).(data := b));
  }

  /** `SetChildString(s, n1, names...)`: `SetChildBytes` on the bytes of `s`. */
  method SetChildString(x: Item, s: string, n1: string, names: seq<string>) returns (y: Item, c: Option<Item>)
    ensures n1 == "" ==> y == x && c == None
    ensures n1 != "" ==>
              var path := [n1] + names;
              y == Update(x, path, (t: Item) => t.(data := s)) &&
              Lookup(y, path) == Some(Target(x, path).(data := s)) && c == Lookup(y, path)
  {
    y, c := SetChildBytes(x, s, n1, names);
  }

  /** The payload a write stores is what `Bytes` then reads at the path, while a
      string cached before the write keeps being returned by `String`. */
  lemma SetBytesKeepsCache(x: Item, b: string, path: seq<string>, cached: string)
    requires path != [] && Lookup(x, path).Some?
    requires Lookup(x, path).value.dataString == Some(cached)
    ensures var n := Lookup(Update(x, path, (t: Item) => t.(data := b)), path);
            n.Some? && Bytes(n.value) == b && String(n.value).0 == cached
  {
    TargetIsLookupOrNew(x, path);
    UpdateThenLookup(x, path, (t: Item) => t.(data := b));
  }
}
