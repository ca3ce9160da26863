/** Model of `NewFromBytes` in xmlconv/value.go: building an item tree from the
    tokens of an XML document. The tokenizer of Go's `encoding/xml` is not part of
    this model; it is a parameter that maps the input to the tokens it yields and
    to how the stream ends. */
module XmlDecode {
  import opened Wrappers
  import opened GoStrings
  import opened XmlItem
  import opened XmlStack

  /** The tokens the builder distinguishes; processing instructions, directives
      and the like are `Other`. Names are local names, without namespace. */
  datatype Token =
    | StartElement(name: string, attrs: seq<(string, string)>)
    | EndElement(name: string)
    | CharData(text: string)
    | Comment(text: string)
    | Other

  /** How the token stream stops: at the end of the input, or with a tokenizer
      error (a syntax error, say). */
  datatype Ending = EOF | Failure(message: string)

  /** The characters trimmed from both ends of character data. */
  const Blanks: set<char> := {'\r', '\n', '\t', ' '}

  /** The attribute map of a start tag: pairs are stored in order, so a later
      duplicate name overwrites an earlier one. */
  function AttrMap(attrs: seq<(string, string)>): map<string, string>
  {
    if attrs == [] then map[]
    else AttrMap(attrs[..|attrs| - 1])[attrs[|attrs| - 1].0 := attrs[|attrs| - 1].1]
  }

  /** The names of the map are those of the pairs. */
  lemma {:induction false} AttrMapDomain(attrs: seq<(string, string)>)
    ensures forall k :: k in AttrMap(attrs) <==> exists i :: 0 <= i < |attrs| && attrs[i].0 == k
  {
    if attrs != [] {
      var init := attrs[..|attrs| - 1];
      AttrMapDomain(init);
      forall k
        ensures k in AttrMap(attrs) <==> exists i :: 0 <= i < |attrs| && attrs[i].0 == k
      {
        if k in AttrMap(init) {
          var i :| 0 <= i < |init| && init[i].0 == k;
          assert attrs[i].0 == k;
        }
        if exists i :: 0 <= i < |attrs| && attrs[i].0 == k {
          var i :| 0 <= i < |attrs| && attrs[i].0 == k;
          if i < |init| {
            assert init[i].0 == k;
          }
        }
      }
    }
  }

  /** A pair whose name does not come again holds in the map: the last
      duplicate wins. */
  lemma {:induction false} AttrMapLastWins(attrs: seq<(string, string)>, i: nat)
    requires i < |attrs|
    requires forall j :: i < j < |attrs| ==> attrs[j].0 != attrs[i].0
    ensures attrs[i].0 in AttrMap(attrs) && AttrMap(attrs)[attrs[i].0] == attrs[i].1
  {
    if i < |attrs| - 1 {
      var init := attrs[..|attrs| - 1];
      AttrMapLastWins(init, i);
    }
  }

  /** The pairs of a map, in the order `pick` visits its names. */
  function AttrPairs(m: map<string, string>, pick: set<string> -> string): (r: seq<(string, string)>)
    requires Chooser(pick)
    ensures |r| == |Enumerate(m.Keys, pick)|
    ensures forall i :: 0 <= i < |r| ==> r[i].0 == Enumerate(m.Keys, pick)[i] && r[i].0 in m && r[i].1 == m[r[i].0]
  {
    var ks := Enumerate(m.Keys, pick);
    seq(|ks|, i requires 0 <= i < |ks| => (ks[i], m[ks[i]]))
  }

  /** A start tag listing a map's attributes in any order gives back that map. */
  lemma AttrPairsRoundTrip(m: map<string, string>, pick: set<string> -> string)
    requires Chooser(pick)
    ensures AttrMap(AttrPairs(m, pick)) == m
  {
    var am := AttrMap(AttrPairs(m, pick));
    AttrPairsDomain(m, pick);
    forall k | k in m
      ensures am[k] == m[k]
    {
      AttrPairsValue(m, pick, k);
    }
  }

  lemma AttrPairsDomain(m: map<string, string>, pick: set<string> -> string)
    requires Chooser(pick)
    ensures AttrMap(AttrPairs(m, pick)).Keys == m.Keys
  {
    var a := AttrPairs(m, pick);
    var ks := Enumerate(m.Keys, pick);
    EnumerateIsPermutation(m.Keys, pick);
    AttrMapDomain(a);
    forall k | k in m
      ensures k in AttrMap(a)
    {
      var i :| 0 <= i < |ks| && ks[i] == k;
      assert a[i].0 == k;
    }
  }

  lemma AttrPairsValue(m: map<string, string>, pick: set<string> -> string, k: string)
    requires Chooser(pick) && k in m
    ensures k in AttrMap(AttrPairs(m, pick)) && AttrMap(AttrPairs(m, pick))[k] == m[k]
  {
    var a := AttrPairs(m, pick);
    var ks := Enumerate(m.Keys, pick);
    EnumerateIsPermutation(m.Keys, pick);
    var i :| 0 <= i < |ks| && ks[i] == k;
    assert a[i].0 == k;
    AttrMapLastWins(a, i);
  }

  /** The builder's state: the root seen last, the element being filled (nil
      outside any element) and the stack of its open ancestors. */
  datatype Builder = Builder(root: Option<Item>, curr: Option<Item>, stack: seq<Item>)

  const Start := Builder(None, None, [])

  /** A parent with `c` stored under the name of `c`. */
  function WriteBack(p: Item, c: Item): (r: Item)
    ensures r.child == p.child[c.name := c] && r.(child := p.child) == p
  {
    p.(child := p.child[c.name := c])
  }

  /** One token:
      - a start tag creates an item with its name and attributes; it becomes the
        root when no element is open, and otherwise is stored in the current
        item's children (replacing a sibling of that name), the current item
        being pushed;
      - an end tag makes the popped parent current, and nil once the stack is
        empty, at which point the finished element is the root;
      - character data, trimmed of blanks, replaces the current payload unless it
        is empty; comments and other tokens change nothing. */
  function Step(b: Builder, t: Token): (r: Builder)
    ensures t.Comment? || t.Other? ==> r == b
    ensures t.StartElement? ==> r.curr.Some? && r.curr.value.name == t.name && r.curr.value.child == map[]
    ensures t.StartElement? ==> |r.stack| == |b.stack| + (if b.curr.Some? then 1 else 0)
    ensures t.StartElement? && b.curr.None? ==> r.root == r.curr
    ensures t.EndElement? ==> |r.stack| == if b.stack == [] then 0 else |b.stack| - 1
    ensures t.EndElement? && b.stack == [] ==> r.curr.None?
    ensures t.EndElement? && b.curr.Some? ==> Tree(r) == Tree(b)
    ensures t.CharData? ==> r.root == b.root && r.stack == b.stack && (r.curr.Some? <==> b.curr.Some?)
  {
    match t
    case StartElement(name, attrs) =>
      var item := NewItem(name).(attrs := AttrMap(attrs));
      if b.curr.Some? then Builder(b.root, Some(item), Pushed(b.stack, Some(WriteBack(b.curr.value, item))))
      else Builder(Some(item), Some(item), b.stack)
    case EndElement(_) =>
      var (p, rest) := Popped(b.stack);
      if p.Some? then
        assert b.stack == rest + [p.value];
        assert (rest + [p.value])[..|rest|] == rest;
        Builder(b.root, Some(if b.curr.Some? then WriteBack(p.value, b.curr.value) else p.value), rest)
      else
        Builder(if b.curr.Some? then b.curr else b.root, None, rest)
    case CharData(text) =>
      var d := Trim(text, Blanks);
      if !BytesEmpty(d) && b.curr.Some? then Builder(b.root, Some(b.curr.value.(data := d)), b.stack)
      else b
    case Comment(_) => b
    case Other => b
  }

  /** The state after a sequence of tokens, one step per token. */
  function Run(b: Builder, ts: seq<Token>): Builder
  {
    if ts == [] then b else Step(Run(b, ts[..|ts| - 1]), ts[|ts| - 1])
  }

  lemma {:induction false} RunConcat(b: Builder, s: seq<Token>, t: seq<Token>)
    ensures Run(b, s + t) == Run(Run(b, s), t)
  {
    if t == [] {
      assert s + t == s;
    } else {
      assert (s + t)[..|s + t| - 1] == s + t[..|t| - 1];
      RunConcat(b, s, t[..|t| - 1]);
    }
  }

  /** The current item with every open ancestor written back into its parent:
      what the root pointer of the Go tree reaches. */
  function Close(c: Item, stack: seq<Item>): Item
    decreases |stack|
  {
    if stack == [] then c else Close(WriteBack(stack[|stack| - 1], c), stack[..|stack| - 1])
  }

  /** The tree the root refers to in a given state. */
  function Tree(b: Builder): Option<Item>
  {
    if b.curr.Some? then Some(Close(b.curr.value, b.stack)) else b.root
  }

  /** `NewFromBytes(b)`: ParaError on empty input; otherwise the tree built from
      the tokens at the end of input (nil if no element was seen), or the
      tokenizer's error. */
  function Decode(input: string, tokenize: string -> (seq<Token>, Ending)): (r: Result<Option<Item>, XmlError>)
    ensures |input| == 0 ==> r == Err(ParaError)
    ensures |input| > 0 && tokenize(input).1.Failure? ==> r == Err(TokenError(tokenize(input).1.message))
    ensures |input| > 0 && tokenize(input).1.EOF? ==> r.Ok?
  {
    if |input| == 0 then Err(ParaError)
    else
      var (tokens, ending) := tokenize(input);
      match ending
      case EOF => Ok(Tree(Run(Start, tokens)))
      case Failure(message) => Err(TokenError(message))
  }

  /** The token loop of `NewFromBytes`, with the Go stack of open ancestors. At the
      end of input the elements still open are written back into their parents. */
  method NewFromBytes(input: string, tokenize: string -> (seq<Token>, Ending)) returns (r: Result<Option<Item>, XmlError>)
    ensures r == Decode(input, tokenize)
  {
    if 0 == |input| {
      return Err(ParaError);
    }
    var (tokens, ending) := tokenize(input);
    var stk := new Stack();
    var curr: Option<Item> := None;
    var root: Option<Item> := None;
    var i := 0;
    while i < |tokens|
      invariant 0 <= i <= |tokens|
      invariant Builder(root, curr, stk.L) == Run(Start, tokens[..i])
    {
      assert tokens[..i + 1][..i] == tokens[..i];
      curr, root := Consume(stk, curr, root, tokens[i]);
      i := i + 1;
    }
    assert tokens[..i] == tokens;
    if ending.Failure? {
      return Err(TokenError(ending.message));
    }
    if curr.Some? {
      var c := curr.value;
      while stk.L != []
        invariant Close(c, stk.L) == Close(curr.value, Run(Start, tokens).stack)
        decreases |stk.L|
      {
        var p := stk.Pop();
        c := WriteBack(p.value, c);
      }
      root := Some(c);
    }
    r := Ok(root);
  }

  /** The item a start tag creates: its name, and its attributes stored in order. */
  method MakeItem(name: string, attrs: seq<(string, string)>) returns (item: Item)
    ensures item == NewItem(name).(attrs := AttrMap(attrs))
  {
    item := NewItem(name);
    var attr := item.attrs;
    for j := 0 to |attrs|
      invariant attr == AttrMap(attrs[..j])
    {
      assert attrs[..j + 1][..j] == attrs[..j];
      attr := attr[attrs[j].0 := attrs[j].1];
    }
    assert attrs[..|attrs|] == attrs;
    item := item.(attrs := attr);
  }

  /** The body of the token loop: one token applied to the current item, the root
      and the stack. */
  method Consume(stk: Stack, curr: Option<Item>, root: Option<Item>, t: Token) returns (curr': Option<Item>, root': Option<Item>)
    modifies stk
    ensures Builder(root', curr', stk.L) == Step(Builder(root, curr, old(stk.L)), t)
  {
    curr', root' := curr, root;
    match t {
      case StartElement(name, attrs) =>
        var item := MakeItem(name, attrs);
        if curr.Some? {
          stk.Push(Some(WriteBack(curr.value, item)));
        } else {
          root' := Some(item);
        }
        curr' := Some(item);
      case EndElement(_) =>
        var p := stk.Pop();
        if p.Some? {
          curr' := Some(if curr.Some? then WriteBack(p.value, curr.value) else p.value);
        } else {
          if curr.Some? {
            root' := curr;
          }
          curr' := None;
        }
      case CharData(text) =>
        var d := Trim(text, Blanks);
        if false == BytesEmpty(d) {
          if curr.Some? {
            curr' := Some(curr.value.(data := d));
          }
        }
      case Comment(_) =>
      case Other =>
    }
  }

  /** `NewFromString(s)`: `NewFromBytes` on the bytes of `s`. */
  method NewFromString(s: string, tokenize: string -> (seq<Token>, Ending)) returns (r: Result<Option<Item>, XmlError>)
    ensures r == Decode(s, tokenize)
  {
    r := NewFromBytes(s, tokenize);
  }

  /** Tokens without any start tag leave the builder as it started: no root. */
  lemma {:induction false} NoElementNoRoot(ts: seq<Token>)
    requires forall i :: 0 <= i < |ts| ==> !ts[i].StartElement?
    ensures Run(Start, ts) == Start && Tree(Run(Start, ts)) == None
  {
    if ts != [] {
      NoElementNoRoot(ts[..|ts| - 1]);
    }
  }

  /** Character data that is blank once trimmed changes nothing; otherwise the
      trimmed text becomes the payload of the open element. */
  lemma CharDataIsTrimmed(b: Builder, text: string)
    ensures (forall i :: 0 <= i < |text| ==> text[i] in Blanks) ==> Step(b, CharData(text)) == b
    ensures b.curr.Some? && (exists i :: 0 <= i < |text| && text[i] !in Blanks) ==>
              Step(b, CharData(text)).curr == Some(b.curr.value.(data := Trim(text, Blanks)))
  {
  }

  /** A tree the builder can reproduce: no string cache, payloads that trimming
      leaves alone, and every child stored under its own name. */
  ghost predicate Canonical(x: Item)
  {
    x.dataString == None &&
    Trim(x.data, Blanks) == x.data &&
    forall k :: k in x.child ==> x.child[k].name == k && Canonical(x.child[k])
  }

  /** The tokens of the document that `x` is, children and attributes in the order
      `pick` visits them. */
  function Tokens(x: Item, pick: set<string> -> string): seq<Token>
    requires Chooser(pick)
    decreases x, 1
  {
    [StartElement(x.name, AttrPairs(x.attrs, pick))] + Body(x, pick) + [EndElement(x.name)]
  }

  /** The tokens between the tags of `x`: its payload, then its children. */
  function Body(x: Item, pick: set<string> -> string): seq<Token>
    requires Chooser(pick)
    decreases x, 0
  {
    DataTokens(x) + ChildTokens(x, Enumerate(x.child.Keys, pick), pick)
  }

  function ChildTokens(x: Item, ks: seq<string>, pick: set<string> -> string): seq<Token>
    requires Chooser(pick)
    requires forall i :: 0 <= i < |ks| ==> ks[i] in x.child
    decreases x, 0, |ks|
  {
    if ks == [] then [] else Tokens(x.child[ks[0]], pick) + ChildTokens(x, ks[1..], pick)
  }

  /** The child map after the children named in `ks` have been stored in order. */
  function Inserted(m: map<string, Item>, src: map<string, Item>, ks: seq<string>): map<string, Item>
    requires forall i :: 0 <= i < |ks| ==> ks[i] in src
    decreases |ks|
  {
    if ks == [] then m else Inserted(m[ks[0] := src[ks[0]]], src, ks[1..])
  }

  lemma {:induction false} InsertedAll(m: map<string, Item>, src: map<string, Item>, ks: seq<string>)
    requires forall i :: 0 <= i < |ks| ==> ks[i] in src
    ensures forall k :: k in Inserted(m, src, ks) <==> k in m || k in ks
    ensures forall k :: k in ks ==> Inserted(m, src, ks)[k] == src[k]
    ensures forall k :: k in m && k !in ks ==> Inserted(m, src, ks)[k] == m[k]
    decreases |ks|
  {
    if ks != [] {
      InsertedAll(m[ks[0] := src[ks[0]]], src, ks[1..]);
    }
  }

  /** The item a start tag of `x` creates. */
  function Shell(x: Item, pick: set<string> -> string): Item
    requires Chooser(pick)
  {
    NewItem(x.name).(attrs := AttrMap(AttrPairs(x.attrs, pick)))
  }

  /** Inside an open element, the tokens of an element `x` store `x` under its name
      in the current item and leave the stack as it was. */
  lemma {:induction false} RunElement(b: Builder, x: Item, pick: set<string> -> string)
    requires Chooser(pick) && Canonical(x) && b.curr.Some?
    ensures Run(b, Tokens(x, pick)) == Builder(b.root, Some(WriteBack(b.curr.value, x)), b.stack)
    decreases x, 2
  {
    var s := Shell(x, pick);
    var start := [StartElement(x.name, AttrPairs(x.attrs, pick))];
    var w := WriteBack(b.curr.value, s);
    assert Run(b, start) == Builder(b.root, Some(s), b.stack + [w]) by {
      assert start[..0] == [];
    }
    RunBody(b.root, b.stack + [w], x, pick);
    RunConcat(b, start, Body(x, pick));
    var b2 := Builder(b.root, Some(x), b.stack + [w]);
    assert Run(b, start + Body(x, pick)) == b2;
    RunConcat(b, start + Body(x, pick), [EndElement(x.name)]);
    assert Run(b2, [EndElement(x.name)]) == Step(b2, EndElement(x.name)) by {
      assert [EndElement(x.name)][..0] == [];
    }
    PopWritesBack(b.root, b.stack, b.curr.value, s, x);
  }

  /** The end tag of a child pops its parent, which already holds the child's
      start-tag item under the same name, and stores the finished child there. */
  lemma PopWritesBack(root: Option<Item>, stack: seq<Item>, p: Item, s: Item, x: Item)
    requires s.name == x.name
    ensures Step(Builder(root, Some(x), stack + [WriteBack(p, s)]), EndElement(x.name)) ==
            Builder(root, Some(WriteBack(p, x)), stack)
  {
    var l := stack + [WriteBack(p, s)];
    assert l[..|l| - 1] == stack;
    assert WriteBack(p, s).child[x.name := x] == p.child[x.name := x];
  }

  /** With no element open, the tokens of `x` make `x` the root and leave no
      element open. */
  lemma RunRoot(b: Builder, x: Item, pick: set<string> -> string)
    requires Chooser(pick) && Canonical(x) && b.curr.None? && b.stack == []
    ensures Run(b, Tokens(x, pick)) == Builder(Some(x), None, [])
  {
    var s := Shell(x, pick);
    var start := [StartElement(x.name, AttrPairs(x.attrs, pick))];
    assert Run(b, start) == Builder(Some(s), Some(s), []) by {
      assert start[..0] == [];
    }
    RunBody(Some(s), [], x, pick);
    RunConcat(b, start, Body(x, pick));
    RunConcat(b, start + Body(x, pick), [EndElement(x.name)]);
    assert [EndElement(x.name)][..0] == [];
  }

  /** The payload token of `x`, if it has a payload. */
  function DataTokens(x: Item): seq<Token>
  {
    if x.data == "" then [] else [CharData(x.data)]
  }

  /** A payload that trimming leaves alone is stored as it is. */
  lemma RunData(root: Option<Item>, stack: seq<Item>, s: Item, x: Item)
    requires Trim(x.data, Blanks) == x.data && s.data == ""
    ensures Run(Builder(root, Some(s), stack), DataTokens(x)) == Builder(root, Some(s.(data := x.data)), stack)
  {
    if x.data != "" {
      assert DataTokens(x)[..0] == [];
    } else {
      assert s.(data := x.data) == s;
    }
  }

  /** From the item its start tag created, the payload and children of `x` rebuild
      `x` itself. */
  lemma {:induction false} RunBody(root: Option<Item>, stack: seq<Item>, x: Item, pick: set<string> -> string)
    requires Chooser(pick) && Canonical(x)
    ensures Run(Builder(root, Some(Shell(x, pick)), stack), Body(x, pick)) == Builder(root, Some(x), stack)
    decreases x, 1
  {
    var s := Shell(x, pick);
    var b := Builder(root, Some(s), stack);
    var ks := Enumerate(x.child.Keys, pick);
    RunData(root, stack, s, x);
    RunChildren(root, stack, s.(data := x.data), x, ks, pick);
    RunConcat(b, DataTokens(x), ChildTokens(x, ks, pick));
    ShellFilled(x, pick);
  }

  /** The start-tag item of `x`, given the payload of `x` and all its children,
      is `x`. */
  lemma ShellFilled(x: Item, pick: set<string> -> string)
    requires Chooser(pick) && x.dataString == None
    ensures Shell(x, pick).(data := x.data).(child := Inserted(map[], x.child, Enumerate(x.child.Keys, pick))) == x
  {
    var ks := Enumerate(x.child.Keys, pick);
    EnumerateIsPermutation(x.child.Keys, pick);
    InsertedEveryKey(x.child, ks);
    AttrPairsRoundTrip(x.attrs, pick);
    var y := Shell(x, pick).(data := x.data).(child := x.child);
    assert y.name == x.name && y.data == x.data && y.dataString == x.dataString;
    assert y.attrs == x.attrs && y.child == x.child;
  }

  /** Storing every child of a map, in any order, into an empty map rebuilds it. */
  lemma InsertedEveryKey(src: map<string, Item>, ks: seq<string>)
    requires forall k :: k in ks <==> k in src
    ensures Inserted(map[], src, ks) == src
  {
    InsertedAll(map[], src, ks);
  }

  /** The tokens of children stored one after the other. */
  lemma {:induction false} RunChildren(root: Option<Item>, stack: seq<Item>, n: Item, x: Item, ks: seq<string>, pick: set<string> -> string)
    requires Chooser(pick) && Canonical(x)
    requires forall i :: 0 <= i < |ks| ==> ks[i] in x.child
    ensures Run(Builder(root, Some(n), stack), ChildTokens(x, ks, pick)) ==
            Builder(root, Some(n.(child := Inserted(n.child, x.child, ks))), stack)
    decreases x, 0, |ks|
  {
    var b := Builder(root, Some(n), stack);
    if ks == [] {
      assert ChildTokens(x, ks, pick) == [];
    } else {
      var c := x.child[ks[0]];
      RunElement(b, c, pick);
      RunConcat(b, Tokens(c, pick), ChildTokens(x, ks[1..], pick));
      RunChildren(root, stack, WriteBack(n, c), x, ks[1..], pick);
    }
  }

  /** Building from the tokens of a canonical tree gives that tree back, whatever
      order its attributes and children are listed in. */
  lemma DecodeTokens(x: Item, pick: set<string> -> string)
    requires Chooser(pick) && Canonical(x)
    ensures Tree(Run(Start, Tokens(x, pick))) == Some(x)
  {
    RunRoot(Start, x, pick);
  }

  /** A second top-level element replaces the first as root. */
  lemma LastRootWins(x: Item, y: Item, pick: set<string> -> string)
    requires Chooser(pick) && Canonical(x) && Canonical(y)
    ensures Tree(Run(Start, Tokens(x, pick) + Tokens(y, pick))) == Some(y)
  {
    RunRoot(Start, x, pick);
    RunConcat(Start, Tokens(x, pick), Tokens(y, pick));
    RunRoot(Builder(Some(x), None, []), y, pick);
  }
}
