/** Model of xmlconv/marshal.go: writing an item tree back as XML text, with an
    optional indentation string and CDATA sections (section 2.7 of XML 1.0) for
    text holding markup characters. Go visits the attribute and child maps in an
    unspecified order; here that order is the parameter `pick`. */
module XmlMarshal {
  import Wrappers
  import opened Str
  import opened GoStrings
  import opened XmlItem

  /** `Option`: the string repeated once per level of depth. */
  datatype Option = Option(Indent: string)

  /** `defaultOpt`: no indentation. */
  const DefaultOption := Option("")

  /** The indent the `Marshal*` entry points use: the first option's, or the
      default one when none is given. */
  function IndentOf(opts: seq<Option>): (r: string)
    ensures opts != [] ==> r == opts[0].Indent
    ensures opts == [] ==> r == ""
  {
    if |opts| > 0 then opts[0].Indent else DefaultOption.Indent
  }

  /** What goes before an element's tags: nothing without an indent, otherwise a
      newline and the indent repeated once per level. */
  function Prefix(indent: string, depth: nat): (r: string)
    ensures indent == "" ==> r == ""
    ensures indent != "" ==> r == "\n" + Repeat(indent, depth)
  {
    if Valid(indent) then "\n" + Repeat(indent, depth) else ""
  }

  /** The characters that make text go into a CDATA section. */
  const Markup: set<char> := {'<', '>', '&', '"', '\''}

  const CdataOpen := "<![CDATA["
  const CdataClose := "]]>"

  /** The text of an element: nothing for empty text, the text itself when it holds
      no markup character, and the text inside one CDATA section otherwise (an
      inner `]]>` is not split). */
  function TextOf(s: string): (r: string)
    ensures s == "" ==> r == ""
    ensures s != "" && (forall i :: 0 <= i < |s| ==> s[i] !in Markup) ==> r == s
    ensures s != "" && (exists i :: 0 <= i < |s| && s[i] in Markup) ==> r == CdataOpen + s + CdataClose
  {
    if Valid(s) then
      if ContainsAny(s, Markup) then CdataOpen + s + CdataClose else s
    else ""
  }

  /** How a reader takes the character data back: the inside of a CDATA section
      spanning the whole text, or the text itself. */
  function ReadText(t: string): string
  {
    if |t| >= |CdataOpen| + |CdataClose| && t[..|CdataOpen|] == CdataOpen && t[|t| - |CdataClose|..] == CdataClose
    then t[|CdataOpen|..|t| - |CdataClose|]
    else t
  }

  /** Whether or not the text is wrapped, reading it back gives the original text. */
  lemma TextRoundTrip(s: string)
    ensures ReadText(TextOf(s)) == s
  {
    var t := TextOf(s);
    if s != [] && !ContainsAny(s, Markup) {
      assert t == s && s[0] !in Markup;
      assert |t| >= |CdataOpen| ==> t[..|CdataOpen|][0] != CdataOpen[0];
    } else if s != [] {
      assert t == CdataOpen + s + CdataClose;
      assert t[..|CdataOpen|] == CdataOpen;
      assert t[|t| - |CdataClose|..] == CdataClose;
      assert t[|CdataOpen|..|t| - |CdataClose|] == s;
    }
  }

  /** An inner `]]>` is copied into the section as it is, so the section ends early. */
  lemma InnerCloseIsNotSplit()
    ensures TextOf("a]]>b") == "<![CDATA[a]]>b]]>"
  {
    assert "a]]>b"[2] == ']' && "a]]>b"[3] == '>';
  }

  /** The attributes named in `ks`, each as a space, the name, `=` and the value,
      without quotes or escaping. */
  function AttrText(m: map<string, string>, ks: seq<string>): string
    requires forall i :: 0 <= i < |ks| ==> ks[i] in m
  {
    if ks == [] then ""
    else
      var k := ks[|ks| - 1];
      AttrText(m, ks[..|ks| - 1]) + " " + k + "=" + m[k]
  }

  /** The start tag and text of an element. */
  function Head(x: Item, indent: string, depth: nat, pick: set<string> -> string): string
    requires Chooser(pick)
  {
    Prefix(indent, depth) + "<" + x.name + AttrText(x.attrs, Enumerate(x.attrs.Keys, pick)) + ">" + TextOf(String(x).0)
  }

  /** What follows the text of an element before its end tag: the children one
      level deeper and the prefix again, or nothing for an element without
      children. */
  function Tail(x: Item, indent: string, depth: nat, pick: set<string> -> string): string
    requires Chooser(pick)
    decreases x, 0
  {
    if |x.child| > 0 then ChildrenText(x, Enumerate(x.child.Keys, pick), indent, depth + 1, pick) + Prefix(indent, depth) else ""
  }

  /** The end tag of an element. */
  function EndTag(x: Item): string
  {
    "</" + x.name + ">"
  }

  /** `toBuffer(indent, depth)`: the text of `x` at that depth, which starts with its
      prefix and start tag and ends with its end tag. */
  function Render(x: Item, indent: string, depth: nat, pick: set<string> -> string): (r: string)
    requires Chooser(pick)
    ensures Prefix(indent, depth) + "<" + x.name <= r
    ensures |r| >= |EndTag(x)| && r[|r| - |EndTag(x)|..] == EndTag(x)
    decreases x, 1
  {
    HeadStartsWithTag(x, indent, depth, pick);
    Framed(Prefix(indent, depth) + "<" + x.name, Head(x, indent, depth, pick), Tail(x, indent, depth, pick), EndTag(x));
    Head(x, indent, depth, pick) + Tail(x, indent, depth, pick) + EndTag(x)
  }

  /** The children named in `ks`, one after the other. */
  function ChildrenText(x: Item, ks: seq<string>, indent: string, depth: nat, pick: set<string> -> string): string
    requires Chooser(pick)
    requires forall i :: 0 <= i < |ks| ==> ks[i] in x.child
    decreases x, 0, |ks|
  {
    if ks == [] then ""
    else ChildrenText(x, ks[..|ks| - 1], indent, depth, pick) + Render(x.child[ks[|ks| - 1]], indent, depth, pick)
  }

  /** `toBuffer`: appends the text of `x` to the buffer, visiting attributes and
      children in the order `pick` gives. */
  method ToBuffer(buff: string, x: Item, indent: string, depth: nat, pick: set<string> -> string) returns (b: string)
    requires Chooser(pick)
    ensures b == buff + Render(x, indent, depth, pick)
    decreases x, 1
  {
    var prefix := "";
    if Valid(indent) {
      prefix := "\n" + Repeat(indent, depth);
    }
    var attrs := WriteAttrs(x.attrs, pick);
    var text := WriteText(String(x).0);
    var head := prefix + "<" + x.name + attrs + ">" + text;
    var tail := "";
    if |x.child| > 0 {
      tail := WriteChildren(x, Enumerate(x.child.Keys, pick), indent, depth + 1, pick);
      tail := tail + prefix;
    }
    var closing := "</" + x.name + ">";
    assert head == Head(x, indent, depth, pick);
    assert tail == Tail(x, indent, depth, pick);
    b := buff + (head + tail + closing);
  }

  /** The text step of `toBuffer`. */
  method WriteText(s: string) returns (text: string)
    ensures text == TextOf(s)
  {
    text := "";
    if Valid(s) {
      if ContainsAny(s, Markup) {
        text := CdataOpen + s + CdataClose;
      } else {
        text := s;
      }
    }
  }

  /** The child loop of `toBuffer`: every child one level deeper, in the order
      `pick` gives. */
  method WriteChildren(x: Item, ks: seq<string>, indent: string, depth: nat, pick: set<string> -> string) returns (r: string)
    requires Chooser(pick)
    requires forall i :: 0 <= i < |ks| ==> ks[i] in x.child
    ensures r == ChildrenText(x, ks, indent, depth, pick)
    decreases x, 0
  {
    r := "";
    for i := 0 to |ks|
      invariant r == ChildrenText(x, ks[..i], indent, depth, pick)
    {
      assert ks[..i + 1][..i] == ks[..i];
      r := ToBuffer(r, x.child[ks[i]], indent, depth, pick);
    }
    assert ks[..|ks|] == ks;
  }

  /** The attribute loop: each attribute written in the order `pick` gives. */
  method WriteAttrs(m: map<string, string>, pick: set<string> -> string) returns (r: string)
    requires Chooser(pick)
    ensures r == AttrText(m, Enumerate(m.Keys, pick))
  {
    var ks := Enumerate(m.Keys, pick);
    r := "";
    for i := 0 to |ks|
      invariant r == AttrText(m, ks[..i])
    {
      assert ks[..i + 1][..i] == ks[..i];
      r := r + " " + ks[i] + "=" + m[ks[i]];
    }
    assert ks[..|ks|] == ks;
  }

  /** `MarshalBytes(opt...)`: the text of the tree from depth 0; never an error. */
  method MarshalBytes(x: Item, opts: seq<Option>, pick: set<string> -> string) returns (r: string, err: Wrappers.Option<XmlError>)
    requires Chooser(pick)
    ensures r == Render(x, IndentOf(opts), 0, pick) && err == Wrappers.None
  {
    var indent := "";
    if |opts| > 0 {
      indent := opts[0].Indent;
    } else {
      indent := DefaultOption.Indent;
    }
    assert indent == IndentOf(opts);
    r := ToBuffer("", x, indent, 0, pick);
    assert "" + Render(x, indent, 0, pick) == Render(x, indent, 0, pick);
    err := Wrappers.None;
  }

  /** `MarshalString(opt...)`: the same text as `MarshalBytes`. */
  method MarshalString(x: Item, opts: seq<Option>, pick: set<string> -> string) returns (r: string, err: Wrappers.Option<XmlError>)
    requires Chooser(pick)
    ensures r == Render(x, IndentOf(opts), 0, pick) && err == Wrappers.None
  {
    var indent := "";
    if |opts| > 0 {
      indent := opts[0].Indent;
    } else {
      indent := DefaultOption.Indent;
    }
    assert indent == IndentOf(opts);
    r := ToBuffer("", x, indent, 0, pick);
    assert "" + Render(x, indent, 0, pick) == Render(x, indent, 0, pick);
    err := Wrappers.None;
  }

  /** `Marshal(opt...)`: the same text as `MarshalString`. */
  method Marshal(x: Item, opts: seq<Option>, pick: set<string> -> string) returns (r: string, err: Wrappers.Option<XmlError>)
    requires Chooser(pick)
    ensures r == Render(x, IndentOf(opts), 0, pick) && err == Wrappers.None
  {
    var indent := "";
    if |opts| > 0 {
      indent := opts[0].Indent;
    } else {
      indent := DefaultOption.Indent;
    }
    assert indent == IndentOf(opts);
    r := ToBuffer("", x, indent, 0, pick);
    assert "" + Render(x, indent, 0, pick) == Render(x, indent, 0, pick);
    err := Wrappers.None;
  }

  /** No newline in any name, attribute or text of the tree. */
  ghost predicate NoNewlines(x: Item)
  {
    '\n' !in x.name && '\n' !in String(x).0 &&
    (forall k :: k in x.attrs ==> '\n' !in k && '\n' !in x.attrs[k]) &&
    (forall k :: k in x.child ==> NoNewlines(x.child[k]))
  }

  /** With an empty indent the output holds no newline of its own: every newline
      comes from the tree's names, attributes or text. */
  lemma {:induction false} UnindentedHasNoNewline(x: Item, depth: nat, pick: set<string> -> string)
    requires Chooser(pick) && NoNewlines(x)
    ensures '\n' !in Render(x, "", depth, pick)
    decreases x, 1
  {
    HeadHasNoNewline(x, depth, pick);
    if |x.child| > 0 {
      ChildrenHaveNoNewline(x, Enumerate(x.child.Keys, pick), depth + 1, pick);
      assert Tail(x, "", depth, pick) == ChildrenText(x, Enumerate(x.child.Keys, pick), "", depth + 1, pick) + "";
    }
    assert '\n' !in EndTag(x);
  }

  lemma HeadHasNoNewline(x: Item, depth: nat, pick: set<string> -> string)
    requires Chooser(pick) && NoNewlines(x)
    ensures '\n' !in Head(x, "", depth, pick)
  {
    AttrsHaveNoNewline(x.attrs, Enumerate(x.attrs.Keys, pick));
    var t := String(x).0;
    assert '\n' !in TextOf(t) by {
      if t != "" && ContainsAny(t, Markup) {
        assert TextOf(t) == CdataOpen + t + CdataClose;
      }
    }
  }

  lemma {:induction false} ChildrenHaveNoNewline(x: Item, ks: seq<string>, depth: nat, pick: set<string> -> string)
    requires Chooser(pick) && NoNewlines(x)
    requires forall i :: 0 <= i < |ks| ==> ks[i] in x.child
    ensures '\n' !in ChildrenText(x, ks, "", depth, pick)
    decreases x, 0, |ks|
  {
    if ks != [] {
      ChildrenHaveNoNewline(x, ks[..|ks| - 1], depth, pick);
      UnindentedHasNoNewline(x.child[ks[|ks| - 1]], depth, pick);
    }
  }

  lemma {:induction false} AttrsHaveNoNewline(m: map<string, string>, ks: seq<string>)
    requires forall i :: 0 <= i < |ks| ==> ks[i] in m
    requires forall k :: k in m ==> '\n' !in k && '\n' !in m[k]
    ensures '\n' !in AttrText(m, ks)
  {
    if ks != [] {
      AttrsHaveNoNewline(m, ks[..|ks| - 1]);
    }
  }

  lemma HeadStartsWithTag(x: Item, indent: string, depth: nat, pick: set<string> -> string)
    requires Chooser(pick)
    ensures Prefix(indent, depth) + "<" + x.name <= Head(x, indent, depth, pick)
  {
    var open := Prefix(indent, depth) + "<" + x.name;
    var h1 := open + AttrText(x.attrs, Enumerate(x.attrs.Keys, pick));
    var h2 := h1 + ">";
    var h := h2 + TextOf(String(x).0);
    assert h == Head(x, indent, depth, pick);
    assert h1[..|open|] == open;
    assert h2[..|h1|] == h1;
    assert h[..|h2|] == h2;
    assert h[..|open|] == h[..|h2|][..|h1|][..|open|];
  }

  /** A text that starts with `a` starts with any prefix `p` of `a`, and ends with `c`. */
  lemma Framed(p: string, a: string, b: string, c: string)
    requires p <= a
    ensures p <= a + b + c
    ensures |a + b + c| >= |c| && (a + b + c)[|a + b + c| - |c|..] == c
  {
    assert (a + b + c)[..|p|] == a[..|p|];
    assert (a + b + c)[|a + b|..] == c;
  }

  /** The attribute text of one attribute: no quotes around the value. */
  lemma AttrExample()
    ensures AttrText(map["id" := "7"], ["id"]) == " id=7"
  {
  }
}
