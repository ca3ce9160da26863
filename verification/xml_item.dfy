/** Model of the XML item of xmlconv/value.go: a named node with a text payload,
    a lazily filled string cache, attributes and children keyed by name.
    Items are values here; the pointers of the Go tree are written back explicitly
    by the operations that change a node below the one they are called on. */
module XmlItem {
  import opened Wrappers

  /** The error values the XML functions return; the tokenizer's own errors are
      carried unchanged in `TokenError`. */
  datatype XmlError = ParaError | FormatError | TokenError(message: string)

  /** One node of the tree. `data` holds the payload (bytes and strings convert
      into one another unchanged in this model), `dataString` is the cache that
      `String` fills on its first call. */
  datatype Item = Item(
    name: string,
    data: string,
    dataString: Option<string>,
    attrs: map<string, string>,
    child: map<string, Item>)

  /** `NewItem(name)`: a node with that name, no payload, no cache, no attributes
      and no children. */
  function NewItem(name: string): (x: Item)
    ensures x.name == name && x.data == "" && x.dataString == None
    ensures x.attrs == map[] && x.child == map[]
  {
    Item(name, "", None, map[], map[])
  }

  /** `Name`: the element name of the node. */
  function Name(x: Item): (r: string)
    ensures r == x.name
  {
    x.name
  }

  /** `Bytes`: the payload as last stored, regardless of the string cache. */
  function Bytes(x: Item): (r: string)
    ensures r == x.data
  {
    x.data
  }

  /** `Attrs`: the attribute map itself. */
  function Attrs(x: Item): (r: map<string, string>)
    ensures r == x.attrs
  {
    x.attrs
  }

  /** `GetAttr(a)`: the value stored under `a` and whether there is one; a missing
      attribute reads as the empty string. */
  function GetAttr(x: Item, a: string): (r: (string, bool))
    ensures r.1 <==> a in x.attrs
    ensures r.1 ==> r.0 == x.attrs[a]
    ensures !r.1 ==> r.0 == ""
  {
    if a in x.attrs then (x.attrs[a], true) else ("", false)
  }

  /** `String`: the cached text when there is one, otherwise the payload, which is
      then cached. Returns the text and the node with its cache filled. */
  function String(x: Item): (r: (string, Item))
    ensures x.dataString.Some? ==> r.0 == x.dataString.value
    ensures x.dataString.None? ==> r.0 == x.data
    ensures r.1 == x.(dataString := Some(r.0))
  {
    match x.dataString
    case Some(s) => (s, x)
    case None => (x.data, x.(dataString := Some(x.data)))
  }

  /** Once `String` has run, changing the payload does not change what `String`
      returns: the cache is never invalidated. */
  lemma StringIsCached(x: Item, data: string)
    ensures String(String(x).1.(data := data)).0 == String(x).0
  {
  }

  /** Calling `String` on a node whose cache is already filled changes nothing. */
  lemma StringIsIdempotent(x: Item)
    ensures String(String(x).1) == String(x)
  {
  }

  /** `bytesEmpty(b)`: true exactly when `b` has no element. */
  function BytesEmpty(b: string): (r: bool)
    ensures r <==> |b| == 0
  {
    if b != [] then false else true
  }

  /** A choice of one element from every non-empty set of names: the order in
      which a Go `range` over a map happens to visit its keys, which the language
      leaves unspecified. */
  ghost predicate Chooser(pick: set<string> -> string)
  {
    forall s: set<string> :: s != {} ==> pick(s) in s
  }

  /** The keys of `s` in the order `pick` visits them. */
  function Enumerate(s: set<string>, pick: set<string> -> string): (r: seq<string>)
    requires Chooser(pick)
    ensures |r| == |s|
    ensures forall i :: 0 <= i < |r| ==> r[i] in s
    decreases s
  {
    if s == {} then []
    else
      var k := pick(s);
      [k] + Enumerate(s - {k}, pick)
  }

  /** Every key is visited, and none twice. */
  lemma {:induction false} EnumerateIsPermutation(s: set<string>, pick: set<string> -> string)
    requires Chooser(pick)
    ensures forall k :: k in s ==> k in Enumerate(s, pick)
    ensures forall i, j :: 0 <= i < j < |Enumerate(s, pick)| ==> Enumerate(s, pick)[i] != Enumerate(s, pick)[j]
    decreases s
  {
    if s != {} {
      var k := pick(s);
      EnumerateIsPermutation(s - {k}, pick);
      var r := Enumerate(s, pick);
      assert r[1..] == Enumerate(s - {k}, pick);
    }
  }
}
