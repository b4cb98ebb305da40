/** The parsed form of one XML part of the package, as the XML parser hands
    it over: a tree of nodes that is only ever searched, never changed. */
module Xml {
  import opened Wrappers

  /** One node of the tree. `tag` is the element name, `attrs` the attributes
      in document order, `children` every child node the parser produced, in
      document order, and `value` the element's text. A text (data) node is a
      child with the empty tag. A whole document is a node whose children are
      its top-level elements. */
  datatype Node = Node(tag: string, attrs: seq<(string, string)>, children: seq<Node>, value: string)

  /** Position of the first node of `cs` whose tag is `name`. */
  function FirstIndex(cs: seq<Node>, name: string): (r: Option<nat>)
    ensures r.Some? ==> r.value < |cs|
  {
    if cs == [] then None
    else if cs[0].tag == name then Some(0)
    else match FirstIndex(cs[1..], name)
      case None => None
      case Some(k) => Some(k + 1)
  }

  /** The position found holds the first node tagged `name`; nothing is
      found exactly when no node has that tag. */
  lemma {:induction false} FirstIndexSpec(cs: seq<Node>, name: string)
    ensures var r := FirstIndex(cs, name);
      (r.Some? ==> cs[r.value].tag == name && forall j :: 0 <= j < r.value ==> cs[j].tag != name)
      && (r.None? <==> forall j :: 0 <= j < |cs| ==> cs[j].tag != name)
  {
    if cs != [] && cs[0].tag != name {
      FirstIndexSpec(cs[1..], name);
      assert forall j :: 1 <= j < |cs| ==> cs[j] == cs[1..][j - 1];
    }
  }

  /** The first child of `n` named `name` (rapidxml's `first_node(name)`). */
  function FirstChild(n: Node, name: string): Option<Node>
  {
    match FirstIndex(n.children, name)
    case None => None
    case Some(k) => Some(n.children[k])
  }

  /** The child found is a child of `n` with the requested tag; none is found
      exactly when no child has that tag. */
  lemma FirstChildSpec(n: Node, name: string)
    ensures FirstChild(n, name).Some? ==>
      FirstChild(n, name).value.tag == name && FirstChild(n, name).value in n.children
    ensures FirstChild(n, name).None? <==> forall j :: 0 <= j < |n.children| ==> n.children[j].tag != name
  {
    FirstIndexSpec(n.children, name);
  }

  /** Position of the first attribute of `attrs` whose name is `name`. */
  function AttrIndex(attrs: seq<(string, string)>, name: string): (r: Option<nat>)
    ensures r.Some? ==> r.value < |attrs|
  {
    if attrs == [] then None
    else if attrs[0].0 == name then Some(0)
    else match AttrIndex(attrs[1..], name)
      case None => None
      case Some(k) => Some(k + 1)
  }

  /** The position found holds the first attribute named `name`; nothing is
      found exactly when no attribute has that name. */
  lemma {:induction false} AttrIndexSpec(attrs: seq<(string, string)>, name: string)
    ensures var r := AttrIndex(attrs, name);
      (r.Some? ==> attrs[r.value].0 == name && forall j :: 0 <= j < r.value ==> attrs[j].0 != name)
      && (r.None? <==> forall j :: 0 <= j < |attrs| ==> attrs[j].0 != name)
  {
    if attrs != [] && attrs[0].0 != name {
      AttrIndexSpec(attrs[1..], name);
      assert forall j :: 1 <= j < |attrs| ==> attrs[j] == attrs[1..][j - 1];
    }
  }

  /** The value of the first attribute of `n` named `name`
      (rapidxml's `first_attribute(name)->value()`). */
  function FirstAttr(n: Node, name: string): Option<string>
  {
    match AttrIndex(n.attrs, name)
    case None => None
    case Some(k) => Some(n.attrs[k].1)
  }

  /** The value found belongs to an attribute named `name`; none is found
      exactly when `n` has no attribute of that name. */
  lemma FirstAttrSpec(n: Node, name: string)
    ensures FirstAttr(n, name).Some? ==> (name, FirstAttr(n, name).value) in n.attrs
    ensures FirstAttr(n, name).None? <==> forall j :: 0 <= j < |n.attrs| ==> n.attrs[j].0 != name
  {
    AttrIndexSpec(n.attrs, name);
  }

  /** Every node of `ns` carries an attribute named `name`. */
  predicate AllHave(ns: seq<Node>, name: string)
  {
    forall k :: 0 <= k < |ns| ==> FirstAttr(ns[k], name).Some?
  }

  /** The value of an attribute known to be present. */
  function Attr(n: Node, name: string): string
    requires FirstAttr(n, name).Some?
  {
    FirstAttr(n, name).value
  }

  lemma AllHavePrefix(ns: seq<Node>, name: string, n: nat)
    requires AllHave(ns, name) && n <= |ns|
    ensures AllHave(ns[..n], name)
  {
  }
}
