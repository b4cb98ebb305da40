/** The shared-string part (`xl/sharedStrings.xml`): one table entry per
    child of the `sst` root, each the text of one string item (`si`). */
module SharedStringsPart {
  import opened Wrappers
  import opened Xml
  import opened CString

  /** The text of the first `t` child of `n`, or "" when it has none. */
  function FirstText(n: Node): string
  {
    match FirstChild(n, "t")
    case None => ""
    case Some(t) => t.value
  }

  /** The text the `r` (rich-text run) nodes among `cs` contribute, in
      document order: the first `t` text of each run. */
  function RunsText(cs: seq<Node>): string
  {
    if cs == [] then ""
    else
      var last := cs[|cs| - 1];
      RunsText(cs[..|cs| - 1]) + (if last.tag == "r" then FirstText(last) else "")
  }

  /** One string item: its own first `t` text, then the text of its runs.
      The run text is appended even when the item has a `t` child. */
  function ItemText(si: Node): (text: string)
    ensures FirstText(si) <= text
  {
    FirstText(si) + RunsText(si.children)
  }

  /** Children none of which is a run contribute no text. */
  lemma {:induction false} RunsTextWithoutRuns(cs: seq<Node>)
    requires forall j :: 0 <= j < |cs| ==> cs[j].tag != "r"
    ensures RunsText(cs) == ""
  {
    if cs != [] {
      var p := cs[..|cs| - 1];
      assert forall j :: 0 <= j < |p| ==> p[j] == cs[j];
      RunsTextWithoutRuns(p);
    }
  }

  /** An item without runs is its own `t` text, or "" when it has none. */
  lemma ItemTextWithoutRuns(si: Node)
    requires forall j :: 0 <= j < |si.children| ==> si.children[j].tag != "r"
    ensures ItemText(si) == FirstText(si)
    ensures FirstChild(si, "t").None? ==> ItemText(si) == ""
  {
    RunsTextWithoutRuns(si.children);
  }

  /** The entries the children of an `sst` node give, one per child. */
  function Items(sst: Node): (table: seq<string>)
    ensures |table| == |sst.children|
  {
    seq(|sst.children|, k requires 0 <= k < |sst.children| => ItemText(sst.children[k]))
  }

  /** Taking one more string item into account. */
  lemma ItemsStep(sst: Node, k: nat)
    requires k < |sst.children|
    ensures Items(sst)[..k + 1] == Items(sst)[..k] + [ItemText(sst.children[k])]
  {
  }

  /** The shared-string table of a package: empty when the part is absent or
      has no `sst` root. */
  function SharedStrings(part: Option<Node>): (table: seq<string>)
    ensures part.None? ==> table == []
    ensures part.Some? && FirstChild(part.value, "sst").None? ==> table == []
    ensures part.Some? && FirstChild(part.value, "sst").Some? ==>
      |table| == |FirstChild(part.value, "sst").value.children|
  {
    match part
    case None => []
    case Some(doc) =>
      match FirstChild(doc, "sst")
      case None => []
      case Some(sst) => Items(sst)
  }

  /** Run text is a concatenation over the children: splitting them splits it. */
  lemma {:induction false} RunsTextAppend(a: seq<Node>, b: seq<Node>)
    ensures RunsText(a + b) == RunsText(a) + RunsText(b)
  {
    if b == [] {
      assert a + b == a;
    } else {
      var b' := b[..|b| - 1];
      assert (a + b)[..|a + b| - 1] == a + b';
      assert (a + b)[|a + b| - 1] == b[|b| - 1];
      RunsTextAppend(a, b');
    }
  }

  /** Taking one more child of a string item into account. */
  lemma RunsTextStep(cs: seq<Node>, j: nat)
    requires j < |cs|
    ensures RunsText(cs[..j + 1]) == RunsText(cs[..j]) + (if cs[j].tag == "r" then FirstText(cs[j]) else "")
  {
    assert cs[..j + 1][..j] == cs[..j];
  }

  /** A child that is not a run, or a run without a `t`, adds no text. */
  lemma RunsTextSkips(a: seq<Node>, n: Node, b: seq<Node>)
    requires n.tag != "r" || FirstChild(n, "t").None?
    ensures RunsText(a + [n] + b) == RunsText(a + b)
  {
    RunsTextAppend(a + [n], b);
    RunsTextAppend(a, b);
    assert (a + [n])[..|a + [n]| - 1] == a;
  }

  /** Runs contribute their texts in document order. */
  lemma RunsTextOfRuns(x: Node, y: Node)
    requires x.tag == "r" && y.tag == "r"
    ensures RunsText([x, y]) == FirstText(x) + FirstText(y)
  {
    assert [x, y][..1] == [x];
    assert [x][..0] == [];
    assert RunsText([x]) == "" + FirstText(x) == FirstText(x);
  }

  /** `reserve(atoi(count))` throws: the `count` attribute of `sst` reads as
      a negative number, which converts to a size beyond the vector's
      `max_size()`, so `std::length_error` leaves the constructor. */
  predicate CountRejected(sst: Node)
  {
    FirstAttr(sst, "count").Some? && Atoi(FirstAttr(sst, "count").value) < 0
  }

  /** The `sst` root of a shared-strings part, when both exist. */
  function SstNode(part: Option<Node>): Option<Node>
  {
    match part
    case None => None
    case Some(doc) => FirstChild(doc, "sst")
  }

  /** Reading the shared-strings part as the code does: `None` when the
      capacity request throws, the table otherwise. */
  function StringTableRead(part: Option<Node>): (r: Option<seq<string>>)
    ensures r.None? <==> SstNode(part).Some? && CountRejected(SstNode(part).value)
    ensures r.Some? ==> r.value == SharedStrings(part)
  {
    match SstNode(part)
    case None => Some([])
    case Some(sst) => if CountRejected(sst) then None else Some(Items(sst))
  }

  /** Whenever the capacity request succeeds, the entries do not depend on
      the attributes of `sst`, `count` among them. */
  lemma CountIgnored(sst: Node, attrs: seq<(string, string)>)
    requires !CountRejected(sst) && !CountRejected(sst.(attrs := attrs))
    ensures StringTableRead(Some(SstPart(sst.(attrs := attrs)))) == StringTableRead(Some(SstPart(sst)))
  {
    SstPartRoot(sst);
    SstPartRoot(sst.(attrs := attrs));
  }

  /** With `count` read as a capacity hint only, as intended, the table never
      depends on it. */
  lemma CountHintIgnored(sst: Node, attrs: seq<(string, string)>)
    ensures SharedStrings(Some(SstPart(sst.(attrs := attrs)))) == SharedStrings(Some(SstPart(sst)))
  {
    SstPartRoot(sst);
    SstPartRoot(sst.(attrs := attrs));
  }

  /** A part whose only top-level element is `sst`. */
  function SstPart(sst: Node): Node
  {
    Node("", [], [sst.(tag := "sst")], "")
  }

  lemma SstPartRoot(sst: Node)
    ensures SstNode(Some(SstPart(sst))) == Some(sst.(tag := "sst"))
  {
  }

  /** `<sst count="-1"><si><t>a</t></si></sst>`: the items alone give the
      table ["a"], but the negative count makes reading the part throw. */
  lemma NegativeCountRejected()
    ensures var sst := Node("sst", [("count", "-1")], [Node("si", [], [Text("a")], "")], "");
      Items(sst) == ["a"] && StringTableRead(Some(SstPart(sst))) == None
  {
    var si := Node("si", [], [Text("a")], "");
    var sst := Node("sst", [("count", "-1")], [si], "");
    MinusOne();
    assert FirstAttr(sst, "count") == Some("-1");
    assert CountRejected(sst);
    assert FirstChild(si, "t") == Some(Text("a"));
    assert ItemText(si) == "a";
    SstPartRoot(sst);
  }

  function Text(s: string): Node
  {
    Node("t", [], [], s)
  }

  function Run(s: string): Node
  {
    Node("r", [], [Text(s)], "")
  }

  /** A `t` child and a run together give both texts, the `t` text first;
      two runs give their concatenation; an empty item gives "". */
  lemma ItemTextExamples()
    ensures ItemText(Node("si", [], [Text("A"), Run("B")], "")) == "AB"
    ensures ItemText(Node("si", [], [Run("A"), Run("B")], "")) == "AB"
    ensures ItemText(Node("si", [], [], "")) == ""
  {
    RunsTextOfRuns(Run("A"), Run("B"));
    assert [Text("A"), Run("B")][..1] == [Text("A")];
    assert [Text("A")][..0] == [];
  }
}
