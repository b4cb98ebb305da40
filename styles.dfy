/** The styles part (`xl/styles.xml`): which cell-format records (`cellXfs`
    children, numbered from 0) use a date number format. */
module StylesPart {
  import opened Wrappers
  import opened Xml
  import opened CString
  import opened Dates

  /** Every attribute the code dereferences without checking is present:
      `formatCode` and `numFmtId` on each `numFmts` child, `numFmtId` on each
      `cellXfs` child. Without them the code reads through a null pointer. */
  predicate WellFormedStyles(doc: Node)
  {
    match FirstChild(doc, "styleSheet")
    case None => true
    case Some(ss) =>
      (match FirstChild(ss, "numFmts")
       case None => true
       case Some(nf) => AllHave(nf.children, "formatCode") && AllHave(nf.children, "numFmtId"))
      && (match FirstChild(ss, "cellXfs")
          case None => true
          case Some(cx) => AllHave(cx.children, "numFmtId"))
  }

  /** The ids of the custom formats among `fmts` whose code is a date
      format, gathered in document order. */
  function DateFormatIds(fmts: seq<Node>, isDateFormat: string -> bool): (ids: set<int>)
    requires AllHave(fmts, "formatCode") && AllHave(fmts, "numFmtId")
  {
    if fmts == [] then {}
    else
      var last := fmts[|fmts| - 1];
      DateFormatIds(fmts[..|fmts| - 1], isDateFormat)
        + (if isDateFormat(Attr(last, "formatCode")) then {Atoi(Attr(last, "numFmtId"))} else {})
  }

  /** At most one id per custom format is gathered. */
  lemma {:induction false} DateFormatIdsSize(fmts: seq<Node>, isDateFormat: string -> bool)
    requires AllHave(fmts, "formatCode") && AllHave(fmts, "numFmtId")
    ensures |DateFormatIds(fmts, isDateFormat)| <= |fmts|
  {
    if fmts != [] {
      var n := |fmts| - 1;
      AllHavePrefix(fmts, "formatCode", n);
      AllHavePrefix(fmts, "numFmtId", n);
      DateFormatIdsSize(fmts[..n], isDateFormat);
    }
  }

  /** Custom format k of `fmts` has a date code and the id `id`. */
  predicate DateFormatAt(fmts: seq<Node>, isDateFormat: string -> bool, k: int, id: int)
    requires AllHave(fmts, "formatCode") && AllHave(fmts, "numFmtId")
  {
    0 <= k < |fmts| && isDateFormat(Attr(fmts[k], "formatCode")) && Atoi(Attr(fmts[k], "numFmtId")) == id
  }

  /** Every gathered id comes from some custom format with a date code. */
  lemma {:induction false} DateFormatIdsWitness(fmts: seq<Node>, isDateFormat: string -> bool, id: int) returns (k: int)
    requires AllHave(fmts, "formatCode") && AllHave(fmts, "numFmtId")
    requires id in DateFormatIds(fmts, isDateFormat)
    ensures DateFormatAt(fmts, isDateFormat, k, id)
  {
    var n := |fmts| - 1;
    var p := fmts[..n];
    AllHavePrefix(fmts, "formatCode", n);
    AllHavePrefix(fmts, "numFmtId", n);
    if id in DateFormatIds(p, isDateFormat) {
      k := DateFormatIdsWitness(p, isDateFormat, id);
      assert p[k] == fmts[k];
    } else {
      k := n;
    }
  }

  /** The id of every custom format with a date code is gathered. */
  lemma {:induction false} DateFormatIdsComplete(fmts: seq<Node>, isDateFormat: string -> bool, k: int, id: int)
    requires AllHave(fmts, "formatCode") && AllHave(fmts, "numFmtId")
    requires DateFormatAt(fmts, isDateFormat, k, id)
    ensures id in DateFormatIds(fmts, isDateFormat)
  {
    var n := |fmts| - 1;
    var p := fmts[..n];
    AllHavePrefix(fmts, "formatCode", n);
    AllHavePrefix(fmts, "numFmtId", n);
    if k < n {
      assert p[k] == fmts[k];
      DateFormatIdsComplete(p, isDateFormat, k, id);
    }
  }

  /** An id is gathered exactly when some custom format has it and a date code. */
  lemma DateFormatIdsMember(fmts: seq<Node>, isDateFormat: string -> bool, id: int)
    requires AllHave(fmts, "formatCode") && AllHave(fmts, "numFmtId")
    ensures id in DateFormatIds(fmts, isDateFormat) <==> exists k :: DateFormatAt(fmts, isDateFormat, k, id)
  {
    if id in DateFormatIds(fmts, isDateFormat) {
      var k := DateFormatIdsWitness(fmts, isDateFormat, id);
    }
    if exists k :: DateFormatAt(fmts, isDateFormat, k, id) {
      var k :| DateFormatAt(fmts, isDateFormat, k, id);
      DateFormatIdsComplete(fmts, isDateFormat, k, id);
    }
  }

  /** The custom date-format ids of a `styleSheet`: none without `numFmts`. */
  function CustomDateFormats(ss: Node, isDateFormat: string -> bool): (ids: set<int>)
    requires FirstChild(ss, "numFmts").Some? ==>
      AllHave(FirstChild(ss, "numFmts").value.children, "formatCode")
      && AllHave(FirstChild(ss, "numFmts").value.children, "numFmtId")
    ensures FirstChild(ss, "numFmts").None? ==> ids == {}
    ensures FirstChild(ss, "numFmts").Some? ==> |ids| <= |FirstChild(ss, "numFmts").value.children|
  {
    match FirstChild(ss, "numFmts")
    case None => {}
    case Some(nf) => DateFormatIdsSize(nf.children, isDateFormat); DateFormatIds(nf.children, isDateFormat)
  }

  lemma CustomDateFormatsMember(ss: Node, isDateFormat: string -> bool, id: int)
    requires FirstChild(ss, "numFmts").Some? ==>
      AllHave(FirstChild(ss, "numFmts").value.children, "formatCode")
      && AllHave(FirstChild(ss, "numFmts").value.children, "numFmtId")
    ensures id in CustomDateFormats(ss, isDateFormat) <==>
      FirstChild(ss, "numFmts").Some? &&
      exists k :: DateFormatAt(FirstChild(ss, "numFmts").value.children, isDateFormat, k, id)
  {
    if FirstChild(ss, "numFmts").Some? {
      DateFormatIdsMember(FirstChild(ss, "numFmts").value.children, isDateFormat, id);
    }
  }

  /** The positions among `xfs` of the records whose format id is a date,
      gathered in document order. */
  function DateStyleIndices(xfs: seq<Node>, custom: set<int>, isDateTime: (int, set<int>) -> bool): (indices: set<int>)
    requires AllHave(xfs, "numFmtId")
  {
    if xfs == [] then {}
    else
      var last := xfs[|xfs| - 1];
      DateStyleIndices(xfs[..|xfs| - 1], custom, isDateTime)
        + (if isDateTime(Atoi(Attr(last, "numFmtId")), custom) then {|xfs| - 1} else {})
  }

  /** Position i is gathered exactly when it is a record of `xfs` whose
      format id is a date. */
  lemma {:induction false} DateStyleIndicesMember(xfs: seq<Node>, custom: set<int>,
                                                  isDateTime: (int, set<int>) -> bool, i: int)
    requires AllHave(xfs, "numFmtId")
    ensures i in DateStyleIndices(xfs, custom, isDateTime) <==>
      0 <= i < |xfs| && isDateTime(Atoi(Attr(xfs[i], "numFmtId")), custom)
  {
    if xfs != [] {
      var n := |xfs| - 1;
      var p := xfs[..n];
      AllHavePrefix(xfs, "numFmtId", n);
      DateStyleIndicesMember(p, custom, isDateTime, i);
      var isDate := isDateTime(Atoi(Attr(xfs[n], "numFmtId")), custom);
      var here: set<int> := if isDate then {n} else {};
      assert DateStyleIndices(xfs, custom, isDateTime) == DateStyleIndices(p, custom, isDateTime) + here;
      if 0 <= i < n {
        assert p[i] == xfs[i];
        assert i !in here;
      } else if i == n {
        assert i !in DateStyleIndices(p, custom, isDateTime);
      } else {
        assert i !in here;
      }
    }
  }

  /** Only positions of records are gathered. */
  lemma DateStyleIndicesBound(xfs: seq<Node>, custom: set<int>, isDateTime: (int, set<int>) -> bool)
    requires AllHave(xfs, "numFmtId")
    ensures forall i :: i in DateStyleIndices(xfs, custom, isDateTime) ==> 0 <= i < |xfs|
  {
    forall i | i in DateStyleIndices(xfs, custom, isDateTime)
      ensures 0 <= i < |xfs|
    {
      DateStyleIndicesMember(xfs, custom, isDateTime, i);
    }
  }

  /** Taking one more custom format into account. */
  lemma DateFormatIdsStep(fmts: seq<Node>, isDateFormat: string -> bool, j: nat)
    requires AllHave(fmts, "formatCode") && AllHave(fmts, "numFmtId") && j < |fmts|
    ensures AllHave(fmts[..j], "formatCode") && AllHave(fmts[..j], "numFmtId")
    ensures AllHave(fmts[..j + 1], "formatCode") && AllHave(fmts[..j + 1], "numFmtId")
    ensures DateFormatIds(fmts[..j + 1], isDateFormat)
      == DateFormatIds(fmts[..j], isDateFormat)
         + (if isDateFormat(Attr(fmts[j], "formatCode")) then {Atoi(Attr(fmts[j], "numFmtId"))} else {})
  {
    assert fmts[..j + 1][..j] == fmts[..j];
  }

  /** Taking one more cell-format record into account. */
  lemma DateStyleIndicesStep(xfs: seq<Node>, custom: set<int>, isDateTime: (int, set<int>) -> bool, i: nat)
    requires AllHave(xfs, "numFmtId") && i < |xfs|
    ensures AllHave(xfs[..i], "numFmtId") && AllHave(xfs[..i + 1], "numFmtId")
    ensures DateStyleIndices(xfs[..i + 1], custom, isDateTime)
      == DateStyleIndices(xfs[..i], custom, isDateTime)
         + (if isDateTime(Atoi(Attr(xfs[i], "numFmtId")), custom) then {i} else {})
  {
    assert xfs[..i + 1][..i] == xfs[..i];
  }

  /** The date-style set of a styles part: empty without a `styleSheet` root
      or without `cellXfs`. */
  function DateStyles(doc: Node, rules: DateRules): (styles: set<int>)
    requires WellFormedStyles(doc)
    ensures FirstChild(doc, "styleSheet").None? ==> styles == {}
    ensures FirstChild(doc, "styleSheet").Some? && FirstChild(FirstChild(doc, "styleSheet").value, "cellXfs").None? ==>
      styles == {}
    ensures FirstChild(doc, "styleSheet").Some? && FirstChild(FirstChild(doc, "styleSheet").value, "cellXfs").Some? ==>
      forall i :: i in styles ==> 0 <= i < |FirstChild(FirstChild(doc, "styleSheet").value, "cellXfs").value.children|
  {
    match FirstChild(doc, "styleSheet")
    case None => {}
    case Some(ss) =>
      match FirstChild(ss, "cellXfs")
      case None => {}
      case Some(cx) =>
        DateStyleIndicesBound(cx.children, CustomDateFormats(ss, rules.isDateFormat), rules.isDateTime);
        DateStyleIndices(cx.children, CustomDateFormats(ss, rules.isDateFormat), rules.isDateTime)
  }

  /** Style index i is a date style exactly when the part has a `styleSheet`
      with `cellXfs`, i numbers one of its records, and that record's format
      id is a date given the custom date formats. */
  lemma DateStylesMember(doc: Node, rules: DateRules, i: int)
    requires WellFormedStyles(doc)
    ensures i in DateStyles(doc, rules) <==>
      FirstChild(doc, "styleSheet").Some? &&
      var ss := FirstChild(doc, "styleSheet").value;
      FirstChild(ss, "cellXfs").Some? &&
      var xfs := FirstChild(ss, "cellXfs").value.children;
      0 <= i < |xfs| && rules.isDateTime(Atoi(Attr(xfs[i], "numFmtId")), CustomDateFormats(ss, rules.isDateFormat))
  {
    match FirstChild(doc, "styleSheet")
    case None =>
    case Some(ss) =>
      match FirstChild(ss, "cellXfs")
      case None =>
      case Some(cx) =>
        DateStyleIndicesMember(cx.children, CustomDateFormats(ss, rules.isDateFormat), rules.isDateTime, i);
  }
}
