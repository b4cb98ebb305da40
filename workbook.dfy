/** The workbook object: opened on a package path, it reads the epoch flag,
    the shared-string table and the date styles once, keeps them in fields,
    and re-reads the sheet list from the workbook part on every request. */
module Workbook {
  import opened Wrappers
  import opened Xml
  import opened CString
  import opened Dates
  import opened SharedStringsPart
  import opened StylesPart
  import opened WorkbookPart

  /** The parsed parts of the package at a path: `xl/workbook.xml`,
      `xl/styles.xml` and, when the package has one, `xl/sharedStrings.xml`. */
  datatype Archive = Archive(workbook: Node, styles: Node, sharedStrings: Option<Node>)

  /** R's `Rf_lengthgets`: a new vector of length `len` holding the first
      `len` entries of `v`, padded with NA. */
  method LengthGets(v: array<Option<string>>, len: nat) returns (w: array<Option<string>>)
    ensures fresh(w) && w.Length == len
    ensures forall k :: 0 <= k < len ==> w[k] == if k < v.Length then v[k] else None
  {
    var entries := v[..];
    w := new Option<string>[len](k => if 0 <= k < |entries| then entries[k] else None);
  }

  /** The text of one string item, built as the workbook code builds it:
      the first `t` text (or nothing), then `+=` the first `t` text of each
      `r` child in turn. */
  method DecodeItem(si: Node) returns (out: string)
    ensures out == ItemText(si)
  {
    out := "";
    var t := FirstChild(si, "t");
    if t.Some? {
      out := t.value.value;
    }
    var j := 0;
    while j < |si.children|
      invariant 0 <= j <= |si.children|
      invariant out == FirstText(si) + RunsText(si.children[..j])
    {
      var r := si.children[j];
      ghost var before := out;
      if r.tag == "r" {
        var rt := FirstChild(r, "t");
        if rt.Some? {
          out := out + rt.value.value;
        }
      }
      ghost var added := if r.tag == "r" then FirstText(r) else "";
      assert out == before + added;
      RunsTextStep(si.children, j);
      j := j + 1;
    }
    assert si.children[..j] == si.children;
  }

  /** The ids of the custom number formats (children of `numFmts`) whose
      code is a date format; none when the style sheet has no `numFmts`. */
  method CollectCustomDateFormats(ss: Node, isDateFormat: string -> bool) returns (customDateFormats: set<int>)
    requires FirstChild(ss, "numFmts").Some? ==>
      AllHave(FirstChild(ss, "numFmts").value.children, "formatCode")
      && AllHave(FirstChild(ss, "numFmts").value.children, "numFmtId")
    ensures customDateFormats == CustomDateFormats(ss, isDateFormat)
  {
    customDateFormats := {};
    var numFmts := FirstChild(ss, "numFmts");
    if numFmts.Some? {
      var fmts := numFmts.value.children;
      var j := 0;
      while j < |fmts|
        invariant 0 <= j <= |fmts|
        invariant customDateFormats == DateFormatIds(fmts[..j], isDateFormat)
      {
        var code := Attr(fmts[j], "formatCode");
        var id := Atoi(Attr(fmts[j], "numFmtId"));
        if isDateFormat(code) {
          customDateFormats := customDateFormats + {id};
        }
        DateFormatIdsStep(fmts, isDateFormat, j);
        j := j + 1;
      }
      assert fmts[..j] == fmts;
    }
  }

  /** The insert loop over the `cellXfs` records: the position of each
      record whose format id (read with atoi) is a date, given the custom
      date formats. */
  method CollectDateStyleIndices(xfs: seq<Node>, customDateFormats: set<int>, isDateTime: (int, set<int>) -> bool)
    returns (indices: set<int>)
    requires AllHave(xfs, "numFmtId")
    ensures indices == DateStyleIndices(xfs, customDateFormats, isDateTime)
  {
    indices := {};
    var i := 0;
    while i < |xfs|
      invariant 0 <= i <= |xfs|
      invariant indices == DateStyleIndices(xfs[..i], customDateFormats, isDateTime)
    {
      var formatId := Atoi(Attr(xfs[i], "numFmtId"));
      if isDateTime(formatId, customDateFormats) {
        indices := indices + {i};
      }
      DateStyleIndicesStep(xfs, customDateFormats, isDateTime, i);
      i := i + 1;
    }
    assert xfs[..i] == xfs;
  }

  class XlsxWorkBook {
    const path: string
    /** What reading the package at `path` yields. */
    const archive: Archive
    const rules: DateRules
    var dateStyles: set<int>
    var stringTable: seq<string>
    var offset: real

    /** The cached fields agree with the package they were read from. */
    ghost predicate Valid()
      reads this
    {
      && WellFormedStyles(archive.styles)
      && StringTableRead(archive.sharedStrings).Some?
      && stringTable == SharedStrings(archive.sharedStrings)
      && dateStyles == DateStyles(archive.styles, rules)
      && offset == rules.dateOffset(Is1904(archive.workbook))
    }

    /** The object before its caches are filled: `path_` is set, the
        offset is computed from the 1904 flag, and both caches are empty. */
    constructor (path: string, archive: Archive, rules: DateRules)
      ensures this.path == path && this.archive == archive && this.rules == rules
      ensures offset == rules.dateOffset(Is1904(archive.workbook))
      ensures stringTable == [] && dateStyles == {}
    {
      this.path := path;
      this.archive := archive;
      this.rules := rules;
      offset := rules.dateOffset(Is1904(archive.workbook));
      stringTable := [];
      dateStyles := {};
    }

    /** `XlsxWorkBook(path)`: computes the offset, then fills the string
        table, then the date styles. No object results when the
        shared-strings `count` makes the capacity request throw. */
    static method Open(path: string, archive: Archive, rules: DateRules) returns (wb: Option<XlsxWorkBook>)
      requires StringTableRead(archive.sharedStrings).Some? ==> WellFormedStyles(archive.styles)
      ensures wb.None? <==> StringTableRead(archive.sharedStrings).None?
      ensures wb.Some? ==> fresh(wb.value) && wb.value.Valid()
      ensures wb.Some? ==> wb.value.path == path && wb.value.archive == archive && wb.value.rules == rules
      ensures wb.Some? ==> wb.value.offset == rules.dateOffset(Is1904(archive.workbook))
      ensures wb.Some? ==> wb.value.stringTable == SharedStrings(archive.sharedStrings)
      ensures wb.Some? ==> wb.value.dateStyles == DateStyles(archive.styles, rules)
    {
      var w := new XlsxWorkBook(path, archive, rules);
      var thrown := w.CacheStringTable();
      if thrown {
        return None;
      }
      w.CacheDateStyles();
      return Some(w);
    }

    /** The sheet names in document order, NA for a sheet without a name.
        Every child of `sheets` is listed, whatever its tag. When the
        `workbook` root or its `sheets` child is missing, the result is the
        untouched initial buffer: 100 empty strings. */
    method Sheets() returns (names: seq<Option<string>>)
      ensures SheetsNode(archive.workbook).None? ==> names == seq(InitialSlots, _ => Some(""))
      ensures SheetsNode(archive.workbook).Some? ==>
        var sheets := SheetsNode(archive.workbook).value.children;
        |names| == |sheets| && forall i :: 0 <= i < |sheets| ==> names[i] == FirstAttr(sheets[i], "name")
    {
      var n := InitialSlots;
      var sheetNames := new Option<string>[n](_ => Some(""));

      var root := FirstChild(archive.workbook, "workbook");
      if root.None? {
        return sheetNames[..];
      }
      var sheets := FirstChild(root.value, "sheets");
      if sheets.None? {
        return sheetNames[..];
      }

      var children := sheets.value.children;
      var i := 0;
      while i < |children|
        invariant 0 <= i <= |children|
        invariant 0 < n == sheetNames.Length && i <= n
        invariant fresh(sheetNames)
        invariant forall k :: 0 <= k < i ==> sheetNames[k] == FirstAttr(children[k], "name")
      {
        if i >= n {
          n := n * 2;
          sheetNames := LengthGets(sheetNames, n);
        }
        assert i < n;
        sheetNames[i] := FirstAttr(children[i], "name");
        i := i + 1;
      }

      if i != n {
        sheetNames := LengthGets(sheetNames, i);
      }
      names := sheetNames[..];
    }

    function Path(): (p: string)
      reads this
      ensures p == path
    {
      path
    }

    /** The style indices whose number format is a date. */
    function DateStyleSet(): (s: set<int>)
      reads this
      requires Valid()
      ensures s == DateStyles(archive.styles, rules)
    {
      dateStyles
    }

    /** The shared-string table, one entry per string item. */
    function StringTable(): (t: seq<string>)
      reads this
      requires Valid()
      ensures t == SharedStrings(archive.sharedStrings)
    {
      stringTable
    }

    /** The day offset of the workbook's date system. */
    function Offset(): (d: real)
      reads this
      requires Valid()
      ensures d == rules.dateOffset(Is1904(archive.workbook))
    {
      offset
    }

    /** A construction step only, run once by `Open`. Appends one entry per
        child of the `sst` root: the item's first `t` text followed by the
        first `t` text of each of its runs. Before that, `count` is read with
        atoi as a capacity request; a negative value throws (`thrown`) and
        leaves the table as it was. */
    method CacheStringTable() returns (thrown: bool)
      modifies this`stringTable
      ensures thrown <==> StringTableRead(archive.sharedStrings).None?
      ensures thrown ==> stringTable == old(stringTable)
      ensures !thrown ==> stringTable == old(stringTable) + StringTableRead(archive.sharedStrings).value
    {
      if archive.sharedStrings.None? {
        return false;
      }
      var sst := FirstChild(archive.sharedStrings.value, "sst");
      if sst.None? {
        return false;
      }
      var count := FirstAttr(sst.value, "count");
      if count.Some? {
        var n := Atoi(count.value);
        if n < 0 {
          return true;
        }
      }

      var items := sst.value.children;
      var k := 0;
      while k < |items|
        invariant 0 <= k <= |items|
        invariant stringTable == old(stringTable) + Items(sst.value)[..k]
      {
        var out := DecodeItem(items[k]);
        ItemsStep(sst.value, k);
        stringTable := stringTable + [out];
        k := k + 1;
      }
      assert Items(sst.value)[..k] == Items(sst.value);
      thrown := false;
    }

    /** A construction step only, run once by `Open`. Inserts into
        `dateStyles` the position of every `cellXfs` record whose format id
        is a date, after gathering the custom date-format ids. */
    method CacheDateStyles()
      requires WellFormedStyles(archive.styles)
      modifies this`dateStyles
      ensures dateStyles == old(dateStyles) + DateStyles(archive.styles, rules)
    {
      var styleSheet := FirstChild(archive.styles, "styleSheet");
      if styleSheet.None? {
        return;
      }
      var ss := styleSheet.value;

      var customDateFormats := CollectCustomDateFormats(ss, rules.isDateFormat);

      var cellXfs := FirstChild(ss, "cellXfs");
      if cellXfs.None? {
        return;
      }
      var indices := CollectDateStyleIndices(cellXfs.value.children, customDateFormats, rules.isDateTime);
      dateStyles := dateStyles + indices;
    }
  }
}
