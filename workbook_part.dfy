/** The workbook part (`xl/workbook.xml`): the list of sheets and the 1904
    date-system flag. */
module WorkbookPart {
  import opened Wrappers
  import opened Xml
  import opened CString

  /** The size of the name buffer before it first grows. */
  const InitialSlots: nat := 100

  /** The `sheets` node under the `workbook` root, if both exist. */
  function SheetsNode(doc: Node): Option<Node>
  {
    match FirstChild(doc, "workbook")
    case None => None
    case Some(root) => FirstChild(root, "sheets")
  }

  /** The `date1904` attribute of `workbook/workbookPr`, if all three exist. */
  function Date1904(doc: Node): Option<string>
  {
    match FirstChild(doc, "workbook")
    case None => None
    case Some(root) =>
      match FirstChild(root, "workbookPr")
      case None => None
      case Some(pr) => FirstAttr(pr, "date1904")
  }

  /** Whether the workbook uses the 1904 date system: its `date1904` value
      reads as the integer 1 with atoi. A missing level gives false. */
  function Is1904(doc: Node): (r: bool)
    ensures r <==> Date1904(doc).Some? && ReadsAsOne(Date1904(doc).value)
  {
    match Date1904(doc)
    case None => false
    case Some(v) => AtoiIsOne(v); Atoi(v) == 1
  }

  function WorkbookWithFlag(value: string): Node
  {
    Node("", [], [Node("workbook", [], [Node("workbookPr", [("date1904", value)], [], "")], "")], "")
  }

  lemma FlagOfWorkbookWithFlag(value: string)
    ensures Is1904(WorkbookWithFlag(value)) <==> ReadsAsOne(value)
  {
    var pr := Node("workbookPr", [("date1904", value)], [], "");
    assert FirstAttr(pr, "date1904") == Some(value);
    assert Date1904(WorkbookWithFlag(value)) == Some(value);
  }

  /** "1" and the other spellings atoi reads as 1 set the flag; "0", "true"
      and "-1" do not. */
  lemma Is1904Examples()
    ensures Is1904(WorkbookWithFlag("1"))
    ensures Is1904(WorkbookWithFlag("01")) && Is1904(WorkbookWithFlag(" +1"))
    ensures !Is1904(WorkbookWithFlag("0"))
    ensures !Is1904(WorkbookWithFlag("true"))
    ensures !Is1904(WorkbookWithFlag("-1"))
  {
    FlagOfWorkbookWithFlag("1");
    FlagOfWorkbookWithFlag("01");
    FlagOfWorkbookWithFlag(" +1");
    FlagOfWorkbookWithFlag("0");
    FlagOfWorkbookWithFlag("true");
    FlagOfWorkbookWithFlag("-1");
    OneSpellings();
    NotOneSpellings();
  }
}
