# readxl workbook decoder, modelled in Dafny

This project models `XlsxWorkBook`, the workbook-level decoder of readxl for
Office Open XML spreadsheet packages (ECMA-376 Part 1, SpreadsheetML). When
a workbook object is opened on a package path, it does three things:

- it reads the 1904 date-system flag from `xl/workbook.xml` and derives the
  epoch day offset from it;
- it builds the shared-string table from `xl/sharedStrings.xml`, with one
  entry per child of the `sst` root. Section 18.4.8 of ECMA-376 Part 1
  defines these string items (`si`);
- it collects the set of cell-style indices whose number format is a date
  (from `xl/styles.xml`).

It keeps these three results in fields. It re-reads the sheet names from the
workbook part each time they are asked for.

Opening fails when the `count` attribute of the `sst` root reads (with
`atoi`) as a negative number. The code passes that number to
`std::vector::reserve` (src/XlsxWorkBook.h:89-93). There it converts to a
size far beyond `max_size()`, so `reserve` throws `std::length_error` and no
workbook object results. `Workbook.XlsxWorkBook.Open` models this failure.

Modules, one per part of the package plus the object itself:

- `Xml` (xml.dfy): the parsed XML tree and the parser's lookups. `FirstChild`
  finds the first child with a given tag and `FirstAttr` the first attribute
  with a given name.
- `CString` (atoi.dfy): C's `atoi`, which the code applies to every numeric
  attribute.
- `Dates` (dates.dfy): the date rules `isDateFormat`, `isDateTime` and
  `dateOffset`. They are defined in `utils.h` and `CellType.h`, which are not
  part of this model, so they are kept abstract as function-valued fields.
- `SharedStringsPart`, `StylesPart`, `WorkbookPart`: what each part yields,
  written as functions with their properties proved as lemmas.
- `Workbook` (workbook.dfy): the class `XlsxWorkBook`. `Open` is the
  source's constructor: it sets the path and the offset, then runs the two
  caching steps in the source's order, and it gives no object when the
  string-table step throws. `Sheets` is a loop over a name buffer. When the
  buffer is full, `LengthGets` (R's `Rf_lengthgets`) replaces it with a
  fresh copy of twice the length. `CacheStringTable` and `CacheDateStyles`
  append to and insert into the fields, and each is proved against the part
  functions.

Where the code and its own comment disagree, the model follows the code.
The comment at src/XlsxWorkBook.h:102 says that a `t` element trumps any `r`
elements. The code at lines 119-126 still appends the text of every run after
the `t` text. So an item with `t` "A" and a run "B" decodes to "AB"
(`SharedStringsPart.ItemTextExamples`). The model also keeps these behaviours
of the code:

- When the `workbook` root or its `sheets` child is missing, `Sheets`
  returns the initial buffer of 100 empty strings, not an empty list.
- Every child of `sheets` is listed, whatever its tag.

The XML tree holds every child node the parser produces, in document order.
A text node is a child with the empty tag. The unnamed child iterations in
`sheets()`, `cacheStringTable()` and `cacheDateStyles()` visit text nodes as
well, and the model does the same. An element's `value` is its text.

## Model

| member | source | states |
|---|---|---|
| `Xml.FirstChildSpec` | src/XlsxWorkBook.h:32-38 | the child `first_node(name)` finds has the requested tag and is a child of the node; none is found exactly when no child has that tag |
| `Xml.FirstIndexSpec` | src/XlsxWorkBook.h:36 | the position found is the first one with the requested tag: every earlier child has another tag |
| `Xml.FirstAttrSpec` | src/XlsxWorkBook.h:47-48 | the value `first_attribute(name)` finds belongs to an attribute of that name; none is found exactly when the node has no attribute of that name |
| `Xml.AttrIndexSpec` | src/XlsxWorkBook.h:183 | the position found is the first attribute with the requested name; none is found exactly when no attribute has that name |
| `CString.SkipSpace` | src/XlsxWorkBook.h:187 | the result is a suffix of the input that does not start with white space, and everything dropped is white space |
| `CString.LeadingDigits` | src/XlsxWorkBook.h:187 | the result is the longest prefix made of decimal digits |
| `CString.AtoiValue` | src/XlsxWorkBook.h:91 | `atoi` reads the value of the leading digits after white space and an optional sign, and gives a negative value only after a minus sign |
| `CString.AtoiNegative` | src/XlsxWorkBook.h:91-92 | `atoi` gives a negative value exactly when, after the white space, a minus sign is followed by digits that are not all zeros |
| `CString.AtoiDecimal` | src/XlsxWorkBook.h:148 | atoi reads back every non-negative number written in decimal (round trip) |
| `CString.DigitsValueZero` | src/XlsxWorkBook.h:187 | a digit string has value 0 exactly when it is all zeros |
| `CString.DigitsValueOne` | src/XlsxWorkBook.h:187 | a digit string has value 1 exactly when it is zeros followed by one "1" |
| `CString.AtoiIsOne` | src/XlsxWorkBook.h:187 | `atoi(s) == 1` holds exactly when s is white space, an optional "+", zeros, "1", then a non-digit or the end |
| `CString.OneSpellings` | src/XlsxWorkBook.h:187 | "1", "01" and " +1" read as 1 |
| `CString.NotOneSpellings` | src/XlsxWorkBook.h:187 | "0", "true" and "-1" do not read as 1 |
| `SharedStringsPart.ItemText` | src/XlsxWorkBook.h:99-128 | the item's own first `t` text is a prefix of its entry; the run text follows it |
| `SharedStringsPart.RunsTextWithoutRuns` | src/XlsxWorkBook.h:119-126 | children none of which is an `r` contribute no text |
| `SharedStringsPart.ItemTextWithoutRuns` | src/XlsxWorkBook.h:99-128 | an item without `r` children is its first `t` text, or "" when it has no `t` |
| `SharedStringsPart.Items` | src/XlsxWorkBook.h:96-129 | an `sst` node yields exactly one entry per child, whatever the children are |
| `SharedStringsPart.SharedStrings` | src/XlsxWorkBook.h:77-93 | a missing part or a missing `sst` root gives an empty table; otherwise the table has one entry per child of `sst` |
| `SharedStringsPart.StringTableRead` | src/XlsxWorkBook.h:77-129 | reading the part fails exactly when `sst` exists and its `count` reads as negative with atoi (the `reserve` at line 92 throws); otherwise it gives the shared-string table |
| `SharedStringsPart.CountIgnored` | src/XlsxWorkBook.h:89-93 | whenever the `reserve` call succeeds, the entries do not depend on the attributes of `sst`, `count` among them |
| `SharedStringsPart.CountHintIgnored` | src/XlsxWorkBook.h:89-93 | with `count` read only as a capacity hint, the table never depends on it |
| `SharedStringsPart.NegativeCountRejected` | src/XlsxWorkBook.h:89-93 | for `<sst count="-1"><si><t>a</t></si></sst>` the items give ["a"], but reading the part fails |
| `SharedStringsPart.RunsTextAppend` | src/XlsxWorkBook.h:118-126 | the run text of a string item concatenates over its children in document order |
| `SharedStringsPart.RunsTextStep` | src/XlsxWorkBook.h:119-126 | one more child adds its first `t` text when it is an `r`, and nothing otherwise |
| `SharedStringsPart.RunsTextSkips` | src/XlsxWorkBook.h:121-125 | a child that is not an `r`, or an `r` with no `t`, contributes nothing |
| `SharedStringsPart.RunsTextOfRuns` | src/XlsxWorkBook.h:119-126 | two runs contribute their `t` texts in document order |
| `SharedStringsPart.ItemTextExamples` | src/XlsxWorkBook.h:99-128 | `t` "A" then run "B" gives "AB" (the run text is appended); runs "A", "B" give "AB"; an empty item gives "" |
| `StylesPart.DateFormatIdsSize` | src/XlsxWorkBook.h:145-152 | at most one id is gathered per custom format |
| `StylesPart.CustomDateFormats` | src/XlsxWorkBook.h:142-153 | no custom date formats without `numFmts`; otherwise at most one per `numFmts` child |
| `StylesPart.DateFormatIdsWitness` | src/XlsxWorkBook.h:145-152 | every gathered id is the atoi'd `numFmtId` of some custom format whose code is a date format |
| `StylesPart.DateFormatIdsComplete` | src/XlsxWorkBook.h:145-152 | the atoi'd id of every custom format whose code is a date format is gathered |
| `StylesPart.DateFormatIdsMember` | src/XlsxWorkBook.h:145-152 | an id is gathered exactly when some custom format has a date code and reads (atoi) as that id |
| `StylesPart.CustomDateFormatsMember` | src/XlsxWorkBook.h:142-153 | the custom date ids are exactly the atoi'd `numFmtId`s of the `numFmts` children with a date `formatCode`; none without `numFmts` |
| `StylesPart.DateFormatIdsStep` | src/XlsxWorkBook.h:147-151 | one more custom format adds its id exactly when its code is a date format |
| `StylesPart.DateStyleIndicesMember` | src/XlsxWorkBook.h:160-167 | position i is gathered exactly when i numbers a record whose atoi'd `numFmtId` is a date |
| `StylesPart.DateStyleIndicesStep` | src/XlsxWorkBook.h:163-166 | one more record adds its position exactly when its format id is a date |
| `StylesPart.DateStyleIndicesBound` | src/XlsxWorkBook.h:160-167 | only positions of `cellXfs` records are gathered |
| `StylesPart.DateStyles` | src/XlsxWorkBook.h:137-167 | a missing `styleSheet` or `cellXfs` gives the empty set; otherwise every date style numbers a `cellXfs` record |
| `StylesPart.DateStylesMember` | src/XlsxWorkBook.h:137-167 | i is a date style exactly when `styleSheet` and `cellXfs` exist, i < the number of `cellXfs` children, and child i's format id is a date given the custom date formats; so a missing `styleSheet` or `cellXfs` gives the empty set |
| `WorkbookPart.Is1904` | src/XlsxWorkBook.h:170-188 | true exactly when `workbook`, `workbookPr` and `@date1904` all exist and the value reads as 1 with atoi; a missing level gives false |
| `WorkbookPart.FlagOfWorkbookWithFlag` | src/XlsxWorkBook.h:183-187 | in a workbook whose `date1904` is v, the flag is set exactly when v reads as 1 |
| `WorkbookPart.Is1904Examples` | src/XlsxWorkBook.h:183-187 | "1", "01" and " +1" set the flag; "0", "true" and "-1" do not |
| `Workbook.LengthGets` | src/XlsxWorkBook.h:43-46 | resizing the name buffer gives a fresh vector of the new length that keeps the old entries and pads with NA |
| `Workbook.DecodeItem` | src/XlsxWorkBook.h:99-126 | the text built by the `+=` loop is the item's first `t` text followed by the first `t` text of each `r` child, in order |
| `Workbook.CollectCustomDateFormats` | src/XlsxWorkBook.h:141-153 | the set built by the insert loop is the set of custom date-format ids |
| `Workbook.CollectDateStyleIndices` | src/XlsxWorkBook.h:160-167 | the set built by the loop over the `cellXfs` records is the set of positions whose atoi'd `numFmtId` is a date given the custom date formats |
| `Workbook.XlsxWorkBook.constructor` | src/XlsxWorkBook.h:18-19 | the object before its caches are filled: the path is set, `offset` is `dateOffset(is1904())`, and both caches are empty |
| `Workbook.XlsxWorkBook.Open` | src/XlsxWorkBook.h:18-22 | no object results exactly when reading the shared strings throws (a negative `count`), whatever the styles part holds, since the throw comes first; otherwise a fresh object whose `offset` is `dateOffset(is1904())`, whose string table is the part's table and whose date styles are the part's date styles, so the object invariant holds |
| `Workbook.XlsxWorkBook.Sheets` | src/XlsxWorkBook.h:24-56 | with `workbook` and `sheets` present: one entry per child of `sheets`, in order, each that child's `name` or NA; otherwise the untouched 100 empty strings. Every buffer write is in bounds across the doublings, and the final trim leaves exactly the written entries |
| `Workbook.XlsxWorkBook.Path` | src/XlsxWorkBook.h:59-61 | returns the path the workbook was opened with |
| `Workbook.XlsxWorkBook.DateStyleSet` | src/XlsxWorkBook.h:63-65 | returns the date-style set computed from the styles part at construction |
| `Workbook.XlsxWorkBook.StringTable` | src/XlsxWorkBook.h:67-69 | returns the shared-string table computed from the shared-strings part at construction |
| `Workbook.XlsxWorkBook.Offset` | src/XlsxWorkBook.h:71-73 | returns `dateOffset` of the workbook's 1904 flag |
| `Workbook.XlsxWorkBook.CacheStringTable` | src/XlsxWorkBook.h:77-130 | throws exactly when `count` reads as negative, leaving `stringTable` unchanged; otherwise appends exactly the part's shared-string table, which is nothing when the part or `sst` is missing |
| `Workbook.XlsxWorkBook.CacheDateStyles` | src/XlsxWorkBook.h:132-168 | inserts exactly the part's date-style indices into `dateStyles`; nothing when `styleSheet` or `cellXfs` is missing |

## Left out

- Reading the zip archive (`zip_buffer`, `zip_has_file`) is not modelled. The object is given the parsed parts of its package (`Archive`), and the shared-strings part is optional there. A missing `xl/workbook.xml` or `xl/styles.xml` is an I/O failure in the zip layer and is outside the model.
- Parsing bytes into a tree with rapidxml is not modelled. The model starts from the tree (`Xml.Node`).
- `isDateFormat`, `isDateTime` and `dateOffset` are kept abstract (`Dates.DateRules`). They live in `utils.h` and `CellType.h`, which are not part of this model.
- Workbook.XlsxWorkBook.Offset: the offset is a `real`, not an IEEE `double`. Only its equality with `dateOffset(is1904())` is stated.
- R runtime details are left out: `CharacterVector` is a sequence of optional strings, with NA as `None` and the blank string as `Some("")`. `Rf_mkCharCE` UTF-8 marking is left out. `Rf_lengthgets` is the `LengthGets` helper.
- Workbook.XlsxWorkBook.Open, Workbook.XlsxWorkBook.CacheDateStyles: both require `WellFormedStyles`, and `Open` requires it only when the string-table step does not throw. A `numFmts` child without `formatCode` or `numFmtId`, or a `cellXfs` child without `numFmtId`, would make the code dereference a null pointer. The model requires these attributes to be present instead of modelling that crash. A negative `count` throws before the styles part is read, so `Open` covers that case for every styles part.
- CString.Atoi: overflow is not modelled. Integers are unbounded, and C's `atoi` is undefined on values out of `int` range.
- Workbook.XlsxWorkBook.Sheets: the doubling `n *= 2` is on unbounded integers. In C it overflows `int` once `i` reaches 100·2^24 = 1,677,721,600 sheets; that is not modelled.
- Workbook.XlsxWorkBook.Open: only the `std::length_error` from a negative `count` is modelled. A large positive `count` can make `reserve` throw `std::bad_alloc`, depending on the memory available; memory is outside the model.
- Workbook.XlsxWorkBook.CacheStringTable: the capacity that `reserve` sets when it succeeds is not modelled, only its failure. Capacity never changes the contents.

## Findings

| source | as written | input that shows it | evidently intended | confidence | as-written member | corrected member |
|---|---|---|---|---|---|---|
| src/XlsxWorkBook.h:89-93 | `count` is read with `atoi` and passed to `reserve`; a negative value converts to a huge `size_t`, `reserve` throws `std::length_error`, and the workbook cannot be opened | `<sst count="-1"><si><t>a</t></si></sst>` | `count` is only a capacity hint, so the table is ["a"] whatever `count` says | medium, not executed | `SharedStringsPart.NegativeCountRejected` | `SharedStringsPart.CountHintIgnored` |

The workbook class keeps the behaviour as written: `Workbook.XlsxWorkBook.Open`
gives no object for such a part. When an object results, its string table is
`SharedStringsPart.SharedStrings`, the definition that reads `count` as a
hint only. Both definitions agree on every part whose `count` is not negative
(`SharedStringsPart.StringTableRead`).
