/** The exported PDF: the facts table, the six report sections with their page breaks, the
    appraiser block, the page footers and the file name. Fonts, colours and drawing are not
    modelled; the content and its order are. */
module Pdf {
  import opened Wrappers
  import opened Types
  import opened Text
  import opened Translations
  import opened Labels
  import opened Details
  import opened Ai

  /** One row of the facts table: caption and value. */
  datatype Row = Row(caption: string, value: string)

  /** The table's header row. */
  function Head(lang: Language): Row {
    if lang == El then Row("Στοιχείο", "Περιγραφή") else Row("Property Detail", "Description")
  }

  function DocumentTitle(lang: Language): string {
    if lang == El then "ΕΚΘΕΣΗ ΕΚΤΙΜΗΣΗΣ ΑΚΙΝΗΤΟΥ" else "PROPERTY APPRAISAL REPORT"
  }

  /** `x || ''` of an optional string. */
  function TextOrBlank(o: Option<string>): string {
    if o.Some? then o.value else ""
  }

  /** The rows every property gets: address, area, type and size with its unit. */
  function BaseRows(d: PropertyData, lang: Language): seq<Row> {
    [ Row(FieldLabel(AddressField, lang), d.address),
      Row(FieldLabel(AreaField, lang), d.area),
      Row(FieldLabel(PropertyTypeField, lang), TypeText(d.propertyType, lang)),
      Row(FieldLabel(SizeField, lang), DecimalText(d.size) + " " + UnitText(lang)) ]
  }

  /** The four building rows; absent values print blank, not `undefined` as in the prompt. */
  function BuildingRows(d: PropertyData, lang: Language): seq<Row> {
    if !IsBuilding(d.propertyType) then []
    else
      [ Row(FieldLabel(ConstructionYearField, lang),
            if d.constructionYear.Some? then DecimalText(d.constructionYear.value) else ""),
        Row(FieldLabel(FloorField, lang), TextOrBlank(d.floor)),
        Row(FieldLabel(ConditionField, lang), if d.condition.Some? then ConditionText(d.condition, lang) else ""),
        Row(FieldLabel(ResidentialPermitField, lang), YesNo(d.residentialPermit, lang)) ]
  }

  function FeaturesRows(d: PropertyData, lang: Language): seq<Row> {
    if IsOther(d.propertyType) then [] else [Row(FieldLabel(FeaturesField, lang), FeaturesOrNone(d.features, lang))]
  }

  function PurposeRows(d: PropertyData, lang: Language): seq<Row> {
    [Row(FieldLabel(AppraisalPurposeField, lang), PurposeText(d.appraisalPurpose, lang))]
  }

  /** The notes row, present only for non-empty notes. */
  function NotesRows(d: PropertyData, lang: Language): seq<Row> {
    if d.additionalNotes.Some? && d.additionalNotes.value != "" then
      [Row(FieldLabel(AdditionalNotesField, lang), d.additionalNotes.value)]
    else []
  }

  /** The table body: the five groups in order. Address and area open it; it closes with the
      notes when there are any, and with the purpose otherwise. */
  function TableBody(d: PropertyData, lang: Language): (r: seq<Row>)
    ensures 5 <= |r| <= 11
    ensures r[0].value == d.address && r[1].value == d.area
    ensures r[|r| - 1].value
            == if d.additionalNotes.Some? && d.additionalNotes.value != "" then d.additionalNotes.value
               else PurposeText(d.appraisalPurpose, lang)
  {
    BaseRows(d, lang) + BuildingRows(d, lang) + FeaturesRows(d, lang) + PurposeRows(d, lang) + NotesRows(d, lang)
  }

  /** Whether the table has a row for field `f`. */
  predicate Shown(d: PropertyData, f: Field) {
    match f
    case ConstructionYearField => IsBuilding(d.propertyType)
    case FloorField => IsBuilding(d.propertyType)
    case ConditionField => IsBuilding(d.propertyType)
    case ResidentialPermitField => IsBuilding(d.propertyType)
    case FeaturesField => !IsOther(d.propertyType)
    case AdditionalNotesField => d.additionalNotes.Some? && d.additionalNotes.value != ""
    case _ => true
  }

  /** The value written for field `f` when it is shown. */
  function Cell(d: PropertyData, f: Field, lang: Language): string {
    match f
    case AddressField => d.address
    case AreaField => d.area
    case PropertyTypeField => TypeText(d.propertyType, lang)
    case SizeField => DecimalText(d.size) + " " + UnitText(lang)
    case ConstructionYearField => if d.constructionYear.Some? then DecimalText(d.constructionYear.value) else ""
    case FloorField => TextOrBlank(d.floor)
    case ConditionField => if d.condition.Some? then ConditionText(d.condition, lang) else ""
    case ResidentialPermitField => YesNo(d.residentialPermit, lang)
    case FeaturesField => FeaturesOrNone(d.features, lang)
    case AppraisalPurposeField => PurposeText(d.appraisalPurpose, lang)
    case AdditionalNotesField => TextOrBlank(d.additionalNotes)
  }

  /** The row for field `f`: one captioned row when shown, none otherwise. */
  function RowOf(d: PropertyData, f: Field, lang: Language): (r: seq<Row>)
    ensures |r| <= 1
  {
    if Shown(d, f) then [Row(FieldLabel(f, lang), Cell(d, f, lang))] else []
  }

  /** The reference table: the rows of the given fields, in their order. */
  function RowsFor(fs: seq<Field>, d: PropertyData, lang: Language): (r: seq<Row>)
    ensures |r| <= |fs|
  {
    if |fs| == 0 then [] else RowOf(d, fs[0], lang) + RowsFor(fs[1..], d, lang)
  }

  /** `RowsFor` distributes over concatenation. */
  lemma {:induction false} RowsForAppend(a: seq<Field>, b: seq<Field>, d: PropertyData, lang: Language)
    ensures RowsFor(a + b, d, lang) == RowsFor(a, d, lang) + RowsFor(b, d, lang)
  {
    if |a| == 0 {
      assert a + b == b;
    } else {
      assert (a + b)[0] == a[0];
      assert (a + b)[1..] == a[1..] + b;
      RowsForAppend(a[1..], b, d, lang);
    }
  }

  /** Peeling the first field's row off the reference table. */
  lemma RowsForCons(f: Field, rest: seq<Field>, d: PropertyData, lang: Language)
    ensures RowsFor([f] + rest, d, lang) == RowOf(d, f, lang) + RowsFor(rest, d, lang)
  {
    assert ([f] + rest)[0] == f;
    assert ([f] + rest)[1..] == rest;
  }

  lemma SplitThree<T>(s: seq<T>, i: nat, j: nat)
    requires i <= j <= |s|
    ensures s == s[..i] + (s[i..j] + s[j..])
  {
  }

  /** Five consecutive groups, matched to three reference parts. */
  lemma Assemble<T>(b: seq<T>, g: seq<T>, f: seq<T>, p: seq<T>, n: seq<T>,
                    rb: seq<T>, rg: seq<T>, rt: seq<T>, all: seq<T>)
    requires b == rb && g == rg && f + p + n == rt && all == rb + (rg + rt)
    ensures b + g + f + p + n == all
  {
  }

  /** The base rows are the rows of the first four fields. */
  lemma BaseGroup(d: PropertyData, lang: Language)
    ensures BaseRows(d, lang) == RowsFor(AllFields[..4], d, lang)
  {
    assert AllFields[..4] == [AddressField] + ([AreaField] + ([PropertyTypeField] + ([SizeField] + [])));
    RowsForCons(SizeField, [], d, lang);
    RowsForCons(PropertyTypeField, [SizeField] + [], d, lang);
    RowsForCons(AreaField, [PropertyTypeField] + ([SizeField] + []), d, lang);
    RowsForCons(AddressField, [AreaField] + ([PropertyTypeField] + ([SizeField] + [])), d, lang);
  }

  /** The building rows are the rows of the next four fields. */
  lemma BuildingGroup(d: PropertyData, lang: Language)
    ensures BuildingRows(d, lang) == RowsFor(AllFields[4..8], d, lang)
  {
    assert AllFields[4..8] == [ConstructionYearField] + ([FloorField] + ([ConditionField] + ([ResidentialPermitField] + [])));
    RowsForCons(ResidentialPermitField, [], d, lang);
    RowsForCons(ConditionField, [ResidentialPermitField] + [], d, lang);
    RowsForCons(FloorField, [ConditionField] + ([ResidentialPermitField] + []), d, lang);
    RowsForCons(ConstructionYearField, [FloorField] + ([ConditionField] + ([ResidentialPermitField] + [])), d, lang);
  }

  /** The features, purpose and notes rows are the rows of the last three fields. */
  lemma TailGroup(d: PropertyData, lang: Language)
    ensures FeaturesRows(d, lang) + PurposeRows(d, lang) + NotesRows(d, lang) == RowsFor(AllFields[8..], d, lang)
  {
    assert AllFields[8..] == [FeaturesField] + ([AppraisalPurposeField] + ([AdditionalNotesField] + []));
    RowsForCons(AdditionalNotesField, [], d, lang);
    RowsForCons(AppraisalPurposeField, [AdditionalNotesField] + [], d, lang);
    RowsForCons(FeaturesField, [AppraisalPurposeField] + ([AdditionalNotesField] + []), d, lang);
  }

  /** The table is exactly one row per shown field, in the declaration order of the fields. */
  lemma TableFollowsFields(d: PropertyData, lang: Language)
    ensures TableBody(d, lang) == RowsFor(AllFields, d, lang)
  {
    var base, building, rest := AllFields[..4], AllFields[4..8], AllFields[8..];
    SplitThree(AllFields, 4, 8);
    RowsForAppend(base, building + rest, d, lang);
    RowsForAppend(building, rest, d, lang);
    BaseGroup(d, lang);
    BuildingGroup(d, lang);
    TailGroup(d, lang);
    Assemble(BaseRows(d, lang), BuildingRows(d, lang), FeaturesRows(d, lang), PurposeRows(d, lang), NotesRows(d, lang),
             RowsFor(base, d, lang), RowsFor(building, d, lang), RowsFor(rest, d, lang), RowsFor(AllFields, d, lang));
  }

  /** The field behind row `i` of the reference table. */
  lemma {:induction false} RowFieldExists(fs: seq<Field>, d: PropertyData, lang: Language, i: int)
    requires 0 <= i < |RowsFor(fs, d, lang)|
    ensures exists f :: f in fs && Shown(d, f) && RowsFor(fs, d, lang)[i] == Row(FieldLabel(f, lang), Cell(d, f, lang))
  {
    var head := RowOf(d, fs[0], lang);
    if i < |head| {
      assert RowsFor(fs, d, lang)[i] == head[i];
    } else {
      RowFieldExists(fs[1..], d, lang, i - |head|);
      var f :| f in fs[1..] && Shown(d, f) && RowsFor(fs[1..], d, lang)[i - |head|] == Row(FieldLabel(f, lang), Cell(d, f, lang));
      assert RowsFor(fs, d, lang)[i] == RowsFor(fs[1..], d, lang)[i - |head|];
    }
  }

  /** Every row of the table is a shown field captioned with the UI table's text for its key. */
  lemma TableRowsCaptioned(d: PropertyData, lang: Language, i: int)
    requires 0 <= i < |TableBody(d, lang)|
    ensures exists f :: Shown(d, f) && TableBody(d, lang)[i] == Row(GetTranslation(FieldKey(f), lang), Cell(d, f, lang))
  {
    TableFollowsFields(d, lang);
    RowFieldExists(AllFields, d, lang, i);
    var f :| f in AllFields && Shown(d, f) && RowsFor(AllFields, d, lang)[i] == Row(FieldLabel(f, lang), Cell(d, f, lang));
    CaptionsMatchTable(f, lang);
  }

  /** The table has four base rows, four building rows for a building, a features row unless the
      type is "other", the purpose row, and a notes row for non-empty notes. */
  lemma TableSize(d: PropertyData, lang: Language)
    ensures |TableBody(d, lang)| ==
              4 + (if IsBuilding(d.propertyType) then 4 else 0) + (if IsOther(d.propertyType) then 0 else 1)
              + 1 + (if d.additionalNotes.Some? && d.additionalNotes.value != "" then 1 else 0)
    ensures 5 <= |TableBody(d, lang)| <= 11
  {
  }

  /** Where the prompt writes `undefined`, the table writes a blank cell. */
  lemma AbsentValuesBlank(d: PropertyData, lang: Language)
    requires IsBuilding(d.propertyType)
    ensures d.constructionYear.None? ==> TableBody(d, lang)[4].value == ""
    ensures d.floor.None? ==> TableBody(d, lang)[5].value == ""
    ensures d.condition.None? ==> TableBody(d, lang)[6].value == ""
  {
    var base, b := BaseRows(d, lang), BuildingRows(d, lang);
    var rest := FeaturesRows(d, lang) + PurposeRows(d, lang) + NotesRows(d, lang);
    assert TableBody(d, lang) == base + b + rest;
    assert |base| == 4 && |b| == 4;
    assert TableBody(d, lang)[4..7] == b[..3];
  }

  /* ---------- The narrative sections and their layout ---------- */

  /** A titled block of text. */
  datatype Block = Block(title: string, content: string)

  /** The six report sections in report order, each under its section title. */
  function Blocks(report: AppraisalReport, lang: Language): (r: seq<Block>)
    ensures |r| == 6
    ensures r[0].content == report.propertyDetails && r[1].content == report.appraisalPurpose
            && r[2].content == report.appraisalMethod && r[3].content == report.marketAnalysis
            && r[4].content == report.valueEstimation && r[5].content == report.conclusions
    ensures forall i :: 0 <= i < 6 ==> r[i].title == SectionTitle(AllSections[i], lang)
    ensures forall i, j :: 0 <= i < j < 6 ==> r[i].title != r[j].title
  {
    var t := SectionTitles(lang);
    [ Block(t[0], report.propertyDetails), Block(t[1], report.appraisalPurpose),
      Block(t[2], report.appraisalMethod), Block(t[3], report.marketAnalysis),
      Block(t[4], report.valueEstimation), Block(t[5], report.conclusions) ]
  }

  /** The vertical layout in millimetres: a block starting below this line goes to a new page,
      whose first block starts at the top margin. */
  const PageBreakY := 250
  const TopMargin := 20

  /** Where a block that would start at `y` actually starts. */
  function BlockTop(y: int): (t: int)
    ensures t <= PageBreakY
    ensures y >= TopMargin ==> t >= TopMargin
  {
    if y > PageBreakY then TopMargin else y
  }

  /** The position after a block of `lines` wrapped lines: title gap, five per line, spacing. */
  function After(y: int, lines: nat): int {
    BlockTop(y) + 8 + lines * 5 + 10
  }

  /** The starting positions of the blocks, given the wrapped line count of each. */
  function TopsFrom(y: int, lines: seq<nat>): (r: seq<int>)
    ensures |r| == |lines|
    decreases |lines|
  {
    if |lines| == 0 then [] else [BlockTop(y)] + TopsFrom(After(y, lines[0]), lines[1..])
  }

  /** The number of page breaks the blocks cause. */
  function BreaksFrom(y: int, lines: seq<nat>): nat
    decreases |lines|
  {
    if |lines| == 0 then 0 else (if y > PageBreakY then 1 else 0) + BreaksFrom(After(y, lines[0]), lines[1..])
  }

  /** The position after the last block. */
  function EndFrom(y: int, lines: seq<nat>): int
    decreases |lines|
  {
    if |lines| == 0 then y else EndFrom(After(y, lines[0]), lines[1..])
  }

  /** The `forEach` over the sections: places each block, breaking the page when the position
      has passed the break line. */
  method LayOut(startY: int, lines: seq<nat>) returns (tops: seq<int>, breaks: nat, endY: int)
    ensures tops == TopsFrom(startY, lines)
    ensures breaks == BreaksFrom(startY, lines) && endY == EndFrom(startY, lines)
    ensures breaks <= |lines|
    ensures forall k :: 0 <= k < |tops| ==> tops[k] <= PageBreakY
    ensures startY >= TopMargin ==> forall k :: 0 <= k < |tops| ==> tops[k] >= TopMargin
    ensures startY >= TopMargin ==> endY >= TopMargin
  {
    tops, breaks := [], 0;
    var y := startY;
    var i := 0;
    while i < |lines|
      invariant 0 <= i <= |lines|
      invariant tops + TopsFrom(y, lines[i..]) == TopsFrom(startY, lines)
      invariant breaks + BreaksFrom(y, lines[i..]) == BreaksFrom(startY, lines)
      invariant EndFrom(y, lines[i..]) == EndFrom(startY, lines)
      invariant breaks <= i && |tops| == i
      invariant forall k :: 0 <= k < |tops| ==> tops[k] <= PageBreakY
      invariant startY >= TopMargin ==> y >= TopMargin && forall k :: 0 <= k < |tops| ==> tops[k] >= TopMargin
    {
      assert lines[i..][1..] == lines[i + 1..];
      if y > PageBreakY {
        breaks := breaks + 1;
        y := TopMargin;
      }
      tops := tops + [y];
      y := y + 8 + lines[i] * 5 + 10;
      i := i + 1;
    }
    assert lines[i..] == [];
    endY := y;
  }

  /** The appraiser block: name, title, phone and date lines. */
  function AppraiserLines(a: Appraiser, lang: Language): seq<string> {
    [ a.name,
      a.title,
      (if lang == El then "Τηλέφωνο" else "Phone") + ": " + a.contact,
      (if lang == El then "Ημερομηνία" else "Date") + ": " + a.date ]
  }

  /** The word that opens every footer. */
  function PageWord(lang: Language): string {
    if lang == El then "Σελίδα" else "Page"
  }

  /** The footer of page `i` of `n`: the page word, the page number, then the total. */
  function Footer(lang: Language, i: nat, n: nat): string {
    PageWord(lang) + " " + NatText(i) + FooterTail(lang, n)
  }

  /** What follows the page number: ` of <total>`. */
  function FooterTail(lang: Language, n: nat): (r: string)
    ensures |r| > 0 && r[0] == ' '
  {
    " " + (if lang == El then "από" else "of") + " " + NatText(n)
  }

  /** One footer per page, numbered from one. */
  function Footers(lang: Language, n: nat): (r: seq<string>)
    ensures |r| == n
  {
    seq(n, i requires 0 <= i < n => Footer(lang, i + 1, n))
  }

  /** The length of the run of digits a text starts with. */
  function DigitRun(t: string): (k: nat)
    ensures k <= |t|
    ensures forall j :: 0 <= j < k ==> '0' <= t[j] <= '9'
  {
    if |t| == 0 || !('0' <= t[0] <= '9') then 0 else 1 + DigitRun(t[1..])
  }

  /** Digits followed by a space: the run stops exactly at the space. */
  lemma {:induction false} DigitRunStops(x: string, u: string)
    requires forall i :: 0 <= i < |x| ==> '0' <= x[i] <= '9'
    requires |u| > 0 && u[0] == ' '
    ensures DigitRun(x + u) == |x|
  {
    if |x| > 0 {
      assert (x + u)[0] == x[0];
      assert (x + u)[1..] == x[1..] + u;
      DigitRunStops(x[1..], u);
    } else {
      assert x + u == u;
    }
  }

  /** Reads the page number back from a footer: the page word, a space, then a run of digits. */
  function PageOf(footer: string, lang: Language): Option<nat> {
    var p := |PageWord(lang)| + 1;
    if |footer| < p || footer[..p] != PageWord(lang) + " " then None
    else
      var k := DigitRun(footer[p..]);
      if k == 0 then None else Some(DigitsValue(footer[p..][..k]))
  }

  /** Every footer names its own page, and ends with the page count. */
  lemma FooterReadsBack(lang: Language, n: nat, i: nat)
    requires i < n
    ensures PageOf(Footers(lang, n)[i], lang) == Some(i + 1)
    ensures |Footers(lang, n)[i]| >= |FooterTail(lang, n)|
    ensures Footers(lang, n)[i][|Footers(lang, n)[i]| - |FooterTail(lang, n)|..] == FooterTail(lang, n)
  {
    var prefix := PageWord(lang) + " ";
    var tail := FooterTail(lang, n);
    var x := NatText(i + 1);
    var f := Footers(lang, n)[i];
    assert f == prefix + (x + tail);
    assert f[..|prefix|] == prefix;
    assert f[|prefix|..] == x + tail;
    DigitRunStops(x, tail);
    assert (x + tail)[..|x|] == x;
    NatTextRoundTrip(i + 1);
    assert f[|f| - |tail|..] == tail;
  }

  /** A page number is recovered from its footer, so distinct pages carry distinct footers. */
  lemma FootersDistinct(lang: Language, n: nat, i: nat, j: nat)
    requires 0 <= i < j < n
    ensures Footers(lang, n)[i] != Footers(lang, n)[j]
  {
    FooterReadsBack(lang, n, i);
    FooterReadsBack(lang, n, j);
  }

  /** The downloaded file name: `<name>_<first ten characters of the ISO timestamp>.pdf`. */
  function FileName(lang: Language, isoTimestamp: string): (r: string)
    ensures |r| <= |isoTimestamp| + 24
    ensures |r| >= 4 && r[|r| - 4..] == ".pdf"
    ensures |isoTimestamp| >= 10 ==> |r| >= 15 && r[|r| - 15..|r| - 4] == "_" + isoTimestamp[..10]
  {
    var day := if |isoTimestamp| <= 10 then isoTimestamp else isoTimestamp[..10];
    (if lang == El then "Εκτίμηση_Ακινήτου" else "Property_Appraisal") + "_" + day + ".pdf"
  }

  /** The pages the document ends up with: those of the table, one more per section that
      breaks the page, and one more when the appraiser block starts below the break line. */
  function PageCount(tablePages: nat, startY: int, lines: seq<nat>): nat {
    tablePages + BreaksFrom(startY, lines) + (if EndFrom(startY, lines) > PageBreakY then 1 else 0)
  }

  /** The content of the exported document: its title, the heading above the facts table, the
      table, the section blocks, the appraiser block, the footers and the file name.
      `tablePages` is how many pages the facts table took, `tableEnd` where it ended, `lines`
      how many lines each section's text wraps to, and `isoTimestamp` the current time in ISO
      format: all four depend on the drawing library and the clock. */
  datatype Document = Document(
    title: string, tableHeading: string, head: Row, body: seq<Row>, blocks: seq<Block>, blockTops: seq<int>,
    appraiserHeading: string, appraiserTop: int, appraiserLines: seq<string>,
    footers: seq<string>, fileName: string)

  method GeneratePdf(d: PropertyData, report: AppraisalReport, lang: Language,
                     tablePages: nat, tableEnd: int, lines: seq<nat>, isoTimestamp: string)
    returns (doc: Document)
    requires |lines| == 6
    ensures doc.body == TableBody(d, lang)
    ensures doc.blocks == Blocks(report, lang)
    ensures doc.blockTops == TopsFrom(tableEnd + 10, lines)
    ensures doc.appraiserTop == BlockTop(EndFrom(tableEnd + 10, lines))
    ensures doc.appraiserLines == AppraiserLines(report.appraiser, lang)
    ensures doc.title == DocumentTitle(lang) && doc.head == Head(lang)
    ensures doc.tableHeading == GetTranslation(PropertyDetails, lang) && doc.tableHeading == doc.blocks[0].title
    ensures doc.footers == Footers(lang, PageCount(tablePages, tableEnd + 10, lines))
    ensures doc.fileName == FileName(lang, isoTimestamp)
    ensures doc.appraiserHeading == GetTranslation(AppraiserInfo, lang)
    ensures forall k :: 0 <= k < |doc.blockTops| ==> doc.blockTops[k] <= PageBreakY
  {
    var tops, breaks, endY := LayOut(tableEnd + 10, lines);
    var pages := tablePages + breaks + (if endY > PageBreakY then 1 else 0);
    assert pages == PageCount(tablePages, tableEnd + 10, lines);
    var body, blocks := TableBody(d, lang), Blocks(report, lang);
    var heading, footers, name := GetTranslation(AppraiserInfo, lang), Footers(lang, pages), FileName(lang, isoTimestamp);
    doc := Document(
      DocumentTitle(lang), GetTranslation(PropertyDetails, lang), Head(lang), body, blocks, tops,
      heading, BlockTop(endY), AppraiserLines(report.appraiser, lang), footers, name);
  }
}
