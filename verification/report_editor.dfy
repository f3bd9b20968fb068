/** The report screen: a local copy of the generated report whose sections can be edited one at
    a time, and the PDF export. */
module Editor {
  import opened Wrappers
  import opened Types
  import opened Translations
  import opened Labels
  import opened Pdf

  /** The report being shown, the key of the section being edited, and the edit buffer. */
  datatype EditorState = EditorState(report: Option<AppraisalReport>, editing: Option<string>, buffer: string)

  /** The screen as first shown: the report handed in, nothing being edited. */
  function Open(report: Option<AppraisalReport>): EditorState {
    EditorState(report, None, "")
  }

  /** `startEditing(key, content)`. */
  function StartEditing(s: EditorState, key: string, content: string): (r: EditorState)
    ensures r.report == s.report && r.editing == Some(key) && r.buffer == content
  {
    s.(editing := Some(key), buffer := content)
  }

  /** The edit button of a section: start editing it with its current text. */
  function EditSection(s: EditorState, sec: Section): (r: EditorState)
    requires s.report.Some?
    ensures r.report == s.report && Editing(r, sec) && r.buffer == s.report.value.Get(sec)
  {
    StartEditing(s, sec.Key(), s.report.value.Get(sec))
  }

  /** Typing into the text area replaces the buffer. */
  function Type(s: EditorState, text: string): (r: EditorState)
    ensures r.buffer == text && r.report == s.report && r.editing == s.editing
  {
    s.(buffer := text)
  }

  /** `cancelEditing`: leave edit mode and drop the buffer; the report is untouched. */
  function CancelEditing(s: EditorState): (r: EditorState)
    ensures r == Open(s.report)
  {
    s.(editing := None, buffer := "")
  }

  /** `saveEditing(key)`: without a report nothing happens; otherwise the section the key names
      (if any) takes the buffer, and edit mode ends. */
  function SaveEditing(s: EditorState, key: string): (r: EditorState)
    ensures s.report.None? ==> r == s
    ensures s.report.Some? ==> r.report.Some? && r.editing.None? && r.buffer == ""
    ensures s.report.Some? ==> r.report.value.appraiser == s.report.value.appraiser
    ensures s.report.Some? ==> forall sec: Section ::
              r.report.value.Get(sec) == if sec.Key() == key then s.buffer else s.report.value.Get(sec)
  {
    SectionKeyInjective();
    if s.report.None? then s
    else
      var updated := match SectionFromKey(key)
        case Some(sec) => s.report.value.With(sec, s.buffer)
        case None => s.report.value;
      EditorState(Some(updated), None, "")
  }

  /** Section `sec` shows its text area. */
  predicate Editing(s: EditorState, sec: Section) {
    s.editing == Some(sec.Key())
  }

  /** At most one section is in edit mode at a time. */
  lemma EditingAtMostOne(s: EditorState, a: Section, b: Section)
    requires Editing(s, a) && Editing(s, b)
    ensures a == b
  {
    SectionKeyRoundTrip(a);
    SectionKeyRoundTrip(b);
  }

  /** Saving without a report changes nothing, not even the edit mode. */
  lemma SaveWithoutReport(s: EditorState, key: string)
    requires s.report.None?
    ensures SaveEditing(s, key) == s
  {
  }

  /** Saving under a section's key replaces exactly that section with the buffer and keeps the
      rest of the report, the appraiser included; edit mode ends. */
  lemma SaveReplacesSection(s: EditorState, sec: Section)
    requires s.report.Some?
    ensures SaveEditing(s, sec.Key()).report.Some?
    ensures SaveEditing(s, sec.Key()).report.value.Get(sec) == s.buffer
    ensures forall t :: t != sec ==> SaveEditing(s, sec.Key()).report.value.Get(t) == s.report.value.Get(t)
    ensures SaveEditing(s, sec.Key()).report.value.appraiser == s.report.value.appraiser
    ensures SaveEditing(s, sec.Key()).editing.None? && SaveEditing(s, sec.Key()).buffer == ""
  {
    SectionKeyRoundTrip(sec);
  }

  /** Saving under a key that names no section keeps the report and still ends edit mode. */
  lemma SaveUnknownKey(s: EditorState, key: string)
    requires s.report.Some?
    requires forall sec: Section :: sec.Key() != key
    ensures SaveEditing(s, key) == Open(s.report)
  {
  }

  /** Opening a section and saving without typing leaves the report as it was. */
  lemma EditThenSaveIsIdentity(s: EditorState, sec: Section)
    requires s.report.Some?
    ensures SaveEditing(EditSection(s, sec), sec.Key()) == Open(s.report)
  {
    SectionKeyRoundTrip(sec);
    var r := s.report.value;
    ReportExtensionality(r.With(sec, r.Get(sec)), r);
  }

  /** Opening a section, typing and saving stores the typed text in that section only. */
  lemma EditTypeSave(s: EditorState, sec: Section, text: string)
    requires s.report.Some?
    ensures SaveEditing(Type(EditSection(s, sec), text), sec.Key()) == Open(Some(s.report.value.With(sec, text)))
  {
    SectionKeyRoundTrip(sec);
  }

  /** Cancelling after typing forgets the text. */
  lemma CancelDiscards(s: EditorState, sec: Section, text: string)
    requires s.report.Some?
    ensures CancelEditing(Type(EditSection(s, sec), text)) == Open(s.report)
  {
  }

  /** What the screen shows: a spinner while generating, nothing without a report, else the
      report with each section titled by the UI table. */
  datatype View = Spinner(message: string) | Blank | Sections(titles: seq<string>, report: AppraisalReport)

  function Render(s: EditorState, isLoading: bool, lang: Language): (v: View)
    ensures isLoading ==> v == Spinner(GetTranslation(ProcessingRequest, lang))
    ensures !isLoading && s.report.None? ==> v == Blank
    ensures !isLoading && s.report.Some? ==> v.Sections? && v.report == s.report.value
    ensures v.Sections? ==> |v.titles| == 6 && forall i, j :: 0 <= i < j < 6 ==> v.titles[i] != v.titles[j]
  {
    if isLoading then Spinner(GetTranslation(ProcessingRequest, lang))
    else if s.report.None? then Blank
    else Sections(SectionTitles(lang), s.report.value)
  }

  /** The report screen and the exported PDF agree: the same six titles in the same order, each
      over the same section text. */
  lemma ScreenAndPdfAgree(s: EditorState, lang: Language)
    requires s.report.Some?
    ensures var v := Render(s, false, lang);
            var b := Blocks(s.report.value, lang);
            v.Sections? && |v.titles| == |b| == 6
            && forall i :: 0 <= i < 6 ==> v.titles[i] == b[i].title && v.report.Get(AllSections[i]) == b[i].content
  {
    var b := Blocks(s.report.value, lang);
    forall i | 0 <= i < 6
      ensures b[i].content == s.report.value.Get(AllSections[i])
    {
    }
  }

  /** `handleExportPDF`: a document only when there is a report, built from the current
      (possibly edited) report. */
  method ExportPdf(s: EditorState, d: PropertyData, lang: Language,
                   tablePages: nat, tableEnd: int, lines: seq<nat>, isoTimestamp: string)
    returns (doc: Option<Document>)
    requires |lines| == 6
    ensures doc.Some? <==> s.report.Some?
    ensures doc.Some? ==> doc.value.blocks == Blocks(s.report.value, lang) && doc.value.body == TableBody(d, lang)
  {
    if s.report.None? {
      doc := None;
    } else {
      var generated := GeneratePdf(d, s.report.value, lang, tablePages, tableEnd, lines, isoTimestamp);
      doc := Some(generated);
    }
  }
}
