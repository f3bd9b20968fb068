/** The captions that the prompt's facts block and the PDF table write out inline, one per
    property field, plus the unit, the yes/no words and the empty-feature word. */
module Labels {
  import opened Types
  import opened Translations
  import opened Wrappers

  /** The caption of a field, in Greek or English. */
  function FieldLabel(f: Field, lang: Language): string {
    match f
    case AddressField => if lang == El then "Διεύθυνση" else "Address"
    case AreaField => if lang == El then "Περιοχή" else "Area"
    case PropertyTypeField => if lang == El then "Τύπος ακινήτου" else "Property Type"
    case SizeField => if lang == El then "Έκταση" else "Size"
    case ConstructionYearField => if lang == El then "Έτος κατασκευής" else "Construction Year"
    case FloorField => if lang == El then "Όροφος" else "Floor"
    case ConditionField => if lang == El then "Κατάσταση" else "Condition"
    case ResidentialPermitField => if lang == El then "Άδεια κατοικίας" else "Residential Permit"
    case FeaturesField => if lang == El then "Ειδικά χαρακτηριστικά" else "Special Features"
    case AppraisalPurposeField => if lang == El then "Σκοπός Εκτίμησης" else "Appraisal Purpose"
    case AdditionalNotesField => if lang == El then "Επιπλέον σημειώσεις" else "Additional Notes"
  }

  /** The area unit written after the size. */
  function UnitText(lang: Language): string {
    if lang == El then "τ.μ." else "sq.m."
  }

  /** The residential permit flag as a word. */
  function YesNo(b: bool, lang: Language): string {
    if b then (if lang == El then "Ναι" else "Yes") else (if lang == El then "Όχι" else "No")
  }

  /** The word shown in place of an empty feature list. */
  function NoneWord(lang: Language): string {
    if lang == El then "Κανένα" else "None"
  }

  /** The UI key whose name is the field's own key. */
  function FieldKey(f: Field): (k: UiKey)
    ensures k.Name() == f.Key()
  {
    match f
    case AddressField => Address
    case AreaField => Area
    case PropertyTypeField => UiKey.PropertyType
    case SizeField => Size
    case ConstructionYearField => ConstructionYear
    case FloorField => Floor
    case ConditionField => Condition
    case ResidentialPermitField => ResidentialPermit
    case FeaturesField => Features
    case AppraisalPurposeField => UiKey.AppraisalPurpose
    case AdditionalNotesField => AdditionalNotes
  }

  /** Each inline caption is the UI table's text for the field's own key, so the facts block,
      the PDF table and the form agree on what a field is called. */
  lemma CaptionsMatchTable(f: Field, lang: Language)
    ensures FieldLabel(f, lang) == GetTranslation(FieldKey(f), lang)
  {
    match f
    case AddressField =>
    case AreaField =>
    case PropertyTypeField =>
    case SizeField =>
    case ConstructionYearField =>
    case FloorField =>
    case ConditionField =>
    case ResidentialPermitField =>
    case FeaturesField =>
    case AppraisalPurposeField =>
    case AdditionalNotesField =>
  }

  /** The unit and the yes/no words are the UI table's `squareMeters`, `yes` and `no`. */
  lemma WordsMatchTable(b: bool, lang: Language)
    ensures UnitText(lang) == GetTranslation(SquareMeters, lang)
    ensures YesNo(b, lang) == GetTranslation(if b then Yes else No, lang)
  {
  }

  /** The UI key titling a report section in the editor and in the PDF. */
  function SectionTitleKey(s: Section): (k: UiKey)
    ensures k.Name() == s.Key()
  {
    match s
    case DetailsSection => PropertyDetails
    case PurposeSection => UiKey.AppraisalPurpose
    case MethodSection => AppraisalMethod
    case MarketSection => MarketAnalysis
    case ValueSection => ValueEstimation
    case ConclusionsSection => Conclusions
  }

  /** Every section title is the UI table's own text for its key, never the placeholder. */
  lemma SectionTitlesTranslated(lang: Language)
    ensures forall s: Section :: SectionTitle(s, lang) == UiEntry(SectionTitleKey(s)).In(lang)
  {
    forall s: Section
      ensures SectionTitle(s, lang) == UiEntry(SectionTitleKey(s)).In(lang)
    {
      DeclaredKeysTranslated(SectionTitleKey(s), lang);
    }
  }

  /** A proof device with no counterpart in the program: it reads a section title back to its
      section from the title's length and its last one or two characters. A left inverse of the
      titles makes them pairwise different (`SectionTitlesDistinct`) without comparing the long
      literals to each other, which the solver finds far costlier. */
  function TitleSection(t: string, lang: Language): Option<Section> {
    if |t| < 2 then None
    else if lang == El then
      if |t| == 17 then
        if t[|t| - 1] == 'υ' then Some(DetailsSection) else Some(MethodSection)
      else if |t| == 16 then Some(PurposeSection)
      else if |t| == 14 then
        if t[|t| - 2] == 'ά' then Some(MarketSection) else Some(ValueSection)
      else if |t| == 12 then Some(ConclusionsSection)
      else None
    else
      if |t| == 16 then
        if t[|t| - 1] == 's' then Some(DetailsSection)
        else if t[|t| - 1] == 'd' then Some(MethodSection)
        else Some(ValueSection)
      else if |t| == 17 then Some(PurposeSection)
      else if |t| == 15 then Some(MarketSection)
      else if |t| == 11 then Some(ConclusionsSection)
      else None
  }

  /* The table text titling each section tells which section it is; one lemma per section
     keeps each proof to one table entry. */
  lemma DetailsTitleDecodes(lang: Language)
    ensures TitleSection(UiEntry(PropertyDetails).In(lang), lang) == Some(DetailsSection)
  {
  }

  lemma PurposeTitleDecodes(lang: Language)
    ensures TitleSection(UiEntry(UiKey.AppraisalPurpose).In(lang), lang) == Some(PurposeSection)
  {
  }

  lemma MethodTitleDecodes(lang: Language)
    ensures TitleSection(UiEntry(AppraisalMethod).In(lang), lang) == Some(MethodSection)
  {
  }

  lemma MarketTitleDecodes(lang: Language)
    ensures TitleSection(UiEntry(MarketAnalysis).In(lang), lang) == Some(MarketSection)
  {
  }

  lemma ValueTitleDecodes(lang: Language)
    ensures TitleSection(UiEntry(ValueEstimation).In(lang), lang) == Some(ValueSection)
  {
  }

  lemma ConclusionsTitleDecodes(lang: Language)
    ensures TitleSection(UiEntry(Conclusions).In(lang), lang) == Some(ConclusionsSection)
  {
  }

  lemma TableTitleNamesSection(s: Section, lang: Language)
    ensures TitleSection(UiEntry(SectionTitleKey(s)).In(lang), lang) == Some(s)
  {
    match s
    case DetailsSection => DetailsTitleDecodes(lang);
    case PurposeSection => PurposeTitleDecodes(lang);
    case MethodSection => MethodTitleDecodes(lang);
    case MarketSection => MarketTitleDecodes(lang);
    case ValueSection => ValueTitleDecodes(lang);
    case ConclusionsSection => ConclusionsTitleDecodes(lang);
  }

  /** A section's title tells which section it is. */
  lemma TitleNamesSection(s: Section, lang: Language)
    ensures TitleSection(GetTranslation(SectionTitleKey(s), lang), lang) == Some(s)
  {
    SectionTitlesTranslated(lang);
    TableTitleNamesSection(s, lang);
  }

  /** Different sections carry different titles, in either language. */
  lemma SectionTitlesDistinct(a: Section, b: Section, lang: Language)
    requires a != b
    ensures GetTranslation(SectionTitleKey(a), lang) != GetTranslation(SectionTitleKey(b), lang)
  {
    TitleNamesSection(a, lang);
    TitleNamesSection(b, lang);
  }

  /** The title of a section on the report screen and in the PDF: the UI table's own text for
      the section's key. */
  function SectionTitle(s: Section, lang: Language): string {
    GetTranslation(SectionTitleKey(s), lang)
  }

  /** No two sections share a title, in either language. */
  lemma SectionTitlesAllDistinct(lang: Language)
    ensures forall a: Section, b: Section :: a != b ==> SectionTitle(a, lang) != SectionTitle(b, lang)
  {
    forall a: Section, b: Section | a != b
      ensures SectionTitle(a, lang) != SectionTitle(b, lang)
    {
      SectionTitlesDistinct(a, b, lang);
    }
  }

  /** The six section titles in report order, as the report screen and the PDF show them. */
  function SectionTitles(lang: Language): (r: seq<string>)
    ensures |r| == 6
    ensures forall i :: 0 <= i < 6 ==> r[i] == SectionTitle(AllSections[i], lang)
    ensures forall i, j :: 0 <= i < j < 6 ==> r[i] != r[j]
  {
    SectionTitlesAllDistinct(lang);
    [ SectionTitle(DetailsSection, lang), SectionTitle(PurposeSection, lang), SectionTitle(MethodSection, lang),
      SectionTitle(MarketSection, lang), SectionTitle(ValueSection, lang), SectionTitle(ConclusionsSection, lang) ]
  }
}
