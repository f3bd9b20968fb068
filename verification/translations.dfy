/** The bilingual tables and their lookups: the table's text when it is non-empty for the
    language, and a `[Missing translation: key]` placeholder otherwise. */
module Translations {
  import opened Wrappers
  import opened Types

  /** The Greek and English text of one key. */
  datatype Entry = Entry(el: string, en: string) {
    function In(lang: Language): string {
      match lang
      case El => el
      case En => en
    }
  }

  const PlaceholderPrefix := "[Missing translation: "

  /** The text returned for a key the table cannot translate. */
  function Placeholder(key: string): string {
    PlaceholderPrefix + key + "]"
  }

  /** The table has a non-empty text for the language. */
  predicate Usable(entry: Option<Entry>, lang: Language) {
    entry.Some? && entry.value.In(lang) != ""
  }

  /** The lookup rule shared by the five `get…Translation` functions: `entry` is what indexing
      the table with `key` produced (`None` when the table has no such property). */
  function Lookup(entry: Option<Entry>, key: string, lang: Language): (r: string)
    ensures r != ""
  {
    if Usable(entry, lang) then entry.value.In(lang) else Placeholder(key)
  }

  predicate StartsWithBracket(s: string) {
    |s| > 0 && s[0] == '['
  }

  /** When the table's text does not start with `[` (no text of the source's tables does), the
      lookup yields a placeholder exactly when the entry is missing or empty, and the placeholder
      embeds the key verbatim. */
  lemma LookupPlaceholderIff(entry: Option<Entry>, key: string, lang: Language)
    requires entry.Some? ==> !StartsWithBracket(entry.value.In(lang))
    ensures StartsWithBracket(Lookup(entry, key, lang)) <==> !Usable(entry, lang)
    ensures !Usable(entry, lang) ==>
              Lookup(entry, key, lang)[|PlaceholderPrefix|..|PlaceholderPrefix| + |key|] == key
    ensures !Usable(entry, lang) ==> Lookup(entry, key, lang) == "[Missing translation: " + key + "]"
    ensures Usable(entry, lang) ==> Lookup(entry, key, lang) == entry.value.In(lang)
  {
    if !Usable(entry, lang) {
      var r := Lookup(entry, key, lang);
      assert r == PlaceholderPrefix + key + "]";
      assert r[0] == '[';
    }
  }

  /** The UI keys the source declares. */
  datatype UiKey =
    | AppTitle | NextStep | PrevStep | PropertyDetails | Address | Area | PropertyType | Size
    | ConstructionYear | Floor | Condition | ResidentialPermit | Features | AppraisalPurpose
    | AdditionalNotes | GenerateReport | ExportToPdf | ProcessingRequest | AppraisalReport
    | PropertyTypeOptions | ConditionOptions | FeatureOptions | PurposeOptions | Yes | No
    | SquareMeters | AppraiserInfo | Step1 | Step2 | Step3 | Step4 | EmptyFieldError
    | AppraisalMethod | MarketAnalysis | ValueEstimation | Conclusions | Complete | RequiredField
  {
    /** The key as the source spells it. */
    function Name(): string {
      match this
      case AppTitle => "appTitle"
      case NextStep => "nextStep"
      case PrevStep => "prevStep"
      case PropertyDetails => "propertyDetails"
      case Address => "address"
      case Area => "area"
      case PropertyType => "propertyType"
      case Size => "size"
      case ConstructionYear => "constructionYear"
      case Floor => "floor"
      case Condition => "condition"
      case ResidentialPermit => "residentialPermit"
      case Features => "features"
      case AppraisalPurpose => "appraisalPurpose"
      case AdditionalNotes => "additionalNotes"
      case GenerateReport => "generateReport"
      case ExportToPdf => "exportToPdf"
      case ProcessingRequest => "processingRequest"
      case AppraisalReport => "appraisalReport"
      case PropertyTypeOptions => "propertyTypeOptions"
      case ConditionOptions => "conditionOptions"
      case FeatureOptions => "featureOptions"
      case PurposeOptions => "purposeOptions"
      case Yes => "yes"
      case No => "no"
      case SquareMeters => "squareMeters"
      case AppraiserInfo => "appraiserInfo"
      case Step1 => "step1"
      case Step2 => "step2"
      case Step3 => "step3"
      case Step4 => "step4"
      case EmptyFieldError => "emptyFieldError"
      case AppraisalMethod => "appraisalMethod"
      case MarketAnalysis => "marketAnalysis"
      case ValueEstimation => "valueEstimation"
      case Conclusions => "conclusions"
      case Complete => "complete"
      case RequiredField => "requiredField"
    }
  }

  /** The UI table. */
  function UiEntry(k: UiKey): Entry {
    match k
    case AppTitle => Entry("Εφαρμογή Εκτίμησης Ακινήτων", "Property Appraisal Application")
    case NextStep => Entry("Επόμενο", "Next")
    case PrevStep => Entry("Προηγούμενο", "Previous")
    case PropertyDetails => Entry("Στοιχεία Ακινήτου", "Property Details")
    case Address => Entry("Διεύθυνση", "Address")
    case Area => Entry("Περιοχή", "Area")
    case PropertyType => Entry("Τύπος ακινήτου", "Property Type")
    case Size => Entry("Έκταση", "Size")
    case ConstructionYear => Entry("Έτος κατασκευής", "Construction Year")
    case Floor => Entry("Όροφος", "Floor")
    case Condition => Entry("Κατάσταση", "Condition")
    case ResidentialPermit => Entry("Άδεια κατοικίας", "Residential Permit")
    case Features => Entry("Ειδικά χαρακτηριστικά", "Special Features")
    case AppraisalPurpose => Entry("Σκοπός Εκτίμησης", "Appraisal Purpose")
    case AdditionalNotes => Entry("Επιπλέον σημειώσεις", "Additional Notes")
    case GenerateReport => Entry("Δημιουργία Έκθεσης", "Generate Report")
    case ExportToPdf => Entry("Εξαγωγή σε PDF", "Export to PDF")
    case ProcessingRequest => Entry("Επεξεργασία αιτήματος...", "Processing request...")
    case AppraisalReport => Entry("Έκθεση Εκτίμησης", "Appraisal Report")
    case PropertyTypeOptions => Entry("Επιλέξτε τύπο ακινήτου", "Select property type")
    case ConditionOptions => Entry("Επιλέξτε κατάσταση", "Select condition")
    case FeatureOptions => Entry("Επιλέξτε χαρακτηριστικά", "Select features")
    case PurposeOptions => Entry("Επιλέξτε σκοπό", "Select purpose")
    case Yes => Entry("Ναι", "Yes")
    case No => Entry("Όχι", "No")
    case SquareMeters => Entry("τ.μ.", "sq.m.")
    case AppraiserInfo => Entry("Στοιχεία Εκτιμητή", "Appraiser Information")
    case Step1 => Entry("Τύπος Ακινήτου", "Property Type")
    case Step2 => Entry("Λεπτομέρειες", "Details")
    case Step3 => Entry("Σκοπός", "Purpose")
    case Step4 => Entry("Έκθεση", "Report")
    case EmptyFieldError => Entry("Το πεδίο δεν μπορεί να είναι κενό", "This field cannot be empty")
    case AppraisalMethod => Entry("Μέθοδος Εκτίμησης", "Appraisal Method")
    case MarketAnalysis => Entry("Ανάλυση Αγοράς", "Market Analysis")
    case ValueEstimation => Entry("Εκτίμηση Αξίας", "Value Estimation")
    case Conclusions => Entry("Συμπεράσματα", "Conclusions")
    case Complete => Entry("Ολοκλήρωση", "Complete")
    case RequiredField => Entry("Υποχρεωτικό πεδίο", "Required field")
  }

  /** The property type table. */
  function TypeEntry(v: PropertyType): Entry {
    match v
    case Residence => Entry("Κατοικία", "Residence")
    case Office => Entry("Γραφείο", "Office")
    case Store => Entry("Κατάστημα", "Store")
    case Land => Entry("Οικόπεδο", "Land")
    case OtherProperty => Entry("Άλλο", "Other")
  }

  /** The condition table. */
  function ConditionEntry(v: PropertyCondition): Entry {
    match v
    case New => Entry("Νέα", "New")
    case Renovated => Entry("Ανακαινισμένη", "Renovated")
    case Good => Entry("Καλή", "Good")
    case NeedsRenovation => Entry("Χρειάζεται ανακαίνιση", "Needs renovation")
    case Poor => Entry("Κακή", "Poor")
  }

  /** The feature table, land-specific features included. */
  function FeatureEntry(v: PropertyFeature): Entry {
    match v
    case Parking => Entry("Πάρκινγκ", "Parking")
    case Balcony => Entry("Μπαλκόνι", "Balcony")
    case Garden => Entry("Κήπος", "Garden")
    case Elevator => Entry("Ανελκυστήρας", "Elevator")
    case Storage => Entry("Αποθήκη", "Storage")
    case SecurityDoor => Entry("Πόρτα ασφαλείας", "Security door")
    case Alarm => Entry("Συναγερμός", "Alarm")
    case SolarWaterHeater => Entry("Ηλιακός θερμοσίφωνας", "Solar water heater")
    case Fireplace => Entry("Τζάκι", "Fireplace")
    case AirConditioning => Entry("Κλιματισμός", "Air conditioning")
    case View => Entry("Θέα", "View")
    case CornerPlot => Entry("Γωνιακό", "Corner Plot")
    case NearSea => Entry("Κοντά στη θάλασσα", "Near Sea")
    case Buildable => Entry("Οικοδομήσιμο", "Buildable")
    case UtilitiesConnected => Entry("Συνδεδεμένες παροχές", "Utilities Connected")
    case Fenced => Entry("Περιφραγμένο", "Fenced")
  }

  /** The appraisal purpose table. */
  function PurposeEntry(v: AppraisalPurpose): Entry {
    match v
    case Sale => Entry("Πώληση", "Sale")
    case Rent => Entry("Ενοικίαση", "Rent")
    case Loan => Entry("Δάνειο", "Loan")
    case Tax => Entry("Φορολογικοί σκοποί", "Tax purposes")
    case Insurance => Entry("Ασφάλιση", "Insurance")
    case OtherPurpose => Entry("Άλλο", "Other")
  }

  /** `getTranslation(key, language)`. */
  function GetTranslation(key: UiKey, lang: Language): string {
    Lookup(Some(UiEntry(key)), key.Name(), lang)
  }

  /** `getPropertyTypeTranslation(type, language)`. */
  function TypeText(t: PropertyType, lang: Language): string {
    Lookup(Some(TypeEntry(t)), t.Name(), lang)
  }

  /** The text an optional condition becomes as an object key or in a template: its name,
      or `undefined` when absent. */
  function ConditionKey(c: Option<PropertyCondition>): string {
    match c
    case Some(v) => v.Name()
    case None => "undefined"
  }

  /** `getPropertyConditionTranslation(condition, language)`, also for an absent condition:
      indexing the table with `undefined` finds no entry. */
  function ConditionText(c: Option<PropertyCondition>, lang: Language): string {
    var entry := match c case Some(v) => Some(ConditionEntry(v)) case None => None;
    Lookup(entry, ConditionKey(c), lang)
  }

  /** `getPropertyFeatureTranslation(feature, language)`. */
  function FeatureText(f: PropertyFeature, lang: Language): string {
    Lookup(Some(FeatureEntry(f)), f.Name(), lang)
  }

  /** `getAppraisalPurposeTranslation(purpose, language)`. */
  function PurposeText(p: AppraisalPurpose, lang: Language): string {
    Lookup(Some(PurposeEntry(p)), p.Name(), lang)
  }

  /** Every declared UI key has a non-empty Greek text that does not start with `[`. */
  lemma GreekUiTexts(key: UiKey)
    ensures UiEntry(key).el != "" && UiEntry(key).el[0] != '['
  {
    match key
    case AppTitle =>
    case NextStep =>
    case PrevStep =>
    case PropertyDetails =>
    case Address =>
    case Area =>
    case PropertyType =>
    case Size =>
    case ConstructionYear =>
    case Floor =>
    case Condition =>
    case ResidentialPermit =>
    case Features =>
    case AppraisalPurpose =>
    case AdditionalNotes =>
    case GenerateReport =>
    case ExportToPdf =>
    case ProcessingRequest =>
    case AppraisalReport =>
    case PropertyTypeOptions =>
    case ConditionOptions =>
    case FeatureOptions =>
    case PurposeOptions =>
    case Yes =>
    case No =>
    case SquareMeters =>
    case AppraiserInfo =>
    case Step1 =>
    case Step2 =>
    case Step3 =>
    case Step4 =>
    case EmptyFieldError =>
    case AppraisalMethod =>
    case MarketAnalysis =>
    case ValueEstimation =>
    case Conclusions =>
    case Complete =>
    case RequiredField =>
  }

  /** Every declared UI key has a non-empty English text that does not start with `[`. */
  lemma EnglishUiTexts(key: UiKey)
    ensures UiEntry(key).en != "" && UiEntry(key).en[0] != '['
  {
    match key
    case AppTitle =>
    case NextStep =>
    case PrevStep =>
    case PropertyDetails =>
    case Address =>
    case Area =>
    case PropertyType =>
    case Size =>
    case ConstructionYear =>
    case Floor =>
    case Condition =>
    case ResidentialPermit =>
    case Features =>
    case AppraisalPurpose =>
    case AdditionalNotes =>
    case GenerateReport =>
    case ExportToPdf =>
    case ProcessingRequest =>
    case AppraisalReport =>
    case PropertyTypeOptions =>
    case ConditionOptions =>
    case FeatureOptions =>
    case PurposeOptions =>
    case Yes =>
    case No =>
    case SquareMeters =>
    case AppraiserInfo =>
    case Step1 =>
    case Step2 =>
    case Step3 =>
    case Step4 =>
    case EmptyFieldError =>
    case AppraisalMethod =>
    case MarketAnalysis =>
    case ValueEstimation =>
    case Conclusions =>
    case Complete =>
    case RequiredField =>
  }

  /** Every declared UI key has a non-empty Greek and English text, so `getTranslation` returns
      the table's text and never the placeholder. */
  lemma DeclaredKeysTranslated(key: UiKey, lang: Language)
    ensures UiEntry(key).In(lang) != "" && !StartsWithBracket(UiEntry(key).In(lang))
    ensures GetTranslation(key, lang) == UiEntry(key).In(lang)
  {
    GreekUiTexts(key);
    EnglishUiTexts(key);
  }

  /** The four value tables give every value of their union a non-empty text in both languages,
      and the lookups return it. */
  lemma ValueTablesTotal(t: PropertyType, c: PropertyCondition, f: PropertyFeature,
                         p: AppraisalPurpose, lang: Language)
    ensures TypeEntry(t).In(lang) != "" && TypeText(t, lang) == TypeEntry(t).In(lang)
    ensures ConditionEntry(c).In(lang) != "" && ConditionText(Some(c), lang) == ConditionEntry(c).In(lang)
    ensures FeatureEntry(f).In(lang) != "" && FeatureText(f, lang) == FeatureEntry(f).In(lang)
    ensures PurposeEntry(p).In(lang) != "" && PurposeText(p, lang) == PurposeEntry(p).In(lang)
  {
    TypeTableTotal(t, lang);
    ConditionTableTotal(c, lang);
    FeatureTableTotal(f, lang);
    PurposeTableTotal(p, lang);
  }

  lemma TypeTableTotal(t: PropertyType, lang: Language)
    ensures TypeEntry(t).In(lang) != "" && TypeText(t, lang) == TypeEntry(t).In(lang)
  {
  }

  lemma ConditionTableTotal(c: PropertyCondition, lang: Language)
    ensures ConditionEntry(c).In(lang) != "" && ConditionText(Some(c), lang) == ConditionEntry(c).In(lang)
  {
  }

  lemma FeatureTableTotal(f: PropertyFeature, lang: Language)
    ensures FeatureEntry(f).In(lang) != "" && FeatureText(f, lang) == FeatureEntry(f).In(lang)
  {
  }

  lemma PurposeTableTotal(p: AppraisalPurpose, lang: Language)
    ensures PurposeEntry(p).In(lang) != "" && PurposeText(p, lang) == PurposeEntry(p).In(lang)
  {
  }

  /** An absent condition is looked up under the key `undefined`, which the table lacks. */
  lemma AbsentConditionPlaceholder(lang: Language)
    ensures ConditionText(None, lang) == "[Missing translation: undefined]"
  {
  }
}
