/** The value types of the appraisal application: the string-literal unions and the two
    records a report request is built from and produces. */
module Types {
  import opened Wrappers

  /** Interface language. */
  datatype Language = El | En {
    /** The literal the source uses for this language. */
    function Code(): string {
      match this
      case El => "el"
      case En => "en"
    }
  }

  /** Property category. */
  datatype PropertyType = Residence | Office | Store | Land | OtherProperty {
    function Name(): string {
      match this
      case Residence => "residence"
      case Office => "office"
      case Store => "store"
      case Land => "land"
      case OtherProperty => "other"
    }
  }

  /** Condition of a building. */
  datatype PropertyCondition = New | Renovated | Good | NeedsRenovation | Poor {
    function Name(): string {
      match this
      case New => "new"
      case Renovated => "renovated"
      case Good => "good"
      case NeedsRenovation => "needs_renovation"
      case Poor => "poor"
    }
  }

  /** Feature tag; the last six are the land-specific ones. */
  datatype PropertyFeature =
    | Parking | Balcony | Garden | Elevator | Storage | SecurityDoor | Alarm
    | SolarWaterHeater | Fireplace | AirConditioning
    | View | CornerPlot | NearSea | Buildable | UtilitiesConnected | Fenced
  {
    function Name(): string {
      match this
      case Parking => "parking"
      case Balcony => "balcony"
      case Garden => "garden"
      case Elevator => "elevator"
      case Storage => "storage"
      case SecurityDoor => "security_door"
      case Alarm => "alarm"
      case SolarWaterHeater => "solar_water_heater"
      case Fireplace => "fireplace"
      case AirConditioning => "air_conditioning"
      case View => "view"
      case CornerPlot => "corner_plot"
      case NearSea => "near_sea"
      case Buildable => "buildable"
      case UtilitiesConnected => "utilities_connected"
      case Fenced => "fenced"
    }
  }

  /** Why the appraisal is requested. */
  datatype AppraisalPurpose = Sale | Rent | Loan | Tax | Insurance | OtherPurpose {
    function Name(): string {
      match this
      case Sale => "sale"
      case Rent => "rent"
      case Loan => "loan"
      case Tax => "tax"
      case Insurance => "insurance"
      case OtherPurpose => "other"
    }
  }

  /** Every value of each union, in declaration order. */
  const AllLanguages: seq<Language> := [El, En]
  const AllPropertyTypes: seq<PropertyType> := [Residence, Office, Store, Land, OtherProperty]
  const AllConditions: seq<PropertyCondition> := [New, Renovated, Good, NeedsRenovation, Poor]
  const AllFeatures: seq<PropertyFeature> :=
    [Parking, Balcony, Garden, Elevator, Storage, SecurityDoor, Alarm, SolarWaterHeater,
     Fireplace, AirConditioning, View, CornerPlot, NearSea, Buildable, UtilitiesConnected, Fenced]
  const AllPurposes: seq<AppraisalPurpose> := [Sale, Rent, Loan, Tax, Insurance, OtherPurpose]

  /** No value is listed twice. */
  ghost predicate Distinct<T>(s: seq<T>) {
    forall i, j :: 0 <= i < j < |s| ==> s[i] != s[j]
  }

  /** There are exactly two languages. */
  lemma LanguageValues()
    ensures |AllLanguages| == 2 && Distinct(AllLanguages)
    ensures forall l: Language :: l in AllLanguages
    ensures forall a: Language, b: Language :: a.Code() == b.Code() ==> a == b
  {
    forall l: Language ensures l in AllLanguages {
      match l
      case El =>
      case En =>
    }
  }

  /** There are exactly five property types, five conditions and six purposes. */
  lemma SmallUnionValues()
    ensures |AllPropertyTypes| == 5 && Distinct(AllPropertyTypes)
    ensures forall t: PropertyType :: t in AllPropertyTypes
    ensures |AllConditions| == 5 && Distinct(AllConditions)
    ensures forall c: PropertyCondition :: c in AllConditions
    ensures |AllPurposes| == 6 && Distinct(AllPurposes)
    ensures forall p: AppraisalPurpose :: p in AllPurposes
  {
    forall t: PropertyType ensures t in AllPropertyTypes {
      match t
      case Residence =>
      case Office =>
      case Store =>
      case Land =>
      case OtherProperty =>
    }
    forall c: PropertyCondition ensures c in AllConditions {
      match c
      case New =>
      case Renovated =>
      case Good =>
      case NeedsRenovation =>
      case Poor =>
    }
    forall p: AppraisalPurpose ensures p in AllPurposes {
      match p
      case Sale =>
      case Rent =>
      case Loan =>
      case Tax =>
      case Insurance =>
      case OtherPurpose =>
    }
  }

  /** There are exactly sixteen feature tags. */
  lemma FeatureValues()
    ensures |AllFeatures| == 16 && Distinct(AllFeatures)
    ensures forall f: PropertyFeature :: f in AllFeatures
  {
    forall f: PropertyFeature ensures f in AllFeatures {
      match f
      case Parking =>
      case Balcony =>
      case Garden =>
      case Elevator =>
      case Storage =>
      case SecurityDoor =>
      case Alarm =>
      case SolarWaterHeater =>
      case Fireplace =>
      case AirConditioning =>
      case View =>
      case CornerPlot =>
      case NearSea =>
      case Buildable =>
      case UtilitiesConnected =>
      case Fenced =>
    }
  }

  /** The attributes collected by the wizard. Only `constructionYear`, `floor`, `condition`
      and `additionalNotes` may be absent. Numbers are whole numbers here. */
  datatype PropertyData = PropertyData(
    address: string,
    area: string,
    propertyType: PropertyType,
    size: int,
    constructionYear: Option<int>,
    floor: Option<string>,
    condition: Option<PropertyCondition>,
    residentialPermit: bool,
    features: seq<PropertyFeature>,
    appraisalPurpose: AppraisalPurpose,
    additionalNotes: Option<string>)

  /** The keys of `PropertyData`, in declaration order: error maps and updates are keyed by them. */
  datatype Field =
    | AddressField | AreaField | PropertyTypeField | SizeField | ConstructionYearField
    | FloorField | ConditionField | ResidentialPermitField | FeaturesField
    | AppraisalPurposeField | AdditionalNotesField
  {
    function Key(): string {
      match this
      case AddressField => "address"
      case AreaField => "area"
      case PropertyTypeField => "propertyType"
      case SizeField => "size"
      case ConstructionYearField => "constructionYear"
      case FloorField => "floor"
      case ConditionField => "condition"
      case ResidentialPermitField => "residentialPermit"
      case FeaturesField => "features"
      case AppraisalPurposeField => "appraisalPurpose"
      case AdditionalNotesField => "additionalNotes"
    }
  }

  const AllFields: seq<Field> :=
    [AddressField, AreaField, PropertyTypeField, SizeField, ConstructionYearField, FloorField,
     ConditionField, ResidentialPermitField, FeaturesField, AppraisalPurposeField, AdditionalNotesField]

  /** `AllFields` lists every key once. */
  lemma FieldValues()
    ensures |AllFields| == 11 && Distinct(AllFields)
    ensures forall f: Field :: f in AllFields
  {
    forall f: Field ensures f in AllFields {
      match f
      case AddressField =>
      case AreaField =>
      case PropertyTypeField =>
      case SizeField =>
      case ConstructionYearField =>
      case FloorField =>
      case ConditionField =>
      case ResidentialPermitField =>
      case FeaturesField =>
      case AppraisalPurposeField =>
      case AdditionalNotesField =>
    }
  }

  /** The six narrative sections of a report, in the order the report declares them. */
  datatype Section =
    | DetailsSection | PurposeSection | MethodSection | MarketSection | ValueSection | ConclusionsSection
  {
    /** The property name of the section in the report and in the requested JSON payload. */
    function Key(): string {
      match this
      case DetailsSection => "propertyDetails"
      case PurposeSection => "appraisalPurpose"
      case MethodSection => "appraisalMethod"
      case MarketSection => "marketAnalysis"
      case ValueSection => "valueEstimation"
      case ConclusionsSection => "conclusions"
    }
  }

  const AllSections: seq<Section> :=
    [DetailsSection, PurposeSection, MethodSection, MarketSection, ValueSection, ConclusionsSection]

  /** The section a key names, if any: the `switch (sectionKey)` of the report editor. */
  function SectionFromKey(key: string): (r: Option<Section>)
    ensures r.Some? ==> r.value.Key() == key
    ensures r.None? <==> forall s: Section :: s.Key() != key
  {
    if key == "propertyDetails" then Some(DetailsSection)
    else if key == "appraisalPurpose" then Some(PurposeSection)
    else if key == "appraisalMethod" then Some(MethodSection)
    else if key == "marketAnalysis" then Some(MarketSection)
    else if key == "valueEstimation" then Some(ValueSection)
    else if key == "conclusions" then Some(ConclusionsSection)
    else None
  }

  /** A section's key names that section and no other. */
  lemma SectionKeyRoundTrip(s: Section)
    ensures SectionFromKey(s.Key()) == Some(s)
  {
  }

  /** No two sections share a key. */
  lemma SectionKeyInjective()
    ensures forall a: Section, b: Section :: a.Key() == b.Key() ==> a == b
  {
    forall a: Section, b: Section | a.Key() == b.Key()
      ensures a == b
    {
      SectionKeyRoundTrip(a);
      SectionKeyRoundTrip(b);
    }
  }

  /** The person signing the report. */
  datatype Appraiser = Appraiser(name: string, title: string, contact: string, date: string)

  /** A report: six narrative sections of type `T` and the appraiser. `T` is `string` for the
      declared report type; the recovery of a model answer produces JSON values. */
  datatype Report<T> = Report(
    propertyDetails: T,
    appraisalPurpose: T,
    appraisalMethod: T,
    marketAnalysis: T,
    valueEstimation: T,
    conclusions: T,
    appraiser: Appraiser)
  {
    /** The content of one section. */
    function Get(s: Section): T {
      match s
      case DetailsSection => propertyDetails
      case PurposeSection => appraisalPurpose
      case MethodSection => appraisalMethod
      case MarketSection => marketAnalysis
      case ValueSection => valueEstimation
      case ConclusionsSection => conclusions
    }

    /** The report with one section replaced and everything else kept. */
    function With(s: Section, v: T): (r: Report<T>)
      ensures r.Get(s) == v
      ensures forall t :: t != s ==> r.Get(t) == Get(t)
      ensures r.appraiser == appraiser
    {
      match s
      case DetailsSection => this.(propertyDetails := v)
      case PurposeSection => this.(appraisalPurpose := v)
      case MethodSection => this.(appraisalMethod := v)
      case MarketSection => this.(marketAnalysis := v)
      case ValueSection => this.(valueEstimation := v)
      case ConclusionsSection => this.(conclusions := v)
    }
  }

  /** The declared report type: every section and every appraiser field is a string. */
  type AppraisalReport = Report<string>

  /** Two reports are equal exactly when their appraisers and all six sections are. */
  lemma ReportExtensionality<T>(a: Report<T>, b: Report<T>)
    requires a.appraiser == b.appraiser
    requires forall s :: a.Get(s) == b.Get(s)
    ensures a == b
  {
    assert a.Get(DetailsSection) == b.Get(DetailsSection);
    assert a.Get(PurposeSection) == b.Get(PurposeSection);
    assert a.Get(MethodSection) == b.Get(MethodSection);
    assert a.Get(MarketSection) == b.Get(MarketSection);
    assert a.Get(ValueSection) == b.Get(ValueSection);
    assert a.Get(ConclusionsSection) == b.Get(ConclusionsSection);
  }
}
