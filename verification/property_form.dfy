/** The four-step wizard: its state, partial updates with the property-type reset, per-step
    validation, navigation, and the report-generation handler. */
module Form {
  import opened Wrappers
  import opened Types
  import opened Translations
  import opened Json
  import opened Details
  import opened Ai

  /** A partial update: `Some` for each key present in the update object. */
  datatype Patch = Patch(
    address: Option<string>,
    area: Option<string>,
    propertyType: Option<PropertyType>,
    size: Option<int>,
    constructionYear: Option<int>,
    floor: Option<string>,
    condition: Option<PropertyCondition>,
    residentialPermit: Option<bool>,
    features: Option<seq<PropertyFeature>>,
    appraisalPurpose: Option<AppraisalPurpose>,
    additionalNotes: Option<string>)
  {
    /** The key `f` is present in the update. */
    predicate Has(f: Field) {
      match f
      case AddressField => address.Some?
      case AreaField => area.Some?
      case PropertyTypeField => propertyType.Some?
      case SizeField => size.Some?
      case ConstructionYearField => constructionYear.Some?
      case FloorField => floor.Some?
      case ConditionField => condition.Some?
      case ResidentialPermitField => residentialPermit.Some?
      case FeaturesField => features.Some?
      case AppraisalPurposeField => appraisalPurpose.Some?
      case AdditionalNotesField => additionalNotes.Some?
    }
  }

  /** The update that carries no key. */
  const NoChange := Patch(None, None, None, None, None, None, None, None, None, None, None)

  /** An update carrying one key each, as the step components send them. */
  function SetType(t: PropertyType): Patch { NoChange.(propertyType := Some(t)) }

  /** Field `f` of `d` holds the value the update carries for it. */
  predicate Carries(d: PropertyData, p: Patch, f: Field) {
    match f
    case AddressField => p.address == Some(d.address)
    case AreaField => p.area == Some(d.area)
    case PropertyTypeField => p.propertyType == Some(d.propertyType)
    case SizeField => p.size == Some(d.size)
    case ConstructionYearField => p.constructionYear.Some? && d.constructionYear == p.constructionYear
    case FloorField => p.floor.Some? && d.floor == p.floor
    case ConditionField => p.condition.Some? && d.condition == p.condition
    case ResidentialPermitField => p.residentialPermit == Some(d.residentialPermit)
    case FeaturesField => p.features == Some(d.features)
    case AppraisalPurposeField => p.appraisalPurpose == Some(d.appraisalPurpose)
    case AdditionalNotesField => p.additionalNotes.Some? && d.additionalNotes == p.additionalNotes
  }

  /** Field `f` is the same in `a` and `b`. */
  predicate SameField(a: PropertyData, b: PropertyData, f: Field) {
    match f
    case AddressField => a.address == b.address
    case AreaField => a.area == b.area
    case PropertyTypeField => a.propertyType == b.propertyType
    case SizeField => a.size == b.size
    case ConstructionYearField => a.constructionYear == b.constructionYear
    case FloorField => a.floor == b.floor
    case ConditionField => a.condition == b.condition
    case ResidentialPermitField => a.residentialPermit == b.residentialPermit
    case FeaturesField => a.features == b.features
    case AppraisalPurposeField => a.appraisalPurpose == b.appraisalPurpose
    case AdditionalNotesField => a.additionalNotes == b.additionalNotes
  }

  /** Two records that agree on every field are equal. */
  lemma SameFieldsEqual(a: PropertyData, b: PropertyData)
    requires forall f :: SameField(a, b, f)
    ensures a == b
  {
    assert SameField(a, b, AddressField) && SameField(a, b, AreaField);
    assert SameField(a, b, PropertyTypeField) && SameField(a, b, SizeField);
    assert SameField(a, b, ConstructionYearField) && SameField(a, b, FloorField);
    assert SameField(a, b, ConditionField) && SameField(a, b, ResidentialPermitField);
    assert SameField(a, b, FeaturesField) && SameField(a, b, AppraisalPurposeField);
    assert SameField(a, b, AdditionalNotesField);
  }

  /** `{ ...d, ...p }`: the update's keys overwrite, every other field is kept. */
  function Merge(d: PropertyData, p: Patch): (r: PropertyData)
    ensures forall f :: p.Has(f) ==> Carries(r, p, f)
    ensures forall f :: !p.Has(f) ==> SameField(r, d, f)
  {
    PropertyData(
      p.address.GetOr(d.address),
      p.area.GetOr(d.area),
      p.propertyType.GetOr(d.propertyType),
      p.size.GetOr(d.size),
      if p.constructionYear.Some? then p.constructionYear else d.constructionYear,
      if p.floor.Some? then p.floor else d.floor,
      if p.condition.Some? then p.condition else d.condition,
      p.residentialPermit.GetOr(d.residentialPermit),
      p.features.GetOr(d.features),
      p.appraisalPurpose.GetOr(d.appraisalPurpose),
      if p.additionalNotes.Some? then p.additionalNotes else d.additionalNotes)
  }

  /** Applying the same update twice is applying it once, and the empty update changes nothing. */
  lemma MergeIdempotent(d: PropertyData, p: Patch)
    ensures Merge(Merge(d, p), p) == Merge(d, p)
    ensures Merge(d, NoChange) == d
  {
    var once := Merge(d, p);
    var twice := Merge(once, p);
    forall f ensures SameField(twice, once, f) {
      if p.Has(f) {
        assert Carries(twice, p, f) && Carries(once, p, f);
      }
    }
    SameFieldsEqual(twice, once);
    var same := Merge(d, NoChange);
    forall f ensures SameField(same, d, f) {
      assert !NoChange.Has(f);
    }
    SameFieldsEqual(same, d);
  }

  /** Clears what only a building has: construction year, floor and condition become absent,
      the permit is off and no feature is ticked. */
  function ClearBuildingFields(d: PropertyData): (r: PropertyData)
    ensures r.constructionYear.None? && r.floor.None? && r.condition.None? && !r.residentialPermit && r.features == []
    ensures forall f :: !BuildingField(f) ==> SameField(r, d, f)
  {
    d.(constructionYear := None, floor := None, condition := None, residentialPermit := false, features := [])
  }

  /** The fields only a building has. */
  predicate BuildingField(f: Field) {
    f in {ConstructionYearField, FloorField, ConditionField, ResidentialPermitField, FeaturesField}
  }

  /** The validation messages, keyed by field. */
  type Errors = map<Field, string>

  /** The wizard's state: the current step, whether a report is being generated, the generated
      report, the collected data and the messages shown under the inputs. */
  datatype FormState = FormState(
    step: int, busy: bool, report: Option<Report<JsonValue>>, data: PropertyData, errors: Errors)

  /** The first screen; `year` is the current calendar year. */
  function Initial(year: int): (s: FormState)
    ensures s.step == 0 && !s.busy && s.report.None? && s.errors == map[]
    ensures s.data.propertyType == Residence && IsBuilding(s.data.propertyType)
    ensures s.data.constructionYear == Some(year) && s.data.features == [] && s.data.residentialPermit
  {
    FormState(0, false, None,
      PropertyData("", "", Residence, 0, Some(year), Some(""), Some(Good), true, [], Sale, Some("")),
      map[])
  }

  /** `handleUpdateData`: merge the update, drop the messages of the updated keys, and clear the
      building fields when the update switches to land or "other". */
  function UpdateData(s: FormState, p: Patch): (r: FormState)
    ensures forall f :: f in r.errors <==> f in s.errors && !p.Has(f)
    ensures forall f :: f in r.errors ==> r.errors[f] == s.errors[f]
    ensures r.step == s.step && r.busy == s.busy && r.report == s.report
    ensures p.propertyType.Some? && !IsBuilding(p.propertyType.value) ==>
              r.data == ClearBuildingFields(Merge(s.data, p))
    ensures !(p.propertyType.Some? && !IsBuilding(p.propertyType.value)) ==> r.data == Merge(s.data, p)
  {
    var merged := Merge(s.data, p);
    var data := if p.propertyType.Some? && !IsBuilding(p.propertyType.value) then ClearBuildingFields(merged) else merged;
    s.(data := data, errors := map f | f in s.errors && !p.Has(f) :: s.errors[f])
  }

  /** Choosing land or "other" leaves no building value behind; every other field is the merged
      one. */
  lemma NonBuildingClears(s: FormState, t: PropertyType)
    requires !IsBuilding(t)
    ensures var d := UpdateData(s, SetType(t)).data;
            d.propertyType == t && d.constructionYear.None? && d.floor.None? && d.condition.None?
            && !d.residentialPermit && d.features == []
            && d.address == s.data.address && d.area == s.data.area && d.size == s.data.size
            && d.appraisalPurpose == s.data.appraisalPurpose && d.additionalNotes == s.data.additionalNotes
  {
  }

  /** Switching from land back to a building clears nothing: a land feature ticked earlier stays
      in the list although the building checkboxes do not offer it. */
  lemma LandFeatureSurvivesSwitch(s: FormState)
    requires s.data.propertyType == Land && s.data.features == [View]
    ensures UpdateData(s, SetType(Residence)).data.features == [View]
    ensures View !in Vocabulary(Residence)
  {
  }

  /** A step-1 check fails for field `f`: text fields must be non-empty, the size positive,
      and for a building the construction year positive, the floor non-empty and the condition
      chosen. */
  predicate Fails(d: PropertyData, f: Field) {
    match f
    case AddressField => d.address == ""
    case AreaField => d.area == ""
    case SizeField => d.size <= 0
    case ConstructionYearField => IsBuilding(d.propertyType) && (d.constructionYear.None? || d.constructionYear.value <= 0)
    case FloorField => IsBuilding(d.propertyType) && (d.floor.None? || d.floor.value == "")
    case ConditionField => IsBuilding(d.propertyType) && d.condition.None?
    case _ => false
  }

  /** The messages `validateStep` produces. Steps 0 and 2 check a type and a purpose, which are
      always chosen, so only step 1 can fail. */
  function StepErrors(d: PropertyData, step: int, lang: Language): (e: Errors)
    ensures forall f :: f in e <==> step == 1 && Fails(d, f)
    ensures forall f :: f in e ==> e[f] == GetTranslation(RequiredField, lang)
  {
    FieldValues();
    if step == 1 then map f | f in AllFields && Fails(d, f) :: GetTranslation(RequiredField, lang) else map[]
  }

  /** Step 1 passes exactly when the address, area and a positive size are given and, for a
      building, a positive construction year, a non-empty floor and a condition. */
  lemma StepOneIff(d: PropertyData, lang: Language)
    ensures StepErrors(d, 1, lang) == map[] <==>
              d.address != "" && d.area != "" && d.size > 0
              && (IsBuilding(d.propertyType) ==>
                    d.constructionYear.Some? && d.constructionYear.value > 0
                    && d.floor.Some? && d.floor.value != "" && d.condition.Some?)
  {
    var e := StepErrors(d, 1, lang);
    if e == map[] {
      assert !Fails(d, AddressField) && !Fails(d, AreaField) && !Fails(d, SizeField);
      assert !Fails(d, ConstructionYearField) && !Fails(d, FloorField) && !Fails(d, ConditionField);
    } else {
      var f :| f in e;
      assert Fails(d, f);
    }
  }

  /** Land and "other" are never asked for building values. */
  lemma NonBuildingSkipsBuildingChecks(d: PropertyData, lang: Language)
    requires !IsBuilding(d.propertyType)
    ensures ConstructionYearField !in StepErrors(d, 1, lang)
    ensures FloorField !in StepErrors(d, 1, lang)
    ensures ConditionField !in StepErrors(d, 1, lang)
  {
  }

  /** A fresh form fails step 1 on address, area and size (and on the floor, which starts
      empty), and on the construction year only if the current year is not positive. */
  lemma FreshFormStepOne(year: int, lang: Language)
    ensures var e := StepErrors(Initial(year).data, 1, lang);
            AddressField in e && AreaField in e && SizeField in e && FloorField in e
            && ConditionField !in e && (ConstructionYearField in e <==> year <= 0)
  {
    var d := Initial(year).data;
    assert IsBuilding(d.propertyType);
    assert Fails(d, AddressField) && Fails(d, AreaField) && Fails(d, SizeField) && Fails(d, FloorField);
    assert !Fails(d, ConditionField);
    assert Fails(d, ConstructionYearField) <==> year <= 0;
  }

  /** A notification shown by the wizard. */
  datatype Notice = EmptyFields | NoApiKey | GenerationError {
    function Text(lang: Language): string {
      match this
      case EmptyFields => GetTranslation(EmptyFieldError, lang)
      case NoApiKey =>
        if lang == El then "Παρακαλώ εισάγετε το κλειδί API του OpenRouter." else "Please enter your OpenRouter API key."
      case GenerationError =>
        if lang == El then "Σφάλμα κατά τη δημιουργία της έκθεσης." else "Error generating the report."
    }
  }

  /** The state after a handler, and the notification it raised, if any. */
  datatype Outcome = Outcome(state: FormState, notice: Option<Notice>)

  /** `validateStep`: the step's messages replace all previous ones; step 1 raises a notice when
      any check fails. */
  function Validate(s: FormState, step: int, lang: Language): (o: Outcome)
    ensures o.state == s.(errors := StepErrors(s.data, step, lang))
    ensures o.notice.Some? <==> o.state.errors != map[]
    ensures o.notice.Some? ==> o.notice.value == EmptyFields
  {
    var e := StepErrors(s.data, step, lang);
    Outcome(s.(errors := e), if e != map[] then Some(EmptyFields) else None)
  }

  /** `handleNext`: advance one step when the current step validates. */
  function Next(s: FormState, lang: Language): (o: Outcome)
    ensures o.state.errors == StepErrors(s.data, s.step, lang)
    ensures o.state.step == s.step + 1 <==> StepErrors(s.data, s.step, lang) == map[]
    ensures o.state.step != s.step + 1 ==> o.state.step == s.step
    ensures o.state.data == s.data && o.state.report == s.report && o.state.busy == s.busy
  {
    var v := Validate(s, s.step, lang);
    if v.state.errors == map[] then v.(state := v.state.(step := s.step + 1)) else v
  }

  /** `handlePrevious`: back one step, nothing else touched. */
  function Previous(s: FormState): (r: FormState)
    ensures r.step + 1 == s.step
    ensures r.(step := s.step) == s
  {
    s.(step := s.step - 1)
  }

  /** Going back after a successful advance returns to the same step with the messages cleared. */
  lemma PreviousUndoesNext(s: FormState, lang: Language)
    requires Next(s, lang).state.step == s.step + 1
    ensures Previous(Next(s, lang).state) == s.(errors := map[])
  {
  }

  /** The type and purpose steps always advance. */
  lemma OtherStepsAdvance(s: FormState, lang: Language)
    requires s.step != 1
    ensures Next(s, lang) == Outcome(s.(step := s.step + 1, errors := map[]), None)
  {
  }

  /** `handleGenerateReport`: after the (always passing) purpose check, refuse without a key;
      otherwise ask for a report, store it and move to the report step, or raise the error
      notice. Waiting on the request ends with the busy flag cleared either way. */
  function GenerateReport(
    s: FormState, lang: Language, apiKey: Option<string>,
    server: Request -> Reply, decode: string -> Option<JsonObject>, date: string): (o: Outcome)
    ensures o.state.errors == map[] && o.state.data == s.data
    ensures !HasKey(apiKey) ==> o == Outcome(s.(errors := map[]), Some(NoApiKey))
    ensures HasKey(apiKey) ==> !o.state.busy
    ensures HasKey(apiKey) && server(BuildRequest(s.data, lang, apiKey.value)).Completion? ==>
              o.notice.None? && o.state.step == 3
              && o.state.report == Some(Recover(server(BuildRequest(s.data, lang, apiKey.value)).content, lang, date, decode))
    ensures HasKey(apiKey) && !server(BuildRequest(s.data, lang, apiKey.value)).Completion? ==>
              o.notice == Some(GenerationError) && o.state.step == s.step && o.state.report == s.report
  {
    var v := Validate(s, 2, lang).state;
    if !HasKey(apiKey) then Outcome(v, Some(NoApiKey))
    else
      match GenerateAppraisalReport(s.data, lang, apiKey, server, decode, date).result
      case Success(rep) => Outcome(v.(report := Some(rep), step := 3, busy := false), None)
      case Failure(_) => Outcome(v.(busy := false), Some(GenerationError))
  }

  /** The wizard checks the key itself, so the generator's own missing-key error never reaches it. */
  lemma NoMissingKeyThroughForm(
    s: FormState, lang: Language, apiKey: Option<string>,
    server: Request -> Reply, decode: string -> Option<JsonObject>, date: string)
    requires HasKey(apiKey)
    ensures GenerateAppraisalReport(s.data, lang, apiKey, server, decode, date).result != Failure(MissingApiKey)
  {
  }
}
