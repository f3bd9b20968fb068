/** Report generation: the facts block and prompt built from a property, the request sent to the
    chat-completion endpoint, and the recovery of a report from the model's free-text answer. */
module Ai {
  import opened Wrappers
  import opened Types
  import opened Text
  import opened Translations
  import opened Labels
  import opened Json

  const ModelId := "google/gemini-2.0-flash-thinking-exp-1219:free"
  const Endpoint := "https://openrouter.ai/api/v1/chat/completions"
  const MaxTokens := 2000

  const AppraiserName := "Παπαδόπουλος Ιωάννης"
  const AppraiserContact := "25410 67199"

  function AppraiserTitle(lang: Language): string {
    if lang == El then "Εκτιμητής ακινήτων με έδρα την Ελλάδα" else "Property Appraiser based in Greece"
  }

  /** The fixed appraiser attached to every report; `date` is the current date as the
      language's locale formats it. */
  function AppraiserFor(lang: Language, date: string): Appraiser {
    Appraiser(AppraiserName, AppraiserTitle(lang), AppraiserContact, date)
  }

  /* ---------- The facts block ---------- */

  /** `${x}` of an optional string: the string, or `undefined` when absent. */
  function OptionalText(o: Option<string>): string {
    match o
    case Some(s) => s
    case None => "undefined"
  }

  /** `${x}` of an optional number: its decimal text, or `undefined` when absent. */
  function OptionalNumber(o: Option<int>): string {
    match o
    case Some(n) => DecimalText(n)
    case None => "undefined"
  }

  /** The translated names of the features, in list order. */
  function FeatureNames(fs: seq<PropertyFeature>, lang: Language): (r: seq<string>)
    ensures |r| == |fs|
    ensures forall i :: 0 <= i < |fs| ==> r[i] == FeatureText(fs[i], lang) && r[i] != ""
  {
    seq(|fs|, i requires 0 <= i < |fs| => FeatureText(fs[i], lang))
  }

  /** `featuresString || 'None'`: the names joined with ", ", or the none-word when the join is empty. */
  function FeaturesOrNone(fs: seq<PropertyFeature>, lang: Language): string {
    var joined := Join(FeatureNames(fs, lang), ", ");
    if joined == "" then NoneWord(lang) else joined
  }

  /** The none-word appears exactly for an empty feature list; otherwise the cell is the
      non-empty join of the translated names in list order. */
  lemma FeaturesOrNoneIff(fs: seq<PropertyFeature>, lang: Language)
    ensures |fs| == 0 ==> FeaturesOrNone(fs, lang) == NoneWord(lang)
    ensures |fs| > 0 ==> FeaturesOrNone(fs, lang) == Join(FeatureNames(fs, lang), ", ")
    ensures |fs| > 0 ==> FeaturesOrNone(fs, lang) != ""
  {
    JoinEmptyIff(FeatureNames(fs, lang), ", ");
  }

  /** One `Caption: value` line. */
  function Line(f: Field, lang: Language, value: string): string {
    FieldLabel(f, lang) + ": " + value
  }

  /** The notes line: the captioned notes when they are non-empty, otherwise an empty line. */
  function NotesLine(notes: Option<string>, lang: Language): string {
    if notes.Some? && notes.value != "" then Line(AdditionalNotesField, lang, notes.value) else ""
  }

  /** The text written after a field's caption in the facts block. */
  function FactValue(d: PropertyData, f: Field, lang: Language): string {
    match f
    case AddressField => d.address
    case AreaField => d.area
    case PropertyTypeField => TypeText(d.propertyType, lang)
    case SizeField => DecimalText(d.size) + " " + UnitText(lang)
    case ConstructionYearField => OptionalNumber(d.constructionYear)
    case FloorField => OptionalText(d.floor)
    case ConditionField => ConditionText(d.condition, lang)
    case ResidentialPermitField => YesNo(d.residentialPermit, lang)
    case FeaturesField => FeaturesOrNone(d.features, lang)
    case AppraisalPurposeField => PurposeText(d.appraisalPurpose, lang)
    case AdditionalNotesField => OptionalText(d.additionalNotes)
  }

  /** The eleven lines of the facts block, in the template's order: the first ten fields
      captioned, then the notes line. */
  function FactLines(d: PropertyData, lang: Language): seq<string> {
    seq(10, i requires 0 <= i < 10 => Line(AllFields[i], lang, FactValue(d, AllFields[i], lang)))
    + [NotesLine(d.additionalNotes, lang)]
  }

  /** The template literal's indentation. */
  const Indent := "      "

  /** `propertyInfo`: a newline, the indented rows, and the closing indentation. */
  function FactsBlock(d: PropertyData, lang: Language): (r: string)
    ensures |r| > |Indent| && r[0] == '\n' && r[|r| - |Indent|..] == Indent
  {
    "\n" + Rows(Indent, FactLines(d, lang)) + Indent
  }

  /** Every fact line reaches the prompt verbatim, on its own indented row, after the rows of
      the lines before it. */
  lemma FactsBlockRows(d: PropertyData, lang: Language, i: nat)
    requires i < |FactLines(d, lang)|
    ensures FactsBlock(d, lang)
            == "\n" + Rows(Indent, FactLines(d, lang)[..i]) + (Indent + FactLines(d, lang)[i] + "\n")
               + Rows(Indent, FactLines(d, lang)[i + 1..]) + Indent
  {
    BlockRowsAt(Indent, FactLines(d, lang), i);
  }

  /** A captioned line begins with the UI table's text for the field's key. */
  lemma LineCaption(f: Field, lang: Language, value: string)
    ensures Line(f, lang, value)[..|FieldLabel(f, lang)| + 2] == GetTranslation(FieldKey(f), lang) + ": "
  {
    CaptionsMatchTable(f, lang);
    assert Line(f, lang, value) == (FieldLabel(f, lang) + ": ") + value;
  }

  /** The first ten lines are captioned with the fields' translated keys in declaration order. */
  lemma FactLinesCaptioned(d: PropertyData, lang: Language)
    ensures |FactLines(d, lang)| == 11
    ensures forall i :: 0 <= i < 10 ==>
              FactLines(d, lang)[i][..|FieldLabel(AllFields[i], lang)| + 2]
              == GetTranslation(FieldKey(AllFields[i]), lang) + ": "
  {
    var lines := FactLines(d, lang);
    forall i | 0 <= i < 10
      ensures lines[i][..|FieldLabel(AllFields[i], lang)| + 2] == GetTranslation(FieldKey(AllFields[i]), lang) + ": "
    {
      LineCaption(AllFields[i], lang, FactValue(d, AllFields[i], lang));
    }
  }

  /** What the facts block says about the optional fields: absent values print as `undefined`,
      except an absent condition, which goes through the lookup and prints the placeholder; the
      permit is the table's yes/no word; the features cell is the none-word for an empty list and
      the join of the names otherwise; the notes line is empty exactly when the notes are absent
      or empty. */
  lemma FactLinesContents(d: PropertyData, lang: Language)
    ensures |FactLines(d, lang)| == 11
    ensures d.constructionYear.None? ==> FactLines(d, lang)[4] == Line(ConstructionYearField, lang, "undefined")
    ensures d.floor.None? ==> FactLines(d, lang)[5] == Line(FloorField, lang, "undefined")
    ensures d.condition.None? ==>
              FactLines(d, lang)[6] == Line(ConditionField, lang, "[Missing translation: undefined]")
    ensures FactLines(d, lang)[7]
            == Line(ResidentialPermitField, lang, GetTranslation(if d.residentialPermit then Yes else No, lang))
    ensures |d.features| == 0 ==> FactLines(d, lang)[8] == Line(FeaturesField, lang, NoneWord(lang))
    ensures |d.features| > 0 ==>
              FactLines(d, lang)[8] == Line(FeaturesField, lang, Join(FeatureNames(d.features, lang), ", "))
    ensures FactLines(d, lang)[10] == "" <==> d.additionalNotes.None? || d.additionalNotes == Some("")
  {
    AbsentFactLines(d, lang);
    PermitAndFeatureLines(d, lang);
    FactLineAt(d, lang, 10);
  }

  /** Line `i` of the facts is the line of field `i`, or the notes line for `i == 10`. */
  lemma FactLineAt(d: PropertyData, lang: Language, i: nat)
    requires i <= 10
    ensures |FactLines(d, lang)| == 11
    ensures i < 10 ==> FactLines(d, lang)[i] == Line(AllFields[i], lang, FactValue(d, AllFields[i], lang))
    ensures i == 10 ==> FactLines(d, lang)[i] == NotesLine(d.additionalNotes, lang)
  {
  }

  /** The lines of the three optional building fields when they are absent. */
  lemma AbsentFactLines(d: PropertyData, lang: Language)
    ensures d.constructionYear.None? ==> FactLines(d, lang)[4] == Line(ConstructionYearField, lang, "undefined")
    ensures d.floor.None? ==> FactLines(d, lang)[5] == Line(FloorField, lang, "undefined")
    ensures d.condition.None? ==>
              FactLines(d, lang)[6] == Line(ConditionField, lang, "[Missing translation: undefined]")
  {
    FactLineAt(d, lang, 4);
    FactLineAt(d, lang, 5);
    FactLineAt(d, lang, 6);
    AbsentConditionPlaceholder(lang);
  }

  /** The permit line shows the yes/no word; the features line the none-word or the names. */
  lemma PermitAndFeatureLines(d: PropertyData, lang: Language)
    ensures FactLines(d, lang)[7]
            == Line(ResidentialPermitField, lang, GetTranslation(if d.residentialPermit then Yes else No, lang))
    ensures |d.features| == 0 ==> FactLines(d, lang)[8] == Line(FeaturesField, lang, NoneWord(lang))
    ensures |d.features| > 0 ==>
              FactLines(d, lang)[8] == Line(FeaturesField, lang, Join(FeatureNames(d.features, lang), ", "))
  {
    FactLineAt(d, lang, 7);
    FactLineAt(d, lang, 8);
    WordsMatchTable(d.residentialPermit, lang);
    FeaturesOrNoneIff(d.features, lang);
  }

  /* ---------- The prompt and the request ---------- */

  /** The six keys the prompt asks the model to return, in the order it lists them. */
  const RequestedKeys: seq<string> :=
    ["propertyDetails", "appraisalPurpose", "appraisalMethod", "marketAnalysis", "valueEstimation", "conclusions"]

  /** The prompt, reduced to what varies: its language, the facts block and the requested keys.
      The instruction prose around them is fixed per language. */
  datatype Prompt = Prompt(language: Language, facts: string, requestedKeys: seq<string>)

  function BuildPrompt(d: PropertyData, lang: Language): (p: Prompt)
    ensures p.language == lang && p.facts == FactsBlock(d, lang)
    ensures |p.requestedKeys| == 6 && forall i :: 0 <= i < 6 ==> p.requestedKeys[i] == AllSections[i].Key()
  {
    Prompt(lang, FactsBlock(d, lang), RequestedKeys)
  }

  /** The prompt asks for exactly the report's six sections, in the report's order. */
  lemma RequestedKeysAreSections(d: PropertyData, lang: Language)
    ensures |BuildPrompt(d, lang).requestedKeys| == |AllSections| == 6
    ensures forall i :: 0 <= i < 6 ==> BuildPrompt(d, lang).requestedKeys[i] == AllSections[i].Key()
  {
  }

  /** The chat-completion request: one user message carrying the prompt. */
  datatype Request = Request(url: string, model: string, authorization: string, prompt: Prompt, maxTokens: int)

  /** What the endpoint answered: the first completion's text, a non-ok status with its body,
      or a failure to reach it or to read `choices[0].message.content`. */
  datatype Reply = Completion(content: string) | HttpError(status: int, body: string) | TransportError(message: string)

  /** The errors `generateAppraisalReport` raises. */
  datatype GenError = MissingApiKey | RequestFailed(status: int, body: string) | TransportFailed(message: string) {
    function Message(): string {
      match this
      case MissingApiKey => "API key is missing"
      case RequestFailed(status, body) => "API request failed with status " + DecimalText(status) + ": " + body
      case TransportFailed(m) => m
    }
  }

  /** `!apiKey` is false: a key is present and non-empty. */
  predicate HasKey(apiKey: Option<string>) {
    apiKey.Some? && apiKey.value != ""
  }

  function BuildRequest(d: PropertyData, lang: Language, key: string): Request {
    Request(Endpoint, ModelId, "Bearer " + key, BuildPrompt(d, lang), MaxTokens)
  }

  /** The request sent, if any, and the report or error returned. */
  datatype Exchange = Exchange(sent: Option<Request>, result: Result<Report<JsonValue>, GenError>)

  /** `generateAppraisalReport`. The endpoint is the function `server`, `JSON.parse` is `decode`,
      and `date` is the formatted current date. */
  function GenerateAppraisalReport(
    d: PropertyData, lang: Language, apiKey: Option<string>,
    server: Request -> Reply, decode: string -> Option<JsonObject>, date: string): (x: Exchange)
    ensures x.sent.Some? <==> HasKey(apiKey)
    ensures !HasKey(apiKey) ==> x.result == Failure(MissingApiKey) && x.result.error.Message() == "API key is missing"
    ensures x.sent.Some? ==> x.sent.value.prompt == BuildPrompt(d, lang)
    ensures x.sent.Some? ==> x.sent.value.authorization == "Bearer " + apiKey.value
    ensures x.sent.Some? ==> x.sent.value.url == Endpoint
    ensures x.sent.Some? ==> x.sent.value.model == ModelId && x.sent.value.maxTokens == 2000
    ensures x.sent.Some? && server(x.sent.value).Completion? ==>
              x.result == Success(Recover(server(x.sent.value).content, lang, date, decode))
    ensures x.sent.Some? && server(x.sent.value).HttpError? ==>
              x.result == Failure(RequestFailed(server(x.sent.value).status, server(x.sent.value).body))
  {
    if !HasKey(apiKey) then Exchange(None, Failure(MissingApiKey))
    else
      var request := BuildRequest(d, lang, apiKey.value);
      var result := match server(request)
        case Completion(content) => Success(Recover(content, lang, date, decode))
        case HttpError(status, body) => Failure(RequestFailed(status, body))
        case TransportError(m) => Failure(TransportFailed(m));
      Exchange(Some(request), result)
  }

  /** Only a missing key or a transport failure is raised: whatever the decoder does with the
      answer, a completion always yields a report. */
  lemma OnlyTransportErrorsEscape(
    d: PropertyData, lang: Language, apiKey: Option<string>,
    server: Request -> Reply, decode: string -> Option<JsonObject>, date: string)
    ensures var x := GenerateAppraisalReport(d, lang, apiKey, server, decode, date);
            x.result.Failure? <==> !HasKey(apiKey) || !server(x.sent.value).Completion?
  {
  }

  /* ---------- Recovering a report from the answer ---------- */

  /** The half-open range `[start, end)` of the answer handed to the decoder. */
  datatype Span = Span(start: nat, end: nat)

  /** From the first `{` through the last `}`, when the first `{` precedes the last `}`. */
  function LocateSpan(content: string): (r: Option<Span>)
    ensures r.Some? <==> exists i, j :: 0 <= i < j < |content| && content[i] == '{' && content[j] == '}'
    ensures r.Some? ==> r.value.start < r.value.end <= |content|
    ensures r.Some? ==> content[r.value.start] == '{' && '{' !in content[..r.value.start]
    ensures r.Some? ==> content[r.value.end - 1] == '}' && '}' !in content[r.value.end..]
  {
    var jsonStart := IndexOf(content, '{');
    var jsonEnd := LastIndexOf(content, '}') + 1;
    if jsonStart >= 0 && jsonEnd > jsonStart then Some(Span(jsonStart, jsonEnd)) else None
  }

  /** The decoded span, or `None` when no span was found or the decoder rejected it. */
  function Decoded(content: string, decode: string -> Option<JsonObject>): Option<JsonObject> {
    match LocateSpan(content)
    case None => None
    case Some(sp) => decode(content[sp.start..sp.end])
  }

  /** The fallback report: the whole answer as the property description, the rest empty. */
  function Fallback(content: string, appraiser: Appraiser): Report<JsonValue> {
    Report(JString(content), JString(""), JString(""), JString(""), JString(""), JString(""), appraiser)
  }

  /** The report read from a decoded object, each section `parsed.key || ''`. */
  function FromObject(obj: JsonObject, appraiser: Appraiser): Report<JsonValue> {
    Report(
      MemberOrEmpty(obj, "propertyDetails"),
      MemberOrEmpty(obj, "appraisalPurpose"),
      MemberOrEmpty(obj, "appraisalMethod"),
      MemberOrEmpty(obj, "marketAnalysis"),
      MemberOrEmpty(obj, "valueEstimation"),
      MemberOrEmpty(obj, "conclusions"),
      appraiser)
  }

  /** The report built from a completion's text; it never fails. */
  function Recover(content: string, lang: Language, date: string, decode: string -> Option<JsonObject>): (r: Report<JsonValue>)
    ensures r.appraiser == AppraiserFor(lang, date)
  {
    match Decoded(content, decode)
    case None => Fallback(content, AppraiserFor(lang, date))
    case Some(obj) => FromObject(obj, AppraiserFor(lang, date))
  }

  /** Without a span, or with a span the decoder rejects, the whole answer becomes the property
      description verbatim and the other five sections are empty. */
  lemma RecoverFallback(content: string, lang: Language, date: string, decode: string -> Option<JsonObject>)
    requires Decoded(content, decode).None?
    ensures Recover(content, lang, date, decode).propertyDetails == JString(content)
    ensures forall s :: s != DetailsSection ==> Recover(content, lang, date, decode).Get(s) == JString("")
  {
  }

  /** With a decoded object, each section is the member under the section's key when truthy,
      and the empty string otherwise. */
  lemma RecoverFromDecoded(content: string, lang: Language, date: string,
                           decode: string -> Option<JsonObject>, obj: JsonObject)
    requires Decoded(content, decode) == Some(obj)
    ensures forall s :: Recover(content, lang, date, decode).Get(s) == MemberOrEmpty(obj, s.Key())
  {
  }

  /** A decoded object carrying none of the six keys yields six empty sections: it is not the
      fallback, which would keep the (necessarily non-empty) answer. */
  lemma NoSectionKeysNoFallback(content: string, lang: Language, date: string,
                                decode: string -> Option<JsonObject>, obj: JsonObject)
    requires Decoded(content, decode) == Some(obj)
    requires forall s: Section :: s.Key() !in obj
    ensures forall s :: Recover(content, lang, date, decode).Get(s) == JString("")
    ensures Recover(content, lang, date, decode) != Fallback(content, AppraiserFor(lang, date))
  {
    RecoverFromDecoded(content, lang, date, decode, obj);
    var sp := LocateSpan(content).value;
    assert content[sp.start] == '{';
    assert Recover(content, lang, date, decode).Get(DetailsSection) == JString("");
  }

  /** An answer made of commentary without `{`, a payload from `{` to `}`, and commentary
      without `}` hands exactly the payload to the decoder. */
  lemma EmbeddedPayloadLocated(pre: string, payload: string, post: string)
    requires '{' !in pre && '}' !in post
    requires |payload| >= 2 && payload[0] == '{' && payload[|payload| - 1] == '}'
    ensures LocateSpan(pre + payload + post) == Some(Span(|pre|, |pre| + |payload|))
  {
    var content := pre + payload + post;
    var n := |pre| + |payload|;
    assert content[|pre|] == '{';
    assert content[n - 1] == '}';
    assert content[..|pre|] == pre;
    assert content[n..] == post;
    var sp := LocateSpan(content).value;
    assert sp.start == |pre|;
    assert sp.end == n;
  }

  /** The round trip the prompt aims at: a payload whose six members are strings, wrapped in
      brace-free commentary, comes back as a report with exactly those six strings. */
  lemma EmbeddedPayloadRoundTrip(pre: string, payload: string, post: string, texts: seq<string>,
                                 lang: Language, date: string, decode: string -> Option<JsonObject>,
                                 obj: JsonObject)
    requires '{' !in pre && '}' !in post
    requires |payload| >= 2 && payload[0] == '{' && payload[|payload| - 1] == '}'
    requires decode(payload) == Some(obj)
    requires |texts| == 6
    requires forall i :: 0 <= i < 6 ==> AllSections[i].Key() in obj && obj[AllSections[i].Key()] == JString(texts[i])
    ensures forall i :: 0 <= i < 6 ==>
              Recover(pre + payload + post, lang, date, decode).Get(AllSections[i]) == JString(texts[i])
  {
    var content := pre + payload + post;
    EmbeddedPayloadLocated(pre, payload, post);
    assert content[|pre|..|pre| + |payload|] == payload;
    RecoverFromDecoded(content, lang, date, decode, obj);
  }

  /** The report as the declared string type, when all six sections are strings. */
  function AsText(r: Report<JsonValue>): (t: Option<AppraisalReport>)
    ensures t.Some? <==> forall s :: r.Get(s).JString?
    ensures t.Some? ==> t.value.appraiser == r.appraiser
    ensures t.Some? ==> forall s :: r.Get(s) == JString(t.value.Get(s))
  {
    if r.propertyDetails.JString? && r.appraisalPurpose.JString? && r.appraisalMethod.JString?
       && r.marketAnalysis.JString? && r.valueEstimation.JString? && r.conclusions.JString?
    then Some(Report(r.propertyDetails.s, r.appraisalPurpose.s, r.appraisalMethod.s,
                     r.marketAnalysis.s, r.valueEstimation.s, r.conclusions.s, r.appraiser))
    else
      assert !r.Get(DetailsSection).JString? || !r.Get(PurposeSection).JString?
          || !r.Get(MethodSection).JString? || !r.Get(MarketSection).JString?
          || !r.Get(ValueSection).JString? || !r.Get(ConclusionsSection).JString?;
      None
  }

  /** Each of the six members is absent, falsy or a string. */
  ghost predicate SectionsAreStrings(obj: JsonObject) {
    forall s: Section :: s.Key() in obj ==> obj[s.Key()].JString? || !Truthy(obj[s.Key()])
  }

  /** The report is all strings on the fallback path, and on the decoded path whenever the
      decoded object's section members are strings (or falsy). */
  lemma RecoverYieldsText(content: string, lang: Language, date: string, decode: string -> Option<JsonObject>)
    requires Decoded(content, decode).Some? ==> SectionsAreStrings(Decoded(content, decode).value)
    ensures AsText(Recover(content, lang, date, decode)).Some?
  {
    var r := Recover(content, lang, date, decode);
    match Decoded(content, decode)
    case None =>
    case Some(obj) =>
      forall s ensures r.Get(s).JString? {
        RecoverFromDecoded(content, lang, date, decode, obj);
      }
  }

  /** `v || ''` lets a truthy non-string through: a numeric `valueEstimation` stays a number,
      so the report is not all strings. */
  lemma TruthyNumberPassesThrough(lang: Language, date: string)
    ensures var decode := (s: string) => Some(map["valueEstimation" := JNumber(5.0)]);
            var r := Recover("{}", lang, date, decode);
            r.valueEstimation == JNumber(5.0) && AsText(r).None?
  {
    var decode := (s: string) => Some(map["valueEstimation" := JNumber(5.0)]);
    assert "{}"[0] == '{' && "{}"[1] == '}';
    assert LocateSpan("{}").Some?;
  }
}
