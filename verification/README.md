# Property appraisal wizard: a Dafny model

This project models the core of a bilingual (Greek/English) property-appraisal web app. A
four-step wizard collects facts about a property: its type, then its details, then the purpose
of the appraisal. The app turns those facts into a prompt for a chat-completion model, which
is asked to return six report sections as JSON. It then recovers a report from the model's
free-text answer, whether or not that answer is clean JSON. On the report screen the user can
edit any section and export the result as a PDF.

Modules, each in its own file and following the source files:

- `Wrappers` (wrappers.dfy): `Option` and `Result`.
- `Text` (text.dfy): `indexOf`/`lastIndexOf` with their `-1` convention, `join`, indented rows
  of a template literal, and decimal rendering of integers.
- `Types` (types.dfy, after src/types/index.ts): the closed string unions, the property record,
  the field and section keys, and the generic `Report<T>`.
- `Translations` (translations.dfy, after src/data/translations.ts): the five lookup tables and
  the shared lookup-with-placeholder rule.
- `Labels` (labels.dfy): the captions that ai.ts and pdf.ts write inline, proved equal to the UI
  table, and the six section titles.
- `Json` (json.dfy): JSON values and JavaScript truthiness, for `value || ''`.
- `Ai` (ai.dfy, after src/utils/ai.ts): the facts block, the prompt, the request, the brace-span
  scan, the recovery of a report, and `generateAppraisalReport`.
- `Details` (property_details.dfy, after src/components/PropertyDetails.tsx): building/land
  classification, the offered features, and the feature-checkbox toggle.
- `Form` (property_form.dfy, after src/components/PropertyForm.tsx): wizard state, partial
  updates with the type-change reset, validation, navigation, and the generation handler.
- `Editor` (report_editor.dfy, after src/components/AIAppraisalReport.tsx): section editing,
  the report screen and export.
- `Pdf` (pdf.dfy, after src/utils/pdf.ts): table rows, section blocks, page layout, footers and
  file name.
- `Steps` (step_indicator.dfy, after src/components/FormStepIndicator.tsx): markers, labels and
  connectors.

Several things outside the program become parameters:

- The network is a function `server: Request -> Reply`.
- `JSON.parse` is an abstract decoder `decode: string -> Option<map<string, JsonValue>>`.
- The formatted current date is a `date` string.
- The current year is an integer.
- What the PDF library measures is passed in: pages used by the table, where the table ends,
  and the wrapped line count of each section.

## Model

| member | source | states |
|---|---|---|
| Text.IndexOf | src/utils/ai.ts:132 | `indexOf('{')` is -1 exactly when the character is absent; otherwise it is the position of its first occurrence |
| Text.LastIndexOf | src/utils/ai.ts:133 | `lastIndexOf('}')` is -1 exactly when absent; otherwise it is the position of the last occurrence |
| Text.JoinEmptyIff | src/utils/ai.ts:30-32 | joining non-empty names with ", " is empty exactly when there are no names |
| Text.Join | src/utils/ai.ts:30-32 | `join` of one part is that part, and a join of several starts with the first part followed by the separator |
| Text.RowsAt | src/utils/ai.ts:35-61 | each line of a template block sits on its own indented row, after the rows of the lines before it and before the rows of the lines after it |
| Text.NatText | src/utils/pdf.ts:88 | the decimal text of a number is a non-empty run of digits without a leading zero |
| Text.DecimalText | src/utils/ai.ts:40 | `${n}` of an integer is non-empty and starts with '-' exactly for negatives |
| Text.NatTextRoundTrip | src/utils/pdf.ts:202 | reading back the digits of a rendered page number gives the number |
| Text.NatTextInjective | src/utils/pdf.ts:202 | different numbers render differently |
| Text.DecimalTextInjective | src/utils/ai.ts:40 | different integers render differently |
| Types.LanguageValues | src/types/index.ts:1 | there are exactly two languages, each listed once, with different codes |
| Types.SmallUnionValues | src/types/index.ts:3-25 | five property types, five conditions and six purposes, each listed once |
| Types.FeatureValues | src/types/index.ts:7-23 | sixteen feature tags, each listed once |
| Types.FieldValues | src/types/index.ts:27-39 | eleven property keys, each listed once |
| Types.SectionFromKey | src/components/AIAppraisalReport.tsx:49-70 | a key selects the section of that key, and selects none exactly when no section has it |
| Types.SectionKeyRoundTrip | src/components/AIAppraisalReport.tsx:49-70 | every section's key selects that section |
| Types.SectionKeyInjective | src/components/AIAppraisalReport.tsx:49-70 | different sections have different keys, so the switch's cases never overlap |
| Types.Report.With | src/components/AIAppraisalReport.tsx:47-70 | replacing one section keeps the other five and the appraiser |
| Types.ReportExtensionality | src/types/index.ts:41-54 | a report is determined by its six sections and its appraiser |
| Translations.Lookup | src/data/translations.ts:369-376 | a lookup never yields the empty string |
| Translations.LookupPlaceholderIff | src/data/translations.ts:369-412 | the result is exactly `[Missing translation: key]`, with the key verbatim, exactly when the entry is absent or its text is empty; otherwise it is the entry's text |
| Translations.DeclaredKeysTranslated | src/data/translations.ts:3-41 | every declared UI key has non-empty text in both languages, so it never shows the placeholder |
| Translations.ValueTablesTotal | src/data/translations.ts:228-367 | every type, condition, feature and purpose has non-empty text in both languages |
| Translations.AbsentConditionPlaceholder | src/utils/ai.ts:43 | an absent condition is looked up under `undefined` and prints `[Missing translation: undefined]` |
| Json.MemberOrEmpty | src/utils/ai.ts:144-149 | `obj.key \|\| ''` is the member when present and truthy, and the empty string otherwise |
| Labels.FieldKey | src/utils/pdf.ts:79-107 | each table and prompt caption belongs to the UI key named like the property key |
| Labels.CaptionsMatchTable | src/utils/pdf.ts:79-107 | every inline caption equals the UI table's text for its field key |
| Labels.WordsMatchTable | src/utils/ai.ts:40-44 | the unit and the yes/no words equal the UI table's `squareMeters`, `yes` and `no` |
| Labels.SectionTitleKey | src/utils/pdf.ts:137-144 | each report section is titled by the UI key named like the section key |
| Labels.SectionTitlesTranslated | src/utils/pdf.ts:137-144 | each section's title is the UI table's text for its key, never the placeholder |
| Labels.TitleNamesSection | src/utils/pdf.ts:137-144 | a section's title, read back, names that section and no other |
| Labels.SectionTitlesDistinct | src/components/AIAppraisalReport.tsx:111-266 | two different sections have different titles, in both languages |
| Labels.SectionTitles | src/utils/pdf.ts:137-144 | six titles, the i-th titling the i-th section in report order, pairwise different |
| Ai.FeatureNames | src/utils/ai.ts:30-32 | one non-empty translated name per feature, in list order |
| Ai.FeaturesOrNoneIff | src/utils/ai.ts:45 | the none-word for an empty feature list, and otherwise the non-empty join of the names |
| Ai.LineCaption | src/utils/ai.ts:37-47 | a facts line begins with the UI table's caption for its field, then ": " |
| Ai.FactLinesCaptioned | src/utils/ai.ts:35-61 | eleven lines; the first ten carry the fields' captions in declaration order |
| Ai.FactLinesContents | src/utils/ai.ts:41-47 | absent year and floor print `undefined`; an absent condition prints the placeholder; the permit is the table's yes/no word; features are the none-word or the join; the notes line is empty exactly for absent or empty notes |
| Ai.FactsBlock | src/utils/ai.ts:35-61 | the facts block opens with a newline and closes with the template's indentation |
| Ai.FactsBlockRows | src/utils/ai.ts:35-61 | every fact line appears verbatim in the facts block, on its own indented row, between the rows of the lines before and after it |
| Ai.BuildPrompt | src/utils/ai.ts:64-94 | the prompt is in the chosen language, embeds the facts block, and asks for the six section keys in report order |
| Ai.RequestedKeysAreSections | src/utils/ai.ts:70-77 | the prompt asks for exactly the six section keys, in report order |
| Ai.GenerateAppraisalReport | src/utils/ai.ts:14-192 | a request is sent exactly when a key is present; a missing key fails with an error whose message is "API key is missing"; the request goes to the chat-completions endpoint and carries the prompt, the bearer key, the model and 2000 tokens; a completion always yields the recovered report; an HTTP error fails with its status and body |
| Ai.OnlyTransportErrorsEscape | src/utils/ai.ts:120-192 | generation fails only for a missing key or when no completion arrives, never because of the answer's content |
| Ai.LocateSpan | src/utils/ai.ts:132-136 | a span is found exactly when some '{' precedes some '}'; it runs from the first '{' through the last '}' |
| Ai.Recover | src/utils/ai.ts:139-182 | the recovered report always carries the fixed appraiser with the given date |
| Ai.RecoverFallback | src/utils/ai.ts:157-182 | without a span, or when parsing fails, the whole answer becomes the property description and the other five sections are empty |
| Ai.RecoverFromDecoded | src/utils/ai.ts:143-149 | with a parsed object, each section is the member under its key when truthy, and '' otherwise |
| Ai.NoSectionKeysNoFallback | src/utils/ai.ts:143-149 | a parsed object with none of the six keys gives six empty sections, which differs from the fallback |
| Ai.EmbeddedPayloadLocated | src/utils/ai.ts:132-136 | commentary without '{', then a braced payload, then commentary without '}': exactly the payload is parsed |
| Ai.EmbeddedPayloadRoundTrip | src/utils/ai.ts:129-156 | six string members in a braced payload inside such commentary come back as the six sections |
| Ai.AsText | src/types/index.ts:41-54 | a recovered report has the declared all-string shape exactly when its six sections are strings, with the same texts and appraiser |
| Ai.RecoverYieldsText | src/utils/ai.ts:143-182 | when each section member is absent, falsy or a string, the report has the declared string type |
| Ai.TruthyNumberPassesThrough | src/utils/ai.ts:148 | a numeric `valueEstimation` passes through `\|\| ''` unchanged, so the report is not all strings |
| Details.BuildingIff | src/components/PropertyDetails.tsx:28-30 | a building is exactly a residence, office or store |
| Details.Vocabulary | src/components/PropertyDetails.tsx:36-49 | land is offered seven features, "other" none, and buildings the first ten features in tag order; features are shown exactly when some are offered |
| Details.VocabularyDistinct | src/components/PropertyDetails.tsx:36-49 | no offered feature is listed twice |
| Details.VocabulariesPartition | src/components/PropertyDetails.tsx:36-49 | land and building offers share only parking, and together they cover all sixteen features |
| Details.Remove | src/components/PropertyDetails.tsx:53 | the filter drops the feature and keeps every other feature present |
| Details.Toggle | src/components/PropertyDetails.tsx:51-56 | the toggle flips the feature's membership, appends an absent feature at the end, and keeps every other feature's membership |
| Details.ToggleTwice | src/components/PropertyDetails.tsx:51-56 | toggling an absent feature twice restores the list; toggling a present one twice moves it to the end |
| Details.ToggleThenRemove | src/components/PropertyDetails.tsx:51-56 | apart from the toggled feature, the list is unchanged in content and order |
| Details.ToggleStaysInVocabulary | src/components/PropertyDetails.tsx:203-208 | toggling an offered feature keeps the list within the offered set and free of repeats |
| Form.Merge | src/components/PropertyForm.tsx:100 | the update's keys overwrite their fields and every other field is kept |
| Form.MergeIdempotent | src/components/PropertyForm.tsx:100 | applying an update twice equals applying it once, and the empty update changes nothing |
| Form.UpdateData | src/components/PropertyForm.tsx:99-127 | messages of updated keys are dropped and the rest kept; switching to land or "other" clears the building fields; otherwise the data is just merged |
| Form.NonBuildingClears | src/components/PropertyForm.tsx:110-125 | choosing land or "other" clears year, floor, condition, permit and features, and keeps address, area, size, purpose and notes |
| Form.ClearBuildingFields | src/components/PropertyForm.tsx:116-124 | year, floor and condition become absent, the permit false and the features empty; every non-building field is kept |
| Form.LandFeatureSurvivesSwitch | src/components/PropertyForm.tsx:110-125 | switching from land to a residence keeps a ticked land feature that the residence checkboxes do not offer |
| Form.StepErrors | src/components/PropertyForm.tsx:44-97 | only step 1 can produce messages, each the "required field" text, one per failed check |
| Form.StepOneIff | src/components/PropertyForm.tsx:58-85 | step 1 passes exactly when address, area and a positive size are given, plus a positive year, non-empty floor and a condition for a building |
| Form.NonBuildingSkipsBuildingChecks | src/components/PropertyForm.tsx:69-80 | land and "other" never get year, floor or condition messages |
| Form.FreshFormStepOne | src/components/PropertyForm.tsx:27-39 | a fresh form fails step 1 on address, area, size and floor, not on condition, and on the year only for a non-positive year |
| Form.Initial | src/components/PropertyForm.tsx:27-39 | a fresh form is on the first step, idle, without report or messages, for a residence built in the current year, with the permit ticked and no features |
| Form.Validate | src/components/PropertyForm.tsx:44-97 | the step's messages replace all earlier ones, and the empty-field notice is raised exactly when there are messages |
| Form.Next | src/components/PropertyForm.tsx:129-133 | the step advances by one exactly when the current step validates, and stays otherwise; data and report are untouched |
| Form.Previous | src/components/PropertyForm.tsx:135-137 | going back lowers the step by one and changes nothing else |
| Form.PreviousUndoesNext | src/components/PropertyForm.tsx:129-137 | going back after an advance returns to the same state, with the messages cleared |
| Form.OtherStepsAdvance | src/components/PropertyForm.tsx:50-92 | the type and purpose steps always advance without messages or notice |
| Form.GenerateReport | src/components/PropertyForm.tsx:147-177 | without a key the notice is raised and nothing is requested; a completion stores the recovered report and moves to step 3; any failure raises the error notice and keeps step and report; the busy flag ends cleared |
| Form.NoMissingKeyThroughForm | src/components/PropertyForm.tsx:149-163 | the form checks the key first, so the generator's missing-key error never reaches it |
| Editor.StartEditing | src/components/AIAppraisalReport.tsx:34-37 | editing starts on the given key with the given text, and the report is untouched |
| Editor.EditSection | src/components/AIAppraisalReport.tsx:113 | the edit button opens the section with its current text |
| Editor.Type | src/components/AIAppraisalReport.tsx:131 | typing replaces the buffer only |
| Editor.CancelEditing | src/components/AIAppraisalReport.tsx:39-42 | cancelling ends edit mode, empties the buffer and keeps the report |
| Editor.EditingAtMostOne | src/components/AIAppraisalReport.tsx:112-135 | at most one section shows its text area |
| Editor.SaveWithoutReport | src/components/AIAppraisalReport.tsx:45 | saving without a report changes nothing, edit mode included |
| Editor.SaveReplacesSection | src/components/AIAppraisalReport.tsx:44-76 | saving replaces exactly the named section with the buffer, keeps the appraiser, and ends edit mode |
| Editor.SaveUnknownKey | src/components/AIAppraisalReport.tsx:68-74 | saving under a key that names no section keeps the report and ends edit mode |
| Editor.SaveEditing | src/components/AIAppraisalReport.tsx:44-76 | with a report, the section whose key is named gets the buffer and every other section and the appraiser are kept, and edit mode ends; without a report nothing changes |
| Editor.EditThenSaveIsIdentity | src/components/AIAppraisalReport.tsx:34-76 | opening a section and saving without typing leaves the report unchanged |
| Editor.EditTypeSave | src/components/AIAppraisalReport.tsx:34-76 | open, type, save stores the typed text in that section only |
| Editor.CancelDiscards | src/components/AIAppraisalReport.tsx:39-42 | cancelling after typing forgets the text |
| Editor.Render | src/components/AIAppraisalReport.tsx:78-296 | a spinner with the processing text while loading; nothing without a report; otherwise the current report under six pairwise different section titles |
| Editor.ScreenAndPdfAgree | src/components/AIAppraisalReport.tsx:108-296 | the report screen and the PDF's blocks show the same six titles in the same order, each over the same section text |
| Editor.ExportPdf | src/components/AIAppraisalReport.tsx:28-32 | a document is produced exactly when there is a report, from the current report |
| Pdf.TableFollowsFields | src/utils/pdf.ts:79-116 | the five row groups together are one row per shown field, in the declaration order of the fields |
| Pdf.TableRowsCaptioned | src/utils/pdf.ts:79-116 | every table row is a shown field, captioned by the UI table's text for its key |
| Pdf.TableSize | src/utils/pdf.ts:79-116 | four base rows, plus four for a building, plus features unless "other", plus purpose, plus notes when non-empty: between five and eleven rows |
| Pdf.TableBody | src/utils/pdf.ts:79-116 | the table starts with the address and the area and ends with the notes when they are non-empty, otherwise with the purpose's text; between five and eleven rows |
| Pdf.AbsentValuesBlank | src/utils/pdf.ts:88-90 | where the prompt prints `undefined`, the table prints a blank cell |
| Pdf.Blocks | src/utils/pdf.ts:137-144 | six blocks whose texts are the report's sections in report order, titled by the UI table's text for each section, no two titles alike |
| Pdf.BlockTop | src/utils/pdf.ts:149-152 | no block starts below the break line, and, from a start at or below the top margin, none starts above the top margin |
| Pdf.LayOut | src/utils/pdf.ts:147-169 | the loop places each block as the recursive layout does, breaks at most once per block, and keeps every block, from a start at or below the top margin, between the top margin and the break line |
| Pdf.FooterReadsBack | src/utils/pdf.ts:196-207 | the i-th footer reads back page number i+1 after the page word, and ends with " of <page count>" in the chosen language |
| Pdf.FootersDistinct | src/utils/pdf.ts:201-202 | different pages get different footers |
| Pdf.FileName | src/utils/pdf.ts:210 | the file name ends in `_`, the first ten characters of the ISO timestamp (its date), and `.pdf` |
| Pdf.GeneratePdf | src/utils/pdf.ts:18-212 | the document carries the localised title, the `propertyDetails` heading above the table (the same text as the first block's title), the table head, the table, the six blocks with their laid-out positions, the appraiser heading and lines, one footer per page used, and the dated file name |
| Steps.StatusOf | src/components/FormStepIndicator.tsx:31-38 | steps before the current one are completed, the current one active, later ones upcoming |
| Steps.StepLabel | src/components/FormStepIndicator.tsx:17-22 | exactly the first four steps have a label |
| Steps.StepLabelKeys | src/components/FormStepIndicator.tsx:17-22 | the label of step i is the UI table's `step<i+1>` |
| Steps.Indicator | src/components/FormStepIndicator.tsx:27-62 | one marker per step (none for a negative count); exactly the steps before the current one are completed and show a check mark, the current one is active, the others show their number; the caption of step i is the step label of i, so exactly the first four have one; all but the last have a connector |
| Steps.ExactlyOneActive | src/components/FormStepIndicator.tsx:31-38 | exactly the earlier steps are completed; one step is active exactly when the current step is in range |
| Steps.Connectors | src/components/FormStepIndicator.tsx:40-62 | every step but the last has a connector, highlighted exactly when completed; completed steps show a check mark |
| Steps.FourStepsLabelled | src/components/FormStepIndicator.tsx:17-51 | the wizard's four steps are captioned with the UI table's `step1` to `step4`, in order |

## Left out

- Network, timing and logging are not modelled. `fetch`, the `temperature` of 0.7, `Content-Type`, `console` calls and every `toast` are out. The form's toasts are kept as a `Notice` value. The toasts inside the generator and the editor's "changes saved" toast are dropped.
- `JSON.parse` is an abstract decoder. Its grammar is not modelled, only what the code does with its result or its failure.
- `response.json()` and a reply without `choices[0].message.content` are folded into the transport error.
- A non-string `content`, where `indexOf` would throw inside the inner `try`, is not modelled.
- The date is a parameter. `toLocaleDateString` and `toISOString` are not modelled.
- The prompt keeps its language, facts block and requested keys. The surrounding instruction prose is fixed text and is not reproduced.
- Numbers are whole numbers. `NaN`, fractions, `Number("")` and exponent rendering of large numbers are not modelled. The size input's `0 ? ''` display rule is presentation only.
- Ai.FeaturesOrNoneIff: does not state that a non-empty feature list never prints the none-word. That would need a case split over the translated feature texts, and those string literals are too costly for the solver.
- Text.Join: only the single-part and first-part facts are stated, not the full layout of the joined text.
- Only the content of the PDF is modelled. jsPDF fonts, colours, coordinates other than the vertical positions, and text wrapping are left out; the wrapped line counts, the table's page count and its end position are parameters.
- React scheduling is left out: the two queued updates in `handleUpdateData` are composed into one step.
- The report editor copies its report prop only on mount; that copy is not modelled.
- The editor and the PDF take the declared string report. A recovered non-string section (see Ai.TruthyNumberPassesThrough) is not carried into them.
- The presentation components are context, not core, and are not modelled: the type and purpose selectors, the API-key dialog, the language switcher, pages and app shell.
- Steps 0 and 2 of validation check a type and a purpose. Both are closed unions and always set, so those checks never fail and their error branches are unreachable in the model.
