# Psychological assessment tool: questionnaire logic in Dafny

This project models the deterministic core of a browser-only assessment tool. A practitioner
registers clients, gives them fixed questionnaires (MMSE, HADS, Zung), scores the answers and
exports a text report. The repository has two prototypes that diverged, and each has its own
modules here. They are not merged.

- `index.tsx` (React). Clients have a `fullName`, and options are label strings. It has an
  11-item MMSE and a 20-item Zung scale, and `getScore` sums and classifies the answers. It is
  modelled in `SuiteCatalog`, `SuiteRunner`, `SuiteStore` and `SuiteExport`:
  - the runner's answer array and submit guard;
  - the id-based list updates;
  - backup import;
  - the result screen's interpretation step;
  - the `handleExportTXT` text, built in a loop.
- `app.js` (plain JavaScript). Clients have a `name`, and options are `{text, score}` records.
  MMSE, HADS and Zung have five questions each, and each test has an `interpret` ladder. It is
  modelled in `VanillaCatalog`, `VanillaDb`, `VanillaReport` and `VanillaRouter`:
  - the `Storage`/`DB` layer, modelled as a `Db` class over two storage slots;
  - the `Router` class: the current screen, its parameters, and the test session that the
    answer and back buttons change in place;
  - the `downloadReport` protocol, built in a loop.

Shared helpers:
- `Wrappers` holds `Option`.
- `Ladders` holds the score ranges of a ladder.
- `Text` models JavaScript's `${n}` and `parseInt` on integers, and string concatenation of
  parts.
- `Lists` models `find`, `filter`, `some` and map-replace on arrays.

Modelling choices:
- Dates, ids and locale formatting are inputs. Formatting is a `string -> string` parameter.
- Storage is a `Slot` that is missing, malformed or holds a value.
- An undefined parameter (`this.params.clientId` when absent) is a missing map key.

Behaviour of the code that the model keeps as written:
- `index.tsx` applies the Zung ladder (<50, 50–59, 60–69, ≥70) to the raw sum (20..80). It does
  not normalise the sum to an index first, although the summary calls that sum "Индекс".
- The code does not check that an answer is one of the question's option scores: a click
  always comes from a rendered option. The model takes the index of the option clicked.
- `app.js` has no completed-session state. The last answer stores the result, resets the
  session to `{0, []}` and navigates away. `VanillaRouter.Answer` returns `Finished(answers)`,
  and `Router.ChooseOption` performs the reset.
- The only session invariant the code keeps is `answers.length == currentQuestion`, with no
  bound against the question count. That invariant is proved preserved (`Router.Valid`).
- In `app.js` the five-question MMSE scores 0..5 and always reads as severe dementia. The
  five-question Zung reads as normal, because its index is at most 25. Both are proved as stated.
- Nothing in `index.tsx` sets `isEditing` to true: its only setters (`index.tsx:504` and
  `index.tsx:588`) set it to false. The edit branch of `handleSaveClient` is therefore never
  taken in the running app. `SuiteStore.SaveClientEditsOne` and `SuiteStore.SaveClientEditMissing`
  state what that branch does when it is reached.
- `response.text` is undefined when the generation reply has no text part. The result is then
  saved without an interpretation: export stays disabled, and generation runs again the next
  time the result is shown.

## Model

| member | source | states |
|---|---|---|
| SuiteCatalog.GetScore | index.tsx:135-166 | `getScore`; its results are stated by MmseSummaryNamesBand, ZungSummaryCarriesScore, ZungSummaryNamesBand, MmseScoreRange and ZungScoreRange |
| SuiteCatalog.OptionValue | index.tsx:324-329 | the value a click records; stated by MmseOptionValueIsIndex, ZungOptionValues and ZungItemIsPermutation |
| SuiteCatalog.Total | index.tsx:136 | the `reduce` with `val \|\| fallback`; stated by TotalBounds and TotalIsSum |
| SuiteCatalog.MmseBandOf | index.tsx:137-142 | every integer score falls in exactly one MMSE band: ≥28, 24–27, 20–23, 11–19, ≤10 |
| SuiteCatalog.ZungBandOf | index.tsx:160-164 | every raw Zung sum falls in exactly one band: ≤49, 50–59, 60–69, ≥70 |
| SuiteCatalog.FindTest | index.tsx:395 | a test is found exactly for ids "mmse" and "zung", and the one found is in the catalog with that id |
| SuiteCatalog.TotalBounds | index.tsx:136 | per-answer bounds on `val \|\| fallback` add up to bounds on the `reduce` total |
| SuiteCatalog.TotalIsSum | index.tsx:136 | on all-number answers the total is their plain sum when the fallback is 0 or no answer is 0 |
| SuiteCatalog.MmseLabels | index.tsx:123-133 | every MMSE item's labels are a prefix of "0".."5" |
| SuiteCatalog.MmseLabelIsIndex | index.tsx:123-133 | MMSE option `k` is labelled with the decimal text of `k` |
| SuiteCatalog.MmseOptionValueIsIndex | index.tsx:325-326 | choosing MMSE option `k` records `parseInt` of its label, which is exactly `k` |
| SuiteCatalog.MmseMaxima | index.tsx:123-133 | each item's highest value is its last label, and they sum to 30 |
| SuiteCatalog.MmseScoreRange | index.tsx:135-136 | a completed MMSE scores between 0 and 30 |
| SuiteCatalog.ZungOptionValues | index.tsx:150-157 | item i is reverse-keyed exactly for i+1 ∈ {2,5,6,11,12,14,16,17,18,20}; option k is worth 4−k when reversed and k+1 otherwise |
| SuiteCatalog.ZungItemIsPermutation | index.tsx:328 | the four options of every Zung item carry the values 1..4, each once |
| SuiteCatalog.ZungScoreRange | index.tsx:158-159 | a completed Zung scale sums to between 20 and 80 |
| SuiteCatalog.ZungSummaryCarriesScore | index.tsx:165 | under the Zung rule the summary opens with "Индекс: ", and the score parses back right after it |
| SuiteCatalog.ZungSummaryNamesBand | index.tsx:158-165 | under the Zung rule the score is the total with falsy entries counted as 1, and the summary ends with ". " and the text of the band containing it |
| SuiteCatalog.MmseSummaryNamesBand | index.tsx:135-143 | the MMSE score is the total with falsy entries counted as 0, and its summary is the text of the band containing it |
| SuiteRunner.InitialAnswers | index.tsx:288 | one null slot per question |
| SuiteRunner.HandleAnswer | index.tsx:290-294 | the answer array keeps its length, slot qIndex gets the value, and every other slot is unchanged |
| SuiteRunner.SubmitEnabled | index.tsx:345 | submitting is enabled iff no slot is null |
| SuiteRunner.ApplyPicksFills | index.tsx:288-294 | after a run of clicks a slot is filled iff it was filled before or was clicked |
| SuiteRunner.SubmitEnabledIffAllClicked | index.tsx:345 | from the all-null start, submitting is enabled iff every question was clicked |
| SuiteRunner.Submit | index.tsx:296-308 | a record exists iff submitting is enabled; it carries the client, test id and name, the date, the answers and `getScore`'s score |
| SuiteRunner.StoredScoreIsRecomputed | index.tsx:355-356 | the result screen's `getScore` of the stored answers gives back the stored score |
| SuiteRunner.SubmittedAnswersComplete | index.tsx:323-337 | once submitting is enabled, every answer is the value of one of its question's options |
| SuiteRunner.ApplyPicksChoosesOptions | index.tsx:323-337 | every filled slot holds the value of some option of its question |
| SuiteRunner.SubmittedMmseScoreRange | index.tsx:135-136 | clicks that enable submitting the MMSE give a score in 0..30 |
| SuiteRunner.SubmittedZungScoreRange | index.tsx:158-159 | clicks that enable submitting the Zung scale give a score in 20..80 |
| SuiteStore.SaveClient | index.tsx:497-502 | editing replaces each client with the saved one's id and keeps order and length; otherwise the client is appended |
| SuiteStore.SaveClientEditsOne | index.tsx:499 | with unique ids, editing the client stored at k changes position k only and keeps ids unique |
| SuiteStore.SaveClientEditMissing | index.tsx:499 | editing a client whose id is not stored leaves the list unchanged |
| SuiteStore.SaveClientNewKeepsIdsUnique | index.tsx:501 | appending a client with a fresh id keeps ids unique |
| SuiteStore.FinishTest | index.tsx:507-509 | the submitted data, with its new id and no interpretation, goes after the unchanged earlier results |
| SuiteStore.UpdateResult | index.tsx:514-516 | each result with the updated one's id is replaced, and the others and the length stay |
| SuiteStore.UpdateResultChangesOne | index.tsx:515 | with unique ids, updating the result stored at k changes position k only |
| SuiteStore.ClientResults | index.tsx:572 | the filter before sorting holds exactly the stored results with that client id |
| Lists.SortKeepsTies | index.tsx:572 | the sort by date is stable: for every key value, the elements with that key keep their order from the filtered list |
| SuiteStore.ClientScreen | index.tsx:572 | the client detail list is the client's filtered results rearranged (same multiset), newest first by the date key |
| SuiteStore.FinishTestShowsUnderClient | index.tsx:509 | before sorting, a finished test joins the end of its own client's filtered list, and every other client's filtered list is unchanged |
| SuiteStore.FinishTestOnClientScreen | index.tsx:507-509 | on the client detail screen a finished test is shown once more for its own client, and every other client's screen is unchanged |
| SuiteStore.FinishTestShowsFirst | index.tsx:572 | a finished test dated after every stored result is shown first, above the client's earlier results in their old order |
| SuiteStore.Interpreted | index.tsx:379-385 | only the interpretation changes; it becomes the reply's text (possibly undefined), or a non-empty error message on failure |
| SuiteStore.InterpretationUpdate | index.tsx:360-385 | generation runs iff the interpretation is missing or empty and an API key is set; the update changes only the interpretation, which is set iff the call failed or the reply had text |
| SuiteStore.TextlessReplyRetries | index.tsx:358-392 | a reply without text saves no interpretation, so generation runs again when the result is shown next |
| SuiteStore.InterpretationIsStored | index.tsx:385-387 | saving the interpreted result replaces exactly that result, which has an interpretation iff the call failed or the reply had text |
| SuiteStore.ImportData | index.tsx:535-559 | both lists are replaced only when both fields are arrays and the user confirms; otherwise the store is untouched, with an error alert for bad JSON or a bad format |
| SuiteStore.ExportImportRoundTrip | index.tsx:519-523 | importing an exported backup (confirmed) restores both lists exactly |
| SuiteExport.InterpretationText | index.tsx:406 | the interpretation when it is present and non-empty, otherwise "Нет данных." |
| SuiteExport.AnswerText | index.tsx:410-412 | `${answers[i]}` parses back to the answer; past the end, "undefined" does not parse |
| SuiteExport.Blocks | index.tsx:409-413 | one block per question, in order, each for its question and index |
| SuiteExport.ExportText | index.tsx:397-413 | the report's definition; its layout is stated by ReportStartsWithLines, ExportShowsScore, ExportShowsSummary, ExportShowsInterpretation, ReportBlockAt and AnswerReadsBack |
| SuiteExport.ExportTxt | index.tsx:394-413 | the text is the report of the result under its own test, with the formatted date |
| SuiteExport.WriteReport | index.tsx:397-413 | the loop produces the header followed by every question block in order |
| SuiteExport.ReportStartsWithLines | index.tsx:397-402 | the report opens with the header lines |
| SuiteExport.HeaderLinesOpenWithTitle | index.tsx:397-398 | the header opens with the title and the 41-character rule |
| SuiteExport.ReportShowsScore | index.tsx:403 | the score label follows the header lines, and the score parses back right after it |
| SuiteExport.ExportShowsScore | index.tsx:403 | the exported result's score parses back from its report after the score label |
| SuiteExport.AfterScoreSummary | index.tsx:403-404 | in the text after the score, the summary follows "Заключение по шкале: " |
| SuiteExport.AfterScoreInterpretation | index.tsx:404-408 | in the text after the score, the interpretation text follows the AI heading |
| SuiteExport.ReportShowsSummary | index.tsx:404 | in the report the scale's summary follows its label |
| SuiteExport.ReportShowsInterpretation | index.tsx:405-406 | in the report the interpretation, or "Нет данных.", follows the AI heading |
| SuiteExport.ExportShowsSummary | index.tsx:404 | the exported report carries the scale's summary right after "Заключение по шкале: " |
| SuiteExport.ExportShowsInterpretation | index.tsx:405-406 | the exported report carries the interpretation, or "Нет данных.", right under the AI heading |
| SuiteExport.ExportAfterGeneration | index.tsx:429 | after generation, export is enabled iff the call failed or the reply had a non-empty text |
| SuiteExport.ReportBlockAt | index.tsx:409-413 | block i appears whole, right after the header and the blocks before it |
| SuiteExport.AnswerReadsBack | index.tsx:410-412 | question i's block opens with its line; the answer parses back after "Ответ (балл): ", or does not parse when missing |
| VanillaCatalog.Interpret | app.js:108-230 | each test's `interpret`; stated by MmseAlwaysSevere, HadsBandsReachable, ZungAlwaysNormal and ZungTextCarriesIndex |
| VanillaCatalog.ZungText | app.js:224-230 | the Zung conclusion; stated by ZungTextCarriesIndex and ZungAlwaysNormal |
| Lists.Sum | app.js:324 | the `reduce` sum of the answers; stated by SumBounds and PickedTotalBounds |
| VanillaCatalog.MmseBandOf | app.js:108-114 | every integer score falls in exactly one band: ≥28, 24–27, 20–23, 11–19, ≤10 |
| VanillaCatalog.HadsBandOf | app.js:167-171 | every integer score falls in exactly one band: ≤7, 8–10, ≥11 |
| VanillaCatalog.Frequencies | app.js:180-185 | the four frequency options are scored 1, 2, 3, 4 in the order listed |
| VanillaCatalog.ZungIndex | app.js:225 | the index is the integer nearest to score·100/80, halves rounded up |
| VanillaCatalog.ZungBandOf | app.js:226-229 | every index falls in exactly one band: ≤49, 50–59, 60–69, ≥70 |
| VanillaCatalog.TestById | app.js:311 | a test exists exactly for the keys "mmse", "hads" and "zung", with that id |
| Lists.SumBounds | app.js:324 | per-answer bounds lo..hi give a total between n·lo and n·hi |
| VanillaCatalog.PickedTotalBounds | app.js:324 | with option scores in lo..hi, a completed test totals between n·lo and n·hi |
| VanillaCatalog.MmseOptionScores | app.js:71-107 | every MMSE option scores 0 or 1 |
| VanillaCatalog.HadsOptionScores | app.js:120-166 | every HADS option scores 0..3 |
| VanillaCatalog.ZungOptionScores | app.js:177-223 | every Zung option scores 1..4 |
| VanillaCatalog.MmseAlwaysSevere | app.js:71-114 | every completed MMSE totals 0..5 and is interpreted as severe dementia |
| VanillaCatalog.HadsTotalRange | app.js:120-166 | every completed HADS totals 0..15 |
| VanillaCatalog.HadsBandsReachable | app.js:167-171 | each of the three HADS conclusions is reached by some set of answers |
| VanillaCatalog.ZungAlwaysNormal | app.js:177-230 | every completed Zung totals 5..20, its index is 6..25, and it reads as normal |
| VanillaCatalog.ZungTextCarriesIndex | app.js:226-229 | the conclusion opens with its band's text, and the index parses back right after it |
| VanillaCatalog.ZungIndexMonotone | app.js:225 | a higher total never gives a lower index |
| VanillaDb.Get | app.js:4-11 | the stored value, or the default when the key is missing or malformed |
| VanillaDb.ResultsOf | app.js:51-53 | a client's results are exactly the stored results with that client id |
| VanillaDb.ResultsOfAppend | app.js:45-53 | appending a result extends its client's list at the end and no other client's list |
| VanillaDb.Db.AddClient | app.js:31-35 | the client goes at the end, the earlier ones and the results stay, and looking up its id finds it unless that id was already stored |
| VanillaDb.Db.AddResult | app.js:45-49 | the result goes at the end, the clients stay, and it is appended to its client's list only |
| VanillaDb.Db.ClientResults | app.js:51-53 | `DB.getClientResults`: the stored results with the client's id, in stored order; stated by ResultsOf and ResultsOfAppend |
| VanillaDb.Db.GetClient | app.js:55-57 | nothing iff no client has the id; otherwise the first client with it |
| Lists.Repeat | app.js:380 | `'='.repeat(n)` is n copies of the character |
| VanillaReport.Rule | app.js:380 | the separator is 60 `=` characters |
| VanillaDb.FirstWithId | app.js:59-61 | `DB.getResult` (which `Db.GetResult` applies to the stored results, and `downloadReport` calls per id): nothing iff no stored result has the id; otherwise the first stored result with it |
| VanillaReport.Selected | app.js:377 | the selection never holds more results than there are selected ids |
| VanillaReport.SelectedFromStore | app.js:377 | every selected result is a stored result whose id was selected |
| VanillaReport.SelectedLength | app.js:377 | when every selected id is stored, there is exactly one result per id |
| VanillaReport.SelectedAppend | app.js:377 | selecting more ids appends their results after those already selected |
| VanillaReport.SelectedKeepsOrder | app.js:377 | when every id is stored, there is one result per id, in selection order, each the first stored result with that id |
| VanillaReport.Head | app.js:379-384 | the protocol header; stated by HeadNamesClient, HeadShowsDates and ProtocolOpensWithHead |
| VanillaReport.Section | app.js:386-393 | one result's section; stated by SectionShowsScore, SectionShowsDescription, SectionShowsDate and SectionShowsInterpretation |
| VanillaReport.Sections | app.js:386-394 | one section per result, in order, each for that result's test |
| VanillaReport.BuildReport | app.js:379-394 | the loop produces the header followed by every result's section in order |
| VanillaReport.SectionAt | app.js:386-394 | section i appears whole, right after the header and the sections before it |
| VanillaReport.ProtocolOpensWithHead | app.js:379-384 | the protocol opens with its header |
| VanillaReport.HeadNamesClient | app.js:379-381 | the header opens with the title, and the client's name follows "Клиент: " |
| VanillaReport.SectionShowsDescription | app.js:389 | the test's description is the section's second line, whole |
| VanillaReport.HeadShowsDates | app.js:382-383 | the birth date follows "Дата рождения: " and the examination date follows "Дата обследования: ", each whole |
| VanillaReport.SectionShowsDate | app.js:390 | the result's date follows "Дата проведения: " on the line after the description, whole |
| VanillaReport.SectionShowsInterpretation | app.js:392 | the stored interpretation appears whole under "ИНТЕРПРЕТАЦИЯ:", right after the score |
| VanillaReport.SectionShowsScore | app.js:388-391 | a section opens with the test name, and the score parses back after "Итоговый балл: " |
| VanillaRouter.ViewFor | app.js:246-281 | each known screen id selects its view; null and unknown ids show the home screen |
| VanillaRouter.ScreenNamesDistinct | app.js:246-281 | different views have different screen ids |
| VanillaRouter.Answer | app.js:316-336 | the score is pushed after the earlier answers; the test finishes iff this was the last question, otherwise the index advances, keeping one answer per question passed |
| VanillaRouter.Back | app.js:345-352 | cancels iff at the first question; otherwise goes back one question and drops the last answer, keeping the invariant |
| VanillaRouter.BackUndoesAnswer | app.js:344-348 | going back right after a non-final answer restores the session before it |
| VanillaRouter.ReplayAdvances | app.js:314-321 | fewer clicks than questions, from a fresh session, leave it at the next question holding exactly those answers |
| VanillaRouter.ReplayFinishes | app.js:319-336 | one click per question from a fresh session finishes with exactly those answers, in order |
| VanillaRouter.RewindKeepsPrefix | app.js:344-352 | k ≤ q backs return to question q−k with the first q−k answers; one more cancels |
| VanillaRouter.ClientParams | app.js:351 | the new parameters hold the client id when there is one, and nothing otherwise |
| VanillaRouter.ReportOutcomeOf | app.js:360-394 | an alert iff the selection is empty; an error iff the client or a selected result's test is unknown; otherwise the protocol of the selected results |
| VanillaRouter.ProduceReport | app.js:360-394 | the outcome of a selection is that of `ReportOutcomeOf`, the protocol text being built by the loop |
| VanillaRouter.Router.constructor | app.js:670 | the app starts on the home screen, with no parameters and a fresh session |
| VanillaRouter.Router.Navigate | app.js:240-244 | screen and parameters are both replaced whatever they were, and the session stays |
| VanillaRouter.Router.SubmitNewClient | app.js:288-300 | the client is appended to `DB`, the results stay, and the client list is shown |
| VanillaRouter.Router.ChooseOption | app.js:314-337 | the parsed `data-score` is the option's score; the session advances, or the result is stored with the sum, a copy of the answers and `interpret(sum)`, then the session resets and the client's results show; the invariant holds, and under it a stored result has one answer per question |
| VanillaRouter.Router.Record | app.js:317-336 | pushing a score advances the session, or stores the result at the end of the client's results and resets; the invariant holds, and under it the stored answers number the questions passed plus one |
| VanillaRouter.Router.BackButton | app.js:344-353 | a step back within the test, or a reset session and the test choice for the same client; the invariant holds |
| VanillaRouter.Router.SubmitReport | app.js:360-405 | the outcome is that of the selection, the client and the stored selected results; only a download navigates to the client's results |
| Text.ParseIntOfIntToString | app.js:316 | `parseInt` of a number's `${}` text, followed by a non-digit or nothing, gives the number back |

## Left out

- `sw.js` is not part of this model. It is a service worker over the Cache API and the network.
- React components, JSX and the HTML screen templates are not modelled. Only the values they
  read are modelled, such as the selected view and the parameters.
- `render` and the `setTimeout` re-attachment of listeners are left out. While the 300 ms delay
  runs, a second click on the same screen would push a second answer; timing is not modelled.
- The Gemini call is an outside service. Its reply is an input that is either the text or a
  failure message. The default text 'Не удалось сгенерировать интерпретацию.' is always
  overwritten before it is used, so it is not modelled.
- These are left out because they are input and output:
  - `localStorage`;
  - `JSON.parse`/`stringify`;
  - `Storage.set` failures, which are only logged;
  - Blob, URL and anchor downloads, and the download file names;
  - `FileReader`;
  - `window.confirm` and `alert`.
  A confirmation is an input, and an alert is an output value.
- `Date.now()` ids and `new Date()`/`toLocale*String` formatting are opaque inputs.
- `VanillaCatalog.ZungIndex`: `Math.round(score/80*100)` is computed in exact arithmetic as
  `(5·score+2) div 4`. Floating-point rounding at .5 boundaries is not modelled.
- `VanillaDb.Get`: a stored value that parses but is not an array is not modelled.
- `Text.ParseInt` reads an optional '-' or '+' and decimal digits. Leading whitespace, other
  radixes and `NaN` as a number are not modelled. A non-number is `None`.
- `SuiteStore.ImportData`: the code only checks that both fields are arrays (`Array.isArray`), not
  what the items are. The model types the items as clients and results, so a backup whose arrays
  hold other JSON values is not modelled. A file whose JSON is `null` raises a `TypeError`, not
  the format error; the model covers it only as an `Unparsable` file carrying that message.
- `SuiteStore.ClientScreen`: `new Date(date).getTime()` is an integer-valued input `dateKey`. An
  unparsable date (`NaN`, which makes the comparator inconsistent) is not modelled.
- `SuiteStore.InterpretationIsStored`: the save goes through the `handleUpdateResult` captured
  when the result screen first rendered, which maps over the `results` of that render. If
  another result is saved or a test is finished while the reply is pending, the later save
  overwrites that change with the older list. The model always applies the save to the list it
  is given, so this lost update is not captured.
- `VanillaRouter.Router.ChooseOption` requires `clientId` and `testId` in the parameters, a
  known test, a question index in range and an option that exists. The test screen is only
  reached with both ids, and it renders only the current question's options.
- `VanillaRouter.Router.SubmitReport`: a thrown `TypeError` is the `Failed` outcome. It
  happens when the client or a selected result's test is unknown. The partial text is lost,
  and nothing navigates.
- Lookups in the `TESTS` object by keys of `Object.prototype` (`"toString"` and so on) are not
  modelled. They are treated as unknown tests.
- `index.tsx`'s API-key modal, the client form and the screen switching are UI and are not
  modelled.
