# prompt-tester, modelled in Dafny

prompt-tester is a browser application for trying one prompt against several
language models. A *test case* holds a system prompt, a user prompt, an
optional source text and the expected answer. The user picks models, runs the
test case against each of them through the OpenRouter chat-completions API,
reads every model's answer beside the expected one (with a line diff and a
similarity score), grades the answers by hand or with a judge model, and
exports everything as CSV or as an Excel workbook. Test cases, results, grades
and settings live in an IndexedDB database; the running state lives in a Redux
store made of slices.

This project models that core:

| file | module | what it models |
|---|---|---|
| common.dfy | Common | Option/Result, JavaScript truthiness, `split`/`join`, integer-to-text |
| domain.dfy | Domain | the records the application passes around (test case, execution result, grade, notification, model) |
| nested_map.dfy | NestedMap | the `{[testCaseId]: {[modelId]: value}}` maps of the results slice |
| diff.dfy | Diff | `calculateDiff` and `formatDiffForDisplay` |
| database.dfy | Database | the IndexedDB repository: stores, keys, the cascading delete |
| invocation.dfy | Invocation | the OpenRouter client: request building, response decoding, translation, round-trip runs, grading prompts |
| results_store.dfy | ResultsStore | the results slice: reducers and the thunks' outcome |
| test_cases.dfy | TestCases | the test-cases slice |
| model_lists.dfy | ModelLists | the models, grading-model and translation-model slices |
| ui.dfy | Ui | the ui slice: theme, language, run options, active tab, results filters, notifications |
| store_setup.dfy | StoreSetup | the root store's registered slices and the settings panel's first render |
| app.dfy | App | the start-up sequence of the top-level component and its theme and language toggles |
| dashboard.dfy | Dashboard | the results dashboard: tested models, filters, cell status and colours, deleting results |
| result_viewer.dfy | ResultViewer | the result viewer's own line-by-line comparison on its Diff View tab |
| model_selector.dfy | ModelSelector | the reusable model picker: search, grouping, expand/collapse, selection |
| selection_sync.dfy | SelectionSync | the settings panel and the thin model selector wrapper that keep selections in step |
| test_editor.dfy | TestEditor | the test-case editor: form state, save, new, delete, run |
| grading_dialog.dfy | GradingDialog | the grading dialog and its submit sequence |
| export.dfy | Export | CSV and Excel export |
| proxy.dfy | Proxy | the development server's rewrite of `/api/local` requests |

Stateful parts of the source (the database, each store slice, each component's
local state) are Dafny classes whose methods state their whole new state with
`old`; the pure parts (diffs, request building, cell formatting, filtering) are
functions with lemmas about them. Where the source loops, the model has a
method with the same loop, proved against a function that specifies it; the
one exception is the summary sheet's `Object.keys(...).forEach`
(src/utils/exportUtils.js:72-81), which only fills an object and is modelled
as a map comprehension in `Export.SummaryRowOf`. A handler that touches the
ui slice states the slice's whole new value through `Ui.UiState.View`.

## Model

| member | source | states |
|---|---|---|
| Diff.CalculateDiff | src/utils/diffUtils.js:1-41 | no diff exactly when either text is falsy (null or empty); otherwise the diff is the line-by-line comparison `DiffOf` the loop computes |
| Diff.ScanPartition | src/utils/diffUtils.js:16-36 | every compared line index lands in exactly one of matches, removed, added, modified |
| Diff.ScanRemovedSound | src/utils/diffUtils.js:25-26 | every removed entry is a line present only in the expected text, with its content |
| Diff.ScanRemovedComplete | src/utils/diffUtils.js:25-26 | every line present only in the expected text is reported as removed |
| Diff.ScanAddedSound | src/utils/diffUtils.js:27-28 | every added entry is a line present only in the actual text, with its content |
| Diff.ScanAddedComplete | src/utils/diffUtils.js:27-28 | every line present only in the actual text is reported as added |
| Diff.ScanModifiedSound | src/utils/diffUtils.js:29-34 | every modified entry is a compared line that is neither equal nor a pure removal or addition, with both sides as read (either may be missing) |
| Diff.ScanModifiedComplete | src/utils/diffUtils.js:29-34 | every line where both sides are truthy and differ is reported as modified |
| Diff.ScanEntries | src/utils/diffUtils.js:19-36 | the three buckets are sound and complete together |
| Diff.RemovedAndAddedLines | src/utils/diffUtils.js:25-28 | a line only in the expected text is in `removed`, a line only in the actual text is in `added` |
| Diff.MatchesAtMost | src/utils/diffUtils.js:17-24 | matches never exceed the lines compared, and equal them exactly when every line is the same |
| Diff.SimilarityRange | src/utils/diffUtils.js:38 | similarity lies in 0..100 and is 100 exactly when all lines match |
| Diff.SimilarityBounds | src/utils/diffUtils.js:38 | the similarity of any two texts lies in 0..100 |
| Diff.AllSameIffEqual | src/utils/diffUtils.js:6-24 | every line compares equal exactly when the two line lists are equal |
| Diff.SimilarityFullIffEqual | src/utils/diffUtils.js:6-38 | similarity is 100 exactly when the two texts are identical |
| Diff.ExampleModifiedLine | src/utils/diffUtils.js:29-38 | "a\nb" against "a\nX": one modified line 1 and 50% similarity |
| Diff.ExampleAddedLine | src/utils/diffUtils.js:27-28 | "a" against "a\nb": one added line 1 and 50% similarity |
| Diff.FormatDiffForDisplay | src/utils/diffUtils.js:43-78 | no diff gives no lines; otherwise the removed, added and modified parts, one-based, stably sorted by line number |
| Diff.InsertPermutes | src/utils/diffUtils.js:77 | one insertion step of the sort keeps the same elements |
| Diff.InsertKeepsSorted | src/utils/diffUtils.js:77 | one insertion step keeps the list ordered by line number |
| Diff.InsertOnLine | src/utils/diffUtils.js:77 | insertion puts the new line before the equal-numbered ones; the sort inserts the head last, so this makes `SortByLine` stable |
| Diff.SortByLineFacts | src/utils/diffUtils.js:77 | the sort is a permutation, ordered by line number, and keeps the relative order of lines with the same number |
| Diff.PartLengths | src/utils/diffUtils.js:48-75 | removed and added give one display line each, modified gives two |
| Diff.RemovedPartLength | src/utils/diffUtils.js:48-54 | removed entry i becomes a `- ` line at its one-based line number |
| Diff.AddedPartLength | src/utils/diffUtils.js:56-62 | added entry i becomes a `+ ` line at its one-based line number |
| Diff.ModifiedPartLength | src/utils/diffUtils.js:64-75 | each modified entry becomes two display lines |
| Diff.FormatFacts | src/utils/diffUtils.js:43-78 | the display has one line per part line, sorted, a permutation of the parts, stable per line number |
| Diff.FormatKeepsEntries | src/utils/diffUtils.js:48-62 | every removed and added entry appears in the display |
| Diff.ModifiedPartOnLine | src/utils/diffUtils.js:64-75 | a modified entry's line number carries its `- expected` then its `+ actual` line |
| Diff.ModifiedLineDisplay | src/utils/diffUtils.js:43-78 | in the sorted display, a modified line shows exactly `- expected` followed by `+ actual` |
| Common.SplitOn | src/utils/diffUtils.js:6-7 | `split` on a non-empty separator always yields at least one piece |
| Common.JoinSplit | src/services/openRouterService.js:272 | joining the pieces of a `split` with the same separator gives the text back |
| Common.SplitFirstHasNoSeparator | src/services/openRouterService.js:272-274 | the first piece of a `split` contains no occurrence of the separator |
| Common.SplitWithoutSeparator | src/utils/diffUtils.js:6-7 | a text without the separator splits into itself alone |
| Common.SplitAtFirst | src/services/openRouterService.js:272-275 | splitting `u + sep + rest`, where `u` has no separator, gives `u` followed by the pieces of `rest` |
| Common.PrefixOfJoin | src/services/openRouterService.js:272-274 | the first piece is a prefix of the joined text |
| Common.TrimStart | src/services/openRouterService.js:274 | the result is a suffix of the text that drops only whitespace and starts with a non-space |
| Common.TrimEnd | src/services/openRouterService.js:274 | the result is a prefix of the text that drops only whitespace and ends with a non-space |
| Common.TrimSpec | src/services/openRouterService.js:274-280 | `trim` returns a slice of the text with only whitespace cut from both ends, and neither end of a non-empty result is whitespace |
| Common.TrimIdempotent | src/services/openRouterService.js:307 | trimming twice is trimming once |
| Common.ToLower | src/services/openRouterService.js:231 | lowers the ASCII letters one by one and keeps the length; it serves the case-blind `/Score:/i` label, where matching without the `u` flag folds no non-ASCII character onto an ASCII one |
| Common.NatToString | src/utils/exportUtils.js:111 | a natural number prints as a non-empty run of decimal digits |
| Common.DigitsValueOfNatToString | src/utils/exportUtils.js:111 | reading the printed digits back gives the number (printing is injective) |
| Domain.IdsOf | src/store/modelsSlice.js:33 | the ids of a model list, one per model, in order |
| NestedMap.PutLookup | src/store/resultsSlice.js:133-153 | after `m[t][k] = v` (creating `m[t]` if missing) the pair reads `v` and every other pair reads as before |
| NestedMap.PutOverwrites | src/store/resultsSlice.js:147-153 | a second write to the same pair replaces the first |
| NestedMap.PutKeepsShape | src/store/resultsSlice.js:140-146 | a write never leaves an empty inner object behind |
| NestedMap.RemoveLookup | src/store/resultsSlice.js:154-177 | after the delete the pair is absent and every other pair reads as before |
| NestedMap.RemoveKeepsShape | src/store/resultsSlice.js:156-162 | the delete keeps inner objects non-empty, and drops the test case exactly when the model was its only key |
| NestedMap.RemoveUndoesPut | src/store/resultsSlice.js:140-162 | deleting a pair that was just added to a map without it gives the map back |
| NestedMap.DropModelLookup | src/store/resultsSlice.js:178-208 | after `deleteAllResultsForModel` the model is absent under every test case and every other pair reads as before |
| NestedMap.DropModelKeepsShape | src/store/resultsSlice.js:181-189 | inner objects stay non-empty, and a test case survives exactly when it had a key besides the model |
| NestedMap.DropAbsentModel | src/store/resultsSlice.js:182 | dropping a model that has no entry changes nothing |
| NestedMap.MergeAfterWrites | src/store/resultsSlice.js:225-232 | the fulfilled `Object.assign` of results already written one by one changes nothing |
| NestedMap.MergeLookup | src/store/resultsSlice.js:228-231 | after `Object.assign(m[t], rs)` a model in `rs` reads its new value and every other pair reads as before |
| NestedMap.AssignedKeys | src/store/resultsSlice.js:11-45 | the object the run loop builds has exactly the models it visited as keys |
| NestedMap.AssignedLastWins | src/store/resultsSlice.js:45 | a model listed twice keeps the value from its last visit |
| NestedMap.PutSeqMerge | src/store/resultsSlice.js:56-60 | writing the results one by one equals merging the built object once |
| NestedMap.PutIsMerge | src/store/resultsSlice.js:145 | one write is a merge of a one-entry object |
| NestedMap.PutAfterMerge | src/store/resultsSlice.js:145-231 | a write after a merge is a merge of the extended object |
| NestedMap.MergeTwice | src/store/resultsSlice.js:231 | merging the same object twice is merging it once |
| Database.RowsOfCase | src/services/databaseService.js:48-50 | the rows returned are exactly the stored rows of that test case, each once |
| Database.Repository.constructor | src/services/databaseService.js:3-26 | a fresh database has four empty stores |
| Database.Repository.SaveTestCase | src/services/databaseService.js:28-30 | `put` replaces the row under the test case's id and touches no other store |
| Database.Repository.DeleteTestCase | src/services/databaseService.js:36-42 | the test case goes, and with it every result and grade row of that id; settings stay |
| Database.Repository.SaveResult | src/services/databaseService.js:44-46 | `put` replaces the row under `[testCaseId+modelId]` and touches no other store |
| Database.Repository.ResultsForTestCase | src/services/databaseService.js:48-50 | exactly the result rows of the test case, each once |
| Database.Repository.SaveGrade | src/services/databaseService.js:56-62 | `put` replaces the grade row under `[testCaseId+modelId]` and touches no other store |
| Database.Repository.GradesForTestCase | src/services/databaseService.js:64-66 | exactly the grade rows of the test case, each once |
| Database.Repository.SaveSetting | src/services/databaseService.js:77-79 | the setting is written under its key; the other stores are unchanged |
| Database.Repository.GetSetting | src/services/databaseService.js:81-84 | the stored value, or nothing for a missing key |
| Database.Repository.ImportData | src/services/databaseService.js:99-111 | each store present in the bundle is bulk-put row by row (later rows win); absent stores and settings are untouched |
| Database.Repository.ClearAllData | src/services/databaseService.js:113-119 | test cases, results and grades are emptied; settings survive |
| Database.Repository.DeleteResultRow | src/components/ResultsDashboard/ResultsDashboard.jsx:104 | the one result row under the compound key goes; nothing else changes |
| Database.Repository.DeleteGradeRow | src/components/ResultsDashboard/ResultsDashboard.jsx:105 | the one grade row under the compound key goes; nothing else changes |
| Database.Repository.DeleteModelResultRows | src/components/ResultsDashboard/ResultsDashboard.jsx:138 | every result row of the model goes; nothing else changes |
| Database.Repository.DeleteModelGradeRows | src/components/ResultsDashboard/ResultsDashboard.jsx:139 | every grade row of the model goes; nothing else changes |
| Database.PutAllKeyed | src/services/databaseService.js:101-109 | a bulk put keeps every row stored under its own key |
| Database.PutAllKeepsOthers | src/services/databaseService.js:101-109 | a bulk put leaves keys it does not write as they were |
| Database.PutAllSnoc | src/services/databaseService.js:102 | a bulk put is a sequence of single puts |
| Database.PutAllLastWins | src/services/databaseService.js:102 | of two rows with the same key the later one is stored |
| Database.WithoutCaseRows | src/services/databaseService.js:39-40 | the cascade removes exactly the rows of that test case and keeps the others unchanged |
| Database.WithoutModelRows | src/components/ResultsDashboard/ResultsDashboard.jsx:138-139 | the per-model delete removes exactly that model's rows and keeps the others unchanged |
| Database.CascadeLeavesNoRows | src/services/databaseService.js:36-42 | no row of a deleted test case survives |
| Database.WithoutCaseKeyed | src/services/databaseService.js:36-42 | both deletes keep every remaining row under its own key |
| Invocation.ClientConfigFor | src/services/openRouterService.js:19-37 | the client is local exactly when self-hosting is on and a server path is stored; the base URL is `/api/local/` in development and the stored path otherwise |
| Invocation.BuildMessages | src/services/openRouterService.js:314-329 | the loop builds the message list `MessagesFor` specifies |
| Invocation.MessagesShape | src/services/openRouterService.js:314-329 | a system message comes first exactly when the system prompt is truthy; the last message is the user's, carrying the prompt, followed by `\n\nSource text:\n` and the source when one is given |
| Invocation.RunTest | src/services/openRouterService.js:122-144 | the request is the test's messages at temperature 0.7; a failed call becomes `Failed to run test with <model>: <message>`; otherwise the reply's content, its total tokens or 0, and the elapsed time |
| Invocation.TranslationRoundTrip | src/services/openRouterService.js:271-276 | a translation of the form `u` + `\nSource material:` + `s` splits back into the trimmed `u` and the trimmed `s` |
| Invocation.TranslationWithoutMarker | src/services/openRouterService.js:271-282 | a translation without the marker is all prompt, trimmed, with an empty source |
| Invocation.TranslatedPromptBeforeMarker | src/services/openRouterService.js:272-274 | with a source text, the translated prompt is the trimmed text before the first marker |
| Invocation.RunRoundTripTest | src/services/openRouterService.js:146-193 | the requests sent and the outcome are those `RoundTripRequests` and `RoundTripOutcome` give for the three replies |
| Invocation.RoundTripStopsAtFailure | src/services/openRouterService.js:149-173 | a failed step sends no later request: one, two or three calls |
| Invocation.RoundTripErrors | src/services/openRouterService.js:189-192 | the run succeeds exactly when all three calls do, and every failure is reported as `Failed to run round-trip test with <model>: ...` |
| Invocation.RoundTripSuccess | src/services/openRouterService.js:171-188 | a successful run returns the model's own answer, the trimmed back-translation, a trimmed translated prompt, the tokens of the model call alone (0 when not reported) and the elapsed time |
| Invocation.SkipSpaces | src/services/openRouterService.js:231 | `\s*`: skips exactly the whitespace run |
| Invocation.DigitRun | src/services/openRouterService.js:231 | `\d{1,3}`: takes at most three digits, greedily |
| Invocation.ScoreAt | src/services/openRouterService.js:231-232 | a match at one position yields a number of at most three digits |
| Invocation.DigitsBelow | src/services/openRouterService.js:232 | at most three digits read below 1000 |
| Invocation.FirstMatch | src/services/openRouterService.js:231 | the regular expression takes the leftmost position where `Score:` (any case), spaces and a digit occur, and there is none before it |
| Invocation.ScoreFrom | src/services/openRouterService.js:231-232 | the parsed score is between 0 and 999 |
| Invocation.AutoGradeOutcome | src/services/openRouterService.js:195-248 | a failed call rejects with `Failed to auto-grade response`; otherwise the grade is automatic, keeps the whole reply as feedback and has the parsed score |
| Invocation.ScoreOfFormattedReply | src/services/openRouterService.js:213-232 | a reply in the requested format `Score: 87` scores 87 |
| Invocation.ScoreTakesThreeDigits | src/services/openRouterService.js:231-232 | `SCORE:1234` scores 123: the match is case-blind and stops after three digits |
| Invocation.LowerLabel | src/services/openRouterService.js:231 | both spellings of the label compare equal once lowered |
| Invocation.ScoreWithoutLabel | src/services/openRouterService.js:232 | a reply with no `Score:` label scores 0 |
| Invocation.Entries | src/services/openRouterService.js:99 | one listing entry per kept file, in order |
| Invocation.LocalModels | src/services/openRouterService.js:69-103 | a reply without a model array lists nothing; otherwise the listing the loops build |
| Invocation.AddFiles | src/services/openRouterService.js:73-95 | the inner loop keeps, in order, the first file for each suggested id not seen before |
| Invocation.AddFileStep | src/services/openRouterService.js:75-94 | one file is added exactly when its suggested id is truthy and new |
| Invocation.FirstByIdSnoc | src/services/openRouterService.js:77 | the `uniqueModels.has` test: a repeated id is skipped |
| Invocation.IdSetSnoc | src/services/openRouterService.js:77-78 | the seen-id set grows by the id just kept |
| Invocation.FirstByIdDistinct | src/services/openRouterService.js:70-99 | the listing has no two entries with the same id |
| Invocation.FirstByIdIds | src/services/openRouterService.js:70-99 | every id offered appears in the listing |
| Invocation.FirstByIdKeepsFirst | src/services/openRouterService.js:77 | the first file offering an id is the one kept |
| Invocation.LocalListingFacts | src/services/openRouterService.js:70-99 | the local listing has distinct ids, context length -1 and zero prices, contains every offered id, and keeps each id's first file |
| Invocation.HostedModels | src/services/openRouterService.js:106-113 | one descriptor per hosted model, named by its name or else its id |
| Invocation.GetAvailableModels | src/services/openRouterService.js:54-120 | a local client searches `/api/models/search` with the query (default `gguf`) and limit (default 100) and returns a listing with distinct ids, and `[]` when the reply has no `models` array; a hosted one lists `/v1/models`; the outcome is an error exactly when the reply failed, and the error is `Failed to fetch available models` |
| ResultsStore.RemoveEntry | src/store/resultsSlice.js:156-162 | the in-place delete of one pair, and of its test case once empty, yields `Remove` |
| ResultsStore.DropModelLoop | src/store/resultsSlice.js:181-189 | the loop over the test-case keys yields `DropModel`: the model gone everywhere, emptied test cases dropped |
| ResultsStore.DropStep | src/store/resultsSlice.js:182-188 | one iteration handles exactly its own test case |
| ResultsStore.Store.constructor | src/store/resultsSlice.js:121-127 | the initial state: empty maps, not loading, no error |
| ResultsStore.Store.UpdateExecutionStatus | src/store/resultsSlice.js:133-139 | writes the status of one pair, creating the test case's object if missing; nothing else changes |
| ResultsStore.Store.AddSingleResult | src/store/resultsSlice.js:140-146 | writes the result of one pair; nothing else changes |
| ResultsStore.Store.AddGrade | src/store/resultsSlice.js:147-153 | writes the grade of one pair; nothing else changes |
| ResultsStore.Store.DeleteResult | src/store/resultsSlice.js:154-177 | removes the pair from results, grades and statuses, pruning emptied test cases |
| ResultsStore.Store.DeleteAllResultsForModel | src/store/resultsSlice.js:178-208 | removes the model from all three maps, pruning emptied test cases |
| ResultsStore.Store.ClearResults | src/store/resultsSlice.js:209-213 | empties the three maps |
| ResultsStore.Store.LoadResults | src/store/resultsSlice.js:214-217 | replaces results and grades by the payload's (or empty when missing); statuses stay |
| ResultsStore.Store.RunPending | src/store/resultsSlice.js:221-224 | loading, error cleared; the maps stay |
| ResultsStore.Store.RunFulfilled | src/store/resultsSlice.js:225-232 | not loading; the run's results are merged into the test case's object |
| ResultsStore.Store.RunRejected | src/store/resultsSlice.js:233-236 | not loading; the error message is kept |
| ResultsStore.Store.GradeFulfilled | src/store/resultsSlice.js:237-244 | writes the graded pair's grade; nothing else changes |
| ResultsStore.RunTestCase | src/store/resultsSlice.js:6-95 | the loop over the models writes each model's result and a completed status, saves the rows whose write succeeds, returns the object of all results, and emits five steps per model |
| ResultsStore.RunModel | src/store/resultsSlice.js:12-90 | one model: its result (completed or failed), the database row when the write succeeds, the published result and the completed status |
| ResultsStore.BuildResult | src/store/resultsSlice.js:26-43 | the result record is `ResultFor` of the call's outcome |
| ResultsStore.DispatchRunTestCase | src/store/resultsSlice.js:6-95 | the whole thunk with its pending and fulfilled reducers: not loading, no error, the returned results merged, every model completed, grades kept; the database's results table receives the rows whose writes succeeded, later rows winning, and its other tables are unchanged |
| ResultsStore.GradeResult | src/store/resultsSlice.js:97-119 | a judge request exactly for `automatic`, sent to the default model; manual grading yields the given score and comments at the current time; automatic grading fails exactly when the judge call does and otherwise yields its parsed grade |
| ResultsStore.RunTraceBlocks | src/store/resultsSlice.js:11-91 | the trace is five steps per model, in model order |
| ResultsStore.ModelBracketed | src/store/resultsSlice.js:13-90 | each model's steps are: status running, the call, the save, the publish, status completed |
| ResultsStore.ResultForCases | src/store/resultsSlice.js:26-69 | a failed call gives a failed result carrying the message; a successful one gives a completed result with the output, tokens, latency and a diff exactly when the expected result is truthy |
| ResultsStore.AttachedDiff | src/store/resultsSlice.js:38-43 | the attached diff is null exactly when the output is falsy, and its similarity is 100 exactly when the output equals the expected result |
| ResultsStore.EveryModelCompleted | src/store/resultsSlice.js:86-90 | after the run every listed model of the test case has status completed and other pairs are unchanged |
| ResultsStore.PutSeqLookup | src/store/resultsSlice.js:56-60 | after the run a listed model reads one of its results and other pairs are unchanged |
| ResultsStore.FulfilledAfterWrites | src/store/resultsSlice.js:225-232 | the fulfilled merge after the per-model writes changes nothing |
| ResultsStore.SavedRowsFacts | src/store/resultsSlice.js:48-53 | the saved rows are results of this run; none when every write fails, all when none does |
| TestCases.NewTestCase | src/store/testCasesSlice.js:19-31 | the new case has the fresh id, both timestamps at the current time, the draft's name or `New Test Case`, and each text field or the empty string |
| TestCases.FindIndex | src/store/testCasesSlice.js:35 | `find` by id: the first position with that id, or -1 exactly when no case has it |
| TestCases.FirstIdOrNull | src/store/testCasesSlice.js:43 | `testCases[0]?.id \|\| null`: the first id when there is a case and its id is non-empty, otherwise null |
| TestCases.TestCaseList.constructor | src/store/testCasesSlice.js:4-7 | no cases and no active one |
| TestCases.TestCaseList.AddTestCase | src/store/testCasesSlice.js:13-32 | appends the new case and makes it active |
| TestCases.TestCaseList.UpdateTestCase | src/store/testCasesSlice.js:33-39 | patches the first case with the id and stamps `updatedAt`; the active id stays |
| TestCases.TestCaseList.DeleteTestCase | src/store/testCasesSlice.js:40-45 | filters out every case with the id; if it was active, the first remaining id or null becomes active |
| TestCases.TestCaseList.SetActiveTestCase | src/store/testCasesSlice.js:46-48 | sets the active id; the list stays |
| TestCases.TestCaseList.LoadTestCases | src/store/testCasesSlice.js:49-52 | replaces the list and activates its first id or null |
| TestCases.UpdatedAt | src/store/testCasesSlice.js:35-38 | a found case is replaced by its patched copy at its position |
| TestCases.UpdatedAbsent | src/store/testCasesSlice.js:36 | an update for a missing id changes nothing |
| TestCases.UpdatedFacts | src/store/testCasesSlice.js:33-39 | the update keeps the length and every id, changes only the found case, and stamps it |
| TestCases.PatchedFields | src/store/testCasesSlice.js:37 | `Object.assign`: fields present in the patch win, absent ones stay, the id and `createdAt` stay, `updatedAt` is now |
| TestCases.WithoutFacts | src/store/testCasesSlice.js:41 | the filter removes exactly the cases with the id and keeps the others |
| TestCases.WithoutAppend | src/store/testCasesSlice.js:41 | the filter distributes over concatenation |
| TestCases.WithoutAbsent | src/store/testCasesSlice.js:41 | filtering a missing id changes nothing |
| TestCases.AddThenDelete | src/store/testCasesSlice.js:13-45 | deleting a case just added under a fresh id gives the list back |
| ModelLists.IndexOf | src/store/modelsSlice.js:25 | `indexOf`: the first position of the id, or -1 exactly when absent |
| ModelLists.Toggle | src/store/modelsSlice.js:23-31 | the splice-or-push toggle computes `Toggled`: remove the first occurrence if present, append otherwise |
| ModelLists.ModelsSlice.constructor | src/store/modelsSlice.js:12-17 | empty lists, not loading, no error |
| ModelLists.ModelsSlice.ToggleModelSelection | src/store/modelsSlice.js:23-31 | the selection is toggled for the id; nothing else changes |
| ModelLists.ModelsSlice.SelectAllModels | src/store/modelsSlice.js:32-34 | the selection becomes the ids of the available models, in order |
| ModelLists.ModelsSlice.DeselectAllModels | src/store/modelsSlice.js:35-37 | the selection is emptied |
| ModelLists.ModelsSlice.SetSelectedModels | src/store/modelsSlice.js:38-40 | the selection is replaced by the payload |
| ModelLists.ModelsSlice.FetchPending | src/store/modelsSlice.js:44-47 | loading, error cleared |
| ModelLists.ModelsSlice.FetchFulfilled | src/store/modelsSlice.js:48-51 | not loading; the available list is replaced |
| ModelLists.ModelsSlice.FetchRejected | src/store/modelsSlice.js:52-55 | not loading; the error message is kept |
| ModelLists.FetchAvailableModels | src/store/modelsSlice.js:4-10 | the thunk asks with the default query `gguf` and limit 100, and the slice ends holding the listing (`[]` for a local reply without models), or, exactly when the reply failed, its old list and the error `Failed to fetch available models`; the selection unchanged |
| ModelLists.PickerSlice.constructor | src/store/gradingModelSlice.js:12-17 | empty lists, not loading, no error (the grading and the identical translation slice) |
| ModelLists.PickerSlice.ToggleModelSelection | src/store/gradingModelSlice.js:23-31 | the selection is toggled for the id; nothing else changes |
| ModelLists.PickerSlice.SelectAllModels | src/store/gradingModelSlice.js:32-34 | the selection becomes the ids of the available models |
| ModelLists.PickerSlice.DeselectAllModels | src/store/gradingModelSlice.js:35-37 | the selection is emptied |
| ModelLists.PickerSlice.SetSelectedModels | src/store/gradingModelSlice.js:38-40 | the selection is replaced by the payload |
| ModelLists.PickerSlice.ClearAvailableModels | src/store/gradingModelSlice.js:41-43 | the available list is emptied; the selection stays |
| ModelLists.PickerSlice.OnToggleSelfHosted | src/store/gradingModelSlice.js:59-62 | switching self-hosting empties both the selection and the available list |
| ModelLists.PickerSlice.FetchPending | src/store/gradingModelSlice.js:47-50 | loading, error cleared |
| ModelLists.PickerSlice.FetchFulfilled | src/store/gradingModelSlice.js:51-54 | not loading; the available list is replaced |
| ModelLists.PickerSlice.FetchRejected | src/store/gradingModelSlice.js:55-58 | not loading; the error message is kept |
| ModelLists.FetchPickerModels | src/store/gradingModelSlice.js:5-10 | the thunk passes its search term and limit (defaults `gguf` and 100 when missing) and the slice ends holding the listing (`[]` for a local reply without models), or, exactly when the reply failed, its old list and the error `Failed to fetch available models`; the selection unchanged |
| ModelLists.SpliceIsRemoveFirst | src/store/modelsSlice.js:25-27 | `splice(index, 1)` at the `indexOf` position removes the first occurrence |
| ModelLists.RemoveFirstCounts | src/store/modelsSlice.js:26-27 | removal takes exactly one copy of a present id and leaves a list without it unchanged |
| ModelLists.ToggleTwiceAbsent | src/store/modelsSlice.js:23-31 | toggling an unselected id twice restores the selection |
| ModelLists.RemoveFirstAppended | src/store/modelsSlice.js:26-29 | removing the id just pushed restores the selection |
| ModelLists.ToggleKeepsDistinct | src/store/modelsSlice.js:23-31 | toggling keeps a duplicate-free selection duplicate-free, and flips exactly the id's membership |
| Ui.Assigned | src/store/uiSlice.js:48-50 | `Object.assign` on the filters: each filter given in the payload is replaced, the others stay |
| Ui.NotificationOf | src/store/uiSlice.js:51-56 | a notification gets `Date.now()` as id unless the payload brings its own, and keeps the payload's kind and message |
| Ui.UiState.constructor | src/store/uiSlice.js:3-18 | the initial ui state: light theme, English, editor tab, round trip and self-hosting off, diff view on, empty translation model, `openai/gpt-4.1` as judge, default filters, no notifications |
| Ui.UiState.SetTheme | src/store/uiSlice.js:24-26 | sets the theme; every other field stays |
| Ui.UiState.SetLanguage | src/store/uiSlice.js:27-29 | sets the language; every other field stays |
| Ui.UiState.ToggleRoundTrip | src/store/uiSlice.js:30-32 | flips the round-trip flag; every other field stays |
| Ui.UiState.ToggleSelfHosted | src/store/uiSlice.js:33-35 | flips the self-hosting flag; every other field stays |
| Ui.UiState.SetTranslationModel | src/store/uiSlice.js:36-38 | sets the translation model; every other field stays |
| Ui.UiState.SetAutoGradingModel | src/store/uiSlice.js:39-41 | sets the judge model; every other field stays |
| Ui.UiState.ToggleDiffView | src/store/uiSlice.js:42-44 | flips the diff-view flag; every other field stays |
| Ui.UiState.SetActiveTab | src/store/uiSlice.js:45-47 | sets the active tab; every other field stays |
| Ui.UiState.UpdateFilters | src/store/uiSlice.js:48-50 | merges the payload into the filters; every other field stays |
| Ui.UiState.AddNotification | src/store/uiSlice.js:51-56 | appends the notification; every other field stays |
| Ui.UiState.RemoveNotification | src/store/uiSlice.js:57-61 | filters out the notifications with the id; every other field stays |
| Ui.AssignedIdempotent | src/store/uiSlice.js:48-50 | applying the same filter patch twice is applying it once, and an empty patch changes nothing |
| Ui.WithoutNotificationFacts | src/store/uiSlice.js:57-61 | removal drops exactly the notifications with the id and keeps the rest |
| Ui.WithoutNotificationAppend | src/store/uiSlice.js:58-60 | the filter distributes over concatenation |
| Ui.WithoutAbsentNotification | src/store/uiSlice.js:58-60 | removing an id no notification has changes nothing |
| Ui.AddThenRemoveNotification | src/store/uiSlice.js:51-61 | removing a notification just added under a fresh id restores the list |
| StoreSetup.RenderSettingsPanel | src/components/SettingsPanel/SettingsPanel.jsx:44-51 | the panel renders exactly when the store holds `ui`, `modelsGrading` and `modelsTranslation`; otherwise it throws at the first missing one, in selector order |
| StoreSetup.SettingsPanelThrowsAsWired | src/store/index.js:7-14 | as written the store registers neither picker slice, so the settings panel throws at `state.modelsGrading` on its first render |
| StoreSetup.SettingsPanelRendersWhenRegistered | src/store/index.js:7-14 | with both picker slices registered the panel renders, whatever else the store holds |
| App.Group | src/App.jsx:84-96 | the `forEach` that builds `formatted[testCaseId][modelId]` computes `Grouped` of the rows |
| App.LoadPersistedData | src/App.jsx:63-116 | a failed read leaves the stores as they were and queues `Failed to load saved data from database`; otherwise the test cases are loaded when there are any, and results and grades are replaced by the grouped rows when either is non-empty; execution status, loading, error and every ui field but the notifications stay as they were |
| App.GroupedShape | src/App.jsx:84-96 | grouping never creates an empty inner object |
| App.GroupedAbsent | src/App.jsx:84-96 | a pair no row carries is absent from the grouping |
| App.GroupedLastWins | src/App.jsx:88 | of rows with the same pair, the last one read wins |
| App.TableRoundTrip | src/App.jsx:67-96 | grouping all rows of a table keyed by `[testCaseId+modelId]` gives back exactly the table's entries |
| App.NextThemeFacts | src/App.jsx:118-120 | the theme toggle yields light or dark, is its own inverse on those two, and anything but light becomes light |
| App.NextLanguageFacts | src/App.jsx:122-126 | the language toggle yields en or nl, is its own inverse on those two, and anything but en becomes en |
| Dashboard.TestedModels | src/components/ResultsDashboard/ResultsDashboard.jsx:45-53 | the tested models are exactly the model ids with a result under some test case, each listed once |
| Dashboard.FilteredTestCases | src/components/ResultsDashboard/ResultsDashboard.jsx:162-180 | a test case is shown exactly when it passes the status filter (some selected model has that status) and the score filter (some selected model has a grade at or above it); shown cases come from the list |
| Dashboard.ModelName | src/components/ResultsDashboard/ResultsDashboard.jsx:182-185 | the first available model with the id lends its name when that name is non-empty; otherwise the id itself |
| Dashboard.DeleteSingleResult | src/components/ResultsDashboard/ResultsDashboard.jsx:97-126 | after confirmation the pair's result and grade rows are deleted, the store drops the pair from results, grades and statuses and a success notice names the model; a failed delete stops there with `Failed to delete result`; without confirmation nothing changes in the database, the results slice or the ui slice; loading, error and the ui fields other than the notifications never change |
| Dashboard.DeleteModelResults | src/components/ResultsDashboard/ResultsDashboard.jsx:128-160 | after confirmation every row of the model is deleted, the store drops the model everywhere and a success notice names it; a failed delete stops there with `Failed to delete model results`; without confirmation nothing changes in the database, the results slice or the ui slice; loading, error and the ui fields other than the notifications never change |
| Dashboard.DisplayStatusValues | src/components/ResultsDashboard/ResultsDashboard.jsx:243-256 | the status shown is running, completed or pending, never an error colour; a result without a status shows as completed |
| Dashboard.FailedFilterHidesAll | src/components/ResultsDashboard/ResultsDashboard.jsx:162-168 | the `failed` status filter hides every test case, because no status is ever set to failed |
| Dashboard.OpenFiltersShowAll | src/components/ResultsDashboard/ResultsDashboard.jsx:162-180 | with status `all` and no score filter every test case is shown |
| Dashboard.NothingSelectedHidesAll | src/components/ResultsDashboard/ResultsDashboard.jsx:162-180 | with any active filter and no selected model nothing is shown |
| Dashboard.GradeColorMonotone | src/components/ResultsDashboard/ResultsDashboard.jsx:74-78 | the grade colour never gets worse as the score rises: success from 90, error below 70 |
| ResultViewer.EntriesAt | src/components/ResultsDashboard/ResultViewer.jsx:47-60 | one line index gives one or two entries, all numbered `i + 1` |
| ResultViewer.SimpleDiff | src/components/ResultsDashboard/ResultViewer.jsx:41-63 | the loop computes `SimpleDiffOf` of the two texts |
| ResultViewer.ViewerDiff | src/components/ResultsDashboard/ResultViewer.jsx:88-134 | as written: the tab throws exactly when the result has no output (a failed run), and otherwise shows the simple diff of the output |
| ResultViewer.ViewerDiffFixed | src/components/ResultsDashboard/ResultViewer.jsx:88-134 | with a missing output read as empty the tab always renders, and shows no added line |
| ResultViewer.EntriesAtCases | src/components/ResultsDashboard/ResultViewer.jsx:48-60 | equal lines (missing read as empty) give one `equal` entry; otherwise `removed` exactly for a non-empty expected line, before `added` exactly for a non-empty actual line |
| ResultViewer.SimpleUpToOrdered | src/components/ResultsDashboard/ResultViewer.jsx:44-61 | the diff has between one and two entries per line, numbered 1..n in non-decreasing order |
| ResultViewer.SimpleUpToCovers | src/components/ResultsDashboard/ResultViewer.jsx:47-61 | every line number from 1 to the longer length appears |
| ResultViewer.NothingAddedAgainstEmpty | src/components/ResultsDashboard/ResultViewer.jsx:57-59 | against an empty output no line is marked added |
| ResultViewer.NothingAddedUpTo | src/components/ResultsDashboard/ResultViewer.jsx:57-59 | when every actual line is empty no entry is added |
| ResultViewer.EmptyAgainstMissing | src/components/ResultsDashboard/ResultViewer.jsx:48-51 | the viewer treats a missing line as empty, so `a\n` against `a` is all equal here while `calculateDiff` reports line 1 as modified |
| ModelSelector.GroupedModels | src/components/ModelSelector/ModelSelectorReusable.jsx:105-114 | grouping on: the `reduce` yields `Groups` of the filtered models by provider; grouping off: a single `All Models` group |
| ModelSelector.ToggleModel | src/components/ModelSelector/ModelSelectorReusable.jsx:116-127 | nothing without a callback; single select yields just the model; multi select removes a selected model (every copy) or appends an unselected one, and leaves every other id's membership alone |
| ModelSelector.DropAll | src/components/ModelSelector/ModelSelectorReusable.jsx:121 | the filter removes every copy of the id and keeps the rest |
| ModelSelector.SelectAll | src/components/ModelSelector/ModelSelectorReusable.jsx:129-133 | only with a callback in multi select; then the ids of the filtered models |
| ModelSelector.ClearAll | src/components/ModelSelector/ModelSelectorReusable.jsx:135-138 | only with a callback; the empty list in multi select, null otherwise |
| ModelSelector.SetAllGroups | src/components/ModelSelector/ModelSelectorReusable.jsx:147-161 | expand all and collapse all set one flag per displayed group, all to the same value |
| ModelSelector.QueryRequest | src/components/ModelSelector/ModelSelectorReusable.jsx:86-90 | a query is sent exactly when there is a query callback and the trimmed term is non-empty, with the untrimmed term and the limit |
| ModelSelector.FilteredModelsFacts | src/components/ModelSelector/ModelSelectorReusable.jsx:99-103 | for any case folding `lower` (the browser's `toLowerCase` included), the search keeps, in order, exactly the models whose folded name or id contains the folded term |
| ModelSelector.IncludesEmpty | src/components/ModelSelector/ModelSelectorReusable.jsx:101 | every text includes the empty term |
| ModelSelector.EmptyTermKeepsAll | src/components/ModelSelector/ModelSelectorReusable.jsx:99-103 | an empty search shows every model, under any folding that maps the empty text to itself |
| ModelSelector.FilteredAppend | src/components/ModelSelector/ModelSelectorReusable.jsx:99-103 | the search filter distributes over concatenation, under any folding |
| ModelSelector.GroupsByProvider | src/components/ModelSelector/ModelSelectorReusable.jsx:105-113 | a provider is a group exactly when some filtered model's id starts with it, and the group holds that provider's models in order |
| ModelSelector.OfProviderMembers | src/components/ModelSelector/ModelSelectorReusable.jsx:107-111 | a group holds exactly the models of its provider |
| ModelSelector.FirstToggleKeepsExpanded | src/components/ModelSelector/ModelSelectorReusable.jsx:140-145 | as written: a group never toggled is shown expanded, and its first toggle stores `true`, so it stays expanded; only the second toggle collapses it |
| ModelSelector.ToggleGroupFixedFlips | src/components/ModelSelector/ModelSelectorReusable.jsx:140-145 | corrected toggle: every toggle flips whether the group is shown expanded and leaves other groups alone |
| ModelSelector.BlankQueryIgnored | src/components/ModelSelector/ModelSelectorReusable.jsx:87 | a query term of only whitespace sends nothing |
| ModelSelector.PricingLabelFree | src/components/ModelSelector/ModelSelectorReusable.jsx:163-167 | the label is `Free` exactly when the model has no pricing, and otherwise starts with `$` |
| SelectionSync.NotIn | src/components/ModelSelector/ModelSelector.jsx:15-16 | `a.filter(id => !b.includes(id))`: the ids of the first list missing from the second, in order |
| SelectionSync.ToggleEach | src/components/ModelSelector/ModelSelector.jsx:18-19 | one `forEach` of toggles: the selection becomes the ids toggled in order, the list, loading flag and error unchanged |
| SelectionSync.ToggleEachPicked | src/components/SettingsPanel/SettingsPanel.jsx:129-130 | the same loop on a picker slice |
| SelectionSync.ApplySelection | src/components/ModelSelector/ModelSelector.jsx:14-20 | the slice's selection becomes the result of toggling every added id and then every removed id; for duplicate-free lists that is `Synced`: the kept ids in their old order, then the added ones |
| SelectionSync.ApplyPickerSelection | src/components/SettingsPanel/SettingsPanel.jsx:125-139 | the same diff-then-toggle on the grading or translation slice |
| SelectionSync.HandleQuery | src/components/ModelSelector/ModelSelector.jsx:10-12 | the thunk ignores the picker's term and limit, so the request is always the default `gguf` search with limit 100 (or the hosted list); the slice then stops loading, keeps its selection, and holds the fetched list with no error (`[]` for a local reply without models), or, exactly when the reply failed, its old list with `Failed to fetch available models` |
| SelectionSync.FirstSelected | src/components/SettingsPanel/SettingsPanel.jsx:70-74 | `selected[0]`: the first picked model, or nothing for an empty selection |
| SelectionSync.MirrorFirstSelected | src/components/SettingsPanel/SettingsPanel.jsx:69-75 | the judge and translation models in the ui slice follow the first picked model of each picker; every other ui field is unchanged |
| SelectionSync.SwitchSelfHosted | src/components/SettingsPanel/SettingsPanel.jsx:236 | flipping the backend switch flips the flag, changes no other ui field, and empties both pickers' lists and selections while keeping their loading flags and errors |
| SelectionSync.SaveWithStatus | src/components/SettingsPanel/SettingsPanel.jsx:87-105 | a setting write reports success and stores the value, or reports an error and stores nothing |
| SelectionSync.SaveApiKey | src/components/SettingsPanel/SettingsPanel.jsx:87-95 | the key is stored under `apiKey` unless the write fails |
| SelectionSync.SaveLlmPath | src/components/SettingsPanel/SettingsPanel.jsx:97-105 | the path is stored under `llmFrogPath` unless the write fails |
| SelectionSync.SyncReachesTarget | src/components/ModelSelector/ModelSelector.jsx:14-20 | for duplicate-free lists the toggles reach exactly the proposed set of ids, without duplicates |
| SelectionSync.AppendAll | src/components/ModelSelector/ModelSelector.jsx:18 | toggling ids that are all new appends them in order |
| SelectionSync.RemoveAll | src/components/ModelSelector/ModelSelector.jsx:19 | toggling ids that are all present removes them and keeps the appended tail |
| SelectionSync.NotInNone | src/components/ModelSelector/ModelSelector.jsx:15-16 | filtering by a list none of the ids are in keeps everything |
| SelectionSync.NotInDistinct | src/components/ModelSelector/ModelSelector.jsx:15-16 | filtering keeps a list duplicate-free |
| SelectionSync.RemoveFirstDistinct | src/components/ModelSelector/ModelSelector.jsx:19 | in a duplicate-free list, the slice's splice removal equals filtering out the id |
| SelectionSync.SingleClickSelectsOne | src/components/SettingsPanel/SettingsPanel.jsx:69-75 | a picker that proposes one id ends with exactly that id selected, which the ui slice then mirrors |
| TestEditor.ActiveCase | src/components/TestEditor/TestEditor.jsx:40 | `find` by the active id: a case exactly when one has that id, and then the first such case |
| TestEditor.FormOf | src/components/TestEditor/TestEditor.jsx:52-60 | the form shows each field of the case, or the empty string when missing |
| TestEditor.SavedRow | src/components/TestEditor/TestEditor.jsx:73-76 | the row the editor writes is the id plus the form's fields, with no timestamps |
| TestEditor.Editor.constructor | src/components/TestEditor/TestEditor.jsx:42-50 | an empty form with no unsaved changes |
| TestEditor.Editor.SyncWithActive | src/components/TestEditor/TestEditor.jsx:52-63 | a present active case reloads the form and clears the unsaved flag; none leaves both alone |
| TestEditor.Editor.FieldChange | src/components/TestEditor/TestEditor.jsx:65-68 | one field takes the value and the unsaved flag is set |
| TestEditor.HandleSave | src/components/TestEditor/TestEditor.jsx:70-88 | as written: nothing without an active id; otherwise the slice's case is patched from the form, and unless the write fails the database row becomes the id plus the form (timestamps lost), the flag clears and `Test case saved successfully` is queued; the other tables and every ui field but the notifications are unchanged |
| TestEditor.HandleSaveFixed | src/components/TestEditor/TestEditor.jsx:70-88 | corrected: the same, but the database receives the patched case, timestamps included; a failed write keeps the flag; every ui field but the notifications is unchanged |
| TestEditor.HandleNewTestCase | src/components/TestEditor/TestEditor.jsx:90-108 | a `New Test Case` with empty fields is appended and made active, and saved unless the write fails |
| TestEditor.HandleDeleteTestCase | src/components/TestEditor/TestEditor.jsx:110-124 | nothing without an active id or without confirmation; otherwise the case leaves the slice (the first remaining one becomes active) and, unless the delete fails, the database cascade runs and `Test case deleted` is queued; settings and every ui field but the notifications are unchanged |
| TestEditor.HandleRunTest | src/components/TestEditor/TestEditor.jsx:126-145 | a run is requested exactly when there is an active case and a selected model, with the round-trip flag and translation model; otherwise the warning is queued; no other ui field changes |
| TestEditor.HandleTabChange | src/components/TestEditor/TestEditor.jsx:153-160 | the new tab becomes active; with unsaved changes, confirmation and a truthy active id the save runs first with all of `HandleSave`'s effects (slice patch, database row of id plus form unless the write fails, flag cleared, `Test case saved successfully` queued); otherwise the list, the database, the flag and the notifications are unchanged; the form, the other tables and every other ui field never change |
| TestEditor.SaveReloadsForm | src/components/TestEditor/TestEditor.jsx:52-88 | saving the form into a case and reloading the form from it gives the same form |
| TestEditor.WithFieldFacts | src/components/TestEditor/TestEditor.jsx:65-67 | a field change sets that field and leaves the others |
| TestEditor.SavedCaseShowsForm | src/components/TestEditor/TestEditor.jsx:70-88 | after a save the active case shows exactly the form, stamped now, creation time kept |
| TestEditor.SavedRowDropsTimestamps | src/components/TestEditor/TestEditor.jsx:73-79 | as written: the slice's case keeps its creation time and gets a new update time, but the row written to the database has neither |
| TestEditor.NewCaseIsActive | src/components/TestEditor/TestEditor.jsx:90-100 | the new case is the active one, shows the default name and empty fields, and carries both timestamps |
| TestEditor.IsTestRunningIff | src/components/TestEditor/TestEditor.jsx:148-151 | running exactly when the active id is truthy and some model of it has status running |
| TestEditor.IsTestRunningFacts | src/components/TestEditor/TestEditor.jsx:148-151 | nothing runs with no statuses; a running status under the active id makes it run |
| TestEditor.StatusLabelsDistinct | src/components/TestEditor/TestEditor.jsx:279-287 | the three per-model labels (running, completed, waiting) are pairwise distinct |
| GradingDialog.Dialog.constructor | src/components/GradingDialog/GradingDialog.jsx:26-29 | the dialog opens on `manual`, score 50 (on the slider), no comments, not busy |
| GradingDialog.Dialog.SetGradingMethod | src/components/GradingDialog/GradingDialog.jsx:112 | the radio group sets the method; the other fields stay |
| GradingDialog.Dialog.SetManualScore | src/components/GradingDialog/GradingDialog.jsx:124-131 | the slider sets a score on its 0..100 grid in steps of 5; the other fields stay |
| GradingDialog.Dialog.SetComments | src/components/GradingDialog/GradingDialog.jsx:140 | the text field sets the comments; the other fields stay |
| GradingDialog.HandleSubmit | src/components/GradingDialog/GradingDialog.jsx:36-93 | a rejected grading queues `Grading failed: <message>` and stores nothing; a fulfilled one stores the grade in the slice, then writes the row, stores it again, queues `Result graded successfully` and closes, unless the write fails, which queues the failure instead; the busy flag always ends down; the slice's results, statuses, loading and error and every ui field but the notifications are unchanged |
| GradingDialog.ManualGradeOnSlider | src/components/GradingDialog/GradingDialog.jsx:26-50 | a manual submission always grades, with no judge call, a score within 0..100 and the typed comments |
| GradingDialog.StoreMatchesDatabase | src/components/GradingDialog/GradingDialog.jsx:56-73 | after a successful submission the slice and the database hold the same grade for the pair |
| Export.EscapeQuotes | src/utils/exportUtils.js:117 | doubling the quotes never shortens the text |
| Export.QuoteField | src/utils/exportUtils.js:117 | the output cell is wrapped in double quotes |
| Export.ScoreCell | src/utils/exportUtils.js:118 | `grade?.score \|\| 'N/A'`: N/A exactly when there is no grade or the score is 0; otherwise the score in decimal |
| Export.CountCell | src/utils/exportUtils.js:120-121 | `value \|\| 0`: the count in decimal, 0 when missing |
| Export.Tenths | src/utils/exportUtils.js:111 | `toFixed(1)` rounds to the nearest tenth, halves upward |
| Export.CaseLines | src/utils/exportUtils.js:109-125 | the inner loop emits, for each model with a result under the test case, one row built from that result and its grade, each model once |
| Export.ExportCsv | src/utils/exportUtils.js:100-132 | the CSV is the header line, then one row per (test case, model with a result), grouped by test case in list order, joined with newlines; every such pair appears once |
| Export.CaseSheetRows | src/utils/exportUtils.js:9-18 | one test-case sheet row per test case, in order |
| Export.ResultSheetRowOf | src/utils/exportUtils.js:23-33 | a results row carries ids and output, and the empty string for a missing round-trip output or error |
| Export.GradeSheetRowOf | src/utils/exportUtils.js:40-47 | a grades row carries the comments, else the feedback, else the empty string |
| Export.SummaryRowOf | src/utils/exportUtils.js:64-84 | a summary row has the test name and one column group per model with a result |
| Export.SummaryRows | src/utils/exportUtils.js:64-84 | one summary row per test case, in order |
| Export.Flatten | src/utils/exportUtils.js:20-49 | the nested `forEach` emits one row per (test case, model) entry of the map, each once; no rows exactly when the map has no entries |
| Export.FlattenInner | src/utils/exportUtils.js:22-34 | the inner `forEach` emits one row per model of one test case, each once |
| Export.ExportToExcel | src/utils/exportUtils.js:4-98 | the workbook is `Workbook` of the four row lists; the results and grades lists hold one row per stored pair, each once |
| Export.QuoteBodyRoundTrip | src/utils/exportUtils.js:117 | unescaping a quote-doubled body up to its closing quote gives the text back |
| Export.QuoteRoundTrip | src/utils/exportUtils.js:117 | a CSV parser reading the quoted cell recovers the output (the empty string when missing) |
| Export.NameCellUnquoted | src/utils/exportUtils.js:113-122 | the test name, written unquoted, is the first comma-separated field exactly when it contains no comma |
| Export.FixedOneReadsBack | src/utils/exportUtils.js:111 | `toFixed(1)` prints digits, a point and one digit whose value is the nearest tenth of the number |
| Export.WorkbookSheets | src/utils/exportUtils.js:51-89 | the test-case sheet always comes first; the results, grades and summary sheets appear exactly when they have rows, in that order, and nothing else |
| Export.SimilarityCells | src/utils/exportUtils.js:77-80 | a zero similarity prints `0.0` in the CSV but N/A in the summary; any other similarity prints the same digits, with `%` in the summary; no diff gives N/A |
| Proxy.Rewrite | vite.config.js:9-16 | a proxied path loses exactly the leading `/api/local`; any other path is unchanged |
| Proxy.RewriteIsSuffix | vite.config.js:13-14 | the result is a suffix of the path, ten characters shorter exactly when the path is proxied |
| Proxy.RewriteNotIdempotent | vite.config.js:14 | only one leading prefix is cut, so a doubled prefix needs two rewrites |
| Proxy.RewriteCutsInsideSegment | vite.config.js:9-14 | the match is on characters, so `/api/localhost...` is proxied and becomes `host...` |
| Proxy.DevRequestsReachBackend | vite.config.js:9-14 | a request on the development base URL `/api/local/` is proxied and reaches the backend at `/` plus the endpoint |

## Left out

- The HTTP transport: the axios client, its headers and the `/api/local` base URL switch at run time (src/services/openRouterService.js:9-17, 39-52). Every remote reply is a parameter of the operation that would await it, and the request the operation sends is part of its result.
- The IndexedDB engine (Dexie), its schema versioning and its transactions. Each store is a Dafny `map` keyed like the store. `deleteTestCase` and `clearAllData` are single atomic updates, and a rejected write is a `saveError`/`deleteError` parameter.
- Interleaving of asynchronous thunks and effects. Each handler is modelled as the sequence its `await`s impose, run to completion.
- React and MUI rendering, i18next translations, hotkeys and focus handling. Only the state a component keeps and the values it computes for display are modelled.
- `window.confirm` is a `confirmed` parameter. `window.location.reload` after clearing data is not modelled.
- SelectionSync.SaveWithStatus: returns the status once. After a successful save the panel clears the status to null 3 seconds later with `setTimeout` (src/components/SettingsPanel/SettingsPanel.jsx:91, 101); the model has no clock, so it leaves out that reset. A failure status is never cleared, in the source or in the model. The same holds for `SelectionSync.SaveApiKey` and `SelectionSync.SaveLlmPath`.
- SettingsPanel: the effect that loads the stored LLM URL and the panel's local text fields are not modelled. `handleClearData` is `Database.Repository.ClearAllData` followed by a reload.
- ExportDialog.jsx, `exportToJSON`, the XLSX library's file writing and file-saver. The workbook is modelled as its sheets of rows of cells. Date and locale formatting of timestamps is not modelled.
- Number formatting: `toFixed` is modelled on exact rationals, not IEEE doubles, so results can differ from the browser's in the last digit.
- Object key order. Within one test case, the order of the models' export rows follows JavaScript's key order, which the model leaves open. The lemmas state row contents and counts, not that order. The same holds for the dashboard's model columns: `Dashboard.TestedModels` states which ids are listed, each once, but not the insertion order src/components/ResultsDashboard/ResultsDashboard.jsx:45-53 produces. `Database.RowsOfCase`, and so `Database.Repository.ResultsForTestCase` and `Database.Repository.GradesForTestCase`, state which rows are returned, each once, but not Dexie's index order for `where('testCaseId').equals(id).toArray()`.
- console logging and error stack traces.
- Common.ToLower: folds the ASCII letters only and keeps the length, while `String.prototype.toLowerCase` folds every Unicode cased letter and can lengthen a text (`'İ'` gives two code units). It is used only for the `/Score:/i` label, where that difference cannot show; the picker search (`ModelSelector.Matches`) takes the folding as a parameter instead, so its lemmas hold for the browser's.
- src/store/index.js registers only the results, test-cases, models and ui reducers (lines 7-14), so the settings panel throws on its first render and none of its handlers runs (see Findings, `StoreSetup`). The grading-model and translation-model slices, and the panel's handlers in `SelectionSync` (`ApplyPickerSelection`, `MirrorFirstSelected`, `SwitchSelfHosted`, `SaveApiKey`, `SaveLlmPath`, `SingleClickSelectsOne`), are modelled as they behave once both slices are registered, by one class `ModelLists.PickerSlice` that stands for both identical files.
- The test editor's status labels carry emoji, written in the model as unicode escapes.
- ResultsStore.GradeResult: the judge request always names the default judge model, as in the source; the model the caller passes is ignored. This is kept, not corrected.
- Dashboard.FailedFilterHidesAll: no status is ever `failed`, so the `failed` status filter hides everything. This is kept as written.
- TestEditor.HandleDeleteTestCase: the results slice keeps the deleted case's results and grades, as in the source. Only the database cascade removes them.
- ModelSelector.PricingLabelFree: states the `Free` case and the leading `$`, not the full `$p/1K in, $c/1K out` text, which is the function's definition.

## Findings

| source | as written | input that shows it | evidently intended | confidence | as-written member | corrected member |
|---|---|---|---|---|---|---|
| src/components/ResultsDashboard/ResultViewer.jsx:88-134 | the Diff View tab calls `split` on the result's output, which a failed run leaves undefined, so the tab throws | a result with `status: 'failed'` and no `output`, with the Diff View tab open | read a missing output as the empty text, as the other tabs do | not executed | ResultViewer.ViewerDiff | ResultViewer.ViewerDiffFixed |
| src/components/ModelSelector/ModelSelectorReusable.jsx:140-145 | a group never toggled is shown expanded, but the toggle stores `!undefined`, which is `true`, so the first click leaves it expanded | click the header of any group once after opening the picker | the first click collapses the group: flip what is shown | not executed | ModelSelector.FirstToggleKeepsExpanded | ModelSelector.ToggleGroupFixedFlips |
| src/components/TestEditor/TestEditor.jsx:70-80 | `handleSave` writes `{ id, ...formData }` with a `put`, so the stored row loses `createdAt` and `updatedAt` while the store's copy keeps them | save any existing test case, then reload the page | write the updated case, timestamps included | not executed | TestEditor.SavedRowDropsTimestamps | TestEditor.HandleSaveFixed |
| src/store/index.js:7-14 with src/components/SettingsPanel/SettingsPanel.jsx:44-51 | the store registers no `modelsGrading` or `modelsTranslation` reducer, yet the settings panel destructures both slices, so it destructures `undefined` and throws a `TypeError` | open the Settings tab | register both picker slices beside the other four, as the panel's handlers assume | not executed | StoreSetup.SettingsPanelThrowsAsWired | StoreSetup.SettingsPanelRendersWhenRegistered |
