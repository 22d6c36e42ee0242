# A verified model of a build → review → test agent pipeline

The system turns a task description into a small software project by
running four phases in a fixed order over one shared development state:

1. **Demand analysis.** A CEO agent analyses the task. A CPO agent then
   decides the product modality.
2. **Coding.** A CTO agent picks the language. A programmer agent writes
   the files.
3. **Code review.** A bounded reviewer/programmer loop.
4. **Testing.** A bounded loop: run the tests, then the tester analyses
   them and the programmer fixes.

Agent replies are markdown-like text. Files travel as `name / fence /
content / fence` blocks, which a line scanner reads into an ordered file
map and a formatter writes back out. Every agent call is logged for
usage accounting. The OpenRouter-backed agent retries a rate-limited
request with a doubling wait.

This project restates that core in Dafny and proves properties of it:

- **Data.** Immutable datatypes, strings as `seq<char>`, and Python's
  insertion-ordered `dict` as a sequence of pairs (`OrderedMaps`).
- **The outside world becomes input.** Agents are an oracle: the reply
  to the n-th agent call of a run is `env.reply(n)`, which is an answer
  or an exception. Test processes are an oracle too: the test run
  numbered k sees `env.toolchain(k)`. The OpenRouter service is a
  function from attempt number to outcome.
- **Side effects are logged.** Writing files is recorded as an event and
  never performed.

| file | module | models |
|---|---|---|
| ordered_map.dfy | `Options`, `OrderedMaps` | results and exceptions; `dict` insertion, `update` and lookup |
| text.dfy | `Text` | ASCII `lower`/`upper`, `strip`, `in` on strings, `split('\n')`, `'\n'.join` |
| code_manager.dfy | `CodeManager` | `extract_code_blocks`, `format_code_for_prompt`, `validate_code_structure` |
| code_examples.dfy | `CodeExamples` | the single-block replies the extractor is meant for |
| state.dfy | `DevState` | `DevelopmentState`: initial values, `update_codes`, `get_codes_formatted` |
| classify.dfy | `Classify` | `extract_modality`, `extract_language` |
| usage_tracker.dfy | `UsageTracker` | the integer side of usage accounting |
| test_runner.dfy | `TestRunner` | `run_tests` dispatch, per-file runs, `parse_test_errors` |
| session.dfy | `Session` | the agent oracle, the call log, saving, the programmer's fix step |
| demand_analysis.dfy | `DemandAnalysis` | `demand_analysis_handler` |
| coding.dfy | `Coding` | `coding_handler` |
| bounded_loop.dfy | `BoundedLoop` | the `run` loop that code review and testing share |
| code_review.dfy | `CodeReview` | `review_condition`, `review_handler`, `CodeReviewPhase.run` |
| testing.dfy | `Testing` | `test_condition`, `test_handler`, `TestingPhase.run` |
| development_chain.dfy | `DevelopmentChain` | `DevelopmentChain.run` |
| openrouter_agent.dfy | `OpenRouter` | the retry loop of `OpenRouterAgent.query` |

## Model

| member | source | states |
|---|---|---|
| OrderedMaps.Lookup | src/state.py:32 | a key is found exactly when it is among the map's keys |
| OrderedMaps.PutKeys | src/tools/code_manager.py:83 | writing an existing key keeps the key order; writing a new key appends it last |
| OrderedMaps.PutLookup | src/tools/code_manager.py:83 | after `d[k] = v` the key `k` reads `v` and every other key reads what it read before |
| OrderedMaps.PutUnique | src/tools/code_manager.py:83 | writing one entry never duplicates a key |
| OrderedMaps.UpdateKeyOrder | src/state.py:32 | after `d.update(n)` the old keys keep their places and unseen keys of `n` follow in `n`'s order |
| OrderedMaps.UpdateKeys | src/state.py:32 | the keys after an update are exactly those of either map |
| OrderedMaps.UpdateLookup | src/state.py:32 | after an update a key of `n` reads its value in `n`; any other key reads its old value |
| OrderedMaps.UpdateUnique | src/state.py:32 | an update keeps keys unique |
| OrderedMaps.Extensional | src/state.py:32 | two maps with unique keys, the same key order and the same lookups are equal |
| OrderedMaps.UpdateIdempotent | src/state.py:32 | applying the same update twice equals applying it once |
| OrderedMaps.UpdateEmpty | src/state.py:32 | updating an empty map with unique-keyed entries yields exactly those entries |
| Text.LowerAppend | src/phases/demand_analysis.py:29 | lower-casing distributes over concatenation |
| Text.ContainsTransitive | src/phases/demand_analysis.py:30 | a substring of a substring is a substring |
| Text.StripFacts | src/tools/code_manager.py:32 | a text strips to empty exactly when it is all whitespace, and otherwise to text with no whitespace at either end |
| Text.StripIndented | src/tools/code_manager.py:32 | leading indentation does not change what a line strips to |
| Text.SplitJoinLines | src/tools/code_manager.py:29 | splitting joined newline-free lines on `\n` gives the lines back |
| Text.JoinSplit | src/tools/code_manager.py:83 | joining the lines of a split gives the text back |
| Text.NatToStringInjective | src/tools/code_manager.py:96 | different numbers print differently |
| CodeManager.StripLabels | src/tools/code_manager.py:37-40 | removing label prefixes never lengthens the line or adds characters, and when the line starts with the first label, ignoring case, at least that label's length is removed |
| CodeManager.StripFirstLabel | src/tools/code_manager.py:37-40 | the first label the line starts with, ignoring case, is removed together with the whitespace after it; labels that do not match change nothing |
| CodeManager.LabelledName | src/tools/code_manager.py:32-42 | `FILENAME: k`, `file: k` (any case), `## k` and `**k**` all clean to the bare path `k` |
| CodeManager.Sanitize | src/tools/code_manager.py:62-63 | the result has none of `:*?"<>\|` and only characters of the input |
| CodeManager.SanitizeKeeps | src/tools/code_manager.py:63 | a name without illegal characters is left unchanged |
| CodeManager.SanitizeKeepsExtension | src/tools/code_manager.py:54-63 | deleting illegal characters keeps a recognised extension |
| CodeManager.SanitizedName | src/tools/code_manager.py:51-63 | a name passing the filename test sanitises to a non-empty key with a valid extension, no space, under 100 characters and no illegal character |
| CodeManager.FirstNonBlank | src/tools/code_manager.py:66-68 | the index found is the first line that does not strip to empty |
| CodeManager.FirstClosingFence | src/tools/code_manager.py:76-80 | the index found is the first line that strips to a bare fence |
| CodeManager.BlockAt | src/tools/code_manager.py:59-84 | a recognised block is named by its first line, and the scan resumes strictly later and within the lines |
| CodeManager.BlockAtEntry | src/tools/code_manager.py:66-84 | a name line, any blank lines, an opening fence with or without a language tag, then lines whose first bare closing fence is `n` lines on: the content is exactly those `n` untrimmed lines joined, and the scan resumes after the closing fence |
| CodeManager.UnclosedBlock | src/tools/code_manager.py:66-85 | an opening fence, after any blank lines, that no later line closes makes every following line part of the block, and the scan ends there |
| CodeManager.EmptyBlock | src/tools/code_manager.py:66-85 | an opening fence, after any blank lines, closed on the very next line stores nothing for the named file |
| CodeManager.NoOpeningFence | src/tools/code_manager.py:66-70 | a name line whose next non-blank line does not start with a fence, or which only blank lines follow, starts no block |
| CodeManager.ScanNamedKeys | src/tools/code_manager.py:36-85 | keys from the named pass are unique and each is non-empty, has a valid extension, no space or newline, fewer than 100 characters and no illegal character |
| CodeManager.ScanTakes | src/tools/code_manager.py:82-85 | a recognised block writes its key (replacing in place) and the scan resumes after the block |
| CodeManager.ScanSkips | src/tools/code_manager.py:59-85 | a line that starts no block, including one before an empty block, is skipped and the scan goes on at the next line |
| CodeManager.FindFrom | src/tools/code_manager.py:90-91 | the lazy search finds the first occurrence at or after the start, or reports that there is none |
| CodeManager.FencedBlockAt | src/tools/code_manager.py:90-91 | a fallback match starts with a fence, and its body begins past that fence and its tag and ends where a later fence begins |
| CodeManager.FencedBodies | src/tools/code_manager.py:88-91 | text without a fence has no fenced blocks |
| CodeManager.PlaceholderNameInjective | src/tools/code_manager.py:96 | distinct block numbers give distinct `file_<k>.py` names |
| CodeManager.NumberBlocks | src/tools/code_manager.py:92-97 | block number `n` is stored as `file_<n>.py` with its stripped body, empty bodies are absent, and the keys are unique |
| CodeManager.NumberBlocksOrder | src/tools/code_manager.py:92-97 | the placeholder entries come in block order: an earlier entry has a smaller number |
| CodeManager.StripEach | src/tools/code_manager.py:93 | each fallback body is stripped |
| CodeManager.ExtractCodeBlocks | src/tools/code_manager.py:7-99 | keys are unique, and each is either a clean file name or a `file_<k>.py` placeholder |
| CodeManager.OneFencedBody | src/tools/code_manager.py:88-91 | a text that is one ```` ```python ```` block around a body without backticks yields exactly that body, untrimmed |
| CodeManager.OneBlockFallback | src/tools/code_manager.py:88-97 | such a block, once its body strips to something, makes the placeholder pass a single entry `file_1.py` holding the stripped body |
| CodeManager.ExtractFallback | src/tools/code_manager.py:88-97 | when the named pass finds nothing, the result is the placeholder pass over the whole text |
| CodeManager.ExtractNamed | src/tools/code_manager.py:88 | when the named pass finds anything, that is the whole result and the fallback is not consulted |
| CodeManager.NoFenceNoFiles | src/tools/code_manager.py:29-97 | text with no fence at all extracts to the empty map |
| CodeManager.EntryLines | src/tools/code_manager.py:114-120 | five lines per entry, with the last one blank |
| CodeManager.FormatCodeForPrompt | src/tools/code_manager.py:111-122 | the text is the "No code files available." message exactly when the map is empty |
| CodeManager.FormattedLines | src/tools/code_manager.py:114-122 | the formatted text splits into name, fence, the content's lines, fence and a blank line per entry, in map order |
| CodeManager.ValidateCodeStructure | src/tools/code_manager.py:125-142 | true exactly when the map is non-empty and every content holds a non-whitespace character |
| CodeManager.ScanLayout | src/tools/code_manager.py:29-85 | the named pass over formatted entries writes them, in order, into the accumulated map |
| CodeManager.RoundTrip | src/tools/code_manager.py:29-122 | extracting the formatted text of a map with self-naming keys and no content line that is a bare fence gives back the map, contents and order |
| CodeManager.PlainRoundTrip | src/tools/code_manager.py:29-122 | the same round trip for any map keyed by plain relative paths with a recognised extension |
| CodeManager.PlainKeyValid | src/tools/code_manager.py:36-63 | a plain path with a recognised extension names itself when it stands alone on a line |
| CodeManager.StripLabelsUnchanged | src/tools/code_manager.py:37-40 | a line starting with no label, in any case, keeps all its text |
| CodeExamples.BareReply | src/tools/code_manager.py:59-84 | `main.py`, a tagged fence, one code line and a closing fence extract to exactly that one file with that line |
| CodeExamples.IndentedReply | tests/test_basic_flow.py:37-47 | the indented reply of the project's extraction example gives the key `main.py` with the indented, untrimmed code line |
| CodeExamples.SingleBlock | src/tools/code_manager.py:29-85 | lines naming nothing around one named block do not change what is extracted |
| CodeExamples.FramedBlock | src/tools/code_manager.py:29-85 | one unnamed line before and after a block leaves the result a single file |
| CodeExamples.ScanPastUnnamed | src/tools/code_manager.py:59-85 | lines that name nothing are passed over |
| CodeExamples.SameStripSameName | src/tools/code_manager.py:32 | two lines that strip to the same text name the same file |
| CodeExamples.IndentOnly | src/tools/code_manager.py:51-52 | a line of indentation alone names no file |
| CodeExamples.UnnamedBlock | src/tools/code_manager.py:88-97 | a lone ```` ```python ```` block holding `x = 1`, with no name line, extracts to the single entry `file_1.py`: `x = 1` |
| DevState.Init | src/state.py:9-19 | a fresh state has every text field empty, no files and no usage records |
| DevState.UpdateCodes | src/state.py:24-32 | only the files change |
| DevState.UpdateCodesLookup | src/state.py:24-32 | every extracted file reads its extracted content; every other file keeps its content |
| DevState.UpdateCodesOrder | src/state.py:31-32 | files already present keep their places; new ones follow in reply order |
| DevState.UpdateCodesUnique | src/state.py:31-32 | the file map keeps unique keys |
| DevState.UpdateCodesNothing | src/state.py:31-32 | a reply that extracts to nothing leaves the state unchanged |
| DevState.UpdateCodesWithoutFence | src/state.py:31-32 | a reply with no fence leaves the state unchanged |
| DevState.UpdateCodesIdempotent | src/state.py:31-32 | applying the same reply twice is the same as applying it once |
| DevState.CodesFormatted | src/state.py:34-41 | the formatted files are the "No code files available." message exactly when there are no files |
| DevState.FormattedReadsBack | src/state.py:34-41 | formatted files with plain names, read back, are the state's files, and updating an empty map from them restores them |
| Classify.CloseFrom | src/phases/demand_analysis.py:22-23 | the lazy `(.*?)</INFO>` finds the first closing tag, ignoring case, on the same line, or there is none on that line |
| Classify.FindInfo | src/phases/demand_analysis.py:22-23 | the match found is the leftmost one: an opening tag, then the first closing tag on the same line |
| Classify.FirstInfo | src/phases/demand_analysis.py:22-25 | a first match exists exactly when some position starts a match |
| Classify.FirstInfoIs | src/phases/demand_analysis.py:22-26 | the leftmost match captures the text between its opening tag and the first closing tag after it |
| Classify.ExtractModality | src/phases/demand_analysis.py:12-39 | with a tag, the stripped capture; otherwise one of Website, Application, Game and CLI Tool |
| Classify.EmptyTagModality | src/phases/demand_analysis.py:25-26 | a leftmost `<INFO></INFO>` gives the empty modality |
| Classify.ModalityCascade | src/phases/demand_analysis.py:29-39 | the fallback modality for each keyword combination, both directions, with `web` shadowing `app`, `game`, `cli` and `command` |
| Classify.ExtractLanguage | src/phases/coding.py:13-40 | with a tag, the stripped capture; otherwise one of Python, JavaScript, Java and C++ |
| Classify.LanguageCascade | src/phases/coding.py:29-40 | the fallback language for each keyword combination, both directions, with `python` shadowing the rest |
| Classify.PythonWins | src/phases/coding.py:30-32 | a tagless reply mentioning Python, in any case, selects Python |
| UsageTracker.EstimateTokens | src/tools/usage_tracker.py:121-133 | the estimate is the character count divided by four, rounded down |
| UsageTracker.EstimateMonotone | src/tools/usage_tracker.py:130-133 | longer text never gets a smaller estimate |
| UsageTracker.RecordCall | src/tools/usage_tracker.py:100-119 | exactly one record is appended, earlier ones are untouched and the totals are not recomputed |
| UsageTracker.RecordWithText | src/tools/usage_tracker.py:135-148 | the appended record holds the agent, the phase, the model and the two text estimates |
| UsageTracker.TotalsAppend | src/tools/usage_tracker.py:37-38 | the sums over a log grow by exactly the appended call |
| UsageTracker.TotalsCount | src/tools/usage_tracker.py:170 | the call count of the totals is the log length |
| UsageTracker.CalculateTokens | src/tools/usage_tracker.py:35-38 | the stored totals become the sums over all recorded calls |
| UsageTracker.RecordAfterTotals | src/tools/usage_tracker.py:35-38 | recording a call after the totals were computed raises the next totals by that call's tokens |
| UsageTracker.GroupBy | src/tools/usage_tracker.py:197-233 | groups appear once each in first-appearance order, each holds the totals of exactly its calls, and the groups add up to the overall totals |
| UsageTracker.GroupKeys | src/tools/usage_tracker.py:203-206 | a new group is created the first time its key is seen |
| UsageTracker.GroupSums | src/tools/usage_tracker.py:211-213 | the group sums grow by exactly the calls folded in |
| UsageTracker.GroupLookup | src/tools/usage_tracker.py:204-213 | each group holds its earlier counts plus the totals of the calls with its key |
| UsageTracker.SumPut | src/tools/usage_tracker.py:211-213 | replacing one group changes the sum by the difference |
| UsageTracker.NormaliseModel | src/tools/usage_tracker.py:75-88 | every name is priced under one of the five reachable pricing keys |
| UsageTracker.NormalisedPriced | src/tools/usage_tracker.py:48-88 | the key is always in the pricing table and is never `gemini-3-pro` |
| UsageTracker.NormaliseIgnoresCase | src/tools/usage_tracker.py:76 | lower-casing the name first changes nothing |
| UsageTracker.Gemini3Pro | src/tools/usage_tracker.py:83-84 | `gemini-3-pro` is priced as `gemini-3-flash` |
| UsageTracker.Finish | src/tools/usage_tracker.py:150-159 | the log is kept and the totals become the sums over it |
| UsageTracker.GetSummary | src/tools/usage_tracker.py:161-177 | total tokens are input plus output, the call count is the log length, and both breakdowns list their keys in first-appearance order |
| UsageTracker.SummaryConsistent | src/tools/usage_tracker.py:150-177 | after `finish`, the per-phase and per-agent breakdowns each add up to the summary's totals |
| TestRunner.Selected | src/tools/test_runner.py:63-65 | only `.py` files other than `__init__.py`, or only `.js` files that are not `.test.js`, are run, in walk order |
| TestRunner.AllClean | src/tools/test_runner.py:75-82 | true exactly when every file ran without an error |
| TestRunner.RunPythonFiles | src/tools/test_runner.py:58-84 | success exactly when every selected file exited 0, and the output is one line per selected file |
| TestRunner.PythonLines | src/tools/test_runner.py:75-82 | one output line per file, in order |
| TestRunner.RunNodeFiles | src/tools/test_runner.py:103-127 | success exactly when every selected file exited 0, and the output is one line per failing file |
| TestRunner.FailureLines | src/tools/test_runner.py:120-125 | no line exactly when no file failed |
| TestRunner.RunTests | src/tools/test_runner.py:8-24 | a language other than Python and the Node languages passes with the fixed message, and only a crashed pytest or npm call raises |
| TestRunner.UnsupportedPasses | src/tools/test_runner.py:22-24 | for such a language the result does not depend on the processes at all |
| TestRunner.DispatchIndependent | src/tools/test_runner.py:18-21 | a Python run never consults npm, and a Node run never consults pytest or unittest |
| TestRunner.ErrorLines | src/tools/test_runner.py:153-156 | only error lines of the input are kept |
| TestRunner.ErrorLinesKeepAll | src/tools/test_runner.py:153-156 | a list of error lines is kept whole |
| TestRunner.Keep | src/tools/test_runner.py:159 | the first ten, or all when there are at most ten |
| TestRunner.ParseTestErrors | src/tools/test_runner.py:137-161 | the summary is empty exactly when the output is empty |
| TestRunner.SummaryLines | src/tools/test_runner.py:151-159 | the summary's lines are the first ten error lines, or all of them when fewer, in order |
| TestRunner.NoSpecificErrorsIsError | src/tools/test_runner.py:160-161 | the fixed no-errors message is itself an error line and mentions "error" |
| TestRunner.ParseIdempotent | src/tools/test_runner.py:137-161 | summarising a summary changes nothing |
| Session.Ask | src/phases/demand_analysis.py:59-64 | the call is logged; an answer is returned and recorded with its estimated tokens; an exception propagates with the state unchanged |
| Session.Save | src/state.py:43-52 | the files are written to the output directory when there is one, and nothing else changes |
| Session.Fix | src/phases/code_review.py:61-77 | one programmer call with the fix prompt; on an answer the files are updated from it and saved; on an exception the files and saves are untouched |
| DemandAnalysis.Handler | src/phases/demand_analysis.py:54-79 | one or two calls are appended, only the modality and usage change, and the result is an answer exactly when both agents answer |
| DemandAnalysis.HandlerAnswered | src/phases/demand_analysis.py:54-79 | CEO then CPO with the CEO analysis appended to the prompt; the modality comes from the CPO reply alone; the returned text; two usage records in the Demand Analysis phase |
| DemandAnalysis.CeoRaises | src/phases/demand_analysis.py:59 | a CEO exception propagates after one logged call, with the state unchanged |
| Coding.Place | src/phases/coding.py:88-93 | without a project name nothing changes; with one, the output directory is made under the old directory or `./output` |
| Coding.PlaceSaves | src/phases/coding.py:88-94 | the files are saved only when the project has a name |
| Coding.ChooseLanguage | src/phases/coding.py:58-69 | one CTO call; the language is extracted from its reply and stored at once |
| Coding.WriteCode | src/phases/coding.py:71-85 | one programmer call with the chosen language; the files are updated from its reply |
| Coding.Handler | src/phases/coding.py:55-96 | no test runs; an answer exactly when both agents answer |
| Coding.HandlerCalls | src/phases/coding.py:62-77 | one or two agent calls |
| Coding.HandlerAnswered | src/phases/coding.py:55-96 | the CTO is asked before the programmer; the stored language is the one the coding prompt uses; the files are merged; the returned text; two usage records |
| Coding.ProgrammerRaises | src/phases/coding.py:68-77 | a programmer exception leaves the chosen language stored and the files unsaved |
| BoundedLoop.Loop | src/phases/code_review.py:93-96 | at most `max_iterations` handler calls |
| BoundedLoop.LoopSteps | src/phases/code_review.py:93-94 | each round is the handler run on the state the previous round left |
| BoundedLoop.LoopStops | src/phases/code_review.py:93-96 | every round but the last asked to go on; stopping early means the last result asked to stop |
| BoundedLoop.LoopRaises | src/phases/code_review.py:94 | a handler exception ends the loop, leaving the state that call left |
| BoundedLoop.RunPhase | src/phases/code_review.py:90-97 | the state is the loop's; a returned result is never empty unless the default is |
| BoundedLoop.NoIterations | src/phases/code_review.py:92-97 | with a limit of zero or less the handler is never called and the default is returned |
| BoundedLoop.RunsToLimit | src/phases/code_review.py:93-96 | a handler that always asks to go on runs exactly the limit |
| BoundedLoop.LoopGrowth | src/phases/code_review.py:93-96 | a measure grown by at most `k` per call grows by at most `k` times the limit |
| BoundedLoop.StopsAtFirst | src/phases/code_review.py:93-97 | a first result that asks to stop is returned, or the default when it is empty |
| BoundedLoop.RaisesAtFirst | src/phases/code_review.py:94 | an exception in the first round escapes the phase |
| BoundedLoop.TwoRounds | src/phases/code_review.py:93-97 | two rounds that ask to go on use up a limit of two and return the second result |
| CodeReview.SummaryApproved | src/phases/code_review.py:20-79 | after an unapproving review, the combined result is approved exactly when the fix reply is |
| CodeReview.MarkerAcross | src/phases/code_review.py:20 | glue that cannot start or continue a marker does not create one |
| CodeReview.Review | src/phases/code_review.py:39-51 | one reviewer call with the task, language and formatted files; only usage changes |
| CodeReview.Handler | src/phases/code_review.py:36-79 | one or two calls appended, no test runs, task, language, modality and output directory unchanged |
| CodeReview.HandlerApproves | src/phases/code_review.py:53-56 | an approving review: one call, comments "Code review passed", files and saves unchanged, the review returned and the loop stops |
| CodeReview.HandlerFixes | src/phases/code_review.py:58-79 | otherwise: the review stored, the reviewer then the programmer asked, the files merged from the fix, the combined text returned, and the loop goes on exactly when the fix is unapproved |
| CodeReview.Run | src/phases/code_review.py:90-97 | a returned result is never empty |
| CodeReview.RunCalls | src/phases/code_review.py:90-97 | at most two calls per allowed round, and no tests run |
| CodeReview.RunApprovedAtOnce | src/phases/code_review.py:53-96 | an approving first review ends the phase after one call, returning the review |
| CodeReview.RunStopsOnFix | src/phases/code_review.py:20-96 | a fix reply carrying the marker stops the loop after one round |
| CodeReview.RunTwoRounds | src/phases/code_review.py:90-97 | with a limit of two and no approval, the phase is two handler rounds returning the second combined text |
| CodeReview.TwoRoundsCalls | src/phases/code_review.py:90-97 | in those rounds the agents are asked reviewer, programmer, reviewer, programmer: four calls |
| Testing.ContinuesIff | src/phases/testing.py:11-32 | the loop goes on exactly when the result has no all-clear marker and the error summary mentions an error or the result names a problem |
| Testing.RunSuite | src/phases/testing.py:50-63 | tests run only with a directory and a language; the report is the output; the error summary is the parsed output on failure and empty on success; otherwise the fixed not-run report |
| Testing.Analyse | src/phases/testing.py:65-80 | one tester call with the report, the error summary and the files; only usage changes |
| Testing.FixClears | src/phases/testing.py:22-104 | a fix reply with the all-clear marker stops the loop |
| Testing.FixedRoundContinues | src/phases/testing.py:29-104 | an analysis naming a problem, followed by an unmarked fix, continues the loop |
| Testing.MarkerAcross | src/phases/testing.py:22 | glue that cannot start or continue a marker does not create one |
| Testing.Handler | src/phases/testing.py:48-104 | at most one test run and two agent calls; task, language and output directory unchanged |
| Testing.HandlerRunnerRaises | src/phases/testing.py:51-52 | a test runner exception ends the round before any agent is asked |
| Testing.HandlerClear | src/phases/testing.py:82-84 | an all-clear analysis: one tester call, files and saves unchanged, the analysis returned and the loop stops |
| Testing.HandlerFixes | src/phases/testing.py:86-104 | otherwise: one programmer call with the analysis as feedback, the files merged, the combined text returned |
| Testing.NotReadyReport | src/phases/testing.py:60-72 | without a directory or a language no test runs and the tester sees the not-run report |
| Testing.UnexplainedFailureContinues | src/phases/testing.py:26-57 | a failed run with no error line stores the fixed summary, which keeps any unmarked result looping |
| Testing.Run | src/phases/testing.py:115-122 | a returned result is never empty |
| Testing.RunBounds | src/phases/testing.py:115-122 | at most two agent calls and one test run per allowed round |
| Testing.RunClearAtOnce | src/phases/testing.py:82-121 | an all-clear first analysis ends the phase after one call, returning it |
| Testing.RunRunnerRaises | src/phases/testing.py:51-119 | a test runner exception in the first round escapes the phase |
| DevelopmentChain.Stages | src/chain/development_chain.py:55-77 | the recorded phases are named in the fixed order, each runs at most once, and all four are recorded when nothing raised |
| DevelopmentChain.StagesReturned | src/chain/development_chain.py:58-77 | each recorded phase returned its result on the state the previous one left |
| DevelopmentChain.StagesEnd | src/chain/development_chain.py:55-83 | an exception came from the phase after the last recorded one; otherwise the state is the last phase's |
| DevelopmentChain.StagesGrowth | src/chain/development_chain.py:55-77 | per-phase bounds on a measure add up over the chain |
| DevelopmentChain.Report | src/chain/development_chain.py:80 | the summary is empty exactly when no phase returned |
| DevelopmentChain.Outcome | src/chain/development_chain.py:83-86 | after an exception the text starts with the error line and the partial-results header |
| DevelopmentChain.Start | src/chain/development_chain.py:47-49 | a given state is used as is; otherwise a fresh one holding the task |
| DevelopmentChain.ChainComplete | src/chain/development_chain.py:55-81 | without an exception the text reports the four phases in order |
| DevelopmentChain.ChainError | src/chain/development_chain.py:55-86 | with one, fewer than four phases ran, in order, and the text is the error and the partial results |
| DevelopmentChain.CeoFailure | src/chain/development_chain.py:58-86 | a CEO exception gives the error text with no partial results, after one call, no saves and no test runs |
| DevelopmentChain.PhaseCalls | src/chain/development_chain.py:55-77 | each phase asks at most its own number of agents |
| DevelopmentChain.RunCalls | src/chain/development_chain.py:37-86 | the chain asks at most four agents plus two per allowed review and test round: sixteen with the default limits |
| DevelopmentChain.PhaseTestRuns | src/chain/development_chain.py:55-77 | only the testing phase runs tests |
| DevelopmentChain.RunTestRuns | src/chain/development_chain.py:37-86 | the chain runs the tests at most once per allowed testing round |
| OpenRouter.RequestFor | src/agents/openrouter_agent.py:48-64 | the request is the agent's model, the system instruction then the user text, and at most 4096 tokens |
| OpenRouter.Attempts | src/agents/openrouter_agent.py:53-56 | between one and three attempts |
| OpenRouter.Query | src/agents/openrouter_agent.py:39-81 | the loop returns the reply the retry policy defines, sends the same request once per attempt, and waits as the policy says |
| OpenRouter.WaitsDouble | src/agents/openrouter_agent.py:53-75 | the waits are 5 and then 10 seconds, one fewer than the attempts |
| OpenRouter.FirstDecides | src/agents/openrouter_agent.py:56-79 | the first attempt that is not rate limited, or the third, decides the reply: the first choice, the no-choices message, or the rate-limit or contact error |
| OpenRouter.ReplyShape | src/agents/openrouter_agent.py:56-81 | every reply is a returned content, the no-choices message or one of the two error texts, so the final fallback is unreachable |

## Left out

- Python's Unicode behaviour: `lower`, `upper` and `strip` are modelled on ASCII letters and ASCII whitespace only.
- The full regular expression engine: the two patterns in use (the lazy `<INFO>(.*?)</INFO>` without DOTALL and the fallback fence pattern with DOTALL) are written as dedicated scanners.
- The unused `pattern` string in `extract_code_blocks` (src/tools/code_manager.py:26) is never applied by the code, so it is not modelled.
- Timestamps, durations, `_format_duration`, cost arithmetic and `print_summary`: they are clock and floating-point computations.
- The sampling temperature 0.7 of the OpenRouter request: it is a float passed through unchanged.
- `time.sleep` is recorded as the list of waits instead of being performed.
- Console output (`print`) in the chain, the phases and the agent is not modelled.
- Disk I/O: `write_files`, `os.makedirs` and `create_project_directory` are not modelled. Saving is recorded as a (directory, files) event. The project directory's name is an opaque function of the project name and base directory.
- `run_agent` and the agent framework (sessions, events, threads): agents are an oracle of replies and exceptions indexed by call number.
- The agent factories, the proxy agent and the HTTP clients are not part of this model.
- Prompt templates are opaque functions of the fields they are formatted with.
- Processes started by the test runner (pytest, unittest, npm, node): their outcomes and the files of the directory walk are inputs. The walk order is the order given. The directory argument is folded into these inputs.
- OpenRouter.Query: a returned choice whose content is `None` is not modelled; a choice's content is always a string.
- `execute_and_heal` and the single-block `extract_code_block` are imported by the project's tests but are not part of this model.
- The CLI entry points, the configuration files, the visualisation script and the generated sample programs are not modelled.
- CodeManager.FencedBodies: its contract only states that fence-free text has no blocks. The exact match positions of the fallback pattern are given by its definition and by `FencedBlockAt`; `CodeManager.OneFencedBody` pins the bodies for a text that is one tagged block, and `CodeExamples.UnnamedBlock` works one reply through the whole placeholder pass.
- BoundedLoop.Loop: the result and input text passed to the handler are not modelled, since the handlers ignore `input_text`.
- DevelopmentChain.Stages: the `input_text` each phase receives is not modelled, since no phase reads it.
