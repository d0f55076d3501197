# ExecuteTests: a Dafny model of the unit-test runner step

This project models the "Execute unit tests" step of the Pentaho data-set
plugin (`ExecuteTests`). It is a pipeline step that, on each `processRow`
call, loads the transformation a unit test refers to, runs it, validates
the run against the test's golden data sets, and puts six-field result
rows on its output. It also proves what the step promises about those rows.

The model follows the step's own structure:

- `wrappers.dfy`: `Option` and `Result`.
- `model.dfy` (module `Model`): the values the step handles.
  - Unit-test definitions, with nullable strings as `Option<string>` and
    `StringUtils.isEmpty` as `IsEmpty`.
  - Loaded pipelines with their variables.
  - Validator results and the output row.
- `loader.dfy` (module `Loader`): `loadTestTransformation` as pure functions.
  - `SelectReference` picks the reference to load from: the file name,
    resolved against the test's own or the global base path; else the
    repository object id; else the repository path. A failure gets the
    source's exact message.
  - `Fetch` reads the pipeline from that reference.
  - `Configure` applies the run-mode variables.
  - The file system, the repository and variable substitution are
    function-valued parameters (`LoadContext`).
- `listing.dfy` (module `Listing`): the test list the first `processRow`
  call builds.
  - Stream mode (`StreamTests`): one loaded test per incoming row, with no
    type filter.
  - Batch mode (`FilterTests`, `BatchTests`): every catalog test, filtered
    by the requested type.
- `rows.dfy` (module `Rows`): the rows one test contributes (`GroupRows`,
  `TestRows`) and the rows of a list of tests, in list order (`AllRows`).
  - The engine run and the validator are one function-valued parameter
    (`Runner.execute`). It returns either "could not start" or the run's
    error count, its log and the validation outcome.
- `execute_tests.dfy` (module `ExecuteTestsStep`): the step itself.
  - The class `ExecuteTests` has the step's mutable state as fields:
    `first`, `hasPrevious`, the test list, the iterator position, the
    consumed input, the output, the error count and the output-done flag.
  - Its methods are `init`, `getRow`, `putRow` and `processRow`, with
    `processRow` split into its first-call and later-call parts.
  - `RunStep` is the engine's driving loop around them (init, then
    processRow until false or an exception).
  - `StepRows` and `StepOutcomeOf` say what a whole run of the step emits
    and how it ends.

The class invariant `Valid()` states the core ordering promise: the
output is always the row groups of the tests attempted so far, one group
per test, in list order. Its term `rowsOf(t)` equals `TestRows(t, …)`
for the step's own collaborators (predicate `Linked`).

Some consequences of the code that a reader might not expect:

- A test whose pipeline loads, runs without errors and gets no validator
  result emits no row at all (`Rows.EmptyGroupIff`).
- `init` checks only that a test-name field is configured. A configured
  name that is absent from the input makes the first `processRow` call
  throw, before any test runs (`ExecuteTestsStep.StreamSetupCases`).
- In stream mode no type filter is applied. A requested test that fails to
  load aborts the step (`Listing.StreamTestsFirstMissing`); it is not
  turned into an error row.
- `copyVariablesFrom` runs after the "do not show unit-test errors" flag is
  set, so a parent run that defines that variable overrides it
  (`Loader.Configure`).

## Model

| member | source | states |
|---|---|---|
| Loader.SelectReference | src/main/java/org/pentaho/di/dataset/steps/exectests/ExecuteTests.java:240-286 | a non-empty substituted file name decides alone: with no base path it is used as is; with one, loading goes ahead exactly when resolving succeeds, and the failure carries the file name and the base path in force (the test's own, else the global one). Without a file name the object id beats the repository path. A repository reference without a repository fails, naming the repository path. A resolved file name is the one loaded. Without a file name or object id, a non-empty repository path is used when a repository is connected. No reference at all fails with the test's name |
| Loader.Configure | src/main/java/org/pentaho/di/dataset/steps/exectests/ExecuteTests.java:288-306 | the prepared pipeline keeps its name and has run-unit-test "Y" and the test's name set. The error-dialog flag is "Y" unless the parent run defines it. Its variables are the pipeline's, the parent's and the three flags; every other variable is the parent's value if the parent has one, else the pipeline's own |
| Loader.LoadedPipelineRunsAsTest | src/main/java/org/pentaho/di/dataset/steps/exectests/ExecuteTests.java:236-309 | `LoadTestTransformation`: a failed choice of reference is the load's failure. A loaded pipeline has the run-mode variables set. A failure after a successful choice is the file or repository load's own (`Fetch`) |
| Loader.LoadFollowsReference | src/main/java/org/pentaho/di/dataset/steps/exectests/ExecuteTests.java:240-283 | `LoadTestTransformation` and `Fetch`, end to end over the test's fields. A non-empty file name is read as written when no base path is in force. With a base path it is read as resolved, and the load fails when resolving fails. Without a file name, the object id is read from a connected repository, else the repository path. In each case the load succeeds exactly when that read does, giving the pipeline read after `Configure` |
| Loader.FilenameOverridesRepository | src/main/java/org/pentaho/di/dataset/steps/exectests/ExecuteTests.java:241-283 | with a non-empty file name, the object id, the repository path and the repository do not affect the chosen reference |
| Loader.GlobalBasePathIsFallback | src/main/java/org/pentaho/di/dataset/steps/exectests/ExecuteTests.java:245-250 | the global base-path variable is ignored whenever the test's own base path is non-empty |
| Listing.BatchTests | src/main/java/org/pentaho/di/dataset/steps/exectests/ExecuteTests.java:130-140 | every batch-mode failure carries the metastore-read message |
| Listing.FilterFailureMessage | src/main/java/org/pentaho/di/dataset/steps/exectests/ExecuteTests.java:132-139 | filtering a listing fails only with the metastore-read message |
| Listing.StreamTestsLoadsEach | src/main/java/org/pentaho/di/dataset/steps/exectests/ExecuteTests.java:116-125 | `StreamTests`: the stream list loads exactly when every requested name loads; it then has one test per name, the i-th being the i-th name's test |
| Listing.StreamTestsFirstMissing | src/main/java/org/pentaho/di/dataset/steps/exectests/ExecuteTests.java:116-123 | a failed stream list names the first requested test that does not load, all before it loading |
| Listing.StreamTestsFailureExtends | src/main/java/org/pentaho/di/dataset/steps/exectests/ExecuteTests.java:116-123 | once a prefix of the requested names fails, later names do not change the failure |
| Listing.FilterTestsFailureExtends | src/main/java/org/pentaho/di/dataset/steps/exectests/ExecuteTests.java:132-139 | once a prefix of the listing fails, later names do not change the failure |
| Listing.FilterTestsSucceeds | src/main/java/org/pentaho/di/dataset/steps/exectests/ExecuteTests.java:132-137 | batch filtering succeeds exactly when every listed name loads |
| Listing.FilterTestsKeepsMatching | src/main/java/org/pentaho/di/dataset/steps/exectests/ExecuteTests.java:130-137 | `FilterTests`: every kept test matches the type filter and is a listed test, and every listed test that matches is kept |
| Listing.FilterTestsAppend | src/main/java/org/pentaho/di/dataset/steps/exectests/ExecuteTests.java:132-137 | filtering keeps listing order: filtering a concatenated listing is the concatenation of the filtered parts |
| Listing.UnfilteredBatchLoadsAll | src/main/java/org/pentaho/di/dataset/steps/exectests/ExecuteTests.java:132-136 | with no type requested, batch mode keeps every listed test in listing order, as stream mode would load them |
| Listing.FilterByUnitKeepsTwo | src/main/java/org/pentaho/di/dataset/steps/exectests/ExecuteTests.java:134-135 | requesting unit tests from a listing of two unit tests and a development test keeps the two unit tests, in order |
| Rows.LoadFailureGivesOneRow | src/main/java/org/pentaho/di/dataset/steps/exectests/ExecuteTests.java:218-227 | `ErrorRow` and `GroupRows`: a failed load gives exactly one error row: no pipeline name, the test's name, no data set or step, the message followed by " : " and the stack trace |
| Rows.RunFailureGivesOneRow | src/main/java/org/pentaho/di/dataset/steps/exectests/ExecuteTests.java:177-228 | a run that cannot start gives exactly one error row with the pipeline's name; a validation that throws gives one error row after the run's diagnostic row |
| Rows.ValidatorRowsInOrder | src/main/java/org/pentaho/di/dataset/steps/exectests/ExecuteTests.java:183-212 | `DiagnosticRows` (lines 186-195), `ResultRow` (lines 202-211) and `GroupRows`: a run with a non-zero error count puts one diagnostic row (pipeline name, log text, error) first; then each validator result gives one row with its six fields, in order, and nothing else |
| Rows.CleanRowsComeFromValidator | src/main/java/org/pentaho/di/dataset/steps/exectests/ExecuteTests.java:183-228 | every row whose error flag is off is the row of some validator result of a run that loaded and finished |
| Rows.EmptyGroupIff | src/main/java/org/pentaho/di/dataset/steps/exectests/ExecuteTests.java:150-229 | `GroupRows`: a test contributes no row exactly when it loads, runs with zero errors and the validator returns no result |
| Rows.FlattenAppend | src/main/java/org/pentaho/di/dataset/steps/exectests/ExecuteTests.java:148-151 | the rows of two consecutive lists of tests are the rows of the first followed by those of the second |
| Rows.AllRowsGroups | src/main/java/org/pentaho/di/dataset/steps/exectests/ExecuteTests.java:148-151 | each test's group sits after the groups of the tests before it and before those after it |
| ExecuteTestsStep.IndexOfValue | src/main/java/org/pentaho/di/dataset/steps/exectests/ExecuteTests.java:111-112 | the result is -1 exactly when the field is absent, else the position of its first occurrence |
| ExecuteTestsStep.ExecuteTests.constructor | src/main/java/org/pentaho/di/dataset/steps/exectests/ExecuteTests.java:55-57 | a fresh step: first call pending, no errors, no output |
| ExecuteTestsStep.ExecuteTests.Init | src/main/java/org/pentaho/di/dataset/steps/exectests/ExecuteTests.java:60-85 | init succeeds exactly when the metastore is there, a step with input has a test-name field configured, and the base init succeeds. Either setup failure sets exactly one error. Nothing is read or emitted |
| ExecuteTestsStep.ExecuteTests.GetRow | src/main/java/org/pentaho/di/dataset/steps/exectests/ExecuteTests.java:102-124 | hands out the next incoming row, or null once the input is exhausted |
| ExecuteTestsStep.ExecuteTests.PutRow | src/main/java/org/pentaho/di/dataset/steps/exectests/ExecuteTests.java:195-227 | appends one row to the output |
| ExecuteTestsStep.ExecuteTests.ReadStreamTests | src/main/java/org/pentaho/di/dataset/steps/exectests/ExecuteTests.java:99-125 | the loop's list is the stream-mode listing: no input, the missing-field exception, the first load failure, or one test per row in arrival order. A built list means the whole input was read first; with no input only the end of input was read |
| ExecuteTestsStep.ExecuteTests.LoadCatalogTests | src/main/java/org/pentaho/di/dataset/steps/exectests/ExecuteTests.java:126-141 | the loop's list is the batch-mode listing: the listed tests of the requested type in listing order, or the metastore-read exception |
| ExecuteTestsStep.ExecuteTests.RunTest | src/main/java/org/pentaho/di/dataset/steps/exectests/ExecuteTests.java:150-229 | the output grows by exactly this test's row group |
| ExecuteTestsStep.ExecuteTests.RunLoaded | src/main/java/org/pentaho/di/dataset/steps/exectests/ExecuteTests.java:167-228 | for a loaded pipeline the output grows by the diagnostic row, if any, and the validator rows or the exception row |
| ExecuteTestsStep.ExecuteTests.BuildTestList | src/main/java/org/pentaho/di/dataset/steps/exectests/ExecuteTests.java:92-146 | the first call builds the step's listing. A listing that fails, or that finds no input row, stops the step with no output, and output-done is set only when there was no input. A built list leaves the step running with no test attempted yet; in stream mode the whole input has then been read. Batch mode reads no input |
| ExecuteTestsStep.ExecuteTests.ExecuteNext | src/main/java/org/pentaho/di/dataset/steps/exectests/ExecuteTests.java:148-233 | attempts the next test and returns true with its group appended; at the end of the list it sets output-done and returns false, emitting nothing |
| ExecuteTestsStep.ExecuteTests.ProcessRow | src/main/java/org/pentaho/di/dataset/steps/exectests/ExecuteTests.java:87-234 | the first call returns false on no input and throws on a failed listing, emitting nothing. Otherwise each call attempts exactly the next listed test, or ends the output. Calls after the first read no input. The invariant keeps the output equal to the groups of the attempted tests in order |
| ExecuteTestsStep.RunStep | src/main/java/org/pentaho/di/dataset/steps/exectests/ExecuteTests.java:60-234 | a whole run emits the rows of every listed test in list order, each attempted once, or nothing when setup or listing fails. It ends as the listing says, and the error count is one exactly when setup fails |
| ExecuteTestsStep.StreamRunsEachInputRow | src/main/java/org/pentaho/di/dataset/steps/exectests/ExecuteTests.java:99-125 | with input whose rows all name loadable tests, the step runs those tests, one per row, in arrival order, and completes |
| ExecuteTestsStep.StreamStopsAtFirstMissing | src/main/java/org/pentaho/di/dataset/steps/exectests/ExecuteTests.java:116-123 | the first row naming a test that does not load aborts the step with that test's name, before any test runs |
| ExecuteTestsStep.StreamSetupCases | src/main/java/org/pentaho/di/dataset/steps/exectests/ExecuteTests.java:104-114 | with no input rows the step completes with no output; with a missing field it aborts with the field's message and no output |
| ExecuteTestsStep.BatchRunsCatalogInOrder | src/main/java/org/pentaho/di/dataset/steps/exectests/ExecuteTests.java:130-137 | without input and without a type filter, the step runs every catalog test in listing order |
| ExecuteTestsStep.BatchFailureAborts | src/main/java/org/pentaho/di/dataset/steps/exectests/ExecuteTests.java:130-140 | without input, the step aborts with the metastore-read message exactly when the catalog cannot be listed or one listed test does not load; an aborted step emits nothing |

## Left out

- The pipeline engine, the validator (`DataSetConst.validateTransResultAgainstUnitTest`) and the data-set factory hierarchy are not modelled. One function gives the observed run outcome: could not start, or an error count, a log and the validation's results or exception. `Trans` construction, log levels, repository, metastore and arguments passing (lines 167-178) are not represented.
- `DataSetHelper.selectUnitTest` (line 301) and `copyParametersFrom` (line 297) are outside this model. Setting the repository and metastore handles on the loaded pipeline (lines 294-295) is not represented.
- Logging (`logError`, `logDetailed`, `isDetailed`) and the output row metadata (`outputRowMeta`, `getFields`, lines 144-145) are not modelled.
- `KettleVFS.getFileObject` (line 254) is folded into `resolve`. A failure there would escape with the file system's own message rather than the path-resolution message.
- `Rows.ErrorRow`: the message is the model's exception message. `KettleException.getMessage` formatting, and the stack trace beyond an opaque function of the message, are not modelled.
- `Loader.Fetch`: a file or repository load returning null, not throwing, would give the "no valid reference" message (line 284). The model treats every load as either a pipeline or an exception.
- `Listing.StreamTests`: `loadElement` returning null for an unknown name, and not throwing, is not modelled. Every name that is not in the catalog is treated as a load exception.
- `Listing.FilterTests`: only metastore exceptions from `loadElement` and `getElementNames` are modelled (line 138). Other runtime exceptions escape the step and are not represented.
- Exceptions other than `KettleException` during a test's run (line 215) would escape `processRow`. They are not modelled.
- Incoming rows are sequences of strings. Null field values and type conversion by `getString` (line 117) are not modelled. `ExecuteTestsStep.IndexOfValue` is an exact name match, whereas Kettle's `RowMeta.indexOfValue` ignores letter case.
- The concrete values of `DataSetConst.VAR_DO_NOT_SHOW_UNIT_TEST_ERRORS`, `VAR_RUN_UNIT_TEST`, `VAR_UNIT_TEST_NAME` and `VARIABLE_UNIT_TESTS_BASE_PATH` are not modelled. They are distinct keys of the variable map; the global base path is a parameter.
- `getDirectoryFromPath`, `getNameFromPath` and `findDirectory` (lines 277-279) are folded into the repository's load-by-path function.
- ExecuteTestsStep.RunStep: what the Kettle step runner does when `processRow` throws (it sets the step's error count to one and stops the transformation) is not modelled. That runner is not part of this model; `RunStep` returns the abort message as `Aborted`, and its error count is only what `init` sets.
- Concurrency across step copies, and the engine calling `processRow` again after it returned false or threw, are not modelled. The ghost flags `initialized` and `stopped` express the engine's protocol.
