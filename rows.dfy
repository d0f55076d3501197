/**
 * The rows one test contributes to the step's output (the body of
 * ExecuteTests.processRow after the first call), and the rows of a whole
 * list of tests.
 */
module Rows {
  import opened Wrappers
  import opened Model
  import opened Loader

  /** What validating a finished run gives: the validator's results, or a KettleException. */
  datatype Validation = Validated(results: seq<UnitTestResult>) | ValidationFailed(message: string)

  /** The observed outcome of running a loaded pipeline. */
  datatype RunOutcome =
    | StartFailed(message: string)                                 // execute threw a KettleException
    | Ran(nrErrors: int, logText: NString, validation: Validation)  // the run finished

  /** The pipeline engine with its validation, and the stack-trace text of an exception. */
  datatype Runner = Runner(execute: (Pipeline, UnitTest) -> RunOutcome, stackTrace: string -> string)

  /** The row a KettleException becomes: no data set, no step, flagged as an error. */
  function ErrorRow(pipelineName: NString, test: UnitTest, message: string, runner: Runner): Row {
    Row(pipelineName, Some(test.name), None, None, true, Some(message + " : " + runner.stackTrace(message)))
  }

  /** The diagnostic row of a run that reports errors: the run's log, no test name. */
  function DiagnosticRows(p: Pipeline, nrErrors: int, logText: NString): seq<Row> {
    if nrErrors != 0 then [Row(p.name, None, None, None, true, logText)] else []
  }

  /** A validator result as an output row, field for field. */
  function ResultRow(r: UnitTestResult): Row {
    Row(r.transformationName, r.unitTestName, r.dataSetName, r.stepName, r.isError, r.comment)
  }

  function ResultRows(results: seq<UnitTestResult>): seq<Row> {
    seq(|results|, i requires 0 <= i < |results| => ResultRow(results[i]))
  }

  /**
   * Everything one test puts on the output, given what loading its pipeline
   * gave: load, run, validate, with each KettleException turned into a row.
   */
  function GroupRows(test: UnitTest, loaded: Result<Pipeline, LoadError>, runner: Runner): seq<Row> {
    match loaded
    case Failure(e) => [ErrorRow(None, test, Message(e), runner)]
    case Success(p) =>
      match runner.execute(p, test)
      case StartFailed(m) => [ErrorRow(p.name, test, m, runner)]
      case Ran(n, log, v) =>
        DiagnosticRows(p, n, log) +
        match v
        case Validated(results) => ResultRows(results)
        case ValidationFailed(m) => [ErrorRow(p.name, test, m, runner)]
  }

  /** The rows of one test. */
  function TestRows(test: UnitTest, ctx: LoadContext, runner: Runner): seq<Row> {
    GroupRows(test, LoadTestTransformation(test, ctx), runner)
  }

  /** The groups of rows of a list of tests, one after the other in list order. */
  function Flatten(tests: seq<UnitTest>, rowsOf: UnitTest -> seq<Row>): seq<Row>
    decreases |tests|
  {
    if tests == [] then []
    else Flatten(tests[..|tests| - 1], rowsOf) + rowsOf(tests[|tests| - 1])
  }

  function Group(ctx: LoadContext, runner: Runner): UnitTest -> seq<Row> {
    test => TestRows(test, ctx, runner)
  }

  /** The rows of a list of tests: one group per test, in list order. */
  function AllRows(tests: seq<UnitTest>, ctx: LoadContext, runner: Runner): seq<Row> {
    Flatten(tests, Group(ctx, runner))
  }

  /** A failed load gives exactly one error row, without a pipeline name. */
  lemma LoadFailureGivesOneRow(test: UnitTest, e: LoadError, runner: Runner)
    ensures GroupRows(test, Failure(e), runner) ==
      [Row(None, Some(test.name), None, None, true, Some(Message(e) + " : " + runner.stackTrace(Message(e))))]
  {
  }

  /**
   * A run that cannot start gives exactly one error row with the pipeline's
   * name; a validation that throws gives one error row after the diagnostic
   * row already emitted for that run.
   */
  lemma RunFailureGivesOneRow(test: UnitTest, p: Pipeline, runner: Runner)
    ensures match runner.execute(p, test)
      case StartFailed(m) =>
        GroupRows(test, Success(p), runner) ==
        [Row(p.name, Some(test.name), None, None, true, Some(m + " : " + runner.stackTrace(m)))]
      case Ran(n, log, ValidationFailed(m)) =>
        GroupRows(test, Success(p), runner) ==
        DiagnosticRows(p, n, log) + [Row(p.name, Some(test.name), None, None, true, Some(m + " : " + runner.stackTrace(m)))]
      case Ran(_, _, Validated(_)) => true
  {
  }

  /**
   * A run with a non-zero error count puts its diagnostic row before any
   * validator row; then each validator result gives one row, in order, with
   * the result's six fields, and nothing else.
   */
  lemma {:induction false} ValidatorRowsInOrder(test: UnitTest, p: Pipeline, runner: Runner)
    requires runner.execute(p, test).Ran? && runner.execute(p, test).validation.Validated?
    ensures var outcome := runner.execute(p, test);
      var results := outcome.validation.results;
      var rows := GroupRows(test, Success(p), runner);
      var offset := if outcome.nrErrors != 0 then 1 else 0;
      && |rows| == offset + |results|
      && (outcome.nrErrors != 0 ==> rows[0] == Row(p.name, None, None, None, true, outcome.logText))
      && (forall i :: 0 <= i < |results| ==>
            rows[offset + i] == Row(results[i].transformationName, results[i].unitTestName,
                                    results[i].dataSetName, results[i].stepName,
                                    results[i].isError, results[i].comment))
  {
    var outcome := runner.execute(p, test);
    var results := outcome.validation.results;
    var offset := if outcome.nrErrors != 0 then 1 else 0;
    var rows := GroupRows(test, Success(p), runner);
    assert rows == DiagnosticRows(p, outcome.nrErrors, outcome.logText) + ResultRows(results);
    forall i | 0 <= i < |results|
      ensures rows[offset + i] == ResultRow(results[i])
    {
      assert rows[offset + i] == ResultRows(results)[i];
    }
  }

  /** Every row whose error flag is off is a validator result's row. */
  lemma {:induction false} CleanRowsComeFromValidator(test: UnitTest, loaded: Result<Pipeline, LoadError>, runner: Runner)
    ensures forall k :: 0 <= k < |GroupRows(test, loaded, runner)| && !GroupRows(test, loaded, runner)[k].error ==>
      && loaded.Success?
      && var outcome := runner.execute(loaded.value, test);
      && outcome.Ran? && outcome.validation.Validated?
      && exists i :: 0 <= i < |outcome.validation.results| &&
           GroupRows(test, loaded, runner)[k] == ResultRow(outcome.validation.results[i])
  {
    var rows := GroupRows(test, loaded, runner);
    forall k | 0 <= k < |rows| && !rows[k].error
      ensures loaded.Success?
      ensures var outcome := runner.execute(loaded.value, test);
        && outcome.Ran? && outcome.validation.Validated?
        && exists i :: 0 <= i < |outcome.validation.results| && rows[k] == ResultRow(outcome.validation.results[i])
    {
      var p := loaded.value;
      var outcome := runner.execute(p, test);
      var results := outcome.validation.results;
      var offset := if outcome.nrErrors != 0 then 1 else 0;
      assert rows == DiagnosticRows(p, outcome.nrErrors, outcome.logText) + ResultRows(results);
      assert k >= offset;
      assert rows[k] == ResultRows(results)[k - offset];
    }
  }

  /**
   * A test contributes no row at all exactly when it loads, runs without
   * errors and the validator returns no result.
   */
  lemma EmptyGroupIff(test: UnitTest, loaded: Result<Pipeline, LoadError>, runner: Runner)
    ensures GroupRows(test, loaded, runner) == [] <==>
      && loaded.Success?
      && runner.execute(loaded.value, test).Ran?
      && runner.execute(loaded.value, test).nrErrors == 0
      && runner.execute(loaded.value, test).validation == Validated([])
  {
  }

  /** The groups of two lists of tests appear one after the other. */
  lemma {:induction false} FlattenAppend(a: seq<UnitTest>, b: seq<UnitTest>, rowsOf: UnitTest -> seq<Row>)
    ensures Flatten(a + b, rowsOf) == Flatten(a, rowsOf) + Flatten(b, rowsOf)
    decreases |b|
  {
    if b == [] {
      assert a + b == a;
    } else {
      var init := b[..|b| - 1];
      assert (a + b)[..|a + b| - 1] == a + init;
      assert (a + b)[|a + b| - 1] == b[|b| - 1];
      FlattenAppend(a, init, rowsOf);
    }
  }

  /** Each test of a list is attempted once, in order: its group follows those of the tests before it. */
  lemma AllRowsGroups(tests: seq<UnitTest>, k: nat, ctx: LoadContext, runner: Runner)
    requires k < |tests|
    ensures AllRows(tests, ctx, runner) ==
      AllRows(tests[..k], ctx, runner) + TestRows(tests[k], ctx, runner) + AllRows(tests[k + 1..], ctx, runner)
  {
    var g := Group(ctx, runner);
    assert tests == tests[..k] + [tests[k]] + tests[k + 1..];
    FlattenAppend(tests[..k] + [tests[k]], tests[k + 1..], g);
    FlattenAppend(tests[..k], [tests[k]], g);
    assert [tests[k]][..0] == [];
    assert Flatten([tests[k]], g) == g(tests[k]);
  }

  /** Any function that agrees with TestRows gives the same rows for a list. */
  lemma {:induction false} FlattenAgrees(tests: seq<UnitTest>, rowsOf: UnitTest -> seq<Row>, ctx: LoadContext, runner: Runner)
    requires forall t {:trigger TestRows(t, ctx, runner)} :: rowsOf(t) == TestRows(t, ctx, runner)
    ensures Flatten(tests, rowsOf) == AllRows(tests, ctx, runner)
    decreases |tests|
  {
    if tests != [] {
      FlattenAgrees(tests[..|tests| - 1], rowsOf, ctx, runner);
      assert rowsOf(tests[|tests| - 1]) == TestRows(tests[|tests| - 1], ctx, runner);
    }
  }
}
