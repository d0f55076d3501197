/**
 * The unit-test runner step (ExecuteTests): a setup check, then one
 * processRow call that builds the test list and one call per test, each
 * putting that test's rows on the output, until the list is exhausted.
 */
module ExecuteTestsStep {
  import opened Wrappers
  import opened Model
  import opened Loader
  import opened Listing
  import opened Rows

  /** The step's settings (ExecuteTestsMeta). */
  datatype StepConfig = StepConfig(testNameInputField: NString, typeToExecute: Option<TestType>)

  /** What the step finds around it when it runs. */
  datatype StepEnv = StepEnv(
    prevSteps: nat,              // number of steps that feed this one
    metastoreAvailable: bool,    // the factories hierarchy can be built
    baseInit: bool,              // what BaseStep.init returns
    inputFields: seq<string>,    // the input row's field names
    input: seq<seq<string>>,     // the incoming rows, in arrival order
    catalog: Catalog,
    load: LoadContext,
    runner: Runner)
  {
    /** Every incoming row has one value per input field. */
    predicate WellFormed() {
      forall i :: 0 <= i < |input| ==> |input[i]| == |inputFields|
    }
  }

  /** RowMeta.indexOfValue: the position of the first field with this name, or -1. */
  function IndexOfValue(fields: seq<string>, name: string): (r: int)
    ensures -1 <= r < |fields|
    ensures r == -1 <==> name !in fields
    ensures r >= 0 ==> fields[r] == name && forall j :: 0 <= j < r ==> fields[j] != name
    decreases |fields|
  {
    if fields == [] then -1
    else if fields[0] == name then 0
    else
      var r := IndexOfValue(fields[1..], name);
      if r < 0 then -1 else r + 1
  }

  /** The position of the configured test-name field in the input, or -1. */
  function FieldIndex(config: StepConfig, env: StepEnv): int {
    if config.testNameInputField.None? then -1 else IndexOfValue(env.inputFields, config.testNameInputField.value)
  }

  function MissingFieldMessage(field: NString): string {
    "Unable to find test name field '" + Show(field) + "' in the input"
  }

  /** The values of the field at this position, one per incoming row. */
  function Names(input: seq<seq<string>>, index: nat): seq<string>
    requires forall i :: 0 <= i < |input| ==> index < |input[i]|
  {
    seq(|input|, i requires 0 <= i < |input| => input[i][index])
  }

  /** How building the test list on the first processRow call ends. */
  datatype TestListing = NoInput | Listed(tests: seq<UnitTest>) | ListFailed(message: string)

  /** Stream mode: no input row, a missing field, or one loaded test per incoming row. */
  function StreamListing(config: StepConfig, env: StepEnv): TestListing
    requires env.WellFormed()
  {
    if |env.input| == 0 then NoInput
    else
      var index := FieldIndex(config, env);
      if index < 0 then ListFailed(MissingFieldMessage(config.testNameInputField))
      else
        match StreamTests(env.catalog.elements, Names(env.input, index))
        case Success(tests) => Listed(tests)
        case Failure(m) => ListFailed(m)
  }

  /** Batch mode: the catalog's tests of the requested type. */
  function BatchListing(config: StepConfig, env: StepEnv): TestListing {
    match BatchTests(env.catalog, config.typeToExecute)
    case Success(tests) => Listed(tests)
    case Failure(m) => ListFailed(m)
  }

  /** The test list: stream mode when the step has input, batch mode otherwise. */
  function StepListing(config: StepConfig, env: StepEnv): TestListing
    requires env.WellFormed()
  {
    if env.prevSteps > 0 then StreamListing(config, env) else BatchListing(config, env)
  }

  /** The setup check of init: the metastore is there, and a step with input names its test-name field. */
  predicate SetupOk(config: StepConfig, env: StepEnv) {
    env.metastoreAvailable && !(env.prevSteps > 0 && IsEmpty(config.testNameInputField))
  }

  /** Everything the step emits from init to the end of its output. */
  function StepRows(config: StepConfig, env: StepEnv): seq<Row>
    requires env.WellFormed()
  {
    if !(SetupOk(config, env) && env.baseInit) then []
    else
      match StepListing(config, env)
      case Listed(tests) => AllRows(tests, env.load, env.runner)
      case _ => []
  }

  /** How a whole step run ends. */
  datatype StepOutcome = InitFailed | Completed | Aborted(message: string)

  function StepOutcomeOf(config: StepConfig, env: StepEnv): StepOutcome
    requires env.WellFormed()
  {
    if !(SetupOk(config, env) && env.baseInit) then InitFailed
    else
      match StepListing(config, env)
      case ListFailed(m) => Aborted(m)
      case _ => Completed
  }

  /** What one processRow call does: return true, return false, or throw a KettleException. */
  datatype StepResult = Continue | Done | Threw(message: string)

  class ExecuteTests {
    const config: StepConfig
    const env: StepEnv

    // ExecuteTestsData
    var hasPrevious: bool
    var tests: seq<UnitTest>
    var next: nat               // the position of data.testsIterator in tests

    // BaseStep state
    var first: bool
    var inputPos: nat           // the incoming rows getRow has handed out
    var output: seq<Row>        // the rows handed to putRow
    var errors: int
    var outputDone: bool

    // The engine's protocol: processRow is called only after init returned
    // true, and never again once it returned false or threw.
    ghost var initialized: bool
    ghost var stopped: bool

    // The rows of one test with this step's collaborators (see Linked).
    ghost const rowsOf: UnitTest -> seq<Row>

    /** rowsOf is TestRows for this step's load context and runner. */
    ghost predicate Linked() {
      forall t {:trigger TestRows(t, env.load, env.runner)} :: rowsOf(t) == TestRows(t, env.load, env.runner)
    }

    ghost predicate Valid()
      reads this
    {
      && env.WellFormed()
      && inputPos <= |env.input|
      && next <= |tests|
      && (initialized ==> SetupOk(config, env) && hasPrevious == (env.prevSteps > 0))
      && (first ==> tests == [] && next == 0 && inputPos == 0 && output == [] && !outputDone && !stopped)
      && (!first && !stopped ==> StepListing(config, env) == Listed(tests))
      // The output so far is the groups of the tests attempted so far, in list order.
      && Linked()
      && output == Flatten(tests[..next], rowsOf)
    }

    constructor (config: StepConfig, env: StepEnv)
      requires env.WellFormed()
      ensures Valid() && first && !initialized && !stopped
      ensures this.config == config && this.env == env
      ensures errors == 0 && output == [] && !outputDone
    {
      this.config := config;
      this.env := env;
      hasPrevious := false;
      tests := [];
      next := 0;
      first := true;
      inputPos := 0;
      output := [];
      errors := 0;
      outputDone := false;
      initialized := false;
      stopped := false;
      rowsOf := Group(env.load, env.runner);
    }

    /** init: fail with exactly one error when the metastore or the test-name field is missing. */
    method Init() returns (ok: bool)
      requires Valid() && first && !initialized
      modifies this
      ensures Valid() && first && !stopped
      ensures ok == (SetupOk(config, env) && env.baseInit) && initialized == ok
      ensures errors == if SetupOk(config, env) then old(errors) else 1
      ensures hasPrevious == if env.metastoreAvailable then env.prevSteps > 0 else old(hasPrevious)
      ensures tests == old(tests) && next == old(next) && inputPos == old(inputPos)
      ensures output == old(output) && outputDone == old(outputDone)
    {
      if !env.metastoreAvailable {
        errors := 1;
        return false;
      }
      hasPrevious := false;
      if env.prevSteps > 0 {
        hasPrevious := true;
        if IsEmpty(config.testNameInputField) {
          errors := 1;
          return false;
        }
      }
      ok := env.baseInit;
      initialized := ok;
    }

    /** getRow: the next incoming row, or None once the input is exhausted. */
    method GetRow() returns (row: Option<seq<string>>)
      requires inputPos <= |env.input|
      modifies this`inputPos
      ensures old(inputPos) < |env.input| ==> row == Some(env.input[old(inputPos)]) && inputPos == old(inputPos) + 1
      ensures old(inputPos) == |env.input| ==> row == None && inputPos == old(inputPos)
    {
      if inputPos < |env.input| {
        row := Some(env.input[inputPos]);
        inputPos := inputPos + 1;
      } else {
        row := None;
      }
    }

    /** putRow: append a row to the output. */
    method PutRow(row: Row)
      modifies this`output
      ensures output == old(output) + [row]
    {
      output := output + [row];
    }

    /** Stream mode: drain the input, loading the test each row names. */
    method ReadStreamTests() returns (listing: TestListing)
      requires env.WellFormed() && env.prevSteps > 0 && inputPos == 0 && !IsEmpty(config.testNameInputField)
      modifies this`tests, this`inputPos
      ensures listing == StreamListing(config, env)
      ensures listing.Listed? ==> tests == listing.tests
      ensures inputPos <= |env.input|
      // The whole input is read before any test runs; without input nothing is read but the end.
      ensures listing.Listed? ==> inputPos == |env.input|
      ensures listing.NoInput? ==> inputPos == 0
    {
      tests := [];
      var row := GetRow();
      if row.None? {
        return NoInput;
      }
      var index := IndexOfValue(env.inputFields, config.testNameInputField.value);
      if index < 0 {
        return ListFailed(MissingFieldMessage(config.testNameInputField));
      }
      ghost var names := Names(env.input, index);
      while row.Some?
        invariant 1 <= inputPos <= |env.input|
        invariant row.Some? ==> row.value == env.input[inputPos - 1]
        invariant row.None? ==> inputPos == |env.input|
        invariant StreamTests(env.catalog.elements, names[..if row.Some? then inputPos - 1 else inputPos]) == Success(tests)
        decreases |env.input| - inputPos + (if row.Some? then 1 else 0)
      {
        var testName := row.value[index];
        ghost var done := inputPos - 1;
        assert names[..done + 1][..done] == names[..done];
        if testName !in env.catalog.elements {
          assert StreamTests(env.catalog.elements, names[..done + 1]).Failure?;
          StreamTestsFailureExtends(env.catalog.elements, names, done + 1);
          return ListFailed(LoadTestMessage(testName));
        }
        tests := tests + [env.catalog.elements[testName]];
        row := GetRow();
      }
      assert names[..|env.input|] == names;
      listing := Listed(tests);
    }

    /** Batch mode: load every test the catalog lists and keep those of the requested type. */
    method LoadCatalogTests() returns (listing: TestListing)
      modifies this`tests
      ensures listing == BatchListing(config, env)
      ensures listing.Listed? ==> tests == listing.tests
    {
      tests := [];
      if env.catalog.names.None? {
        return ListFailed(METASTORE_READ_MESSAGE);
      }
      var names := env.catalog.names.value;
      FilterFailureMessage(env.catalog.elements, config.typeToExecute, names);
      for i := 0 to |names|
        invariant FilterTests(env.catalog.elements, config.typeToExecute, names[..i]) == Success(tests)
      {
        assert names[..i + 1][..i] == names[..i];
        if names[i] !in env.catalog.elements {
          FilterTestsFailureExtends(env.catalog.elements, config.typeToExecute, names, i + 1);
          return ListFailed(METASTORE_READ_MESSAGE);
        }
        var test := env.catalog.elements[names[i]];
        if Matches(config.typeToExecute, test) {
          tests := tests + [test];
        }
      }
      assert names[..|names|] == names;
      listing := Listed(tests);
    }

    /** Load, run and validate one test, putting its rows on the output. */
    method RunTest(test: UnitTest)
      requires Linked()
      modifies this`output
      ensures output == old(output) + rowsOf(test)
    {
      var loaded := LoadTestTransformation(test, env.load);
      assert rowsOf(test) == TestRows(test, env.load, env.runner) == GroupRows(test, loaded, env.runner);
      if loaded.Failure? {
        PutRow(ErrorRow(None, test, Message(loaded.error), env.runner));
        return;
      }
      RunLoaded(test, loaded.value);
    }

    /** Run a loaded pipeline and validate it, putting the test's rows on the output. */
    method RunLoaded(test: UnitTest, p: Pipeline)
      modifies this`output
      ensures output == old(output) + GroupRows(test, Success(p), env.runner)
    {
      match env.runner.execute(p, test)
      case StartFailed(m) =>
        PutRow(ErrorRow(p.name, test, m, env.runner));
      case Ran(nrErrors, logText, validation) =>
        if nrErrors != 0 {
          PutRow(Row(p.name, None, None, None, true, logText));
        }
        match validation
        case ValidationFailed(m) =>
          PutRow(ErrorRow(p.name, test, m, env.runner));
        case Validated(results) =>
          for i := 0 to |results|
            invariant output == old(output) + DiagnosticRows(p, nrErrors, logText) + ResultRows(results[..i])
          {
            PutRow(ResultRow(results[i]));
            assert ResultRows(results[..i + 1]) == ResultRows(results[..i]) + [ResultRow(results[i])];
          }
          assert results[..|results|] == results;
    }

    /** The first processRow call: build the test list, or end the step at once. */
    method BuildTestList() returns (listing: TestListing)
      requires Valid() && initialized && first
      modifies this
      ensures Valid() && initialized && !first
      ensures listing == StepListing(config, env)
      ensures errors == old(errors) && hasPrevious == old(hasPrevious) && output == []
      ensures listing.Listed? ==> !stopped && next == 0 && !outputDone
      ensures listing.Listed? && hasPrevious ==> inputPos == |env.input|
      ensures !hasPrevious ==> inputPos == old(inputPos)
      ensures !listing.Listed? ==> stopped && outputDone == listing.NoInput?
    {
      first := false;
      if hasPrevious {
        listing := ReadStreamTests();
      } else {
        listing := LoadCatalogTests();
      }
      if listing.NoInput? {
        outputDone := true;
      }
      stopped := !listing.Listed?;
    }

    /** A later processRow call: run the next test and return true, or end the output and return false. */
    method ExecuteNext() returns (r: StepResult)
      requires Valid() && initialized && !first && !stopped
      modifies this`next, this`output, this`outputDone, this`stopped
      ensures Valid() && StepListing(config, env) == Listed(tests)
      ensures old(next) < |tests| ==>
        && r == Continue && !stopped && next == old(next) + 1 && outputDone == old(outputDone)
        && output == old(output) + rowsOf(tests[old(next)])
      ensures old(next) == |tests| ==>
        r == Done && stopped && outputDone && next == old(next) && output == old(output)
    {
      if next < |tests| {
        var test := tests[next];
        next := next + 1;
        RunTest(test);
        assert tests[..next][..next - 1] == tests[..next - 1];
        r := Continue;
      } else {
        outputDone := true;
        stopped := true;
        r := Done;
      }
    }

    /**
     * processRow: on the first call build the test list; then run one test
     * per call and return true, or signal the end of the output and return
     * false once the list is exhausted.
     */
    method ProcessRow() returns (r: StepResult)
      requires Valid() && initialized && !stopped
      modifies this
      ensures Valid() && initialized && !first
      ensures errors == old(errors) && hasPrevious == old(hasPrevious)
      ensures r.Continue? <==> !stopped
      // The first call cannot build a list: nothing is emitted.
      ensures old(first) && !StepListing(config, env).Listed? ==>
        && output == []
        && outputDone == StepListing(config, env).NoInput?
        && r == if StepListing(config, env).NoInput? then Done else Threw(StepListing(config, env).message)
      ensures !old(first) ==> tests == old(tests) && inputPos == old(inputPos)
      // Otherwise exactly the next test of the list is attempted, or the output ends.
      ensures !old(first) || StepListing(config, env).Listed? ==>
        var at := if old(first) then 0 else old(next);
        && StepListing(config, env) == Listed(tests)
        && at <= |tests|
        && (at < |tests| ==>
              && r == Continue && next == at + 1 && outputDone == old(outputDone)
              && output == old(output) + rowsOf(tests[at]))
        && (at == |tests| ==> r == Done && outputDone && next == at && output == old(output))
    {
      if first {
        var listing := BuildTestList();
        if listing.NoInput? {
          return Done;
        } else if listing.ListFailed? {
          return Threw(listing.message);
        }
      }
      r := ExecuteNext();
    }
  }

  /**
   * The engine driving the step: init, then processRow until it returns
   * false or throws. Every listed test is attempted once, in list order.
   */
  method RunStep(config: StepConfig, env: StepEnv) returns (outcome: StepOutcome, rows: seq<Row>, errors: int)
    requires env.WellFormed()
    ensures rows == StepRows(config, env)
    ensures outcome == StepOutcomeOf(config, env)
    ensures errors == if SetupOk(config, env) then 0 else 1
    ensures !SetupOk(config, env) ==> rows == [] && errors == 1 && outcome == InitFailed
  {
    var step := new ExecuteTests(config, env);
    var ok := step.Init();
    if !ok {
      return InitFailed, step.output, step.errors;
    }
    var r := step.ProcessRow();
    while r.Continue?
      invariant step.Valid() && step.initialized && !step.first
      invariant step.config == config && step.env == env && step.errors == 0
      invariant r.Continue? <==> !step.stopped
      invariant !StepListing(config, env).Listed? ==>
        && step.output == []
        && r == if StepListing(config, env).NoInput? then Done else Threw(StepListing(config, env).message)
      invariant StepListing(config, env).Listed? ==>
        && StepListing(config, env) == Listed(step.tests)
        && !r.Threw?
        && (r.Done? ==> step.next == |step.tests|)
      decreases |step.tests| - step.next + (if r.Continue? then 1 else 0)
    {
      r := step.ProcessRow();
    }
    outcome := if r.Threw? then Aborted(r.message) else Completed;
    rows := step.output;
    errors := step.errors;
    if StepListing(config, env).Listed? {
      assert step.tests[..step.next] == step.tests;
      FlattenAgrees(step.tests, step.rowsOf, env.load, env.runner);
    }
  }

  /** A step with input whose rows all name catalog tests runs those tests, one per row, in arrival order. */
  lemma StreamRunsEachInputRow(config: StepConfig, env: StepEnv, tests: seq<UnitTest>)
    requires env.WellFormed() && SetupOk(config, env) && env.baseInit && env.prevSteps > 0
    requires 0 <= FieldIndex(config, env) && |tests| == |env.input|
    requires forall i :: 0 <= i < |env.input| ==>
      env.input[i][FieldIndex(config, env)] in env.catalog.elements &&
      tests[i] == env.catalog.elements[env.input[i][FieldIndex(config, env)]]
    ensures StepOutcomeOf(config, env) == Completed
    ensures StepRows(config, env) == AllRows(tests, env.load, env.runner)
  {
    var names := Names(env.input, FieldIndex(config, env));
    StreamTestsLoadsEach(env.catalog.elements, names);
    assert StreamTests(env.catalog.elements, names).value == tests;
  }

  /** The first incoming row naming a test the catalog cannot load aborts the step before any test runs. */
  lemma StreamStopsAtFirstMissing(config: StepConfig, env: StepEnv, k: nat)
    requires env.WellFormed() && SetupOk(config, env) && env.baseInit && env.prevSteps > 0
    requires 0 <= FieldIndex(config, env) && k < |env.input|
    requires env.input[k][FieldIndex(config, env)] !in env.catalog.elements
    requires forall j :: 0 <= j < k ==> env.input[j][FieldIndex(config, env)] in env.catalog.elements
    ensures StepOutcomeOf(config, env) == Aborted(LoadTestMessage(env.input[k][FieldIndex(config, env)]))
    ensures StepRows(config, env) == []
  {
    var names := Names(env.input, FieldIndex(config, env));
    var prefix := names[..k + 1];
    assert prefix[..k] == names[..k];
    StreamTestsLoadsEach(env.catalog.elements, names[..k]);
    assert StreamTests(env.catalog.elements, prefix) == Failure(LoadTestMessage(names[k]));
    StreamTestsFailureExtends(env.catalog.elements, names, k + 1);
  }

  /** A step with input but no rows ends at once without output; one whose field is missing aborts. */
  lemma StreamSetupCases(config: StepConfig, env: StepEnv)
    requires env.WellFormed() && SetupOk(config, env) && env.baseInit && env.prevSteps > 0
    ensures |env.input| == 0 || FieldIndex(config, env) < 0 ==> StepRows(config, env) == []
    ensures |env.input| == 0 ==> StepOutcomeOf(config, env) == Completed
    ensures |env.input| > 0 && FieldIndex(config, env) < 0 ==>
      StepOutcomeOf(config, env) == Aborted(MissingFieldMessage(config.testNameInputField))
  {
  }

  /** Without input and without a type filter, the step runs every catalog test in listing order. */
  lemma BatchRunsCatalogInOrder(config: StepConfig, env: StepEnv, names: seq<string>, tests: seq<UnitTest>)
    requires env.WellFormed() && SetupOk(config, env) && env.baseInit && env.prevSteps == 0
    requires config.typeToExecute.None? && env.catalog.names == Some(names) && |tests| == |names|
    requires forall i :: 0 <= i < |names| ==> names[i] in env.catalog.elements && tests[i] == env.catalog.elements[names[i]]
    ensures StepOutcomeOf(config, env) == Completed
    ensures StepRows(config, env) == AllRows(tests, env.load, env.runner)
  {
    FilterTestsSucceeds(env.catalog.elements, None, names);
    UnfilteredBatchLoadsAll(env.catalog.elements, names);
    StreamTestsLoadsEach(env.catalog.elements, names);
    assert StreamTests(env.catalog.elements, names).value == tests;
  }

  /** Without input, a catalog that cannot be listed or holds a test that does not load aborts the step. */
  lemma BatchFailureAborts(config: StepConfig, env: StepEnv)
    requires env.WellFormed() && SetupOk(config, env) && env.baseInit && env.prevSteps == 0
    ensures (env.catalog.names.None? ||
             exists i :: 0 <= i < |env.catalog.names.value| && env.catalog.names.value[i] !in env.catalog.elements)
      <==> StepOutcomeOf(config, env) == Aborted(METASTORE_READ_MESSAGE)
    ensures StepOutcomeOf(config, env) != Completed ==> StepRows(config, env) == []
  {
    if env.catalog.names.Some? {
      FilterTestsSucceeds(env.catalog.elements, config.typeToExecute, env.catalog.names.value);
    }
  }
}
