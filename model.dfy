/**
 * The values the unit-test runner step works on: unit-test definitions, the
 * pipelines (transformations) they load, the validator's results and the
 * fixed six-field output row.
 */
module Model {
  import opened Wrappers

  /** A Java String that may be null. */
  type NString = Option<string>

  /** StringUtils.isEmpty: null or the empty string. */
  predicate IsEmpty(s: NString) {
    s.None? || s.value == ""
  }

  /**
   * Variable substitution: like Kettle's environmentSubstitute, it returns
   * null and the empty string unchanged and substitutes in any other string.
   */
  function Substitute(subst: string -> string, s: NString): NString
  {
    if IsEmpty(s) then s else Some(subst(s.value))
  }

  /** What Java string concatenation writes for a possibly null string. */
  function Show(s: NString): string {
    if s.None? then "null" else s.value
  }

  /** The category of a unit test. */
  datatype TestType = Development | Unit

  /** A unit-test definition as the metastore holds it (only the fields the runner reads). */
  datatype UnitTest = UnitTest(
    name: string,
    testType: Option<TestType>,
    transFilename: NString,
    basePath: NString,
    transObjectId: NString,
    transRepositoryPath: NString)

  /**
   * The variables the runner sets on a loaded pipeline, named by their
   * DataSetConst constants, and every other variable by its name.
   */
  datatype Variable =
    | DoNotShowUnitTestErrors
    | RunUnitTest
    | UnitTestName
    | Other(name: string)

  /** A loaded pipeline definition: its name and its variables. */
  datatype Pipeline = Pipeline(name: NString, variables: map<Variable, string>)

  /** One result of validating a finished run against the test's golden data sets. */
  datatype UnitTestResult = UnitTestResult(
    transformationName: NString,
    unitTestName: NString,
    dataSetName: NString,
    stepName: NString,
    isError: bool,
    comment: NString)

  /** The step's output row: six fields in this order. */
  datatype Row = Row(
    transformationName: NString,
    unitTestName: NString,
    dataSetName: NString,
    stepName: NString,
    error: bool,
    comment: NString)
}
