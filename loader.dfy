/**
 * Loading the pipeline a unit test refers to (ExecuteTests.loadTestTransformation).
 * The choice of reference is a pure function; the file system, the repository
 * and the parent run's variables are parameters.
 */
module Loader {
  import opened Wrappers
  import opened Model

  /** The connected repository: load the latest version by object id, or by path. */
  datatype Repository = Repository(
    loadById: string -> Result<Pipeline, string>,
    loadByPath: string -> Result<Pipeline, string>)

  /** What loading depends on besides the test itself. */
  datatype LoadContext = LoadContext(
    transSubstitute: string -> string,             // the parent run's environmentSubstitute
    stepSubstitute: string -> string,              // this step's environmentSubstitute
    globalBasePath: NString,                       // the variable VARIABLE_UNIT_TESTS_BASE_PATH
    resolve: (string, string) -> Option<string>,   // resolve a file name against a base path; None if that throws
    loadFile: string -> Result<Pipeline, string>,  // read a pipeline file
    repository: Option<Repository>,
    parentVariables: map<Variable, string>)        // the variables copied from the parent run

  /** The reference a test's pipeline is loaded from. */
  datatype Reference = File(filename: string) | ObjectId(id: string) | RepositoryPath(path: string)

  /** Why a load failed: each is a KettleException thrown by ExecuteTests.loadTestTransformation. */
  datatype LoadError =
    | PathResolution(filename: string, basePath: string)
    | NoRepository(repositoryPath: NString)
    | MissingReference(testName: string)
    | Collaborator(message: string)

  /** The exception message of each failure. */
  function Message(e: LoadError): string {
    match e
    case PathResolution(f, b) => "Unable to resolve relative path of " + f + " against base path " + b
    case NoRepository(p) => "No repository available to load transformation from '" + Show(p) + "'"
    case MissingReference(n) =>
      "Unable to find a valid file or repository reference for transformation in unit test '" + n + "'"
    case Collaborator(m) => m
  }

  /** The test's file name after substitution in the parent run's variables. */
  function Filename(test: UnitTest, ctx: LoadContext): NString {
    Substitute(ctx.transSubstitute, test.transFilename)
  }

  /** The test's own base path after substitution in this step's variables. */
  function TestBasePath(test: UnitTest, ctx: LoadContext): NString {
    Substitute(ctx.stepSubstitute, test.basePath)
  }

  /** The base path in force: the test's own unless it is empty, else the global variable. */
  function BasePath(test: UnitTest, ctx: LoadContext): NString {
    if IsEmpty(TestBasePath(test, ctx)) then ctx.globalBasePath else TestBasePath(test, ctx)
  }

  /**
   * Which reference the pipeline is loaded from: the file name first, then the
   * object id, then the repository path.
   */
  function SelectReference(test: UnitTest, ctx: LoadContext): (r: Result<Reference, LoadError>)
    // A non-empty file name decides alone: a file, or the failure to resolve it.
    ensures !IsEmpty(Filename(test, ctx)) ==>
      (r.Success? ==> r.value.File?) && (r.Failure? ==> r.error.PathResolution?)
    // Without any base path the substituted file name is used as it is.
    ensures !IsEmpty(Filename(test, ctx)) && IsEmpty(TestBasePath(test, ctx)) && IsEmpty(ctx.globalBasePath) ==>
      r == Success(File(Filename(test, ctx).value))
    // With a base path, loading goes ahead exactly when resolving against it succeeds,
    // and the test's own base path is preferred to the global one.
    ensures !IsEmpty(Filename(test, ctx)) && !IsEmpty(BasePath(test, ctx)) ==>
      (r.Success? <==> ctx.resolve(BasePath(test, ctx).value, Filename(test, ctx).value).Some?)
    // The file loaded is then the resolved name, not the name as written.
    ensures (!IsEmpty(Filename(test, ctx)) && !IsEmpty(BasePath(test, ctx)) &&
             ctx.resolve(BasePath(test, ctx).value, Filename(test, ctx).value).Some?) ==>
      r == Success(File(ctx.resolve(BasePath(test, ctx).value, Filename(test, ctx).value).value))
    ensures r.Failure? && r.error.PathResolution? ==>
      Filename(test, ctx) == Some(r.error.filename) &&
      BasePath(test, ctx) == Some(r.error.basePath)
    // Repository references are only chosen without a file name and with a repository.
    ensures r.Success? && !r.value.File? ==> IsEmpty(Filename(test, ctx)) && ctx.repository.Some?
    ensures r.Success? && r.value.ObjectId? ==> test.transObjectId == Some(r.value.id)
    ensures r.Success? && r.value.RepositoryPath? ==>
      IsEmpty(test.transObjectId) && test.transRepositoryPath == Some(r.value.path)
    // The object id is preferred to the repository path.
    ensures IsEmpty(Filename(test, ctx)) && !IsEmpty(test.transObjectId) && ctx.repository.Some? ==>
      r == Success(ObjectId(test.transObjectId.value))
    // The repository path is used when it is the only reference and a repository is connected.
    ensures (IsEmpty(Filename(test, ctx)) && IsEmpty(test.transObjectId) && !IsEmpty(test.transRepositoryPath) &&
             ctx.repository.Some?) ==> r == Success(RepositoryPath(test.transRepositoryPath.value))
    // A repository reference without a repository fails; the message names the repository path.
    ensures (r.Failure? && r.error.NoRepository?) <==>
      IsEmpty(Filename(test, ctx)) && ctx.repository.None? &&
      (!IsEmpty(test.transObjectId) || !IsEmpty(test.transRepositoryPath))
    ensures r.Failure? && r.error.NoRepository? ==> r.error.repositoryPath == test.transRepositoryPath
    // No reference at all.
    ensures r == Failure(MissingReference(test.name)) <==>
      IsEmpty(Filename(test, ctx)) && IsEmpty(test.transObjectId) && IsEmpty(test.transRepositoryPath)
    ensures r.Failure? ==> !r.error.Collaborator?
  {
    var filename := Filename(test, ctx);
    if !IsEmpty(filename) then
      var basePath := BasePath(test, ctx);
      if IsEmpty(basePath) then
        Success(File(filename.value))
      else
        match ctx.resolve(basePath.value, filename.value)
        case Some(resolved) => Success(File(resolved))
        case None => Failure(PathResolution(filename.value, basePath.value))
    else if !IsEmpty(test.transObjectId) then
      if ctx.repository.None? then Failure(NoRepository(test.transRepositoryPath))
      else Success(ObjectId(test.transObjectId.value))
    else if !IsEmpty(test.transRepositoryPath) then
      if ctx.repository.None? then Failure(NoRepository(test.transRepositoryPath))
      else Success(RepositoryPath(test.transRepositoryPath.value))
    else
      Failure(MissingReference(test.name))
  }

  /** Read the pipeline from the chosen reference. */
  function Fetch(ref: Reference, ctx: LoadContext): Result<Pipeline, LoadError>
    requires !ref.File? ==> ctx.repository.Some?
  {
    var loaded :=
      match ref
      case File(f) => ctx.loadFile(f)
      case ObjectId(id) => ctx.repository.value.loadById(id)
      case RepositoryPath(p) => ctx.repository.value.loadByPath(p);
    match loaded
    case Success(p) => Success(p)
    case Failure(m) => Failure(Collaborator(m))
  }

  /**
   * Prepare a loaded pipeline for a unit-test run: suppress the unit-test error
   * dialog, copy the parent run's variables, then mark the run as the run of
   * this test.
   */
  function Configure(p: Pipeline, test: UnitTest, parent: map<Variable, string>): (q: Pipeline)
    ensures q.name == p.name
    ensures RunUnitTest in q.variables && q.variables[RunUnitTest] == "Y"
    ensures UnitTestName in q.variables && q.variables[UnitTestName] == test.name
    // The parent's copy comes after the error-dialog flag and can override it.
    ensures DoNotShowUnitTestErrors in q.variables
    ensures q.variables[DoNotShowUnitTestErrors] ==
      if DoNotShowUnitTestErrors in parent then parent[DoNotShowUnitTestErrors] else "Y"
    ensures q.variables.Keys == p.variables.Keys + parent.Keys + {DoNotShowUnitTestErrors, RunUnitTest, UnitTestName}
    ensures forall v :: v in q.variables && v.Other? ==>
      q.variables[v] == if v in parent then parent[v] else p.variables[v]
  {
    var copied := p.variables[DoNotShowUnitTestErrors := "Y"] + parent;
    Pipeline(p.name, copied[RunUnitTest := "Y"][UnitTestName := test.name])
  }

  /** loadTestTransformation: select, read and prepare the pipeline, or fail. */
  function LoadTestTransformation(test: UnitTest, ctx: LoadContext): Result<Pipeline, LoadError>
  {
    match SelectReference(test, ctx)
    case Failure(e) => Failure(e)
    case Success(ref) =>
      match Fetch(ref, ctx)
      case Failure(e) => Failure(e)
      case Success(p) => Success(Configure(p, test, ctx.parentVariables))
  }

  /**
   * A failed choice of reference is the load's failure; a successful load
   * runs the pipeline as this test, with the unit-test error dialog
   * suppressed unless the parent run sets that variable itself.
   */
  lemma LoadedPipelineRunsAsTest(test: UnitTest, ctx: LoadContext)
    ensures SelectReference(test, ctx).Failure? ==>
      LoadTestTransformation(test, ctx) == Failure(SelectReference(test, ctx).error)
    ensures LoadTestTransformation(test, ctx).Success? ==>
      var p := LoadTestTransformation(test, ctx).value;
      && SelectReference(test, ctx).Success?
      && RunUnitTest in p.variables && p.variables[RunUnitTest] == "Y"
      && UnitTestName in p.variables && p.variables[UnitTestName] == test.name
      && DoNotShowUnitTestErrors in p.variables
      && (DoNotShowUnitTestErrors !in ctx.parentVariables ==> p.variables[DoNotShowUnitTestErrors] == "Y")
    // A failure after a successful choice is the collaborator's own.
    ensures LoadTestTransformation(test, ctx).Failure? && SelectReference(test, ctx).Success? ==>
      LoadTestTransformation(test, ctx).error.Collaborator?
  {
  }

  /** A non-empty file name makes the object id, the repository path and the repository irrelevant. */
  lemma FilenameOverridesRepository(test: UnitTest, ctx: LoadContext, objectId: NString, path: NString, repository: Option<Repository>)
    requires !IsEmpty(Filename(test, ctx))
    ensures SelectReference(test, ctx) ==
            SelectReference(test.(transObjectId := objectId, transRepositoryPath := path), ctx.(repository := repository))
  {
  }

  /** The global base path is consulted only when the test's own base path is empty. */
  lemma GlobalBasePathIsFallback(test: UnitTest, ctx: LoadContext, global: NString)
    requires !IsEmpty(TestBasePath(test, ctx))
    ensures LoadTestTransformation(test, ctx) == LoadTestTransformation(test, ctx.(globalBasePath := global))
  {
  }

  /**
   * End to end, the load reads the source the test's own fields name: the
   * file (as resolved, when a base path is in force), else the repository by
   * object id, else the repository by path. It succeeds exactly when that read
   * does, with the pipeline read, prepared for the test.
   */
  lemma LoadFollowsReference(test: UnitTest, ctx: LoadContext)
    ensures !IsEmpty(Filename(test, ctx)) && IsEmpty(BasePath(test, ctx)) ==>
      var read := ctx.loadFile(Filename(test, ctx).value);
      && (LoadTestTransformation(test, ctx).Success? <==> read.Success?)
      && (read.Success? ==> LoadTestTransformation(test, ctx) == Success(Configure(read.value, test, ctx.parentVariables)))
    ensures !IsEmpty(Filename(test, ctx)) && !IsEmpty(BasePath(test, ctx)) ==>
      match ctx.resolve(BasePath(test, ctx).value, Filename(test, ctx).value)
      case None => LoadTestTransformation(test, ctx).Failure?
      case Some(resolved) =>
        var read := ctx.loadFile(resolved);
        && (LoadTestTransformation(test, ctx).Success? <==> read.Success?)
        && (read.Success? ==> LoadTestTransformation(test, ctx) == Success(Configure(read.value, test, ctx.parentVariables)))
    ensures IsEmpty(Filename(test, ctx)) && !IsEmpty(test.transObjectId) && ctx.repository.Some? ==>
      var read := ctx.repository.value.loadById(test.transObjectId.value);
      && (LoadTestTransformation(test, ctx).Success? <==> read.Success?)
      && (read.Success? ==> LoadTestTransformation(test, ctx) == Success(Configure(read.value, test, ctx.parentVariables)))
    ensures (IsEmpty(Filename(test, ctx)) && IsEmpty(test.transObjectId) && !IsEmpty(test.transRepositoryPath) &&
             ctx.repository.Some?) ==>
      var read := ctx.repository.value.loadByPath(test.transRepositoryPath.value);
      && (LoadTestTransformation(test, ctx).Success? <==> read.Success?)
      && (read.Success? ==> LoadTestTransformation(test, ctx) == Success(Configure(read.value, test, ctx.parentVariables)))
  {
  }
}
