/**
 * The list of tests the step runs, built on its first processRow call:
 * in stream mode the tests named by the incoming rows, in batch mode the
 * catalog's tests filtered by type.
 */
module Listing {
  import opened Wrappers
  import opened Model

  /**
   * The metastore's unit-test factory: the listing of element names (None
   * when listing throws) and the elements that load (a name that is not a
   * key does not load).
   */
  datatype Catalog = Catalog(names: Option<seq<string>>, elements: map<string, UnitTest>)

  function LoadTestMessage(name: string): string {
    "Unable to load test '" + name + "'"
  }

  const METASTORE_READ_MESSAGE := "Unable to read transformation unit tests from the metastore"

  /**
   * Stream mode: load each requested test in order, with no type filter.
   * The first name that does not load fails the whole list.
   */
  function StreamTests(elements: map<string, UnitTest>, names: seq<string>): Result<seq<UnitTest>, string>
    decreases |names|
  {
    if names == [] then Success([])
    else
      match StreamTests(elements, names[..|names| - 1])
      case Failure(m) => Failure(m)
      case Success(tests) =>
        var name := names[|names| - 1];
        if name in elements then Success(tests + [elements[name]]) else Failure(LoadTestMessage(name))
  }

  /** The type filter: no type requested, or the test's type is the requested one. */
  predicate Matches(filter: Option<TestType>, test: UnitTest) {
    filter.None? || filter == test.testType
  }

  /** Batch mode over a listing: load every listed test, keep those that match. */
  function FilterTests(elements: map<string, UnitTest>, filter: Option<TestType>, names: seq<string>)
    : Result<seq<UnitTest>, string>
    decreases |names|
  {
    if names == [] then Success([])
    else
      match FilterTests(elements, filter, names[..|names| - 1])
      case Failure(m) => Failure(m)
      case Success(tests) =>
        var name := names[|names| - 1];
        if name !in elements then Failure(METASTORE_READ_MESSAGE)
        else if Matches(filter, elements[name]) then Success(tests + [elements[name]])
        else Success(tests)
  }

  /** Batch mode: list the catalog and filter it. */
  function BatchTests(catalog: Catalog, filter: Option<TestType>): (r: Result<seq<UnitTest>, string>)
    ensures r.Failure? ==> r.error == METASTORE_READ_MESSAGE
  {
    match catalog.names
    case None => Failure(METASTORE_READ_MESSAGE)
    case Some(names) => FilterFailureMessage(catalog.elements, filter, names); FilterTests(catalog.elements, filter, names)
  }

  lemma {:induction false} FilterFailureMessage(elements: map<string, UnitTest>, filter: Option<TestType>, names: seq<string>)
    ensures FilterTests(elements, filter, names).Failure? ==>
      FilterTests(elements, filter, names).error == METASTORE_READ_MESSAGE
    decreases |names|
  {
    if names != [] {
      FilterFailureMessage(elements, filter, names[..|names| - 1]);
    }
  }

  /** Stream mode loads every requested test, one per name, in the order requested. */
  lemma {:induction false} StreamTestsLoadsEach(elements: map<string, UnitTest>, names: seq<string>)
    ensures StreamTests(elements, names).Success? <==> forall i :: 0 <= i < |names| ==> names[i] in elements
    ensures StreamTests(elements, names).Success? ==>
      var tests := StreamTests(elements, names).value;
      |tests| == |names| && forall i :: 0 <= i < |names| ==> tests[i] == elements[names[i]]
    decreases |names|
  {
    if names != [] {
      var init := names[..|names| - 1];
      StreamTestsLoadsEach(elements, init);
      assert forall i :: 0 <= i < |init| ==> init[i] == names[i];
    }
  }

  /** A failing stream list names the first requested test that does not load. */
  lemma {:induction false} StreamTestsFirstMissing(elements: map<string, UnitTest>, names: seq<string>)
    requires StreamTests(elements, names).Failure?
    ensures exists i :: (0 <= i < |names| && names[i] !in elements &&
      (forall j :: 0 <= j < i ==> names[j] in elements) &&
      StreamTests(elements, names).error == LoadTestMessage(names[i]))
    decreases |names|
  {
    var init := names[..|names| - 1];
    assert forall i :: 0 <= i < |init| ==> init[i] == names[i];
    if StreamTests(elements, init).Failure? {
      StreamTestsFirstMissing(elements, init);
      var i :| 0 <= i < |init| && init[i] !in elements &&
        (forall j :: 0 <= j < i ==> init[j] in elements) &&
        StreamTests(elements, init).error == LoadTestMessage(init[i]);
      assert names[i] !in elements;
    } else {
      StreamTestsLoadsEach(elements, init);
      assert names[|names| - 1] !in elements;
    }
  }

  /** Once a prefix of the names fails, the whole list fails with the same message. */
  lemma {:induction false} StreamTestsFailureExtends(elements: map<string, UnitTest>, names: seq<string>, k: nat)
    requires k <= |names| && StreamTests(elements, names[..k]).Failure?
    ensures StreamTests(elements, names) == StreamTests(elements, names[..k])
    decreases |names|
  {
    if k < |names| {
      var init := names[..|names| - 1];
      assert init[..k] == names[..k];
      StreamTestsFailureExtends(elements, init, k);
    } else {
      assert names[..k] == names;
    }
  }

  /** Once a prefix of the listing fails, the whole batch fails with the same message. */
  lemma {:induction false} FilterTestsFailureExtends(
    elements: map<string, UnitTest>, filter: Option<TestType>, names: seq<string>, k: nat)
    requires k <= |names| && FilterTests(elements, filter, names[..k]).Failure?
    ensures FilterTests(elements, filter, names) == FilterTests(elements, filter, names[..k])
    decreases |names|
  {
    if k < |names| {
      var init := names[..|names| - 1];
      assert init[..k] == names[..k];
      FilterTestsFailureExtends(elements, filter, init, k);
    } else {
      assert names[..k] == names;
    }
  }

  /** Batch mode fails exactly when some listed name does not load. */
  lemma {:induction false} FilterTestsSucceeds(elements: map<string, UnitTest>, filter: Option<TestType>, names: seq<string>)
    ensures FilterTests(elements, filter, names).Success? <==> forall i :: 0 <= i < |names| ==> names[i] in elements
    decreases |names|
  {
    if names != [] {
      var init := names[..|names| - 1];
      FilterTestsSucceeds(elements, filter, init);
      assert forall i :: 0 <= i < |init| ==> init[i] == names[i];
    }
  }

  /** Batch mode keeps exactly the listed tests whose type matches. */
  lemma {:induction false} FilterTestsKeepsMatching(elements: map<string, UnitTest>, filter: Option<TestType>, names: seq<string>)
    requires FilterTests(elements, filter, names).Success?
    ensures var tests := FilterTests(elements, filter, names).value;
      && (forall k :: 0 <= k < |tests| ==> Matches(filter, tests[k]))
      && (forall k :: 0 <= k < |tests| ==> exists i :: 0 <= i < |names| && names[i] in elements && tests[k] == elements[names[i]])
      && (forall i :: 0 <= i < |names| && names[i] in elements && Matches(filter, elements[names[i]]) ==> elements[names[i]] in tests)
    decreases |names|
  {
    FilterTestsSucceeds(elements, filter, names);
    if names != [] {
      var init := names[..|names| - 1];
      FilterTestsKeepsMatching(elements, filter, init);
      assert forall i :: 0 <= i < |init| ==> init[i] == names[i];
      var tests := FilterTests(elements, filter, names).value;
      var before := FilterTests(elements, filter, init).value;
      assert forall k :: 0 <= k < |before| ==> before[k] in tests;
      forall k | 0 <= k < |tests|
        ensures exists i :: 0 <= i < |names| && names[i] in elements && tests[k] == elements[names[i]]
      {
        if k < |before| {
          var i :| 0 <= i < |init| && init[i] in elements && before[k] == elements[init[i]];
          assert names[i] in elements && tests[k] == elements[names[i]];
        } else {
          assert tests[k] == elements[names[|names| - 1]];
        }
      }
    }
  }

  /**
   * Batch order follows the listing: the batch of a concatenated listing is
   * the concatenation of the two batches.
   */
  lemma {:induction false} FilterTestsAppend(
    elements: map<string, UnitTest>, filter: Option<TestType>, a: seq<string>, b: seq<string>)
    requires FilterTests(elements, filter, a + b).Success?
    ensures FilterTests(elements, filter, a).Success? && FilterTests(elements, filter, b).Success?
    ensures FilterTests(elements, filter, a + b).value ==
            FilterTests(elements, filter, a).value + FilterTests(elements, filter, b).value
    decreases |b|
  {
    FilterTestsSucceeds(elements, filter, a + b);
    FilterTestsSucceeds(elements, filter, a);
    FilterTestsSucceeds(elements, filter, b);
    assert forall i :: 0 <= i < |a| ==> a[i] == (a + b)[i];
    assert forall i :: 0 <= i < |b| ==> b[i] == (a + b)[|a| + i];
    if b == [] {
      assert a + b == a;
    } else {
      var init := b[..|b| - 1];
      assert (a + b)[..|a + b| - 1] == a + init;
      FilterTestsAppend(elements, filter, a, init);
    }
  }

  /** Without a type filter, batch mode loads the listing just as stream mode loads its names. */
  lemma {:induction false} UnfilteredBatchLoadsAll(elements: map<string, UnitTest>, names: seq<string>)
    requires FilterTests(elements, None, names).Success?
    ensures FilterTests(elements, None, names) == StreamTests(elements, names)
    decreases |names|
  {
    if names != [] {
      FilterTestsSucceeds(elements, None, names);
      var init := names[..|names| - 1];
      assert forall i :: 0 <= i < |init| ==> init[i] == names[i];
      FilterTestsSucceeds(elements, None, init);
      UnfilteredBatchLoadsAll(elements, init);
    }
  }

  /** Tests of types UNIT, UNIT and DEVELOPMENT filtered by UNIT: exactly the first two run. */
  lemma FilterByUnitKeepsTwo(elements: map<string, UnitTest>, a: string, b: string, c: string)
    requires a in elements && b in elements && c in elements
    requires elements[a].testType == Some(Unit) && elements[b].testType == Some(Unit)
    requires elements[c].testType == Some(Development)
    ensures FilterTests(elements, Some(Unit), [a, b, c]) == Success([elements[a], elements[b]])
  {
    assert [a, b, c][..2] == [a, b];
    assert [a, b][..1] == [a];
    assert [a][..0] == [];
    assert FilterTests(elements, Some(Unit), []) == Success([]);
    assert [] + [elements[a]] == [elements[a]];
    assert FilterTests(elements, Some(Unit), [a]) == Success([elements[a]]);
    assert [elements[a]] + [elements[b]] == [elements[a], elements[b]];
    assert FilterTests(elements, Some(Unit), [a, b]) == Success([elements[a], elements[b]]);
  }
}
