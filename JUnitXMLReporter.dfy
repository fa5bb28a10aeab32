/**
 * `JUnitXMLReporter`: regroups the records of a TestNG run by test class,
 * one `TestClassResults` aggregate per class, and names one JUnit XML file
 * per aggregate.
 *
 * The reporter's `HashMap<IClass, TestClassResults>` is a local variable that
 * the private methods fill in place; here it is a `map` value that each
 * method takes and returns, while the aggregates it points to are heap
 * objects updated in place, as in the source.
 */
module JUnitXMLReporter {
  import opened ResultTypes
  import opened ByClass
  import opened Traversal
  import opened ClassResults

  // ---------------------------------------------------------------------------
  // What a filled map looks like
  // ---------------------------------------------------------------------------

  /** The contents of aggregate `a`, as a value. */
  ghost function ViewOf(a: TestClassResults): ClassView
    reads a
  {
    ClassView(a.failedTests, a.skippedTests, a.passedTests, a.duration)
  }

  /**
   * Aggregate `a` holds exactly what the records `visited` give class `c`:
   * it is `c`'s aggregate and its contents are those of a new aggregate to
   * which the records have been offered one by one.
   */
  ghost predicate Holds(a: TestClassResults, visited: seq<TestResult>, c: TestClass, allowSkipped: bool)
    reads a
  {
    a.testClass == c && ViewOf(a) == Expect(visited, c, allowSkipped)
  }

  /** An aggregate that holds its class's records keeps the aggregate's own invariant. */
  lemma HoldsIsValid(a: TestClassResults, visited: seq<TestResult>, c: TestClass, allowSkipped: bool)
    requires Holds(a, visited, c, allowSkipped)
    ensures a.Valid()
  {
    ExpectIsPartition(visited, c, allowSkipped);
    InBucketDestination(visited, c, Failed, allowSkipped);
    InBucketDestination(visited, c, Skipped, allowSkipped);
    InBucketDestination(visited, c, Passed, allowSkipped);
  }

  /**
   * The map after the records `visited` have been organised: one key per
   * class that has a record, and under each key that class's aggregate
   * holding exactly its records. Since an aggregate's `testClass` is its key,
   * no aggregate is stored under two keys.
   */
  ghost predicate Organised(m: map<TestClass, TestClassResults>, visited: seq<TestResult>, allowSkipped: bool)
    reads m.Values
  {
    && m.Keys == Classes(visited)
    && (forall c | c in m :: Holds(m[c], visited, c, allowSkipped))
  }

  // ---------------------------------------------------------------------------
  // Filling the map
  // ---------------------------------------------------------------------------

  /**
   * Get-or-put: the aggregate already stored for the record's class, or a new
   * empty one for that class, stored under it.
   */
  method GetResultsForClass(flattened: map<TestClass, TestClassResults>, testResult: TestResult)
    returns (flattened': map<TestClass, TestClassResults>, resultsForClass: TestClassResults)
    ensures testResult.testClass in flattened ==>
      flattened' == flattened && resultsForClass == flattened[testResult.testClass]
    ensures testResult.testClass !in flattened ==>
      && fresh(resultsForClass)
      && flattened' == flattened[testResult.testClass := resultsForClass]
      && resultsForClass.testClass == testResult.testClass
      && resultsForClass.failedTests == [] && resultsForClass.skippedTests == [] && resultsForClass.passedTests == []
      && resultsForClass.duration == 0
      && resultsForClass.Valid()
  {
    if testResult.testClass in flattened {
      resultsForClass := flattened[testResult.testClass];
      flattened' := flattened;
    } else {
      resultsForClass := new TestClassResults(testResult.testClass);
      flattened' := flattened[testResult.testClass := resultsForClass];
    }
  }

  /**
   * Walks every suite and every suite result, organising the records of each
   * test context in visiting order, and answers the filled map, whose values
   * are the aggregates. Stops at the first unknown status.
   */
  method FlattenResults(suites: seq<Suite>, allowSkipped: bool)
    returns (result: Result<map<TestClass, TestClassResults>>)
    ensures result.Success? <==> FirstUnknown(Visited(suites)).None?
    ensures result.Failure? ==> result.error == UnknownResultStatus(FirstUnknown(Visited(suites)).value)
    ensures result.Success? ==> Organised(result.value, Visited(suites), allowSkipped)
    ensures result.Success? ==> forall c | c in result.value :: fresh(result.value[c])
    ensures suites == [] ==> result == Success(map[])
  {
    var flattened: map<TestClass, TestClassResults> := map[];
    for i := 0 to |suites|
      invariant FirstUnknown(Visited(suites[..i])).None?
      invariant Organised(flattened, Visited(suites[..i]), allowSkipped)
      invariant forall c | c in flattened :: fresh(flattened[c])
    {
      var outcome;
      flattened, outcome := OrganiseSuite(suites[i].results, flattened, allowSkipped, Visited(suites[..i]));
      VisitedStep(suites, i);
      if outcome.Fail? {
        VisitedPrefix(suites, i + 1);
        FirstUnknownOfPrefix(Visited(suites[..i + 1]), Visited(suites));
        return Failure(outcome.error);
      }
    }
    assert suites[..|suites|] == suites;
    return Success(flattened);
  }

  /**
   * The inner loop of the flattening for one suite: organises the test
   * context of each of its results in turn.
   */
  method OrganiseSuite(results: seq<SuiteResult>, flattened: map<TestClass, TestClassResults>,
                       allowSkipped: bool, ghost visited: seq<TestResult>)
    returns (flattened': map<TestClass, TestClassResults>, outcome: Outcome)
    requires Organised(flattened, visited, allowSkipped)
    requires FirstUnknown(visited).None?
    modifies flattened.Values
    ensures outcome.Pass? <==> FirstUnknown(visited + ResultsRecords(results)).None?
    ensures outcome.Fail? ==> outcome.error == UnknownResultStatus(FirstUnknown(visited + ResultsRecords(results)).value)
    ensures outcome.Pass? ==> Organised(flattened', visited + ResultsRecords(results), allowSkipped)
    ensures forall c | c in flattened :: c in flattened' && flattened'[c] == flattened[c]
    ensures forall c | c in flattened' && c !in flattened :: fresh(flattened'[c])
  {
    flattened', outcome := flattened, Pass;
    assert visited + ResultsRecords(results[..0]) == visited;
    for j := 0 to |results|
      invariant outcome == Pass
      invariant FirstUnknown(visited + ResultsRecords(results[..j])).None?
      invariant Organised(flattened', visited + ResultsRecords(results[..j]), allowSkipped)
      invariant forall c | c in flattened :: c in flattened' && flattened'[c] == flattened[c]
      invariant forall c | c in flattened' && c !in flattened :: fresh(flattened'[c])
    {
      ghost var v := visited + ResultsRecords(results[..j]);
      flattened', outcome := OrganiseTestContext(results[j].testContext, flattened', allowSkipped, v);
      ResultsStepFrom(visited, results, j);
      if outcome.Fail? {
        FirstUnknownOfPrefix(visited + ResultsRecords(results[..j + 1]), visited + ResultsRecords(results));
        return;
      }
    }
    assert results[..|results|] == results;
  }

  /**
   * The records organised before suite result `j`, followed by its test
   * context's records, are those organised through `j`, and lead into the
   * records of the whole suite.
   */
  lemma ResultsStepFrom(visited: seq<TestResult>, results: seq<SuiteResult>, j: nat)
    requires j < |results|
    ensures visited + ResultsRecords(results[..j]) + ContextRecords(results[j].testContext)
         == visited + ResultsRecords(results[..j + 1])
    ensures visited + ResultsRecords(results[..j + 1]) <= visited + ResultsRecords(results)
  {
    ResultsRecordsStep(results, j);
    ResultsRecordsPrefix(results, j + 1);
    PrefixExtend(visited, ResultsRecords(results[..j + 1]), ResultsRecords(results));
  }

  /**
   * The body of the inner loop for one test context: its failed and skipped
   * configurations, then its failed, skipped and passed tests. Successful
   * configurations are not organised.
   */
  method OrganiseTestContext(ctx: TestContext, flattened: map<TestClass, TestClassResults>,
                             allowSkipped: bool, ghost visited: seq<TestResult>)
    returns (flattened': map<TestClass, TestClassResults>, outcome: Outcome)
    requires Organised(flattened, visited, allowSkipped)
    requires FirstUnknown(visited).None?
    modifies flattened.Values
    ensures outcome.Pass? <==> FirstUnknown(visited + ContextRecords(ctx)).None?
    ensures outcome.Fail? ==> outcome.error == UnknownResultStatus(FirstUnknown(visited + ContextRecords(ctx)).value)
    ensures outcome.Pass? ==> Organised(flattened', visited + ContextRecords(ctx), allowSkipped)
    ensures forall c | c in flattened :: c in flattened' && flattened'[c] == flattened[c]
    ensures forall c | c in flattened' && c !in flattened :: fresh(flattened'[c])
  {
    var fc, sc, ft, st, pt := ctx.failedConfigurations, ctx.skippedConfigurations,
                              ctx.failedTests, ctx.skippedTests, ctx.passedTests;
    ghost var all := visited + ContextRecords(ctx);
    ContextPrefixes(visited, ctx);
    flattened', outcome := OrganiseByClass(fc, flattened, allowSkipped, visited);
    if outcome.Fail? {
      FirstUnknownOfPrefix(visited + fc, all);
      return;
    }
    flattened', outcome := OrganiseByClass(sc, flattened', allowSkipped, visited + fc);
    if outcome.Fail? {
      FirstUnknownOfPrefix(visited + fc + sc, all);
      return;
    }
    flattened', outcome := OrganiseByClass(ft, flattened', allowSkipped, visited + fc + sc);
    if outcome.Fail? {
      FirstUnknownOfPrefix(visited + fc + sc + ft, all);
      return;
    }
    flattened', outcome := OrganiseByClass(st, flattened', allowSkipped, visited + fc + sc + ft);
    if outcome.Fail? {
      FirstUnknownOfPrefix(visited + fc + sc + ft + st, all);
      return;
    }
    flattened', outcome := OrganiseByClass(pt, flattened', allowSkipped, visited + fc + sc + ft + st);
  }

  /** The records organised before each of the five partitions of `ctx` lead into its records. */
  lemma ContextPrefixes(visited: seq<TestResult>, ctx: TestContext)
    ensures var fc, sc, ft, st, all := ctx.failedConfigurations, ctx.skippedConfigurations,
                                      ctx.failedTests, ctx.skippedTests, visited + ContextRecords(ctx);
            && visited + fc <= all && visited + fc + sc <= all && visited + fc + sc + ft <= all
            && visited + fc + sc + ft + st <= all && visited + fc + sc + ft + st + ctx.passedTests == all
  {
    var fc, sc, ft, st, pt := ctx.failedConfigurations, ctx.skippedConfigurations,
                              ctx.failedTests, ctx.skippedTests, ctx.passedTests;
    var all := visited + ContextRecords(ctx);
    assert all == visited + fc + sc + ft + st + pt;
    PrefixExtend(visited + fc + sc + ft + st, [], pt);
    PrefixExtend(visited + fc + sc + ft, [], st + pt);
    PrefixExtend(visited + fc + sc, [], ft + st + pt);
    PrefixExtend(visited + fc, [], sc + ft + st + pt);
    PrefixExtend(visited, fc, fc + sc + ft + st + pt);
  }

  /**
   * Adds each of `testResults` to its class's aggregate, in order, stopping
   * at the first status the classification does not know. `visited` are the
   * records organised into `flattened` so far.
   */
  method OrganiseByClass(testResults: seq<TestResult>, flattened: map<TestClass, TestClassResults>,
                         allowSkipped: bool, ghost visited: seq<TestResult>)
    returns (flattened': map<TestClass, TestClassResults>, outcome: Outcome)
    requires Organised(flattened, visited, allowSkipped)
    requires FirstUnknown(visited).None?
    modifies flattened.Values
    ensures outcome.Pass? <==> FirstUnknown(visited + testResults).None?
    ensures outcome.Fail? ==> outcome.error == UnknownResultStatus(FirstUnknown(visited + testResults).value)
    ensures outcome.Pass? ==> Organised(flattened', visited + testResults, allowSkipped)
    ensures forall c | c in flattened :: c in flattened' && flattened'[c] == flattened[c]
    ensures forall c | c in flattened' && c !in flattened :: fresh(flattened'[c])
  {
    flattened' := flattened;
    assert visited + testResults[..0] == visited;
    for k := 0 to |testResults|
      invariant FirstUnknown(testResults[..k]).None?
      invariant Organised(flattened', visited + testResults[..k], allowSkipped)
      invariant forall c | c in flattened :: c in flattened' && flattened'[c] == flattened[c]
      invariant forall c | c in flattened' && c !in flattened :: fresh(flattened'[c])
    {
      var x := testResults[k];
      ghost var v := visited + testResults[..k];
      assert visited + testResults[..k + 1] == v + [x] by {
        assert testResults[..k + 1] == testResults[..k] + [x];
      }
      flattened', outcome := OrganiseOne(x, flattened', allowSkipped, v);
      if outcome.Fail? {
        FirstUnknownAtEnd(visited, testResults, k);
        return;
      }
      FirstUnknownExtend(testResults, k);
    }
    assert testResults[..|testResults|] == testResults;
    FirstUnknownConcat(visited, testResults);
    outcome := Pass;
  }

  /**
   * One step of the loop: adds `x` to its class's aggregate, creating that
   * aggregate first when the class has none yet.
   */
  method OrganiseOne(x: TestResult, flattened: map<TestClass, TestClassResults>,
                     allowSkipped: bool, ghost visited: seq<TestResult>)
    returns (flattened': map<TestClass, TestClassResults>, outcome: Outcome)
    requires Organised(flattened, visited, allowSkipped)
    modifies flattened.Values
    ensures outcome.Pass? <==> Recognised(x.status)
    ensures outcome.Fail? ==> outcome.error == UnknownResultStatus(x.status)
    ensures outcome.Pass? ==> Organised(flattened', visited + [x], allowSkipped)
    ensures forall c | c in flattened :: c in flattened' && flattened'[c] == flattened[c]
    ensures forall c | c in flattened' && c !in flattened :: fresh(flattened'[c])
  {
    var resultsForClass;
    flattened', resultsForClass := GetResultsForClass(flattened, x);
    assert x.testClass !in flattened ==> resultsForClass !in flattened.Values;
    AfterGetOrPut(flattened, flattened', resultsForClass, visited, x.testClass, allowSkipped);
    ghost var before := ViewOf(resultsForClass);
    outcome := resultsForClass.AddResult(x, allowSkipped);
    FiledByStatus(before, ViewOf(resultsForClass), x, allowSkipped);
    if outcome.Pass? {
      OrganisedAfterAdd(flattened', visited, x, resultsForClass, allowSkipped);
    }
  }

  /**
   * Every aggregate of `m` that is not class `skip`'s aggregate holds what
   * `visited` gives its class. It reads nothing of `skip`'s aggregate, so
   * changing that aggregate leaves it true.
   */
  ghost predicate Others(m: map<TestClass, TestClassResults>, visited: seq<TestResult>, skip: TestClass, allowSkipped: bool)
    requires skip in m
    reads m.Values - {m[skip]}
  {
    forall c | c in m && m[c] != m[skip] :: Holds(m[c], visited, c, allowSkipped)
  }

  /** No class other than `skip` shares `skip`'s aggregate. */
  predicate Unshared(m: map<TestClass, TestClassResults>, skip: TestClass)
    requires skip in m
  {
    forall c | c in m && c != skip :: m[c] != m[skip]
  }

  /**
   * What get-or-put leaves behind: the aggregate `r` it returns is stored
   * under the record's class `k`, holds what the records so far give `k`
   * (nothing, when it is new), is shared with no other class, and every
   * other aggregate is as it was.
   */
  lemma AfterGetOrPut(flattened: map<TestClass, TestClassResults>, flattened': map<TestClass, TestClassResults>,
                      r: TestClassResults, visited: seq<TestResult>, k: TestClass, allowSkipped: bool)
    requires Organised(flattened, visited, allowSkipped)
    requires k in flattened ==> flattened' == flattened && r == flattened[k]
    requires k !in flattened ==>
      && flattened' == flattened[k := r] && r !in flattened.Values
      && r.testClass == k && r.failedTests == [] && r.skippedTests == [] && r.passedTests == [] && r.duration == 0
    ensures k in flattened' && flattened'[k] == r
    ensures flattened'.Keys == Classes(visited) + {k}
    ensures Holds(r, visited, k, allowSkipped) && r.Valid()
    ensures Others(flattened', visited, k, allowSkipped) && Unshared(flattened', k)
  {
    if k !in flattened {
      ExpectIsPartition(visited, k, allowSkipped);
      AbsentClassIsEmpty(visited, k, Failed, allowSkipped);
      AbsentClassIsEmpty(visited, k, Skipped, allowSkipped);
      AbsentClassIsEmpty(visited, k, Passed, allowSkipped);
      assert forall c | c in flattened' && c != k :: flattened'[c] == flattened[c];
    }
    HoldsIsValid(r, visited, k, allowSkipped);
  }

  /** A prefix without unknown statuses, extended by one record with a known status. */
  lemma FirstUnknownExtend(rs: seq<TestResult>, k: nat)
    requires k < |rs|
    requires FirstUnknown(rs[..k]).None? && Recognised(rs[k].status)
    ensures FirstUnknown(rs[..k + 1]).None?
  {
    assert forall r <- rs[..k + 1] :: r in rs[..k] || r == rs[k];
  }

  /** The first unknown status of `visited + rs` is that of `rs[k]` when everything before it is known. */
  lemma FirstUnknownAtEnd(visited: seq<TestResult>, rs: seq<TestResult>, k: nat)
    requires k < |rs|
    requires FirstUnknown(visited).None? && FirstUnknown(rs[..k]).None? && !Recognised(rs[k].status)
    ensures FirstUnknown(visited + rs) == Some(rs[k].status)
  {
    assert rs == rs[..k] + rs[k..];
    FirstUnknownConcat(rs[..k], rs[k..]);
    FirstUnknownConcat(visited, rs);
  }

  /**
   * After record `x` is filed in its class's aggregate `a`, the map is
   * organised for the records so far followed by `x`: `a` took `x`, and
   * every other aggregate, untouched, ignores a record of another class.
   */
  lemma OrganisedAfterAdd(m: map<TestClass, TestClassResults>, v: seq<TestResult>, x: TestResult,
                          a: TestClassResults, allowSkipped: bool)
    requires x.testClass in m && m[x.testClass] == a && a.testClass == x.testClass
    requires m.Keys == Classes(v) + {x.testClass}
    requires Others(m, v, x.testClass, allowSkipped) && Unshared(m, x.testClass)
    requires ViewOf(a) == Filed(Expect(v, x.testClass, allowSkipped), x, x.testClass, allowSkipped)
    ensures Organised(m, v + [x], allowSkipped)
  {
    ClassesAppend(v, x);
    forall c | c in m
      ensures Holds(m[c], v + [x], c, allowSkipped)
    {
      ExpectAppend(v, x, c, allowSkipped);
    }
  }

  // ---------------------------------------------------------------------------
  // What an organised map holds
  // ---------------------------------------------------------------------------

  /**
   * After records without unknown statuses, every aggregate of an organised
   * map is its key's aggregate, keeps its own invariant, holds in each list
   * exactly the records of its class that the classification sends there, in
   * visiting order, and has as duration the `long` sum of the elapsed times
   * of all records of its class.
   */
  lemma OrganisedMeaning(m: map<TestClass, TestClassResults>, visited: seq<TestResult>, allowSkipped: bool)
    requires Organised(m, visited, allowSkipped) && FirstUnknown(visited).None?
    ensures forall c | c in m :: && m[c].testClass == c && m[c].Valid()
                                 && m[c].failedTests == InBucket(visited, c, Failed, allowSkipped)
                                 && m[c].skippedTests == InBucket(visited, c, Skipped, allowSkipped)
                                 && m[c].passedTests == InBucket(visited, c, Passed, allowSkipped)
                                 && m[c].duration == Wrap64(TotalElapsed(OfClass(visited, c)))
  {
    forall c | c in m
      ensures && m[c].testClass == c && m[c].Valid()
              && m[c].failedTests == InBucket(visited, c, Failed, allowSkipped)
              && m[c].skippedTests == InBucket(visited, c, Skipped, allowSkipped)
              && m[c].passedTests == InBucket(visited, c, Passed, allowSkipped)
              && m[c].duration == Wrap64(TotalElapsed(OfClass(visited, c)))
    {
      ExpectIsPartition(visited, c, allowSkipped);
      PartitionElapsed(visited, c, allowSkipped);
      HoldsIsValid(m[c], visited, c, allowSkipped);
    }
  }

  /**
   * Exactly once: after records without unknown statuses, a record occurs in
   * the three lists of its own class's aggregate, together, as often as it was
   * visited, and in no other aggregate.
   */
  lemma HeldExactlyOnce(m: map<TestClass, TestClassResults>, visited: seq<TestResult>, allowSkipped: bool,
                        x: TestResult)
    requires Organised(m, visited, allowSkipped) && FirstUnknown(visited).None?
    ensures x in visited ==> x.testClass in m
    ensures forall c | c in m ::
      multiset(m[c].failedTests)[x] + multiset(m[c].skippedTests)[x] + multiset(m[c].passedTests)[x]
      == if c == x.testClass then multiset(visited)[x] else 0
  {
    OrganisedMeaning(m, visited, allowSkipped);
    forall c | c in m
      ensures multiset(m[c].failedTests)[x] + multiset(m[c].skippedTests)[x] + multiset(m[c].passedTests)[x]
              == if c == x.testClass then multiset(visited)[x] else 0
    {
      PartitionCount(visited, x, c, allowSkipped);
      OfClassCount(visited, x, c);
    }
  }

  /** When the output format does not allow skipped tests, no aggregate has a skipped record. */
  lemma NoSkippedAggregates(m: map<TestClass, TestClassResults>, visited: seq<TestResult>)
    requires Organised(m, visited, false)
    ensures forall c | c in m :: m[c].skippedTests == []
  {
    forall c | c in m
      ensures m[c].skippedTests == []
    {
      ExpectIsPartition(visited, c, false);
      NothingSkippedWhenDisallowed(visited, c);
    }
  }

  /**
   * How many records the aggregates of the classes `cs` hold, over their
   * three lists.
   */
  ghost function HeldCount(m: map<TestClass, TestClassResults>, cs: set<TestClass>): nat
    requires cs <= m.Keys
    reads m.Values
    decreases cs
  {
    if cs == {} then 0
    else
      var c :| c in cs;
      |m[c].failedTests| + |m[c].skippedTests| + |m[c].passedTests| + HeldCount(m, cs - {c})
  }

  /** The aggregates of the classes `cs` hold as many records as were visited for those classes. */
  lemma {:induction false} HeldCountIsVisited(m: map<TestClass, TestClassResults>, visited: seq<TestResult>,
                                              allowSkipped: bool, cs: set<TestClass>)
    requires Organised(m, visited, allowSkipped) && FirstUnknown(visited).None?
    requires cs <= m.Keys
    ensures HeldCount(m, cs) == |OfClasses(visited, cs)|
    decreases cs
  {
    if cs == {} {
      OfNoClasses(visited);
    } else {
      var c :| c in cs && HeldCount(m, cs) == |m[c].failedTests| + |m[c].skippedTests| + |m[c].passedTests|
                                               + HeldCount(m, cs - {c});
      HeldCountIsVisited(m, visited, allowSkipped, cs - {c});
      OfClassesSplit(visited, cs, c);
      OrganisedMeaning(m, visited, allowSkipped);
      ClassSize(visited, c, allowSkipped);
    }
  }

  /**
   * Nothing is lost or duplicated: after records without unknown statuses,
   * all aggregates together hold as many records as were visited.
   */
  lemma HeldCountIsTotal(m: map<TestClass, TestClassResults>, visited: seq<TestResult>, allowSkipped: bool)
    requires Organised(m, visited, allowSkipped) && FirstUnknown(visited).None?
    ensures HeldCount(m, m.Keys) == |visited|
  {
    HeldCountIsVisited(m, visited, allowSkipped, m.Keys);
    OfAllClasses(visited, m.Keys);
  }

  /**
   * The order in which suites, suite results and result sets are iterated
   * does not matter: two organised maps for the same records in any order
   * have the same classes, and each class's lists hold the same records,
   * possibly in another order, with the same duration.
   */
  lemma OrderIndependent(m: map<TestClass, TestClassResults>, m': map<TestClass, TestClassResults>,
                         visited: seq<TestResult>, visited': seq<TestResult>, allowSkipped: bool)
    requires Organised(m, visited, allowSkipped) && Organised(m', visited', allowSkipped)
    requires multiset(visited) == multiset(visited') && FirstUnknown(visited).None?
    ensures m.Keys == m'.Keys
    ensures forall c | c in m ::
      && multiset(m[c].failedTests) == multiset(m'[c].failedTests)
      && multiset(m[c].skippedTests) == multiset(m'[c].skippedTests)
      && multiset(m[c].passedTests) == multiset(m'[c].passedTests)
      && m[c].duration == m'[c].duration
  {
    SameRecordsSameClasses(visited, visited');
    OrganisedMeaning(m, visited, allowSkipped);
    OrganisedMeaning(m', visited', allowSkipped);
    forall c | c in m
      ensures && multiset(m[c].failedTests) == multiset(m'[c].failedTests)
              && multiset(m[c].skippedTests) == multiset(m'[c].skippedTests)
              && multiset(m[c].passedTests) == multiset(m'[c].passedTests)
              && m[c].duration == m'[c].duration
    {
      SameRecordsSameBucket(visited, visited', c, Failed, allowSkipped);
      SameRecordsSameBucket(visited, visited', c, Skipped, allowSkipped);
      SameRecordsSameBucket(visited, visited', c, Passed, allowSkipped);
      SameRecordsSameElapsed(visited, visited', c);
    }
  }

  // ---------------------------------------------------------------------------
  // The report files
  // ---------------------------------------------------------------------------

  /** The sub-directory of the output directory that holds the XML reports. */
  const REPORT_DIRECTORY: string := "xml"

  /** The stem shared by every report file name and by the template's name. */
  const RESULTS_FILE: string := "results"

  /** What a report file's name adds after the class name. */
  const REPORT_SUFFIX: string := "_" + RESULTS_FILE + ".xml"

  /**
   * The report file for the class called `className`, as its path segments:
   * the output directory, its `xml` sub-directory, and the class name joined
   * to `_results.xml`.
   */
  function ReportFile(outputDirectoryName: string, className: string): (path: seq<string>)
    ensures |path| == 3 && path[0] == outputDirectoryName && path[1] == REPORT_DIRECTORY
    ensures ClassNameOf(path[2]) == Some(className)
  {
    var name := className + REPORT_SUFFIX;
    assert name[..|className|] == className && name[|className|..] == REPORT_SUFFIX;
    [outputDirectoryName, REPORT_DIRECTORY, name]
  }

  /**
   * The class a report file name was made for: the name without the
   * `_results.xml` suffix, or None for a name that does not end so.
   */
  function ClassNameOf(fileName: string): (className: Option<string>)
    ensures className.Some? ==> className.value + REPORT_SUFFIX == fileName
  {
    if |fileName| >= |REPORT_SUFFIX| && fileName[|fileName| - |REPORT_SUFFIX|..] == REPORT_SUFFIX
    then
      var stem := fileName[..|fileName| - |REPORT_SUFFIX|];
      assert stem + REPORT_SUFFIX == fileName;
      Some(stem)
    else None
  }

  /**
   * The report file depends on the class name and nothing else: two names
   * give the same file exactly when they are the same name.
   */
  lemma ReportFileInjective(outputDirectoryName: string, a: string, b: string)
    ensures ReportFile(outputDirectoryName, a) == ReportFile(outputDirectoryName, b) <==> a == b
  {
    if ReportFile(outputDirectoryName, a) == ReportFile(outputDirectoryName, b) {
      assert Some(a) == ClassNameOf(ReportFile(outputDirectoryName, a)[2]);
    }
  }

  /** One report handed to the template: the file it goes to and the aggregate's contents. */
  datatype Report = Report(file: seq<string>, results: ClassView)

  /** The report the records `visited` give class `c`. */
  function ExpectedReport(outputDirectoryName: string, visited: seq<TestResult>, c: TestClass,
                          allowSkipped: bool): Report
  {
    Report(ReportFile(outputDirectoryName, c.name), Expect(visited, c, allowSkipped))
  }

  /**
   * Two classes' reports go to the same file exactly when the classes have
   * the same name: two distinct classes sharing a name write one file twice.
   */
  lemma SameFileIffSameName(outputDirectoryName: string, visited: seq<TestResult>, c: TestClass, c': TestClass,
                            allowSkipped: bool)
    ensures ExpectedReport(outputDirectoryName, visited, c, allowSkipped).file
            == ExpectedReport(outputDirectoryName, visited, c', allowSkipped).file
            <==> c.name == c'.name
  {
    ReportFileInjective(outputDirectoryName, c.name, c'.name);
  }

  /**
   * The body of the emitting loop: the report for aggregate `results`,
   * filed under its class's name, with what its getters answer.
   */
  method ReportFor(results: TestClassResults, outputDirectoryName: string, ghost visited: seq<TestResult>,
                   allowSkipped: bool)
    returns (report: Report)
    requires Holds(results, visited, results.testClass, allowSkipped)
    ensures report == ExpectedReport(outputDirectoryName, visited, results.testClass, allowSkipped)
  {
    HoldsIsValid(results, visited, results.testClass, allowSkipped);
    var contents := ClassView(results.GetFailedTests(), results.GetSkippedTests(), results.GetPassedTests(),
                              results.GetDuration());
    report := Report(ReportFile(outputDirectoryName, results.GetTestClass().name), contents);
  }

  /**
   * Flattens the suites and hands each aggregate, with its report file, to
   * the template. The map's iteration order is unspecified: `order` is the
   * order the classes were emitted in, every class that has a record exactly
   * once, and report `k` is exactly what the records give class `order[k]`.
   */
  method GenerateReport(suites: seq<Suite>, outputDirectoryName: string, allowSkipped: bool)
    returns (result: Result<seq<Report>>, ghost order: seq<TestClass>)
    ensures result.Success? <==> FirstUnknown(Visited(suites)).None?
    ensures result.Failure? ==> result.error == UnknownResultStatus(FirstUnknown(Visited(suites)).value)
    ensures result.Success? ==> multiset(order) == multiset(Classes(Visited(suites)))
    ensures result.Success? ==> |result.value| == |order| == |Classes(Visited(suites))|
    ensures result.Success? ==> forall k | 0 <= k < |order| ::
      result.value[k] == ExpectedReport(outputDirectoryName, Visited(suites), order[k], allowSkipped)
    ensures result.Success? ==> forall c | c in Classes(Visited(suites)) ::
      ExpectedReport(outputDirectoryName, Visited(suites), c, allowSkipped) in result.value
    ensures result.Success? ==> forall r | r in result.value :: exists c | c in Classes(Visited(suites)) ::
      r == ExpectedReport(outputDirectoryName, Visited(suites), c, allowSkipped)
  {
    order := [];
    var flattened := FlattenResults(suites, allowSkipped);
    if flattened.Failure? {
      return Failure(flattened.error), order;
    }
    var reports;
    reports, order := EmitReports(flattened.value, outputDirectoryName, Visited(suites), allowSkipped);
    ReportsCoverClasses(reports, order, flattened.value.Keys, outputDirectoryName, Visited(suites), allowSkipped);
    return Success(reports), order;
  }

  /**
   * The emitting loop: one report per aggregate of the map, in an order the
   * model leaves open: `order` lists every class of the map exactly once,
   * and report `k` is the one for class `order[k]`.
   */
  method EmitReports(m: map<TestClass, TestClassResults>, outputDirectoryName: string,
                     ghost visited: seq<TestResult>, allowSkipped: bool)
    returns (reports: seq<Report>, ghost order: seq<TestClass>)
    requires Organised(m, visited, allowSkipped)
    ensures multiset(order) == multiset(m.Keys)
    ensures |reports| == |order| == |m.Keys|
    ensures forall k | 0 <= k < |order| :: reports[k] == ExpectedReport(outputDirectoryName, visited, order[k], allowSkipped)
  {
    var remaining := m.Keys;
    reports, order := [], [];
    while remaining != {}
      invariant remaining <= m.Keys
      invariant multiset(order) + multiset(remaining) == multiset(m.Keys)
      invariant |reports| == |order|
      invariant forall k | 0 <= k < |order| ::
        reports[k] == ExpectedReport(outputDirectoryName, visited, order[k], allowSkipped)
      decreases |remaining|
    {
      var c :| c in remaining;
      var report := ReportFor(m[c], outputDirectoryName, visited, allowSkipped);
      assert multiset(remaining) == multiset(remaining - {c}) + multiset{c};
      reports, order := reports + [report], order + [c];
      remaining := remaining - {c};
    }
    assert |multiset(order)| == |order|;
  }

  /**
   * Reports laid out along an order that lists every class once contain the
   * report of every class, and nothing else.
   */
  lemma ReportsCoverClasses(reports: seq<Report>, order: seq<TestClass>, classes: set<TestClass>,
                            outputDirectoryName: string, visited: seq<TestResult>, allowSkipped: bool)
    requires multiset(order) == multiset(classes) && |reports| == |order|
    requires forall k | 0 <= k < |order| :: reports[k] == ExpectedReport(outputDirectoryName, visited, order[k], allowSkipped)
    ensures forall c | c in classes :: ExpectedReport(outputDirectoryName, visited, c, allowSkipped) in reports
    ensures forall r | r in reports :: exists c | c in classes :: r == ExpectedReport(outputDirectoryName, visited, c, allowSkipped)
  {
    forall c | c in classes
      ensures ExpectedReport(outputDirectoryName, visited, c, allowSkipped) in reports
    {
      assert c in multiset(classes);
      var k :| 0 <= k < |order| && order[k] == c;
      assert reports[k] == ExpectedReport(outputDirectoryName, visited, c, allowSkipped);
    }
    forall r | r in reports
      ensures exists c | c in classes :: r == ExpectedReport(outputDirectoryName, visited, c, allowSkipped)
    {
      var k :| 0 <= k < |reports| && reports[k] == r;
      assert order[k] in multiset(order);
    }
  }
}
