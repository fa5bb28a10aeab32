/**
 * The order in which `flattenResults` visits a run's records: suite by
 * suite, suite result by suite result, and within each test context the
 * failed configurations, skipped configurations, failed tests, skipped tests
 * and passed tests. Passed configurations are never visited.
 */
module Traversal {
  import opened ResultTypes

  /** The records of one test context, in the order they are visited. */
  function ContextRecords(ctx: TestContext): seq<TestResult> {
    ctx.failedConfigurations + ctx.skippedConfigurations + ctx.failedTests + ctx.skippedTests + ctx.passedTests
  }

  /** The records of a sequence of suite results, in visiting order. */
  function ResultsRecords(results: seq<SuiteResult>): seq<TestResult> {
    if results == [] then []
    else ResultsRecords(results[..|results| - 1]) + ContextRecords(results[|results| - 1].testContext)
  }

  /** Every record a run of `suites` visits, in visiting order. */
  function Visited(suites: seq<Suite>): seq<TestResult> {
    if suites == [] then []
    else Visited(suites[..|suites| - 1]) + ResultsRecords(suites[|suites| - 1].results)
  }

  lemma ResultsRecordsStep(results: seq<SuiteResult>, j: nat)
    requires j < |results|
    ensures ResultsRecords(results[..j + 1]) == ResultsRecords(results[..j]) + ContextRecords(results[j].testContext)
  {
    assert results[..j + 1][..j] == results[..j];
  }

  lemma VisitedStep(suites: seq<Suite>, i: nat)
    requires i < |suites|
    ensures Visited(suites[..i + 1]) == Visited(suites[..i]) + ResultsRecords(suites[i].results)
  {
    assert suites[..i + 1][..i] == suites[..i];
  }

  lemma {:induction false} ResultsRecordsPrefix(results: seq<SuiteResult>, j: nat)
    requires j <= |results|
    ensures ResultsRecords(results[..j]) <= ResultsRecords(results)
    decreases |results|
  {
    if j < |results| {
      var init := results[..|results| - 1];
      ResultsRecordsPrefix(init, j);
      assert init[..j] == results[..j];
    } else {
      assert results[..j] == results;
    }
  }

  lemma {:induction false} VisitedPrefix(suites: seq<Suite>, i: nat)
    requires i <= |suites|
    ensures Visited(suites[..i]) <= Visited(suites)
    decreases |suites|
  {
    if i < |suites| {
      var init := suites[..|suites| - 1];
      VisitedPrefix(init, i);
      assert init[..i] == suites[..i];
    } else {
      assert suites[..i] == suites;
    }
  }

  /** A record of some suite result's test context is among the suite results' records. */
  lemma {:induction false} ResultsRecordsFromSomeContext(results: seq<SuiteResult>, x: TestResult)
    requires x in ResultsRecords(results)
    ensures exists j | 0 <= j < |results| :: x in ContextRecords(results[j].testContext)
    decreases |results|
  {
    var n := |results| - 1;
    var init := ResultsRecords(results[..n]);
    assert ResultsRecords(results) == init + ContextRecords(results[n].testContext);
    if x in init {
      ResultsRecordsFromSomeContext(results[..n], x);
      var j :| 0 <= j < n && x in ContextRecords(results[..n][j].testContext);
      assert results[..n][j] == results[j];
    }
  }

  /** Suite result `j` contributes all of its context's records, as often as they occur there. */
  lemma ContextRecordsVisited(results: seq<SuiteResult>, j: nat)
    requires j < |results|
    ensures multiset(ContextRecords(results[j].testContext)) <= multiset(ResultsRecords(results))
  {
    ResultsRecordsStep(results, j);
    ResultsRecordsPrefix(results, j + 1);
    PrefixMultiset(ResultsRecords(results[..j + 1]), ResultsRecords(results));
  }

  /** A record is among a suite's records exactly when some suite result's test context contributes it. */
  lemma ResultsRecordsMembership(results: seq<SuiteResult>, x: TestResult)
    ensures x in ResultsRecords(results) <==> exists j | 0 <= j < |results| :: x in ContextRecords(results[j].testContext)
  {
    if x in ResultsRecords(results) {
      ResultsRecordsFromSomeContext(results, x);
    }
    if exists j | 0 <= j < |results| :: x in ContextRecords(results[j].testContext) {
      var j :| 0 <= j < |results| && x in ContextRecords(results[j].testContext);
      ContextRecordsVisited(results, j);
      assert x in multiset(ContextRecords(results[j].testContext));
    }
  }

  /** A visited record belongs to some suite's results. */
  lemma {:induction false} VisitedFromSomeSuite(suites: seq<Suite>, x: TestResult)
    requires x in Visited(suites)
    ensures exists i | 0 <= i < |suites| :: x in ResultsRecords(suites[i].results)
    decreases |suites|
  {
    var n := |suites| - 1;
    var init := Visited(suites[..n]);
    assert Visited(suites) == init + ResultsRecords(suites[n].results);
    if x in init {
      VisitedFromSomeSuite(suites[..n], x);
      var i :| 0 <= i < n && x in ResultsRecords(suites[..n][i].results);
      assert suites[..n][i] == suites[i];
    }
  }

  /** Suite `i`'s records are all visited, as often as they occur there. */
  lemma SuiteRecordsVisited(suites: seq<Suite>, i: nat)
    requires i < |suites|
    ensures multiset(ResultsRecords(suites[i].results)) <= multiset(Visited(suites))
  {
    VisitedStep(suites, i);
    VisitedPrefix(suites, i + 1);
    PrefixMultiset(Visited(suites[..i + 1]), Visited(suites));
  }

  /** A record is visited exactly when some suite's results hold it. */
  lemma VisitedMembership(suites: seq<Suite>, x: TestResult)
    ensures x in Visited(suites) <==> exists i | 0 <= i < |suites| :: x in ResultsRecords(suites[i].results)
  {
    if x in Visited(suites) {
      VisitedFromSomeSuite(suites, x);
    }
    if exists i | 0 <= i < |suites| :: x in ResultsRecords(suites[i].results) {
      var i :| 0 <= i < |suites| && x in ResultsRecords(suites[i].results);
      SuiteRecordsVisited(suites, i);
      assert x in multiset(ResultsRecords(suites[i].results));
    }
  }

  /** A prefix holds no record more often than the whole sequence. */
  lemma PrefixMultiset(p: seq<TestResult>, q: seq<TestResult>)
    requires p <= q
    ensures multiset(p) <= multiset(q)
  {
    assert q == p + q[|p|..];
  }

  lemma PrefixExtend(a: seq<TestResult>, p: seq<TestResult>, q: seq<TestResult>)
    requires p <= q
    ensures a + p <= a + q
  {
    assert (a + q)[..|a + p|] == a + p;
  }

  lemma {:induction false} VisitedConcat(a: seq<Suite>, b: seq<Suite>)
    ensures Visited(a + b) == Visited(a) + Visited(b)
    decreases |b|
  {
    if b == [] {
      assert a + b == a;
    } else {
      var b', s := b[..|b| - 1], b[|b| - 1];
      assert (a + b)[..|a + b| - 1] == a + b';
      assert (a + b)[|a + b| - 1] == s;
      calc {
        Visited(a + b);
        Visited(a + b') + ResultsRecords(s.results);
        { VisitedConcat(a, b'); }
        Visited(a) + Visited(b') + ResultsRecords(s.results);
      }
    }
  }

  /** Taking one suite out of the middle takes out exactly its records. */
  lemma VisitedWithout(before: seq<Suite>, s: Suite, after: seq<Suite>)
    ensures multiset(Visited(before + [s] + after))
         == multiset(Visited(before + after)) + multiset(ResultsRecords(s.results))
  {
    assert Visited([s]) == ResultsRecords(s.results) by {
      assert [s][..0] == [];
    }
    VisitedConcat(before, after);
    VisitedConcat(before, [s]);
    VisitedConcat(before + [s], after);
  }

  /** Reordering the suites only reorders the visited records. */
  lemma {:induction false} SuiteOrderPermutesVisited(suites: seq<Suite>, suites': seq<Suite>)
    requires multiset(suites) == multiset(suites')
    ensures multiset(Visited(suites)) == multiset(Visited(suites'))
    decreases |suites|
  {
    if suites != [] {
      var init, s := suites[..|suites| - 1], suites[|suites| - 1];
      assert suites == init + [s];
      assert s in multiset(suites');
      var k :| 0 <= k < |suites'| && suites'[k] == s;
      var before, after := suites'[..k], suites'[k + 1..];
      assert suites' == before + [s] + after;
      assert multiset(before + after) == multiset(suites') - multiset{s};
      SuiteOrderPermutesVisited(init, before + after);
      VisitedWithout(before, s, after);
    }
  }

  /** `a` and `b` differ at most in the passed configurations of their test contexts. */
  ghost predicate SameButPassedConfigurations(a: seq<Suite>, b: seq<Suite>) {
    && |a| == |b|
    && (forall i :: 0 <= i < |a| ==> |a[i].results| == |b[i].results|)
    && (forall i, j :: 0 <= i < |a| && 0 <= j < |a[i].results| ==>
          a[i].results[j].testContext.(passedConfigurations := []) == b[i].results[j].testContext.(passedConfigurations := []))
  }

  lemma {:induction false} ResultsIgnorePassedConfigurations(a: seq<SuiteResult>, b: seq<SuiteResult>)
    requires |a| == |b|
    requires forall j :: 0 <= j < |a| ==>
      a[j].testContext.(passedConfigurations := []) == b[j].testContext.(passedConfigurations := [])
    ensures ResultsRecords(a) == ResultsRecords(b)
    decreases |a|
  {
    if a != [] {
      var n := |a| - 1;
      assert ContextRecords(a[n].testContext) == ContextRecords(a[n].testContext.(passedConfigurations := []));
      assert ContextRecords(b[n].testContext) == ContextRecords(b[n].testContext.(passedConfigurations := []));
      ResultsIgnorePassedConfigurations(a[..n], b[..n]);
    }
  }

  /** Successful configuration records are never visited: they cannot change what is visited. */
  lemma {:induction false} PassedConfigurationsNotVisited(a: seq<Suite>, b: seq<Suite>)
    requires SameButPassedConfigurations(a, b)
    ensures Visited(a) == Visited(b)
    decreases |a|
  {
    if a != [] {
      var n := |a| - 1;
      ResultsIgnorePassedConfigurations(a[n].results, b[n].results);
      PassedConfigurationsNotVisited(a[..n], b[..n]);
    }
  }
}
