/**
 * The per-class aggregate `JUnitXMLReporter.TestClassResults`: a class's
 * failed, skipped and passed records and their running total duration.
 */
module ClassResults {
  import opened ResultTypes

  class TestClassResults {
    const testClass: TestClass
    var failedTests: seq<TestResult>
    var skippedTests: seq<TestResult>
    var passedTests: seq<TestResult>
    var duration: int64

    /**
     * The aggregate's invariant: each list holds only statuses that the
     * classification switch sends there, and `duration` is the `long` sum of
     * the elapsed times of all records held.
     */
    ghost predicate Valid()
      reads this
    {
      Consistent(failedTests, skippedTests, passedTests, duration)
    }

    constructor (testClass: TestClass)
      ensures this.testClass == testClass
      ensures failedTests == [] && skippedTests == [] && passedTests == []
      ensures duration == 0
      ensures Valid()
    {
      this.testClass := testClass;
      failedTests, skippedTests, passedTests := [], [], [];
      duration := 0;
    }

    function GetTestClass(): TestClass {
      testClass
    }

    function GetFailedTests(): (rs: seq<TestResult>)
      reads this
      requires Valid()
      ensures forall r <- rs :: r.status == FAILURE || r.status == SUCCESS_PERCENTAGE_FAILURE || r.status == SKIP
    {
      failedTests
    }

    function GetSkippedTests(): (rs: seq<TestResult>)
      reads this
      requires Valid()
      ensures forall r <- rs :: r.status == SKIP
    {
      skippedTests
    }

    function GetPassedTests(): (rs: seq<TestResult>)
      reads this
      requires Valid()
      ensures forall r <- rs :: r.status == SUCCESS
    {
      passedTests
    }

    function GetDuration(): (d: int64)
      reads this
      requires Valid()
      ensures d == Wrap64(TotalElapsed(GetFailedTests() + GetSkippedTests() + GetPassedTests()))
    {
      duration
    }

    /**
     * Files `result` under its status: SKIP into the skipped list when skipped
     * tests are allowed and into the failed list otherwise, FAILURE and
     * SUCCESS_PERCENTAGE_FAILURE into the failed list, SUCCESS into the passed
     * list; then adds its elapsed time to `duration` with `long` wrap-around.
     * Any other status fails before anything changes.
     */
    method AddResult(result: TestResult, allowSkipped: bool) returns (outcome: Outcome)
      requires Valid()
      modifies this
      ensures Valid()
      ensures outcome == Pass <==> Recognised(result.status)
      ensures !Recognised(result.status) ==>
        outcome == Fail(UnknownResultStatus(result.status)) && unchanged(this)
      ensures result.status == SKIP && allowSkipped ==>
        && skippedTests == old(skippedTests) + [result]
        && failedTests == old(failedTests) && passedTests == old(passedTests)
      ensures (result.status == SKIP && !allowSkipped) || result.status == FAILURE || result.status == SUCCESS_PERCENTAGE_FAILURE ==>
        && failedTests == old(failedTests) + [result]
        && skippedTests == old(skippedTests) && passedTests == old(passedTests)
      ensures result.status == SUCCESS ==>
        && passedTests == old(passedTests) + [result]
        && failedTests == old(failedTests) && skippedTests == old(skippedTests)
      ensures Recognised(result.status) ==> duration == Wrap64(old(duration) as int + result.Elapsed())
    {
      ghost var before := duration;
      if result.status == SKIP && allowSkipped {
        AddSkippedKeepsConsistent(failedTests, skippedTests, passedTests, duration, result);
        skippedTests := skippedTests + [result];
      } else if result.status == SKIP || result.status == FAILURE || result.status == SUCCESS_PERCENTAGE_FAILURE {
        AddFailedKeepsConsistent(failedTests, skippedTests, passedTests, duration, result);
        failedTests := failedTests + [result];
      } else if result.status == SUCCESS {
        AddPassedKeepsConsistent(failedTests, skippedTests, passedTests, duration, result);
        passedTests := passedTests + [result];
      } else {
        return Fail(UnknownResultStatus(result.status));
      }
      WrapAddWrapped(before as int, result.Elapsed());
      duration := Wrap64(duration as int + Wrap64(result.Elapsed()) as int);
      outcome := Pass;
    }
  }

  /** The aggregate's invariant, over the values of its fields. */
  ghost predicate Consistent(failed: seq<TestResult>, skipped: seq<TestResult>, passed: seq<TestResult>, duration: int64) {
    && (forall i | 0 <= i < |failed| :: failed[i].status == FAILURE || failed[i].status == SUCCESS_PERCENTAGE_FAILURE || failed[i].status == SKIP)
    && (forall i | 0 <= i < |skipped| :: skipped[i].status == SKIP)
    && (forall i | 0 <= i < |passed| :: passed[i].status == SUCCESS)
    && duration == Wrap64(TotalElapsed(failed + skipped + passed))
  }

  /** The `long` duration after adding `x`'s elapsed time is the wrapped new exact total. */
  lemma DurationStep(d: int64, total: int, x: TestResult)
    requires d == Wrap64(total)
    ensures Wrap64(d as int + Wrap64(x.Elapsed()) as int) == Wrap64(total + x.Elapsed())
  {
    WrapAddWrapped(d as int, x.Elapsed());
    WrapAddWrapped(x.Elapsed(), total);
  }

  /** Filing a failure (or a folded skip) in the failed list keeps the invariant. */
  lemma AddFailedKeepsConsistent(f: seq<TestResult>, s: seq<TestResult>, p: seq<TestResult>, d: int64, x: TestResult)
    requires Consistent(f, s, p, d)
    requires x.status == FAILURE || x.status == SUCCESS_PERCENTAGE_FAILURE || x.status == SKIP
    ensures Consistent(f + [x], s, p, Wrap64(d as int + Wrap64(x.Elapsed()) as int))
  {
    TotalOfThree(f, s, p);
    TotalOfThree(f + [x], s, p);
    AppendElapsed(f, x);
    DurationStep(d, TotalElapsed(f + s + p), x);
  }

  /** Filing a skip in the skipped list keeps the invariant. */
  lemma AddSkippedKeepsConsistent(f: seq<TestResult>, s: seq<TestResult>, p: seq<TestResult>, d: int64, x: TestResult)
    requires Consistent(f, s, p, d)
    requires x.status == SKIP
    ensures Consistent(f, s + [x], p, Wrap64(d as int + Wrap64(x.Elapsed()) as int))
  {
    TotalOfThree(f, s, p);
    TotalOfThree(f, s + [x], p);
    AppendElapsed(s, x);
    DurationStep(d, TotalElapsed(f + s + p), x);
  }

  /** Filing a success in the passed list keeps the invariant. */
  lemma AddPassedKeepsConsistent(f: seq<TestResult>, s: seq<TestResult>, p: seq<TestResult>, d: int64, x: TestResult)
    requires Consistent(f, s, p, d)
    requires x.status == SUCCESS
    ensures Consistent(f, s, p + [x], Wrap64(d as int + Wrap64(x.Elapsed()) as int))
  {
    TotalOfThree(f, s, p);
    TotalOfThree(f, s, p + [x]);
    AppendElapsed(p, x);
    DurationStep(d, TotalElapsed(f + s + p), x);
  }
}
