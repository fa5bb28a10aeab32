/**
 * The values the reporter consumes: TestNG execution records reduced to plain
 * data, the suite/context structure they arrive in, Java's `long`, and the
 * decision rule that sends a record to one of a class's three result lists.
 */
module ResultTypes {

  // ---------------------------------------------------------------------------
  // Java `long` arithmetic
  // ---------------------------------------------------------------------------

  const TWO_63: int := 0x8000_0000_0000_0000
  const TWO_64: int := 0x1_0000_0000_0000_0000

  /** Java's `long`: a 64-bit two's-complement integer. */
  newtype int64 = x: int | -0x8000_0000_0000_0000 <= x < 0x8000_0000_0000_0000

  /**
   * The `long` that Java's arithmetic produces for the exact integer `x`:
   * `x` moved by multiples of 2^64 into the `long` range.
   */
  function Wrap64(x: int): (w: int64)
    decreases if x < -TWO_63 then -x else x
  {
    if x < -TWO_63 then Wrap64(x + TWO_64)
    else if x >= TWO_63 then Wrap64(x - TWO_64)
    else x as int64
  }

  /** Wrapping is two's-complement truncation: `x` reduced modulo 2^64 into the `long` range. */
  lemma {:induction false} WrapIsRemainder(x: int)
    ensures Wrap64(x) as int == (x + TWO_63) % TWO_64 - TWO_63
    decreases if x < -TWO_63 then -x else x
  {
    if x < -TWO_63 {
      WrapIsRemainder(x + TWO_64);
      ModShift(x + TWO_63, 1);
    } else if x >= TWO_63 {
      WrapIsRemainder(x - TWO_64);
      ModShift(x - TWO_64 + TWO_63, 1);
    }
  }

  lemma ModShift(n: int, k: int)
    ensures (n + k * TWO_64) % TWO_64 == n % TWO_64
  {
    var q, r := n / TWO_64, n % TWO_64;
    assert n + k * TWO_64 == (q + k) * TWO_64 + r;
  }

  /** Integers that differ by a multiple of 2^64 wrap to the same `long`. */
  lemma WrapCongruent(x: int, y: int, k: int)
    requires x == y + k * TWO_64
    ensures Wrap64(x) == Wrap64(y)
  {
    WrapIsRemainder(x);
    WrapIsRemainder(y);
    ModShift(y + TWO_63, k);
  }

  /** A sum of longs wraps once at the end: wrapping an operand first changes nothing. */
  lemma WrapAddWrapped(a: int, b: int)
    ensures Wrap64(a + Wrap64(b) as int) == Wrap64(a + b)
  {
    WrapIsRemainder(b);
    var k := (b + TWO_63) / TWO_64;
    assert Wrap64(b) as int == b - k * TWO_64;
    WrapCongruent(a + Wrap64(b) as int, a + b, -k);
  }

  /** Adding to an already wrapped total and wrapping again is wrapping the exact sum. */
  lemma WrapStep(total: int, e: int, sum: int)
    requires sum == total + e
    ensures Wrap64(Wrap64(total) as int + e) == Wrap64(sum)
  {
    WrapAddWrapped(e, total);
  }

  // ---------------------------------------------------------------------------
  // Execution records
  // ---------------------------------------------------------------------------

  /** TestNG's `ITestResult` status codes for a finished execution. */
  const SUCCESS: int := 1
  const FAILURE: int := 2
  const SKIP: int := 3
  const SUCCESS_PERCENTAGE_FAILURE: int := 4

  /** The statuses the classification switch has a case for. */
  predicate Recognised(status: int) {
    status == SUCCESS || status == FAILURE || status == SKIP || status == SUCCESS_PERCENTAGE_FAILURE
  }

  /**
   * A test class (TestNG's `IClass`). Two distinct classes may share a name;
   * `identity` tells them apart, the way object identity does in the source.
   */
  datatype TestClass = TestClass(name: string, identity: nat)

  /** One execution record (TestNG's `ITestResult`), reduced to what the reporter reads. */
  datatype TestResult = TestResult(testClass: TestClass, status: int, startMillis: int64, endMillis: int64)
  {
    /** `getEndMillis() - getStartMillis()` as an exact integer, before any wrap-around. */
    function Elapsed(): int {
      endMillis as int - startMillis as int
    }
  }

  /**
   * `getEndMillis() - getStartMillis()` as Java computes it on `long`s: the
   * exact difference reduced modulo 2^64 into the `long` range. It is the
   * exact difference exactly when that fits in a `long`, which it does for
   * any record with non-negative timestamps that ends no earlier than it starts.
   */
  lemma ElapsedAsLong(x: TestResult)
    ensures Wrap64(x.Elapsed()) as int == (x.endMillis as int - x.startMillis as int + TWO_63) % TWO_64 - TWO_63
    ensures Wrap64(x.Elapsed()) as int == x.Elapsed() <==> -TWO_63 <= x.Elapsed() < TWO_63
    ensures 0 <= x.startMillis <= x.endMillis ==> Wrap64(x.Elapsed()) as int == x.Elapsed()
  {
    WrapIsRemainder(x.Elapsed());
  }

  /** The exact (unwrapped) sum of the elapsed times of `rs`. */
  function TotalElapsed(rs: seq<TestResult>): int {
    if rs == [] then 0 else TotalElapsed(rs[..|rs| - 1]) + rs[|rs| - 1].Elapsed()
  }

  lemma {:induction false} TotalElapsedConcat(a: seq<TestResult>, b: seq<TestResult>)
    ensures TotalElapsed(a + b) == TotalElapsed(a) + TotalElapsed(b)
    decreases |b|
  {
    if b == [] {
      assert a + b == a;
    } else {
      var b' := b[..|b| - 1];
      assert (a + b)[..|a + b| - 1] == a + b';
      TotalElapsedConcat(a, b');
    }
  }

  lemma TotalOfThree(f: seq<TestResult>, s: seq<TestResult>, p: seq<TestResult>)
    ensures TotalElapsed(f + s + p) == TotalElapsed(f) + TotalElapsed(s) + TotalElapsed(p)
  {
    TotalElapsedConcat(f, s);
    TotalElapsedConcat(f + s, p);
  }

  lemma AppendElapsed(a: seq<TestResult>, x: TestResult)
    ensures TotalElapsed(a + [x]) == TotalElapsed(a) + x.Elapsed()
  {
    assert (a + [x])[..|a|] == a;
  }

  /** Taking one record out of a sequence takes its elapsed time out of the total. */
  lemma TotalElapsedRemove(b: seq<TestResult>, i: nat)
    requires i < |b|
    ensures TotalElapsed(b) == TotalElapsed(b[..i] + b[i + 1..]) + b[i].Elapsed()
  {
    var x := b[i];
    assert b == b[..i] + [x] + b[i + 1..];
    TotalElapsedConcat(b[..i] + [x], b[i + 1..]);
    TotalElapsedConcat(b[..i], [x]);
    TotalElapsedConcat(b[..i], b[i + 1..]);
    assert TotalElapsed([x]) == x.Elapsed() by {
      assert [x][..0] == [];
    }
  }

  /** Taking the last record out of `a` and the same record out of `b` keeps them permutations. */
  lemma MultisetRemove(a: seq<TestResult>, b: seq<TestResult>, i: nat)
    requires multiset(a) == multiset(b) && a != [] && i < |b| && b[i] == a[|a| - 1]
    ensures multiset(a[..|a| - 1]) == multiset(b[..i] + b[i + 1..])
  {
    var a', x := a[..|a| - 1], a[|a| - 1];
    assert a == a' + [x];
    assert b == b[..i] + [x] + b[i + 1..];
    calc {
      multiset(b[..i] + b[i + 1..]);
      multiset(b[..i]) + multiset(b[i + 1..]);
      multiset(b) - multiset{x};
      multiset(a) - multiset{x};
      { assert multiset(a) == multiset(a') + multiset{x}; }
      multiset(a');
    }
  }

  /** The total elapsed time depends only on which records there are, not on their order. */
  lemma {:induction false} TotalElapsedPermutation(a: seq<TestResult>, b: seq<TestResult>)
    requires multiset(a) == multiset(b)
    ensures TotalElapsed(a) == TotalElapsed(b)
    decreases |a|
  {
    if a != [] {
      var a', x := a[..|a| - 1], a[|a| - 1];
      assert a == a' + [x];
      assert x in multiset(b);
      var i :| 0 <= i < |b| && b[i] == x;
      MultisetRemove(a, b, i);
      TotalElapsedPermutation(a', b[..i] + b[i + 1..]);
      TotalElapsedRemove(b, i);
    }
  }

  // ---------------------------------------------------------------------------
  // The input hierarchy: suites, suite results, test contexts
  // ---------------------------------------------------------------------------

  /**
   * The outcome partitions of one TestNG `ITestContext` that bear on the
   * reporter, each in the order its result set is iterated. The context's
   * failed-but-within-success-percentage tests are never read, so they have
   * no field here.
   */
  datatype TestContext = TestContext(
    failedConfigurations: seq<TestResult>,
    skippedConfigurations: seq<TestResult>,
    passedConfigurations: seq<TestResult>,
    failedTests: seq<TestResult>,
    skippedTests: seq<TestResult>,
    passedTests: seq<TestResult>)

  /** TestNG's `ISuiteResult`. */
  datatype SuiteResult = SuiteResult(testContext: TestContext)

  /** TestNG's `ISuite`: its results, in the order `getResults().values()` yields them. */
  datatype Suite = Suite(results: seq<SuiteResult>)

  // ---------------------------------------------------------------------------
  // Classification
  // ---------------------------------------------------------------------------

  datatype Option<T> = None | Some(value: T)

  /** The three lists of a class aggregate. */
  datatype Bucket = Failed | Skipped | Passed

  /**
   * The list a record with `status` goes to, or None for a status the switch
   * has no case for. SKIP goes to the skipped list only when the output format
   * allows skipped tests; otherwise it falls through to the failure case.
   */
  function Destination(status: int, allowSkipped: bool): (d: Option<Bucket>)
    ensures d.Some? <==> Recognised(status)
    ensures d == Some(Skipped) <==> status == SKIP && allowSkipped
    ensures status == SKIP && !allowSkipped ==> d == Some(Failed)
    ensures status == FAILURE || status == SUCCESS_PERCENTAGE_FAILURE ==> d == Some(Failed)
    ensures status == SUCCESS ==> d == Some(Passed)
  {
    if status == SKIP && allowSkipped then Some(Skipped)
    else if status == SKIP || status == FAILURE || status == SUCCESS_PERCENTAGE_FAILURE then Some(Failed)
    else if status == SUCCESS then Some(Passed)
    else None
  }

  // ---------------------------------------------------------------------------
  // Errors
  // ---------------------------------------------------------------------------

  /** The `IllegalStateException("Unknown result status:" + status)` of the switch's default case. */
  datatype Error = UnknownResultStatus(status: int)

  datatype Outcome = Pass | Fail(error: Error)

  datatype Result<T> = Success(value: T) | Failure(error: Error)
}
