/**
 * What regrouping a run's records by test class should produce, stated over
 * the sequence of records in the order the reporter visits them.
 */
module ByClass {
  import opened ResultTypes

  /** The records of class `c`, in visiting order. */
  function OfClass(rs: seq<TestResult>, c: TestClass): seq<TestResult> {
    if rs == [] then []
    else
      var last := rs[|rs| - 1];
      OfClass(rs[..|rs| - 1], c) + if last.testClass == c then [last] else []
  }

  /** The records of class `c` that the classification rule sends to list `b`, in visiting order. */
  function InBucket(rs: seq<TestResult>, c: TestClass, b: Bucket, allowSkipped: bool): seq<TestResult> {
    if rs == [] then []
    else
      var last := rs[|rs| - 1];
      InBucket(rs[..|rs| - 1], c, b, allowSkipped)
        + if last.testClass == c && Destination(last.status, allowSkipped) == Some(b) then [last] else []
  }

  /** List `b` of class `c` holds only records of `c` whose status the classification sends to `b`. */
  lemma {:induction false} InBucketDestination(rs: seq<TestResult>, c: TestClass, b: Bucket, allowSkipped: bool)
    ensures forall r <- InBucket(rs, c, b, allowSkipped) :: r.testClass == c && Destination(r.status, allowSkipped) == Some(b)
    decreases |rs|
  {
    if rs != [] {
      InBucketDestination(rs[..|rs| - 1], c, b, allowSkipped);
    }
  }

  /** The classes that have at least one record. */
  function Classes(rs: seq<TestResult>): set<TestClass> {
    set r <- rs :: r.testClass
  }

  /** The status of the first record whose status the switch does not know, if any. */
  function FirstUnknown(rs: seq<TestResult>): (u: Option<int>)
    ensures u.None? <==> forall r <- rs :: Recognised(r.status)
    ensures u.Some? ==> exists r <- rs :: !Recognised(r.status) && r.status == u.value
  {
    if rs == [] then None
    else if !Recognised(rs[0].status) then Some(rs[0].status)
    else
      var u := FirstUnknown(rs[1..]);
      assert forall r <- rs :: r == rs[0] || r in rs[1..];
      u
  }

  /** What one class's aggregate holds: its three lists and its `long` duration. */
  datatype ClassView = ClassView(failed: seq<TestResult>, skipped: seq<TestResult>, passed: seq<TestResult>, duration: int64)

  /** A new aggregate: no records, duration 0. */
  const EmptyView: ClassView := ClassView([], [], [], 0)

  /**
   * Class `c`'s aggregate after record `x` is offered to it: a record of
   * another class or with an unknown status leaves it as it is; otherwise
   * `x` is appended to the list its status sends it to and its elapsed time
   * is added to the duration with `long` wrap-around.
   */
  function Filed(view: ClassView, x: TestResult, c: TestClass, allowSkipped: bool): ClassView {
    if x.testClass != c then view
    else
      var d := Wrap64(view.duration as int + x.Elapsed());
      match Destination(x.status, allowSkipped)
      case None => view
      case Some(Failed) => view.(failed := view.failed + [x], duration := d)
      case Some(Skipped) => view.(skipped := view.skipped + [x], duration := d)
      case Some(Passed) => view.(passed := view.passed + [x], duration := d)
  }

  /** Class `c`'s aggregate after the records `rs` are offered to it one by one, from a new one. */
  function Expect(rs: seq<TestResult>, c: TestClass, allowSkipped: bool): ClassView {
    if rs == [] then EmptyView
    else Filed(Expect(rs[..|rs| - 1], c, allowSkipped), rs[|rs| - 1], c, allowSkipped)
  }

  lemma ExpectAppend(rs: seq<TestResult>, x: TestResult, c: TestClass, allowSkipped: bool)
    ensures Expect(rs + [x], c, allowSkipped) == Filed(Expect(rs, c, allowSkipped), x, c, allowSkipped)
  {
    assert (rs + [x])[..|rs|] == rs;
  }

  /**
   * `after` is `before` with `x` filed in it, stated one status at a time:
   * an unknown status changes nothing; a known one appends `x` to the list
   * its destination names, keeps the other two, and adds its elapsed time
   * to the wrapped total.
   */
  lemma FiledByStatus(before: ClassView, after: ClassView, x: TestResult, allowSkipped: bool)
    requires !Recognised(x.status) ==> after == before
    requires x.status == SKIP && allowSkipped ==>
      after.skipped == before.skipped + [x] && after.failed == before.failed && after.passed == before.passed
    requires (x.status == SKIP && !allowSkipped) || x.status == FAILURE || x.status == SUCCESS_PERCENTAGE_FAILURE ==>
      after.failed == before.failed + [x] && after.skipped == before.skipped && after.passed == before.passed
    requires x.status == SUCCESS ==>
      after.passed == before.passed + [x] && after.failed == before.failed && after.skipped == before.skipped
    requires Recognised(x.status) ==> after.duration == Wrap64(before.duration as int + x.Elapsed())
    ensures after == Filed(before, x, x.testClass, allowSkipped)
  {
  }

  // ---------------------------------------------------------------------------
  // Appending one record
  // ---------------------------------------------------------------------------

  lemma ClassesAppend(rs: seq<TestResult>, x: TestResult)
    ensures Classes(rs + [x]) == Classes(rs) + {x.testClass}
  {
    assert forall r <- rs + [x] :: r in rs || r == x;
  }

  lemma AppendOne(rs: seq<TestResult>, x: TestResult, c: TestClass, b: Bucket, allowSkipped: bool)
    ensures OfClass(rs + [x], c) == OfClass(rs, c) + if x.testClass == c then [x] else []
    ensures InBucket(rs + [x], c, b, allowSkipped)
         == InBucket(rs, c, b, allowSkipped) + if x.testClass == c && Destination(x.status, allowSkipped) == Some(b) then [x] else []
  {
    assert (rs + [x])[..|rs|] == rs;
  }

  /** A class without records has nothing in any list. */
  lemma {:induction false} AbsentClassIsEmpty(rs: seq<TestResult>, c: TestClass, b: Bucket, allowSkipped: bool)
    requires c !in Classes(rs)
    ensures OfClass(rs, c) == []
    ensures InBucket(rs, c, b, allowSkipped) == []
    decreases |rs|
  {
    if rs != [] {
      var rs' := rs[..|rs| - 1];
      assert rs == rs' + [rs[|rs| - 1]];
      ClassesAppend(rs', rs[|rs| - 1]);
      AbsentClassIsEmpty(rs', c, b, allowSkipped);
    }
  }

  lemma {:induction false} FirstUnknownConcat(a: seq<TestResult>, b: seq<TestResult>)
    ensures FirstUnknown(a + b) == if FirstUnknown(a).Some? then FirstUnknown(a) else FirstUnknown(b)
    decreases |a|
  {
    if a == [] {
      assert a + b == b;
    } else {
      assert (a + b)[1..] == a[1..] + b;
      FirstUnknownConcat(a[1..], b);
    }
  }

  /** Once a prefix holds an unknown status, the whole sequence reports that same status first. */
  lemma FirstUnknownOfPrefix(p: seq<TestResult>, q: seq<TestResult>)
    requires p <= q
    requires FirstUnknown(p).Some?
    ensures FirstUnknown(q) == FirstUnknown(p)
  {
    assert q == p + q[|p|..];
    FirstUnknownConcat(p, q[|p|..]);
  }

  // ---------------------------------------------------------------------------
  // Properties of the classification
  // ---------------------------------------------------------------------------

  /**
   * Exactly once: a record occurs in list `b` of class `c` as often as it
   * occurs in the input if `c` is its class and `b` the list its status sends
   * it to, and not at all otherwise.
   */
  lemma {:induction false} BucketCount(rs: seq<TestResult>, x: TestResult, c: TestClass, b: Bucket, allowSkipped: bool)
    ensures multiset(InBucket(rs, c, b, allowSkipped))[x]
         == if x.testClass == c && Destination(x.status, allowSkipped) == Some(b) then multiset(rs)[x] else 0
    decreases |rs|
  {
    if rs != [] {
      var rs' := rs[..|rs| - 1];
      assert rs == rs' + [rs[|rs| - 1]];
      BucketCount(rs', x, c, b, allowSkipped);
    }
  }

  lemma {:induction false} OfClassCount(rs: seq<TestResult>, x: TestResult, c: TestClass)
    ensures multiset(OfClass(rs, c))[x] == if x.testClass == c then multiset(rs)[x] else 0
    decreases |rs|
  {
    if rs != [] {
      var rs' := rs[..|rs| - 1];
      assert rs == rs' + [rs[|rs| - 1]];
      OfClassCount(rs', x, c);
    }
  }

  /**
   * When every status is known, the three lists of class `c` together hold
   * exactly the records of `c`: each one once, none lost, none added.
   */
  lemma Partition(rs: seq<TestResult>, c: TestClass, allowSkipped: bool)
    requires FirstUnknown(rs).None?
    ensures multiset(InBucket(rs, c, Failed, allowSkipped))
          + multiset(InBucket(rs, c, Skipped, allowSkipped))
          + multiset(InBucket(rs, c, Passed, allowSkipped))
         == multiset(OfClass(rs, c))
  {
    var f, s, p := multiset(InBucket(rs, c, Failed, allowSkipped)),
      multiset(InBucket(rs, c, Skipped, allowSkipped)), multiset(InBucket(rs, c, Passed, allowSkipped));
    forall x
      ensures (f + s + p)[x] == multiset(OfClass(rs, c))[x]
    {
      PartitionCount(rs, x, c, allowSkipped);
    }
  }

  lemma PartitionCount(rs: seq<TestResult>, x: TestResult, c: TestClass, allowSkipped: bool)
    requires FirstUnknown(rs).None?
    ensures multiset(InBucket(rs, c, Failed, allowSkipped))[x]
          + multiset(InBucket(rs, c, Skipped, allowSkipped))[x]
          + multiset(InBucket(rs, c, Passed, allowSkipped))[x]
         == multiset(OfClass(rs, c))[x]
  {
    BucketCount(rs, x, c, Failed, allowSkipped);
    BucketCount(rs, x, c, Skipped, allowSkipped);
    BucketCount(rs, x, c, Passed, allowSkipped);
    OfClassCount(rs, x, c);
    if x in rs {
      assert Recognised(x.status);
    } else {
      assert multiset(rs)[x] == 0;
    }
  }

  /** The total time of class `c`'s three lists is the total time of all its records. */
  lemma PartitionElapsed(rs: seq<TestResult>, c: TestClass, allowSkipped: bool)
    requires FirstUnknown(rs).None?
    ensures TotalElapsed(InBucket(rs, c, Failed, allowSkipped) + InBucket(rs, c, Skipped, allowSkipped) + InBucket(rs, c, Passed, allowSkipped))
         == TotalElapsed(OfClass(rs, c))
  {
    Partition(rs, c, allowSkipped);
    TotalElapsedPermutation(
      InBucket(rs, c, Failed, allowSkipped) + InBucket(rs, c, Skipped, allowSkipped) + InBucket(rs, c, Passed, allowSkipped),
      OfClass(rs, c));
  }

  /**
   * Offering the records one by one builds exactly the three lists of the
   * classification, and a duration that is the `long` sum of the elapsed
   * times of the records in them.
   */
  lemma {:induction false} ExpectIsPartition(rs: seq<TestResult>, c: TestClass, allowSkipped: bool)
    ensures var f, s, p := InBucket(rs, c, Failed, allowSkipped), InBucket(rs, c, Skipped, allowSkipped),
                           InBucket(rs, c, Passed, allowSkipped);
            Expect(rs, c, allowSkipped) == ClassView(f, s, p, Wrap64(TotalElapsed(f + s + p)))
    decreases |rs|
  {
    if rs != [] {
      var rs', x := rs[..|rs| - 1], rs[|rs| - 1];
      assert rs == rs' + [x];
      ExpectIsPartition(rs', c, allowSkipped);
      AppendOne(rs', x, c, Failed, allowSkipped);
      AppendOne(rs', x, c, Skipped, allowSkipped);
      AppendOne(rs', x, c, Passed, allowSkipped);
      FiledKeepsPartition(InBucket(rs', c, Failed, allowSkipped), InBucket(rs', c, Skipped, allowSkipped),
                          InBucket(rs', c, Passed, allowSkipped), x, c, allowSkipped);
    }
  }

  /** One record offered to a view whose duration is the sum of its lists keeps it so. */
  lemma FiledKeepsPartition(f: seq<TestResult>, s: seq<TestResult>, p: seq<TestResult>, x: TestResult,
                            c: TestClass, allowSkipped: bool)
    ensures var d, mine := Destination(x.status, allowSkipped), x.testClass == c;
            var f', s', p' := f + (if mine && d == Some(Failed) then [x] else []),
                              s + (if mine && d == Some(Skipped) then [x] else []),
                              p + (if mine && d == Some(Passed) then [x] else []);
            Filed(ClassView(f, s, p, Wrap64(TotalElapsed(f + s + p))), x, c, allowSkipped)
              == ClassView(f', s', p', Wrap64(TotalElapsed(f' + s' + p')))
  {
    assert f + [] == f && s + [] == s && p + [] == p;
    match Destination(x.status, allowSkipped)
    case Some(Failed) => if x.testClass == c { GrowFailed(f, s, p, x); }
    case Some(Skipped) => if x.testClass == c { GrowSkipped(f, s, p, x); }
    case Some(Passed) => if x.testClass == c { GrowPassed(f, s, p, x); }
    case None =>
  }

  /** Appending `x` to the failures adds its elapsed time to the wrapped total. */
  lemma GrowFailed(f: seq<TestResult>, s: seq<TestResult>, p: seq<TestResult>, x: TestResult)
    ensures Wrap64(TotalElapsed(f + [x] + s + p)) == Wrap64(Wrap64(TotalElapsed(f + s + p)) as int + x.Elapsed())
  {
    AppendElapsed(f, x);
    GrowTotal(f, s, p, x, f + [x], s, p);
    WrapStep(TotalElapsed(f + s + p), x.Elapsed(), TotalElapsed(f + [x] + s + p));
  }

  /** Appending `x` to the skips adds its elapsed time to the wrapped total. */
  lemma GrowSkipped(f: seq<TestResult>, s: seq<TestResult>, p: seq<TestResult>, x: TestResult)
    ensures Wrap64(TotalElapsed(f + (s + [x]) + p)) == Wrap64(Wrap64(TotalElapsed(f + s + p)) as int + x.Elapsed())
  {
    AppendElapsed(s, x);
    GrowTotal(f, s, p, x, f, s + [x], p);
    WrapStep(TotalElapsed(f + s + p), x.Elapsed(), TotalElapsed(f + (s + [x]) + p));
  }

  /** Appending `x` to the passes adds its elapsed time to the wrapped total. */
  lemma GrowPassed(f: seq<TestResult>, s: seq<TestResult>, p: seq<TestResult>, x: TestResult)
    ensures Wrap64(TotalElapsed(f + s + (p + [x]))) == Wrap64(Wrap64(TotalElapsed(f + s + p)) as int + x.Elapsed())
  {
    AppendElapsed(p, x);
    GrowTotal(f, s, p, x, f, s, p + [x]);
    WrapStep(TotalElapsed(f + s + p), x.Elapsed(), TotalElapsed(f + s + (p + [x])));
  }

  /** The exact total of three lists grows by the elapsed time of the one record appended to them. */
  lemma GrowTotal(f: seq<TestResult>, s: seq<TestResult>, p: seq<TestResult>, x: TestResult,
                  f': seq<TestResult>, s': seq<TestResult>, p': seq<TestResult>)
    requires TotalElapsed(f') + TotalElapsed(s') + TotalElapsed(p')
             == TotalElapsed(f) + TotalElapsed(s) + TotalElapsed(p) + x.Elapsed()
    ensures TotalElapsed(f' + s' + p') == TotalElapsed(f + s + p) + x.Elapsed()
  {
    TotalOfThree(f, s, p);
    TotalOfThree(f', s', p');
  }

  /** The records of `rs` whose class is one of `cs`, in visiting order. */
  function OfClasses(rs: seq<TestResult>, cs: set<TestClass>): seq<TestResult> {
    if rs == [] then []
    else
      var last := rs[|rs| - 1];
      OfClasses(rs[..|rs| - 1], cs) + if last.testClass in cs then [last] else []
  }

  /** Taking class `c` out of `cs` takes exactly the records of `c` out of those of `cs`. */
  lemma {:induction false} OfClassesSplit(rs: seq<TestResult>, cs: set<TestClass>, c: TestClass)
    requires c in cs
    ensures |OfClasses(rs, cs)| == |OfClass(rs, c)| + |OfClasses(rs, cs - {c})|
    decreases |rs|
  {
    if rs != [] {
      OfClassesSplit(rs[..|rs| - 1], cs, c);
    }
  }

  /** Selecting no class selects no record. */
  lemma {:induction false} OfNoClasses(rs: seq<TestResult>)
    ensures OfClasses(rs, {}) == []
    decreases |rs|
  {
    if rs != [] {
      OfNoClasses(rs[..|rs| - 1]);
    }
  }

  /** Selecting every class the records have keeps every record. */
  lemma {:induction false} OfAllClasses(rs: seq<TestResult>, cs: set<TestClass>)
    requires Classes(rs) <= cs
    ensures OfClasses(rs, cs) == rs
    decreases |rs|
  {
    if rs != [] {
      var init := rs[..|rs| - 1];
      assert forall r <- init :: r in rs;
      OfAllClasses(init, cs);
      assert rs == init + [rs[|rs| - 1]];
    }
  }

  /** With known statuses, the three lists of class `c` together are as long as its records. */
  lemma ClassSize(rs: seq<TestResult>, c: TestClass, allowSkipped: bool)
    requires FirstUnknown(rs).None?
    ensures |InBucket(rs, c, Failed, allowSkipped)| + |InBucket(rs, c, Skipped, allowSkipped)|
            + |InBucket(rs, c, Passed, allowSkipped)| == |OfClass(rs, c)|
  {
    Partition(rs, c, allowSkipped);
    assert |multiset(OfClass(rs, c))| == |OfClass(rs, c)|;
  }

  /** When the output format does not allow skipped tests, no class ever has a skipped record. */
  lemma {:induction false} NothingSkippedWhenDisallowed(rs: seq<TestResult>, c: TestClass)
    ensures InBucket(rs, c, Skipped, false) == []
    decreases |rs|
  {
    if rs != [] {
      NothingSkippedWhenDisallowed(rs[..|rs| - 1], c);
    }
  }

  // ---------------------------------------------------------------------------
  // Order independence: the visiting order of the records does not matter
  // ---------------------------------------------------------------------------

  /** Two visiting orders of the same records give class `c` the same records in list `b`. */
  lemma SameRecordsSameBucket(rs: seq<TestResult>, rs': seq<TestResult>, c: TestClass, b: Bucket, allowSkipped: bool)
    requires multiset(rs) == multiset(rs')
    ensures multiset(InBucket(rs, c, b, allowSkipped)) == multiset(InBucket(rs', c, b, allowSkipped))
  {
    forall x
      ensures multiset(InBucket(rs, c, b, allowSkipped))[x] == multiset(InBucket(rs', c, b, allowSkipped))[x]
    {
      BucketCount(rs, x, c, b, allowSkipped);
      BucketCount(rs', x, c, b, allowSkipped);
    }
  }

  /** Two visiting orders of the same records give class `c` the same total time. */
  lemma SameRecordsSameElapsed(rs: seq<TestResult>, rs': seq<TestResult>, c: TestClass)
    requires multiset(rs) == multiset(rs')
    ensures TotalElapsed(OfClass(rs, c)) == TotalElapsed(OfClass(rs', c))
  {
    forall x
      ensures multiset(OfClass(rs, c))[x] == multiset(OfClass(rs', c))[x]
    {
      OfClassCount(rs, x, c);
      OfClassCount(rs', x, c);
    }
    TotalElapsedPermutation(OfClass(rs, c), OfClass(rs', c));
  }

  /** Two visiting orders of the same records give the same classes and the same verdict on statuses. */
  lemma SameRecordsSameClasses(rs: seq<TestResult>, rs': seq<TestResult>)
    requires multiset(rs) == multiset(rs')
    ensures Classes(rs) == Classes(rs')
    ensures FirstUnknown(rs).None? <==> FirstUnknown(rs').None?
  {
    assert forall r :: r in rs <==> r in multiset(rs');
  }
}
