# ReportNG JUnit XML reporter: a Dafny model

ReportNG's `JUnitXMLReporter` turns the results of a TestNG run into one
JUnit-style XML report per test class. TestNG hands over results per suite,
per suite result and, inside each test context, in result sets by outcome.
The reporter reads five of them: failed and skipped configuration methods,
and failed, skipped and passed tests. It drops the suite and context
structure. It files every
record under its test class, in a per-class aggregate `TestClassResults`
that has three lists (failed, skipped, passed) and a running `long` duration.
Each aggregate then goes to the `<output>/xml/<ClassName>_results.xml` file.

This model covers the following:

* `ResultTypes.dfy`: the values involved. Execution records are reduced to
  their class, status and start and end times. The model also has the
  suite / suite-result / test-context hierarchy, Java's 64-bit `long` with
  wrap-around, TestNG's four status codes, and the rule (`Destination`) that
  sends a status to one of the three lists.
* `TestClassResults.dfy`: the aggregate as a class whose fields change in
  place. It has the constructor, the getters and `addResult`. Its invariant
  `Valid` says that each list holds only the statuses the switch sends there,
  and that `duration` is the wrapped sum of the elapsed times of the records
  held.
* `Traversal.dfy`: the order in which `flattenResults` visits records
  (`Visited`). It also has lemmas about reordering suites and about the
  passed-configuration partition, which the traversal never reads.
* `ByClass.dfy`: the value-level specification of one class's aggregate.
  `Expect(visited, c, allowSkipped)` is what a new aggregate holds once every
  visited record has been offered to class `c`. The lemmas split it into
  per-list subsequences (`InBucket`) and connect it to counts, durations
  and reordering.
* `JUnitXMLReporter.dfy`: filling the map and emitting the reports.
  - `getResultsForClass` is a get-or-put on the map from classes to
    aggregates.
  - `organiseByClass` and `flattenResults` are loops. They are proved to
    leave the map `Organised`: one key per class that has a record, and each
    aggregate holds exactly `Expect` of the records visited.
  - The properties of an organised map are lemmas beside them: completeness,
    exactly-once, skip folding, duration additivity and order independence.
  - `generateReport` is reduced to the report file name and the aggregate
    contents handed to the template, for each class.

The flag that allows skipped tests in XML (`META.allowSkippedTestsInXML()`)
is passed in as the parameter `allowSkipped`. The `HashMap` is a Dafny `map`
from classes to aggregates, passed in and returned. Its aggregates are heap
objects, so `addResult` mutates them in place.

Classification follows the code at
`src/main/java/org/uncommons/reportng/JUnitXMLReporter.java:132-151`. A
record is filed by its own status, whichever context partition it came from.
The comment at line 67 says that failed and skipped configuration methods are
treated as test failures. The code enforces this only by their status:
* A skipped configuration (status SKIP) goes to the skipped list when skipped
  tests are allowed.
* A configuration record whose status is SUCCESS would go to the passed list.

The model does what the code does.

## Model

All source paths are in `src/main/java/org/uncommons/reportng/`.

| member | source | states |
|---|---|---|
| ResultTypes.Destination | src/main/java/org/uncommons/reportng/JUnitXMLReporter.java:133-149 | A status has a list exactly when it is one of the four the switch names. The skipped list is chosen exactly for SKIP when skipped tests are allowed. A disallowed SKIP falls through to the failed list, as do FAILURE and SUCCESS_PERCENTAGE_FAILURE. SUCCESS goes to the passed list. |
| ResultTypes.WrapIsRemainder | src/main/java/org/uncommons/reportng/JUnitXMLReporter.java:150 | `Wrap64`, the model of `long` arithmetic, is two's-complement truncation: the exact value reduced modulo 2^64 into the `long` range. |
| ResultTypes.ElapsedAsLong | src/main/java/org/uncommons/reportng/JUnitXMLReporter.java:150 | The `long` subtraction `getEndMillis() - getStartMillis()` that `addResult` adds is the exact difference reduced modulo 2^64 into the `long` range. It equals the exact difference exactly when that fits in a `long`, so a record with non-negative timestamps that ends no earlier than it starts adds exactly `end - start`. |
| ResultTypes.WrapAddWrapped | src/main/java/org/uncommons/reportng/JUnitXMLReporter.java:150 | Adding the `long` difference `end - start` to a sum and wrapping gives the wrapped exact sum. The two wrap-arounds of `duration += end - start` compose into one. |
| ResultTypes.TotalElapsedConcat | src/main/java/org/uncommons/reportng/JUnitXMLReporter.java:150 | The total elapsed time of two record sequences joined is the sum of their totals. |
| ResultTypes.TotalElapsedPermutation | src/main/java/org/uncommons/reportng/JUnitXMLReporter.java:113-117 | The total elapsed time does not depend on the order of the records, only on the records. |
| ClassResults.TestClassResults.constructor | src/main/java/org/uncommons/reportng/JUnitXMLReporter.java:112-121 | A new aggregate is for the given class, has three empty lists and duration 0, and keeps the invariant. |
| ClassResults.TestClassResults.GetTestClass | src/main/java/org/uncommons/reportng/JUnitXMLReporter.java:123-125 | Returns the aggregate's constant class field. `JUnitXMLReporter.OrganisedMeaning` proves the real promise: every aggregate of the flattened map reports as its class the key it is stored under. |
| ClassResults.TestClassResults.GetFailedTests | src/main/java/org/uncommons/reportng/JUnitXMLReporter.java:153-155 | The failed list holds only FAILURE, SUCCESS_PERCENTAGE_FAILURE and (folded) SKIP records. |
| ClassResults.TestClassResults.GetSkippedTests | src/main/java/org/uncommons/reportng/JUnitXMLReporter.java:157-159 | The skipped list holds only SKIP records. |
| ClassResults.TestClassResults.GetPassedTests | src/main/java/org/uncommons/reportng/JUnitXMLReporter.java:161-163 | The passed list holds only SUCCESS records. |
| ClassResults.TestClassResults.GetDuration | src/main/java/org/uncommons/reportng/JUnitXMLReporter.java:165-167 | The duration is the `long` sum of the elapsed times of every record in the three lists. |
| ClassResults.TestClassResults.AddResult | src/main/java/org/uncommons/reportng/JUnitXMLReporter.java:132-151 | For each known status, the record is appended to exactly the list the switch picks and the other two lists are unchanged. The duration grows by the record's elapsed time, with `long` wrap-around. An unknown status fails with that status and leaves the aggregate unchanged. The invariant is kept. |
| ClassResults.AddFailedKeepsConsistent | src/main/java/org/uncommons/reportng/JUnitXMLReporter.java:140-143 | Appending a failure (or a folded skip) to the failed list, and adding its time, keeps the aggregate's invariant. |
| ClassResults.AddSkippedKeepsConsistent | src/main/java/org/uncommons/reportng/JUnitXMLReporter.java:134-137 | Appending a skip to the skipped list, and adding its time, keeps the invariant. |
| ClassResults.AddPassedKeepsConsistent | src/main/java/org/uncommons/reportng/JUnitXMLReporter.java:144-146 | Appending a success to the passed list, and adding its time, keeps the invariant. |
| ClassResults.DurationStep | src/main/java/org/uncommons/reportng/JUnitXMLReporter.java:150 | If the duration is the wrapped exact total, then after `+=` it is the wrapped exact total including the new record. |
| Traversal.ResultsRecordsMembership | src/main/java/org/uncommons/reportng/JUnitXMLReporter.java:66-82 | `ResultsRecords`, the records of a suite's results, holds a record exactly when some suite result's test context contributes it. |
| Traversal.VisitedMembership | src/main/java/org/uncommons/reportng/JUnitXMLReporter.java:65-82 | `Visited`, every record `flattenResults` reaches, holds a record exactly when some suite's results hold it. |
| Traversal.ContextRecordsVisited | src/main/java/org/uncommons/reportng/JUnitXMLReporter.java:66-82 | Every suite result's context records are among the suite's records, each at least as often as it occurs in that context. |
| Traversal.SuiteRecordsVisited | src/main/java/org/uncommons/reportng/JUnitXMLReporter.java:65-66 | Every suite's records are visited, each at least as often as it occurs in that suite. |
| Traversal.VisitedPrefix | src/main/java/org/uncommons/reportng/JUnitXMLReporter.java:65-66 | The records of the first suites are a prefix of all the records visited. |
| Traversal.VisitedConcat | src/main/java/org/uncommons/reportng/JUnitXMLReporter.java:65 | Visiting two suite lists one after the other visits the records of the first, then those of the second. |
| Traversal.SuiteOrderPermutesVisited | src/main/java/org/uncommons/reportng/JUnitXMLReporter.java:65 | Reordering the suites only reorders the visited records: the multiset is the same. |
| Traversal.ResultsIgnorePassedConfigurations | src/main/java/org/uncommons/reportng/JUnitXMLReporter.java:75 | Suite results that differ only in their passed configurations give the same records. |
| Traversal.PassedConfigurationsNotVisited | src/main/java/org/uncommons/reportng/JUnitXMLReporter.java:75 | Suites that differ only in their passed configurations are visited as the same records, so successful configuration methods are not included. |
| ByClass.FirstUnknown | src/main/java/org/uncommons/reportng/JUnitXMLReporter.java:147-148 | There is no first unknown status exactly when every status is one of the four. Otherwise it is a status that some record has and that is unknown. |
| ByClass.InBucketDestination | src/main/java/org/uncommons/reportng/JUnitXMLReporter.java:133-149 | Every record that class c's list b should hold is of class c, and its status sends it to b. |
| ByClass.FiledByStatus | src/main/java/org/uncommons/reportng/JUnitXMLReporter.java:132-151 | `Filed`, the value-level `addResult` on one class's aggregate, is exactly the change `addResult` promises, status by status. An aggregate changed that way equals the aggregate before with the record filed into it. |
| ByClass.ExpectIsPartition | src/main/java/org/uncommons/reportng/JUnitXMLReporter.java:113-117 | `Expect`, the fold of `Filed` over the visited records from a new aggregate, is what class c's aggregate should hold. It is, list by list, exactly c's records that the switch sends there, in visiting order. Its duration is the wrapped total of their elapsed times. |
| ByClass.FiledKeepsPartition | src/main/java/org/uncommons/reportng/JUnitXMLReporter.java:133-150 | Offering one record to a partitioned aggregate keeps it partitioned. A record of another class, or one with an unknown status, changes nothing. |
| ByClass.Partition | src/main/java/org/uncommons/reportng/JUnitXMLReporter.java:133-149 | When every status is known, the three lists of class c together hold c's records as a multiset: each goes to exactly one list. |
| ByClass.PartitionCount | src/main/java/org/uncommons/reportng/JUnitXMLReporter.java:133-149 | When every status is known, a record occurs in c's three lists together as often as it occurs among c's records. |
| ByClass.PartitionElapsed | src/main/java/org/uncommons/reportng/JUnitXMLReporter.java:150 | When every status is known, the elapsed time over c's three lists is the elapsed time over all of c's records. |
| ByClass.ClassSize | src/main/java/org/uncommons/reportng/JUnitXMLReporter.java:133-149 | When every status is known, the three lists of class c together are as long as c's records. |
| ByClass.NothingSkippedWhenDisallowed | src/main/java/org/uncommons/reportng/JUnitXMLReporter.java:134-139 | When skipped tests are not allowed, no class's skipped list gets a record. |
| ByClass.AbsentClassIsEmpty | src/main/java/org/uncommons/reportng/JUnitXMLReporter.java:98-101 | A class with no record has nothing in any list. This is why the fresh aggregate of `getResultsForClass` is already right. |
| ByClass.ClassesAppend | src/main/java/org/uncommons/reportng/JUnitXMLReporter.java:98-101 | One more record adds its class, and only its class, to the set of classes that have records. |
| ByClass.FirstUnknownConcat | src/main/java/org/uncommons/reportng/JUnitXMLReporter.java:147-148 | The first unknown status of two record sequences joined is that of the first sequence if it has one, and that of the second otherwise. |
| ByClass.FirstUnknownOfPrefix | src/main/java/org/uncommons/reportng/JUnitXMLReporter.java:147-148 | If a prefix has an unknown status, the first unknown status of the whole is the prefix's. |
| ByClass.OfClassCount | src/main/java/org/uncommons/reportng/JUnitXMLReporter.java:90-91 | A record occurs among class c's records as often as among all records if it is of class c, and never otherwise. |
| ByClass.SameRecordsSameBucket | src/main/java/org/uncommons/reportng/JUnitXMLReporter.java:64-66 | The same records in another order give each list of each class the same records, as a multiset. |
| ByClass.SameRecordsSameElapsed | src/main/java/org/uncommons/reportng/JUnitXMLReporter.java:64-66 | The same records in another order give each class the same total elapsed time. |
| ByClass.SameRecordsSameClasses | src/main/java/org/uncommons/reportng/JUnitXMLReporter.java:64-66 | The same records in another order give the same classes, and an unknown status in one order exactly when in the other. |
| ByClass.OfAllClasses | src/main/java/org/uncommons/reportng/JUnitXMLReporter.java:85 | Taking the records of every class that has one gives back all the records. |
| JUnitXMLReporter.HoldsIsValid | src/main/java/org/uncommons/reportng/JUnitXMLReporter.java:110-151 | An aggregate that holds exactly its class's records keeps the aggregate's invariant. |
| JUnitXMLReporter.GetResultsForClass | src/main/java/org/uncommons/reportng/JUnitXMLReporter.java:96-104 | A class already in the map: the map is unchanged and its aggregate is returned. A class not in the map: a fresh, empty aggregate for that class is put under it and returned, and nothing else in the map changes. |
| JUnitXMLReporter.AfterGetOrPut | src/main/java/org/uncommons/reportng/JUnitXMLReporter.java:96-104 | After the get-or-put, the key maps to the returned aggregate, the keys are the classes seen plus this one, and the aggregate holds its class's records. No other key shares that aggregate. |
| JUnitXMLReporter.OrganiseOne | src/main/java/org/uncommons/reportng/JUnitXMLReporter.java:91 | Looking up a record's aggregate and adding the record fails exactly on an unknown status. Otherwise it leaves the map organised for the records seen so far plus this one. Existing entries keep their aggregates and new ones are fresh. |
| JUnitXMLReporter.OrganisedAfterAdd | src/main/java/org/uncommons/reportng/JUnitXMLReporter.java:91 | Filing the record into its class's aggregate, when every other aggregate is untouched, yields a map organised for one more record. |
| JUnitXMLReporter.OrganiseByClass | src/main/java/org/uncommons/reportng/JUnitXMLReporter.java:88-93 | Organising a result set fails exactly when the records seen so far plus the set have an unknown status, and then with the first one. Otherwise the map is organised for the records seen so far plus the set. Existing entries keep their aggregates. |
| JUnitXMLReporter.OrganiseTestContext | src/main/java/org/uncommons/reportng/JUnitXMLReporter.java:68-82 | The five organiseByClass calls on one test context (failed and skipped configurations, failed, skipped and passed tests) together fail exactly on the first unknown status in that order. Otherwise they organise all five partitions. |
| JUnitXMLReporter.OrganiseSuite | src/main/java/org/uncommons/reportng/JUnitXMLReporter.java:66-83 | Organising every suite result of one suite fails exactly on the first unknown status among its records. Otherwise it organises them all. |
| JUnitXMLReporter.FlattenResults | src/main/java/org/uncommons/reportng/JUnitXMLReporter.java:63-86 | With no suites the result is the empty map. It fails exactly when a visited record has an unknown status, and then with the first one visited. Otherwise the map has one fresh aggregate per class that has a record, holding exactly that class's records. |
| JUnitXMLReporter.OrganisedMeaning | src/main/java/org/uncommons/reportng/JUnitXMLReporter.java:63-86 | Each aggregate of the flattened map belongs to its key's class and keeps its invariant. Each list holds exactly its class's records with the statuses the switch sends there, in visiting order. Its duration is the `long` sum over all the class's records, configurations included. |
| JUnitXMLReporter.HeldExactlyOnce | src/main/java/org/uncommons/reportng/JUnitXMLReporter.java:63-93 | Every visited record's class has an aggregate. The record occurs in that aggregate's three lists together as often as it was visited, and in no other aggregate. |
| JUnitXMLReporter.NoSkippedAggregates | src/main/java/org/uncommons/reportng/JUnitXMLReporter.java:134-139 | When skipped tests are not allowed in XML, every aggregate's skipped list is empty. |
| JUnitXMLReporter.HeldCountIsVisited | src/main/java/org/uncommons/reportng/JUnitXMLReporter.java:63-93 | The aggregates of any set of classes hold, in their three lists together, as many records as were visited for those classes. |
| JUnitXMLReporter.HeldCountIsTotal | src/main/java/org/uncommons/reportng/JUnitXMLReporter.java:85 | All aggregates of the flattened map together hold exactly as many records as were visited: nothing is dropped or duplicated. |
| JUnitXMLReporter.OrderIndependent | src/main/java/org/uncommons/reportng/JUnitXMLReporter.java:63-86 | Two maps flattened from the same records in any order have the same classes. Each class's lists hold the same records, as multisets, with the same duration. |
| JUnitXMLReporter.ReportFile | src/main/java/org/uncommons/reportng/JUnitXMLReporter.java:44-46 | The report file is in the `xml` sub-directory of the output directory. Its name gives back the class name when `_results.xml` is stripped. |
| JUnitXMLReporter.ClassNameOf | src/main/java/org/uncommons/reportng/JUnitXMLReporter.java:46 | A file name parsed as a report name is the class name followed by `_results.xml`. |
| JUnitXMLReporter.ReportFileInjective | src/main/java/org/uncommons/reportng/JUnitXMLReporter.java:46 | Two class names give the same report file exactly when they are the same name. |
| JUnitXMLReporter.SameFileIffSameName | src/main/java/org/uncommons/reportng/JUnitXMLReporter.java:44-46 | Two classes' reports go to the same file exactly when the classes have the same name. Distinct classes that share a name write one file twice. |
| JUnitXMLReporter.ReportFor | src/main/java/org/uncommons/reportng/JUnitXMLReporter.java:39-46 | The report built from an aggregate's getters is its class's file together with exactly what the records give that class. |
| JUnitXMLReporter.EmitReports | src/main/java/org/uncommons/reportng/JUnitXMLReporter.java:39-52 | One report per aggregate of the map. The emitting order lists every class exactly once, and report k is the one for the k-th class emitted. |
| JUnitXMLReporter.ReportsCoverClasses | src/main/java/org/uncommons/reportng/JUnitXMLReporter.java:39-52 | Reports emitted along an order that lists every class once contain the report of every class, and no report that is not some class's. |
| JUnitXMLReporter.GenerateReport | src/main/java/org/uncommons/reportng/JUnitXMLReporter.java:30-53 | It fails exactly when a visited record has an unknown status, and then with the first one. Otherwise it yields one report per class that has a record, each class exactly once. Each report names that class's file and holds exactly what its records give it. Every class's report is among the results, and every result is some class's report. |

## Left out

- File system effects (`JUnitXMLReporter.java:33-35`) are not modelled: removing empty directories under the output directory and creating `xml/`. A report's file is modelled as its path segments (output directory, `xml`, file name), not as an operating-system path string.
- The rendering (`JUnitXMLReporter.java:40-41, 47`) is not modelled: the Freemarker context, the `results.ftl` template, and writing the file. A report is the file it goes to, paired with the aggregate's contents that the template receives.
- Wrapping any rendering failure in `ReportNGException` (`JUnitXMLReporter.java:49-51`) is not modelled, because rendering is not modelled.
- `HashMap` and `Set` iteration order is unspecified in Java. The model visits each result set and each suite's results in the order of a given sequence. It emits the map's aggregates in a chosen order, returned as the ghost `order`, which is proved to be a permutation of the classes. `OrderIndependent` shows the aggregates do not depend on the visiting order, as multisets.
- TestNG's objects (`ISuite`, `ISuiteResult`, `ITestContext`, `ITestResult`, `IClass`) are modelled as plain values. A test class is its name plus an identity, so two distinct classes may share a name. The status codes 1 to 4 are defined in TestNG's `ITestResult`, outside `JUnitXMLReporter.java`.
- A test context's failed-but-within-success-percentage tests (`getFailedButWithinSuccessPercentageTests()`) are not read by `flattenResults` (`JUnitXMLReporter.java:68-82`), so they never reach a report. The model's `TestContext` has no such partition. A SUCCESS_PERCENTAGE_FAILURE record is filed only when it occurs in one of the five partitions that are read.
- `META.allowSkippedTestsInXML()` is the parameter `allowSkipped`, not read from global configuration.
- JUnitXMLReporter.FlattenResults: after an unknown status, the model states only the error. In Java the `IllegalStateException` aborts the whole report, so the partly filled map is never observed.
- JUnitXMLReporter.HeldCountIsTotal: the total size of the three Java lists is stated through a ghost sum over the map's classes, not through `Collection.size()`.
- `AbstractReporter` (`generateFile`, `createContext`, `removeEmptyDirectories`) and `ReportMetadata` are not part of this model.
