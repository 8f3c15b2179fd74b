/**
 * Result aggregation: the manager-wide statistics, the per-suite results and
 * their test lists, and the recorder operations through which test and suite
 * outcomes are counted. Start and end times and the report rendering are not
 * modelled; the recorders run one at a time (the source serialises them with
 * a mutex).
 */
module TestReporter {
  import ResultCodes
  import Collections

  /** Initial capacity of a suite's test list, and the amount it grows by. */
  const INITIAL_REPORT_SIZE := 100
  /** Initial capacity of the finished-suite list, and the amount it grows by. */
  const FINISHED_SUITES_GROWTH := 10

  /** The counters kept for test cases, per suite and in total. */
  datatype TestField =
    | Total | Passed | Failed | Error | SetUpFailed | SetUpError
    | TearDownFailed | TearDownError | NotFound | Skipped

  datatype TestCounts = TestCounts(
    total: nat, passed: nat, failed: nat, error: nat, setUpFailed: nat, setUpError: nat,
    tearDownFailed: nat, tearDownError: nat, notFound: nat, skipped: nat)

  /** The counters kept for suites. */
  datatype SuiteField =
    | Total | Passed | Failed | Error | SetUpFailed | SetUpError
    | TearDownError | TearDownFailed | NotFound

  datatype SuiteCounts = SuiteCounts(
    total: nat, passed: nat, failed: nat, error: nat, setUpFailed: nat, setUpError: nat,
    tearDownError: nat, tearDownFailed: nat, notFound: nat)

  function TestCount(c: TestCounts, f: TestField): nat {
    match f
    case Total => c.total
    case Passed => c.passed
    case Failed => c.failed
    case Error => c.error
    case SetUpFailed => c.setUpFailed
    case SetUpError => c.setUpError
    case TearDownFailed => c.tearDownFailed
    case TearDownError => c.tearDownError
    case NotFound => c.notFound
    case Skipped => c.skipped
  }

  function SuiteCount(c: SuiteCounts, f: SuiteField): nat {
    match f
    case Total => c.total
    case Passed => c.passed
    case Failed => c.failed
    case Error => c.error
    case SetUpFailed => c.setUpFailed
    case SetUpError => c.setUpError
    case TearDownError => c.tearDownError
    case TearDownFailed => c.tearDownFailed
    case NotFound => c.notFound
  }

  /** The test outcomes that count towards the total; teardown outcomes do not. */
  predicate InTestTotal(f: TestField) {
    !(f.Total? || f.TearDownFailed? || f.TearDownError?)
  }

  /** The suite outcomes that count towards the total; teardown outcomes do not. */
  predicate InSuiteTotal(f: SuiteField) {
    !(f.Total? || f.TearDownError? || f.TearDownFailed?)
  }

  /** The total equals the sum of the outcome counters that feed it. */
  predicate TestsBalanced(c: TestCounts) {
    c.total == c.passed + c.failed + c.error + c.notFound + c.skipped + c.setUpFailed + c.setUpError
  }

  predicate SuitesBalanced(c: SuiteCounts) {
    c.total == c.passed + c.failed + c.error + c.notFound + c.setUpFailed + c.setUpError
  }

  function ZeroTestCounts(): TestCounts {
    TestCounts(0, 0, 0, 0, 0, 0, 0, 0, 0, 0)
  }

  function ZeroSuiteCounts(): SuiteCounts {
    SuiteCounts(0, 0, 0, 0, 0, 0, 0, 0, 0)
  }

  /**
   * One recorded test outcome: its own counter goes up by one, and the total
   * with it when the outcome counts towards the total; nothing else moves.
   */
  function BumpTest(c: TestCounts, f: TestField): (r: TestCounts)
    requires !f.Total?
    ensures TestCount(r, f) == TestCount(c, f) + 1
    ensures r.total == c.total + (if InTestTotal(f) then 1 else 0)
    ensures TestsBalanced(c) ==> TestsBalanced(r)
  {
    var c := if InTestTotal(f) then c.(total := c.total + 1) else c;
    match f
    case Passed => c.(passed := c.passed + 1)
    case Failed => c.(failed := c.failed + 1)
    case Error => c.(error := c.error + 1)
    case SetUpFailed => c.(setUpFailed := c.setUpFailed + 1)
    case SetUpError => c.(setUpError := c.setUpError + 1)
    case TearDownFailed => c.(tearDownFailed := c.tearDownFailed + 1)
    case TearDownError => c.(tearDownError := c.tearDownError + 1)
    case NotFound => c.(notFound := c.notFound + 1)
    case Skipped => c.(skipped := c.skipped + 1)
  }

  /** The suite counterpart of `BumpTest`. */
  function BumpSuite(c: SuiteCounts, f: SuiteField): (r: SuiteCounts)
    requires !f.Total?
    ensures SuiteCount(r, f) == SuiteCount(c, f) + 1
    ensures r.total == c.total + (if InSuiteTotal(f) then 1 else 0)
    ensures SuitesBalanced(c) ==> SuitesBalanced(r)
  {
    var c := if InSuiteTotal(f) then c.(total := c.total + 1) else c;
    match f
    case Passed => c.(passed := c.passed + 1)
    case Failed => c.(failed := c.failed + 1)
    case Error => c.(error := c.error + 1)
    case SetUpFailed => c.(setUpFailed := c.setUpFailed + 1)
    case SetUpError => c.(setUpError := c.setUpError + 1)
    case TearDownError => c.(tearDownError := c.tearDownError + 1)
    case TearDownFailed => c.(tearDownFailed := c.tearDownFailed + 1)
    case NotFound => c.(notFound := c.notFound + 1)
  }

  /** A test recorder moves no counter but its own and the total. */
  lemma BumpTestTouchesOnlyItsCounter(c: TestCounts, f: TestField, g: TestField)
    requires !f.Total? && !g.Total? && g != f
    ensures TestCount(BumpTest(c, f), g) == TestCount(c, g)
  {
  }

  /** A suite recorder moves no counter but its own and the total. */
  lemma BumpSuiteTouchesOnlyItsCounter(c: SuiteCounts, f: SuiteField, g: SuiteField)
    requires !f.Total? && !g.Total? && g != f
    ensures SuiteCount(BumpSuite(c, f), g) == SuiteCount(c, g)
  {
  }

  /** The manager-wide statistics: suite counters and test-case totals. */
  datatype ReporterStatistics = ReporterStatistics(suites: SuiteCounts, tests: TestCounts)

  predicate StatsBalanced(s: ReporterStatistics) {
    SuitesBalanced(s.suites) && TestsBalanced(s.tests)
  }

  /** `ReporterStatistics.Init`: a fresh set of statistics, balanced from the start. */
  function ZeroStatistics(): ReporterStatistics
  {
    ReporterStatistics(ZeroSuiteCounts(), ZeroTestCounts())
  }

  /** `ReporterStatistics.Init`: every one of the nineteen counters is zero. */
  lemma ZeroStatisticsAllZero(f: SuiteField, g: TestField)
    ensures SuiteCount(ZeroStatistics().suites, f) == 0 && TestCount(ZeroStatistics().tests, g) == 0
    ensures StatsBalanced(ZeroStatistics())
  {
  }

  datatype TestResult = TestResult(name: string, status: int, statusMessage: string)

  function ZeroTestResult(): TestResult {
    TestResult("", 0, "")
  }

  /**
   * A suite's result: its outcome, the tests started but not ended
   * (`tempMade` records whether Go's map is allocated), the tests ended in
   * order, the capacity of the slice holding them, and its test counters.
   */
  datatype SuiteResult = SuiteResult(
    name: string, status: int, statusMessage: string,
    tempMade: bool, tempTests: map<string, TestResult>,
    tests: seq<TestResult>, testsCap: nat,
    counts: TestCounts)

  /** Go's zero `suiteResult`, which a lookup of an absent suite yields. */
  function ZeroSuite(): SuiteResult {
    SuiteResult("", 0, "", false, map[], [], 0, ZeroTestCounts())
  }

  ghost predicate SuiteValid(s: SuiteResult) {
    |s.tests| <= s.testsCap && TestsBalanced(s.counts) && (!s.tempMade ==> s.tempTests == map[])
  }

  /** `suiteResult.Init` on a zero suite: named, no tests, room for `INITIAL_REPORT_SIZE`. */
  function NewSuite(name: string): (s: SuiteResult)
    ensures s.name == name && s.tests == [] && s.tempMade && s.tempTests == map[]
    ensures s.testsCap == INITIAL_REPORT_SIZE && s.counts == ZeroTestCounts()
  {
    ZeroSuite().(name := name, tempMade := true, testsCap := INITIAL_REPORT_SIZE)
  }

  function SuiteOf(active: map<string, SuiteResult>, name: string): SuiteResult {
    if name in active then active[name] else ZeroSuite()
  }

  /**
   * `suiteResult.AddTestResult`: appends at the end, keeping earlier entries
   * and their order; a full slice is first copied into one with room for
   * `INITIAL_REPORT_SIZE` more.
   */
  function SuiteAddTestResult(s: SuiteResult, r: TestResult): (t: SuiteResult)
    requires |s.tests| <= s.testsCap
    ensures t.tests == s.tests + [r]
    ensures |t.tests| <= t.testsCap
    ensures s.testsCap <= t.testsCap
    ensures |s.tests| < s.testsCap ==> t.testsCap == s.testsCap
    ensures |s.tests| >= s.testsCap ==> t.testsCap == |s.tests| + INITIAL_REPORT_SIZE
    ensures t == s.(tests := t.tests, testsCap := t.testsCap)
  {
    var grown := if |s.tests| >= s.testsCap then s.(testsCap := |s.tests| + INITIAL_REPORT_SIZE) else s;
    grown.(tests := grown.tests + [r])
  }

  /** `suiteResult.StartTest`: files a new test result under its name. */
  function SuiteStartTest(s: SuiteResult, name: string): (t: SuiteResult)
    requires s.tempMade
    ensures t.tempTests == s.tempTests[name := TestResult(name, 0, "")]
    ensures t == s.(tempTests := t.tempTests)
  {
    s.(tempTests := s.tempTests[name := TestResult(name, 0, "")])
  }

  /**
   * `suiteResult.EndTest`: the started test of that name takes the status and
   * message and is appended to the ended tests. A test that was never started
   * is Go's zero result, so its entry has an empty name.
   */
  function SuiteEndTest(s: SuiteResult, name: string, status: int, message: string): (t: SuiteResult)
    requires |s.tests| <= s.testsCap
    ensures |t.tests| == |s.tests| + 1 && t.tests[..|s.tests|] == s.tests
    ensures t.tests[|s.tests|] == TestResult(if name in s.tempTests then s.tempTests[name].name else "", status, message)
    ensures |t.tests| <= t.testsCap
    ensures t.counts == s.counts && t.tempTests == s.tempTests && t.name == s.name
  {
    var test := if name in s.tempTests then s.tempTests[name] else ZeroTestResult();
    SuiteAddTestResult(s, test.(status := status, statusMessage := message))
  }

  /** A test recorder's effect on its suite: one counter bump, then the test is ended. */
  function SuiteRecordTest(s: SuiteResult, result: TestResult, f: TestField): (t: SuiteResult)
    requires |s.tests| <= s.testsCap && !f.Total?
    ensures |t.tests| == |s.tests| + 1 && t.tests[..|s.tests|] == s.tests && |t.tests| <= t.testsCap
    ensures t.counts == BumpTest(s.counts, f)
  {
    SuiteEndTest(s.(counts := BumpTest(s.counts, f)), result.name, result.status, result.statusMessage)
  }

  /**
   * After `StartTest` for a name, recording a result of that name appends
   * exactly one entry, named after the test and carrying the result's status
   * and message.
   */
  lemma RecordAfterStartAppends(s: SuiteResult, result: TestResult, f: TestField)
    requires SuiteValid(s) && s.tempMade && !f.Total?
    ensures var t := SuiteRecordTest(SuiteStartTest(s, result.name), result, f);
            t.tests == s.tests + [TestResult(result.name, result.status, result.statusMessage)]
            && t.counts == BumpTest(s.counts, f)
  {
    var started := SuiteStartTest(s, result.name);
    var t := SuiteRecordTest(started, result, f);
    assert t.tests[..|s.tests|] == s.tests;
    assert t.tests == t.tests[..|s.tests|] + [t.tests[|s.tests|]];
  }

  /**
   * Bumping a suite's counter in the map and then ending the test there is
   * the same as filing the suite's `SuiteRecordTest`.
   */
  lemma BumpThenEndIsRecord(active: map<string, SuiteResult>, suiteName: string, result: TestResult, f: TestField)
    requires |SuiteOf(active, suiteName).tests| <= SuiteOf(active, suiteName).testsCap && !f.Total?
    ensures var s0 := SuiteOf(active, suiteName);
            var s := s0.(counts := BumpTest(s0.counts, f));
            active[suiteName := s][suiteName := SuiteEndTest(SuiteOf(active[suiteName := s], suiteName), result.name, result.status, result.statusMessage)]
            == active[suiteName := SuiteRecordTest(s0, result, f)]
  {
    var s0 := SuiteOf(active, suiteName);
    var s := s0.(counts := BumpTest(s0.counts, f));
    assert SuiteOf(active[suiteName := s], suiteName) == s;
    Collections.MapOverwrite(active, suiteName, s, SuiteRecordTest(s0, result, f));
  }

  /**
   * The state a test recorder leaves behind, against the state before it:
   * one bump in the totals and in the suite's counters, and the result
   * appended to the suite's ended tests.
   */
  predicate TestRecorded(
    stats0: ReporterStatistics, active0: map<string, SuiteResult>,
    stats1: ReporterStatistics, active1: map<string, SuiteResult>,
    suiteName: string, result: TestResult, f: TestField)
    requires !f.Total?
    requires |SuiteOf(active0, suiteName).tests| <= SuiteOf(active0, suiteName).testsCap
  {
    && stats1 == stats0.(tests := BumpTest(stats0.tests, f))
    && active1 == active0[suiteName := SuiteRecordTest(SuiteOf(active0, suiteName), result, f)]
  }

  /**
   * The copy step of a full slice's growth: a new backing array with room
   * for `extra` more entries, holding the first `len` entries of `src` in order.
   */
  method Grown(src: array<SuiteResult>, len: nat, extra: nat) returns (dst: array<SuiteResult>)
    requires len <= src.Length
    ensures fresh(dst) && dst.Length == len + extra
    ensures dst[..len] == src[..len]
  {
    dst := new SuiteResult[len + extra](_ => ZeroSuite());
    for i := 0 to len
      invariant dst[..i] == src[..i]
    {
      dst[i] := src[i];
    }
  }

  class ManagerResult {
    var name: string
    /** Whether Go's `activeSuites` map is allocated; writing to a nil map panics. */
    var activeMade: bool
    var activeSuites: map<string, SuiteResult>
    /** The finished suites are `finished[..finishedLen]`; the array is the slice's backing store. */
    var finished: array<SuiteResult>
    var finishedLen: nat
    var reportStats: ReporterStatistics

    /** Go's zero value. */
    constructor ()
      ensures IsZero()
    {
      name := "";
      activeMade := false;
      activeSuites := map[];
      finished := new SuiteResult[0](_ => ZeroSuite());
      finishedLen := 0;
      reportStats := ZeroStatistics();
    }

    /**
     * The slice never outgrows its backing array, the counter sums hold in
     * the totals and in every suite, and every suite's list fits its capacity.
     */
    ghost predicate Valid()
      reads this
    {
      && finishedLen <= finished.Length
      && (!activeMade ==> activeSuites == map[])
      && StatsBalanced(reportStats)
      && forall n | n in activeSuites :: SuiteValid(activeSuites[n])
    }

    /** Every field holds Go's zero value: no name, no map, no finished suite, no counts. */
    ghost predicate IsZero()
      reads this
    {
      && name == "" && !activeMade && activeSuites == map[]
      && finishedLen == 0 && finished.Length == 0
      && reportStats == ZeroStatistics()
    }

    /** The zero value satisfies the invariant. */
    lemma ZeroIsValid()
      requires IsZero()
      ensures Valid()
    {
      ZeroStatisticsAllZero(SuiteField.Total, TestField.Total);
    }

    function FinishedSuites(): (s: seq<SuiteResult>)
      requires finishedLen <= finished.Length
      reads this, finished
      ensures |s| == finishedLen
    {
      finished[..finishedLen]
    }

    /** `Init`: names the manager, empties the active map and the finished list; the statistics stay. */
    method Init(name: string)
      requires Valid()
      modifies this
      ensures Valid() && this.name == name
      ensures activeMade && activeSuites == map[]
      ensures fresh(finished) && FinishedSuites() == [] && finished.Length == FINISHED_SUITES_GROWTH
      ensures reportStats == old(reportStats)
    {
      this.name := name;
      activeMade := true;
      activeSuites := map[];
      finished := new SuiteResult[FINISHED_SUITES_GROWTH](_ => ZeroSuite());
      finishedLen := 0;
    }

    /**
     * `AddSuiteResult`: appends at the end, keeping earlier entries and their
     * order; a full slice is first copied into a new backing array with room
     * for `FINISHED_SUITES_GROWTH` more.
     */
    method AddSuiteResult(result: SuiteResult)
      requires Valid()
      modifies this, finished
      ensures Valid() && (finished == old(finished) || fresh(finished))
      ensures FinishedSuites() == old(FinishedSuites()) + [result]
      ensures finished.Length == if old(finishedLen) >= old(finished.Length)
                                 then old(finishedLen) + FINISHED_SUITES_GROWTH
                                 else old(finished.Length)
      ensures name == old(name) && activeMade == old(activeMade)
      ensures activeSuites == old(activeSuites) && reportStats == old(reportStats)
    {
      if finishedLen >= finished.Length {
        finished := Grown(finished, finishedLen, FINISHED_SUITES_GROWTH);
      }
      finished[finishedLen] := result;
      finishedLen := finishedLen + 1;
    }

    /** `StartSuite`: files a freshly initialised result under the suite's name. */
    method StartSuite(name: string)
      requires Valid() && activeMade
      modifies this
      ensures Valid() && activeMade
      ensures activeSuites == old(activeSuites)[name := NewSuite(name)]
      ensures finished == old(finished) && finishedLen == old(finishedLen)
      ensures reportStats == old(reportStats) && this.name == old(this.name)
    {
      activeSuites := activeSuites[name := NewSuite(name)];
    }

    /**
     * `EndSuite`: appends the suite's result with the given status and
     * message to the finished list. The suite stays in the active map; an
     * unknown suite is appended as Go's zero result.
     */
    method EndSuite(name: string, status: int, message: string)
      requires Valid()
      modifies this, finished
      ensures Valid() && (finished == old(finished) || fresh(finished))
      ensures FinishedSuites() == old(FinishedSuites())
                                  + [SuiteOf(old(activeSuites), name).(status := status, statusMessage := message)]
      ensures activeMade == old(activeMade) && activeSuites == old(activeSuites)
      ensures reportStats == old(reportStats) && this.name == old(this.name)
    {
      var suite := SuiteOf(activeSuites, name);
      AddSuiteResult(suite.(status := status, statusMessage := message));
    }

    /** `StartTest`: the suite must have been started, or the source writes to a nil map. */
    method StartTest(suiteName: string, name: string)
      requires Valid() && activeMade
      requires suiteName in activeSuites && activeSuites[suiteName].tempMade
      modifies this
      ensures Valid() && activeMade
      ensures activeSuites == old(activeSuites)[suiteName := SuiteStartTest(old(activeSuites)[suiteName], name)]
      ensures finished == old(finished) && finishedLen == old(finishedLen)
      ensures reportStats == old(reportStats) && this.name == old(this.name)
    {
      var suite := activeSuites[suiteName];
      activeSuites := activeSuites[suiteName := SuiteStartTest(suite, name)];
    }

    method TestStarted(suiteName: string, name: string)
      requires Valid() && activeMade
      requires suiteName in activeSuites && activeSuites[suiteName].tempMade
      modifies this
      ensures Valid() && activeMade
      ensures activeSuites == old(activeSuites)[suiteName := SuiteStartTest(old(activeSuites)[suiteName], name)]
      ensures finished == old(finished) && finishedLen == old(finishedLen)
      ensures reportStats == old(reportStats) && this.name == old(this.name)
    {
      StartTest(suiteName, name);
    }

    /** `EndTest`: ends the test in its suite; an unknown suite is created as a zero result first. */
    method EndTest(suiteName: string, result: TestResult)
      requires Valid() && activeMade
      modifies this
      ensures Valid() && activeMade
      ensures activeSuites == old(activeSuites)[suiteName :=
                SuiteEndTest(SuiteOf(old(activeSuites), suiteName), result.name, result.status, result.statusMessage)]
      ensures finished == old(finished) && finishedLen == old(finishedLen)
      ensures reportStats == old(reportStats) && this.name == old(this.name)
    {
      var suite := SuiteOf(activeSuites, suiteName);
      activeSuites := activeSuites[suiteName := SuiteEndTest(suite, result.name, result.status, result.statusMessage)];
    }

    /** The common body of the test recorders: bump one counter in the suite and in the totals, then end the test. */
    method RecordTest(suiteName: string, result: TestResult, f: TestField)
      requires Valid() && activeMade && !f.Total?
      modifies this
      ensures Valid() && activeMade
      ensures TestRecorded(old(reportStats), old(activeSuites), reportStats, activeSuites, suiteName, result, f)
      ensures finished == old(finished) && finishedLen == old(finishedLen) && name == old(name)
    {
      ghost var before := activeSuites;
      var s := SuiteOf(activeSuites, suiteName);
      s := s.(counts := BumpTest(s.counts, f));
      reportStats := reportStats.(tests := BumpTest(reportStats.tests, f));
      activeSuites := activeSuites[suiteName := s];
      EndTest(suiteName, result);
      BumpThenEndIsRecord(before, suiteName, result, f);
    }

    method TestPassed(suiteName: string, result: TestResult)
      requires Valid() && activeMade
      modifies this
      ensures Valid() && activeMade
      ensures TestRecorded(old(reportStats), old(activeSuites), reportStats, activeSuites, suiteName, result, TestField.Passed)
      ensures finished == old(finished) && finishedLen == old(finishedLen) && name == old(name)
    {
      RecordTest(suiteName, result, TestField.Passed);
    }

    method TestError(suiteName: string, result: TestResult)
      requires Valid() && activeMade
      modifies this
      ensures Valid() && activeMade
      ensures TestRecorded(old(reportStats), old(activeSuites), reportStats, activeSuites, suiteName, result, TestField.Error)
      ensures finished == old(finished) && finishedLen == old(finishedLen) && name == old(name)
    {
      RecordTest(suiteName, result, TestField.Error);
    }

    method TestFailed(suiteName: string, result: TestResult)
      requires Valid() && activeMade
      modifies this
      ensures Valid() && activeMade
      ensures TestRecorded(old(reportStats), old(activeSuites), reportStats, activeSuites, suiteName, result, TestField.Failed)
      ensures finished == old(finished) && finishedLen == old(finishedLen) && name == old(name)
    {
      RecordTest(suiteName, result, TestField.Failed);
    }

    method TestNotFound(suiteName: string, result: TestResult)
      requires Valid() && activeMade
      modifies this
      ensures Valid() && activeMade
      ensures TestRecorded(old(reportStats), old(activeSuites), reportStats, activeSuites, suiteName, result, TestField.NotFound)
      ensures finished == old(finished) && finishedLen == old(finishedLen) && name == old(name)
    {
      RecordTest(suiteName, result, TestField.NotFound);
    }

    method TestSkipped(suiteName: string, result: TestResult)
      requires Valid() && activeMade
      modifies this
      ensures Valid() && activeMade
      ensures TestRecorded(old(reportStats), old(activeSuites), reportStats, activeSuites, suiteName, result, TestField.Skipped)
      ensures finished == old(finished) && finishedLen == old(finishedLen) && name == old(name)
    {
      RecordTest(suiteName, result, TestField.Skipped);
    }

    method TestSetupFailed(suiteName: string, result: TestResult)
      requires Valid() && activeMade
      modifies this
      ensures Valid() && activeMade
      ensures TestRecorded(old(reportStats), old(activeSuites), reportStats, activeSuites, suiteName, result, TestField.SetUpFailed)
      ensures finished == old(finished) && finishedLen == old(finishedLen) && name == old(name)
    {
      RecordTest(suiteName, result, TestField.SetUpFailed);
    }

    /** A setup error is counted among the setup failures; the setup-error counters never move. */
    method TestSetupError(suiteName: string, result: TestResult)
      requires Valid() && activeMade
      modifies this
      ensures Valid() && activeMade
      ensures TestRecorded(old(reportStats), old(activeSuites), reportStats, activeSuites, suiteName, result, TestField.SetUpFailed)
      ensures reportStats.tests.setUpError == old(reportStats.tests.setUpError)
      ensures finished == old(finished) && finishedLen == old(finishedLen) && name == old(name)
    {
      RecordTest(suiteName, result, TestField.SetUpFailed);
    }

    method TestTeardownFailed(suiteName: string, result: TestResult)
      requires Valid() && activeMade
      modifies this
      ensures Valid() && activeMade
      ensures TestRecorded(old(reportStats), old(activeSuites), reportStats, activeSuites, suiteName, result, TestField.TearDownFailed)
      ensures reportStats.tests.total == old(reportStats.tests.total)
      ensures finished == old(finished) && finishedLen == old(finishedLen) && name == old(name)
    {
      RecordTest(suiteName, result, TestField.TearDownFailed);
    }

    method TestTeardownError(suiteName: string, result: TestResult)
      requires Valid() && activeMade
      modifies this
      ensures Valid() && activeMade
      ensures TestRecorded(old(reportStats), old(activeSuites), reportStats, activeSuites, suiteName, result, TestField.TearDownError)
      ensures reportStats.tests.total == old(reportStats.tests.total)
      ensures finished == old(finished) && finishedLen == old(finishedLen) && name == old(name)
    {
      RecordTest(suiteName, result, TestField.TearDownError);
    }

    /** The common body of the counting suite recorders that end the suite: bump, then `EndSuite`. */
    method RecordSuite(suiteName: string, msg: string, f: SuiteField, status: int)
      requires Valid() && !f.Total?
      modifies this, finished
      ensures Valid() && (finished == old(finished) || fresh(finished))
      ensures reportStats == old(reportStats).(suites := BumpSuite(old(reportStats.suites), f))
      ensures FinishedSuites() == old(FinishedSuites())
                                  + [SuiteOf(old(activeSuites), suiteName).(status := status, statusMessage := msg)]
      ensures activeMade == old(activeMade) && activeSuites == old(activeSuites) && name == old(name)
    {
      reportStats := reportStats.(suites := BumpSuite(reportStats.suites, f));
      EndSuite(suiteName, status, msg);
    }

    method SuitePassed(suiteName: string, msg: string)
      requires Valid()
      modifies this, finished
      ensures Valid() && (finished == old(finished) || fresh(finished))
      ensures reportStats == old(reportStats).(suites := BumpSuite(old(reportStats.suites), SuiteField.Passed))
      ensures FinishedSuites() == old(FinishedSuites())
                                  + [SuiteOf(old(activeSuites), suiteName).(status := ResultCodes.SuitePassed, statusMessage := msg)]
      ensures activeMade == old(activeMade) && activeSuites == old(activeSuites) && name == old(name)
    {
      RecordSuite(suiteName, msg, SuiteField.Passed, ResultCodes.SuitePassed);
    }

    /** `suiteStarted`: the suite's entry is replaced by a freshly initialised result. */
    method SuiteStarted(suiteName: string, msg: string)
      requires Valid() && activeMade
      modifies this
      ensures Valid() && activeMade
      ensures activeSuites == old(activeSuites)[suiteName := NewSuite(suiteName)]
      ensures finished == old(finished) && finishedLen == old(finishedLen)
      ensures reportStats == old(reportStats) && name == old(name)
    {
      ghost var before := activeSuites;
      activeSuites := activeSuites[suiteName := ZeroSuite()];
      StartSuite(suiteName);
      Collections.MapOverwrite(before, suiteName, ZeroSuite(), NewSuite(suiteName));
    }

    /** A failed suite is counted as an error, and finished with the status `SuiteFailed`. */
    method SuiteFailed(suiteName: string, msg: string)
      requires Valid()
      modifies this, finished
      ensures Valid() && (finished == old(finished) || fresh(finished))
      ensures reportStats == old(reportStats).(suites := BumpSuite(old(reportStats.suites), SuiteField.Error))
      ensures reportStats.suites.failed == old(reportStats.suites.failed)
      ensures FinishedSuites() == old(FinishedSuites())
                                  + [SuiteOf(old(activeSuites), suiteName).(status := ResultCodes.SuiteFailed, statusMessage := msg)]
      ensures activeMade == old(activeMade) && activeSuites == old(activeSuites) && name == old(name)
    {
      RecordSuite(suiteName, msg, SuiteField.Error, ResultCodes.SuiteFailed);
    }

    method SuiteNotFound(suiteName: string, msg: string)
      requires Valid()
      modifies this, finished
      ensures Valid() && (finished == old(finished) || fresh(finished))
      ensures reportStats == old(reportStats).(suites := BumpSuite(old(reportStats.suites), SuiteField.NotFound))
      ensures FinishedSuites() == old(FinishedSuites())
                                  + [SuiteOf(old(activeSuites), suiteName).(status := ResultCodes.SuiteNotFound, statusMessage := msg)]
      ensures activeMade == old(activeMade) && activeSuites == old(activeSuites) && name == old(name)
    {
      RecordSuite(suiteName, msg, SuiteField.NotFound, ResultCodes.SuiteNotFound);
    }

    /** A skipped suite is finished twice and counted nowhere. */
    method SuiteSkipped(suiteName: string, msg: string)
      requires Valid()
      modifies this, finished
      ensures Valid() && (finished == old(finished) || fresh(finished))
      ensures reportStats == old(reportStats)
      ensures var e := SuiteOf(old(activeSuites), suiteName).(status := ResultCodes.SuiteSkipped, statusMessage := msg);
              FinishedSuites() == old(FinishedSuites()) + [e, e]
      ensures activeMade == old(activeMade) && activeSuites == old(activeSuites) && name == old(name)
    {
      EndSuite(suiteName, ResultCodes.SuiteSkipped, msg);
      EndSuite(suiteName, ResultCodes.SuiteSkipped, msg);
    }

    /** A setup failure is counted; the suite is neither ended nor touched. */
    method SuiteSetupFailed(suiteName: string, msg: string)
      requires Valid()
      modifies this
      ensures Valid()
      ensures reportStats == old(reportStats).(suites := BumpSuite(old(reportStats.suites), SuiteField.SetUpFailed))
      ensures finished == old(finished) && finishedLen == old(finishedLen)
      ensures activeMade == old(activeMade) && activeSuites == old(activeSuites) && name == old(name)
    {
      reportStats := reportStats.(suites := BumpSuite(reportStats.suites, SuiteField.SetUpFailed));
    }

    method SuiteSetupError(suiteName: string, msg: string)
      requires Valid()
      modifies this
      ensures Valid()
      ensures reportStats == old(reportStats).(suites := BumpSuite(old(reportStats.suites), SuiteField.SetUpError))
      ensures finished == old(finished) && finishedLen == old(finishedLen)
      ensures activeMade == old(activeMade) && activeSuites == old(activeSuites) && name == old(name)
    {
      reportStats := reportStats.(suites := BumpSuite(reportStats.suites, SuiteField.SetUpError));
    }

    /** A teardown failure ends the suite, then is counted outside the total. */
    method SuiteTeardownFailed(suiteName: string, msg: string)
      requires Valid()
      modifies this, finished
      ensures Valid() && (finished == old(finished) || fresh(finished))
      ensures reportStats == old(reportStats).(suites := BumpSuite(old(reportStats.suites), SuiteField.TearDownFailed))
      ensures reportStats.suites.total == old(reportStats.suites.total)
      ensures FinishedSuites() == old(FinishedSuites())
                                  + [SuiteOf(old(activeSuites), suiteName).(status := ResultCodes.SuiteTeardownFailed, statusMessage := msg)]
      ensures activeMade == old(activeMade) && activeSuites == old(activeSuites) && name == old(name)
    {
      EndSuite(suiteName, ResultCodes.SuiteTeardownFailed, msg);
      reportStats := reportStats.(suites := BumpSuite(reportStats.suites, SuiteField.TearDownFailed));
    }

    method SuiteTeardownError(suiteName: string, msg: string)
      requires Valid()
      modifies this, finished
      ensures Valid() && (finished == old(finished) || fresh(finished))
      ensures reportStats == old(reportStats).(suites := BumpSuite(old(reportStats.suites), SuiteField.TearDownError))
      ensures reportStats.suites.total == old(reportStats.suites.total)
      ensures FinishedSuites() == old(FinishedSuites())
                                  + [SuiteOf(old(activeSuites), suiteName).(status := ResultCodes.SuiteTeardownError, statusMessage := msg)]
      ensures activeMade == old(activeMade) && activeSuites == old(activeSuites) && name == old(name)
    {
      EndSuite(suiteName, ResultCodes.SuiteTeardownError, msg);
      reportStats := reportStats.(suites := BumpSuite(reportStats.suites, SuiteField.TearDownError));
    }

    /** `managerStarted`: zero statistics, an empty active map and an empty finished list. */
    method ManagerStarted(name: string)
      requires Valid()
      modifies this
      ensures Valid() && this.name == name
      ensures reportStats == ZeroStatistics()
      ensures activeMade && activeSuites == map[] && FinishedSuites() == []
    {
      reportStats := ZeroStatistics();
      Init(name);
    }
  }
}
