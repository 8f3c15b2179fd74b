/**
 * The default suite: a test case of its own (for its name and logging) and
 * an ordered list of the test cases added to it.
 */
module TestSuites {
  import opened Wrappers
  import opened ResultCodes
  import opened TestCases

  /** True when no test case before position `k` is named `name`. */
  ghost predicate NoneNamedBefore(tests: seq<TestCase>, k: int, name: string)
    requires 0 <= k <= |tests|
    reads set t | t in tests
  {
    forall j | 0 <= j < k :: tests[j].name != name
  }

  class DefaultSuite {
    /** The embedded test case that carries the suite's name. */
    var testCase: TestCase
    var testCases: seq<TestCase>

    /** Go's zero value. */
    constructor ()
      ensures fresh(testCase) && testCase.name == "" && testCases == []
    {
      testCase := new TestCase();
      testCases := [];
    }

    /**
     * `Init`: names the suite and empties its list. The parameters passed in
     * are ignored; the embedded test case gets an empty parameter store, so
     * its failure threshold is 0.
     */
    method Init(name: string, params: Parameters)
      modifies this, testCase
      ensures testCase == old(testCase) && testCase.name == name && testCases == []
      ensures testCase.failureThreshold == 0
      ensures fresh(testCase.params) && fresh(testCase.critical)
    {
      var empty := new Parameters();
      testCase.Init(name, empty);
      testCases := [];
    }

    function Name(): (n: string)
      reads this, testCase
      ensures n == testCase.name
    {
      testCase.Name()
    }

    /** Default suite setup: always `SuiteOk` with an empty message; the suite is not changed. */
    method Setup() returns (status: int, msg: string)
      ensures status == SuiteOk && msg == ""
    {
      status, msg := SuiteOk, "";
    }

    /** Default suite teardown: always `SuiteOk` with an empty message; the suite is not changed. */
    method Teardown() returns (status: int, msg: string)
      ensures status == SuiteOk && msg == ""
    {
      status, msg := SuiteOk, "";
    }

    /** Appends a test case at the end of the list. */
    method AddTest(test: TestCase)
      modifies this
      ensures testCases == old(testCases) + [test]
      ensures testCase == old(testCase)
    {
      testCases := testCases + [test];
    }

    /**
     * `GetTestCase`: the first test case in insertion order with the given
     * name, or nil exactly when none has that name.
     */
    method GetTestCase(name: string) returns (found: Option<TestCase>)
      ensures found.None? <==> forall j | 0 <= j < |testCases| :: testCases[j].name != name
      ensures found.Some? ==> exists k | 0 <= k < |testCases| ::
                                found.value == testCases[k] && found.value.name == name
                                && NoneNamedBefore(testCases, k, name)
    {
      for i := 0 to |testCases|
        invariant NoneNamedBefore(testCases, i, name)
      {
        if testCases[i].Name() == name {
          return Some(testCases[i]);
        }
      }
      return None;
    }

    /** The test cases in insertion order. */
    function GetTestCases(): (tests: seq<TestCase>)
      reads this
    {
      testCases
    }
  }

  /** `CreateSuite`: a new suite with the given name and no test cases. */
  method CreateSuite(name: string, params: Parameters) returns (suite: DefaultSuite)
    ensures fresh(suite) && suite.Name() == name && suite.testCases == []
  {
    suite := new DefaultSuite();
    suite.Init(name, params);
  }
}
