/**
 * Test-case bookkeeping: the named parameter store, the critical-section hit
 * counter, the pass/fail/warning counters and the verdict a test case returns
 * from its run. Messages the source writes to the logger are not modelled;
 * only the counters they accompany are.
 */
module TestCases {
  import opened Commands
  import opened ResultCodes

  /** A named parameter: a dynamically typed value and a free-text comment. */
  datatype Parameter = Parameter(name: string, value: Value, comment: string)

  type ParamMap = map<string, Parameter>

  /** Go's zero `Parameter`, which a lookup of an absent name yields. */
  const ZeroParameter := Parameter("", Nil, "")

  /** The name under which a test case keeps its failure threshold. */
  const FailureThresholdParam := "failureThreshold"

  /** Every parameter is filed under its own name. */
  ghost predicate Filed(ps: ParamMap) {
    forall n | n in ps :: ps[n].name == n
  }

  /**
   * The effect of `InitParam` on the store and the value it returns: an
   * absent name is inserted with an empty comment; a present name whose value
   * is nil takes a non-nil value, keeping its comment; otherwise nothing changes.
   */
  function InitParamEffect(ps: ParamMap, name: string, value: Value): (r: (ParamMap, Value))
    ensures name in r.0 && r.1 == r.0[name].value
    ensures r.0.Keys == ps.Keys + {name}
    ensures forall n | n in ps && n != name :: r.0[n] == ps[n]
    ensures name !in ps ==> r.0[name] == Parameter(name, value, "")
    ensures name in ps && ps[name].value == Nil && value != Nil ==> r.0[name] == Parameter(name, value, ps[name].comment)
    ensures name in ps && (ps[name].value != Nil || value == Nil) ==> r.0 == ps
    ensures Filed(ps) ==> Filed(r.0)
  {
    if name !in ps then
      var r := ps[name := Parameter(name, value, "")];
      (r, value)
    else if ps[name].value == Nil && value != Nil then
      var r := ps[name := Parameter(name, value, ps[name].comment)];
      (r, value)
    else
      (ps, ps[name].value)
  }

  /** Initialising a parameter a second time with the same value changes nothing. */
  lemma InitParamIdempotent(ps: ParamMap, name: string, value: Value)
    ensures var (once, v) := InitParamEffect(ps, name, value);
            InitParamEffect(once, name, value) == (once, v)
  {
  }

  /** A value stored by `AddParam` is not displaced by a later `InitParam`, unless it is nil. */
  lemma InitParamKeepsAdded(ps: ParamMap, name: string, value: Value, comment: string, other: Value)
    requires value != Nil
    ensures InitParamEffect(ps[name := Parameter(name, value, comment)], name, other)
            == (ps[name := Parameter(name, value, comment)], value)
  {
  }

  /**
   * A test case's parameter store. `made` records whether Go's map has been
   * allocated; reading a nil map is allowed and looks like an empty one.
   */
  class Parameters {
    var made: bool
    var params: ParamMap

    /** Go's zero value, as `CreateParametersObject` returns it. */
    constructor ()
      ensures !made && params == map[]
      ensures Valid()
    {
      made := false;
      params := map[];
    }

    ghost predicate Valid()
      reads this
    {
      (!made ==> params == map[]) && Filed(params)
    }

    /** `init`: allocates the map if it is nil; the contents stay as they are. */
    method Init()
      requires Valid()
      modifies this
      ensures made && params == old(params)
      ensures Valid()
    {
      if !made {
        made := true;
        params := map[];
      }
    }

    /** The number of distinct names stored; 0 before the map is allocated. */
    function Count(): (n: nat)
      requires Valid()
      reads this
      ensures n == |params.Keys|
      ensures !made ==> n == 0
    {
      if !made then 0 else |params|
    }

    /**
     * `updateValue`: replaces the value of a present name, keeping its
     * comment, and never inserts; returns the value now stored, nil if absent.
     */
    method UpdateValue(name: string, value: Value) returns (v: Value)
      requires Valid()
      modifies this
      ensures made && Valid()
      ensures params.Keys == old(params).Keys
      ensures name in old(params) ==> params == old(params)[name := Parameter(name, value, old(params)[name].comment)] && v == value
      ensures name !in old(params) ==> params == old(params) && v == Nil
    {
      Init();
      if name in params {
        params := params[name := Parameter(name, value, params[name].comment)];
      }
      v := if name in params then params[name].value else Nil;
    }

    /** `InitParam`: as `InitParamEffect` describes. */
    method InitParam(name: string, value: Value) returns (v: Value)
      requires Valid()
      modifies this
      ensures made && Valid()
      ensures (params, v) == InitParamEffect(old(params), name, value)
    {
      Init();
      if name !in params {
        params := params[name := Parameter(name, value, "")];
      } else {
        if params[name].value == Nil && value != Nil {
          var _ := UpdateValue(name, value);
        }
      }
      v := params[name].value;
    }

    /** `AddParam`: stores the parameter unconditionally, replacing any of that name. */
    method AddParam(name: string, value: Value, comment: string) returns (v: Value)
      requires Valid()
      modifies this
      ensures made && Valid()
      ensures params == old(params)[name := Parameter(name, value, comment)]
      ensures v == value
    {
      Init();
      params := params[name := Parameter(name, value, comment)];
      v := params[name].value;
    }

    /** `GetParam`: the stored parameter and true, or the zero parameter and false. */
    method GetParam(name: string) returns (p: Parameter, ok: bool)
      requires Valid()
      modifies this
      ensures made && params == old(params) && Valid()
      ensures ok <==> name in params
      ensures p == if ok then params[name] else ZeroParameter
    {
      Init();
      ok := name in params;
      p := if ok then params[name] else ZeroParameter;
    }

    /** `GetParamValue`: the stored value and true, or nil and false. */
    method GetParamValue(name: string) returns (v: Value, ok: bool)
      requires Valid()
      modifies this
      ensures made && params == old(params) && Valid()
      ensures ok <==> name in params
      ensures v == if ok then params[name].value else Nil
    {
      Init();
      if name !in params {
        return Nil, false;
      }
      return params[name].value, true;
    }

    /** `GetParamComment`: the stored comment (as a string value) and true, or nil and false. */
    method GetParamComment(name: string) returns (c: Value, ok: bool)
      requires Valid()
      modifies this
      ensures made && params == old(params) && Valid()
      ensures ok <==> name in params
      ensures c == if ok then StrV(params[name].comment) else Nil
    {
      Init();
      if name !in params {
        return Nil, false;
      }
      return StrV(params[name].comment), true;
    }
  }

  /**
   * A hit counter for a critical section: failures count as hits only while
   * the section is active, and a section once hit stays hit.
   */
  class Section {
    var active: bool
    var hits: nat

    constructor ()
      ensures !active && hits == 0
    {
      active := false;
      hits := 0;
    }

    method Trigger()
      modifies this
      ensures active == old(active)
      ensures hits == if old(active) then old(hits) + 1 else old(hits)
    {
      if active {
        hits := hits + 1;
      }
    }

    method Start()
      modifies this
      ensures active && hits == old(hits)
    {
      active := true;
    }

    method End()
      modifies this
      ensures !active && hits == old(hits)
    {
      active := false;
    }

    /** True exactly when the section has been hit at least once. */
    function Triggered(): (hit: bool)
      reads this
      ensures hit <==> hits > 0
    {
      hits > 0
    }
  }

  /**
   * The failure rate of a run in percent, with exact arithmetic: 0 when no
   * check point ran, otherwise 100 times the failed share.
   */
  function FailureRate(passed: nat, failed: nat): (rate: real)
    ensures 0.0 <= rate <= 100.0
    ensures rate == 0.0 <==> failed == 0
  {
    if passed + failed == 0 then 0.0
    else (failed as real / (passed + failed) as real) * 100.0
  }

  /**
   * The verdict of `ReturnFromRun`, in integers: a hit critical section
   * wins; otherwise the run passes when the failure rate does not exceed the
   * threshold, the rate being 0 when no check point ran.
   */
  function Verdict(failureThreshold: int, passed: nat, failed: nat, criticalHit: bool): (code: int)
    ensures code == TcCriticalError || code == TcPassed || code == TcFailed
    ensures code == TcCriticalError <==> criticalHit
  {
    if criticalHit then TcCriticalError
    else if passed + failed == 0 then (if failureThreshold >= 0 then TcPassed else TcFailed)
    else if failureThreshold * (passed + failed) >= 100 * failed then TcPassed
    else TcFailed
  }

  /** The integer verdict agrees with comparing the threshold to the exact failure rate. */
  lemma VerdictMatchesFailureRate(failureThreshold: int, passed: nat, failed: nat)
    ensures Verdict(failureThreshold, passed, failed, false) == TcPassed
            <==> failureThreshold as real >= FailureRate(passed, failed)
  {
    var total := passed + failed;
    if total > 0 {
      var t := total as real;
      var rate := FailureRate(passed, failed);
      assert rate * t == 100.0 * failed as real;
      assert failureThreshold as real >= rate <==> failureThreshold as real * t >= rate * t;
      assert (failureThreshold * total) as real == failureThreshold as real * t;
    }
  }

  /** With the default threshold of 0 a run passes exactly when nothing failed. */
  lemma DefaultThresholdPassesOnlyWithoutFailures(passed: nat, failed: nat)
    ensures Verdict(0, passed, failed, false) == TcPassed <==> failed == 0
  {
    VerdictMatchesFailureRate(0, passed, failed);
  }

  /** The value stored under `failureThreshold` can be asserted to be a Go `int` (or is filled in). */
  predicate ThresholdReadable(ps: ParamMap) {
    FailureThresholdParam !in ps || ps[FailureThresholdParam].value.Nil? || ps[FailureThresholdParam].value.IntV?
  }

  class TestCase {
    var name: string
    var params: Parameters
    /** Percentage of check points that may fail for the test case to pass. */
    var failureThreshold: int
    var passedCount: nat
    var failedCount: nat
    var warningCount: nat
    var critical: Section

    /** Go's zero value. */
    constructor ()
      ensures name == "" && failureThreshold == 0
      ensures passedCount == 0 && failedCount == 0 && warningCount == 0
      ensures fresh(params) && params.Valid() && fresh(critical) && critical.hits == 0
    {
      name := "";
      params := new Parameters();
      failureThreshold := 0;
      passedCount, failedCount, warningCount := 0, 0, 0;
      critical := new Section();
    }

    /**
     * `Init`: takes the name and the parameters, reads the failure threshold
     * (0 unless the parameters give one) and starts a fresh critical section.
     * The counters are not reset. A threshold stored with a type other than
     * `int` makes the source's type assertion panic, so it must not be there.
     */
    method Init(name: string, params: Parameters)
      requires params.Valid() && ThresholdReadable(params.params)
      modifies this, params
      ensures this.name == name && this.params == params && params.Valid()
      ensures params.params == InitParamEffect(old(params.params), FailureThresholdParam, IntV(0)).0
      ensures failureThreshold == InitParamEffect(old(params.params), FailureThresholdParam, IntV(0)).1.i
      ensures FailureThresholdParam !in old(params.params) ==> failureThreshold == 0
      ensures fresh(critical) && !critical.active && critical.hits == 0
      ensures passedCount == old(passedCount) && failedCount == old(failedCount)
      ensures warningCount == old(warningCount)
    {
      this.name := name;
      this.params := params;
      var threshold := params.InitParam(FailureThresholdParam, IntV(0));
      failureThreshold := threshold.i;
      critical := new Section();
    }

    function Name(): (n: string)
      reads this
      ensures n == name
    {
      name
    }

    /** A passed check point. */
    method LogPass(passMsg: string)
      modifies this
      ensures passedCount == old(passedCount) + 1
      ensures failedCount == old(failedCount) && warningCount == old(warningCount)
      ensures critical == old(critical) && params == old(params) && name == old(name)
      ensures failureThreshold == old(failureThreshold)
    {
      passedCount := passedCount + 1;
    }

    /** A failed check point: counted as a failure and as a critical-section hit. */
    method LogFail(failMsg: string)
      modifies this, critical
      ensures failedCount == old(failedCount) + 1
      ensures passedCount == old(passedCount) && warningCount == old(warningCount)
      ensures critical == old(critical) && params == old(params) && name == old(name)
      ensures failureThreshold == old(failureThreshold)
      ensures critical.active == old(critical.active)
      ensures critical.hits == if critical.active then old(critical.hits) + 1 else old(critical.hits)
    {
      critical.Trigger();
      failedCount := failedCount + 1;
    }

    /** An error: counted exactly like a failed check point. */
    method LogError(errMsg: string)
      modifies this, critical
      ensures failedCount == old(failedCount) + 1
      ensures passedCount == old(passedCount) && warningCount == old(warningCount)
      ensures critical == old(critical) && params == old(params) && name == old(name)
      ensures failureThreshold == old(failureThreshold)
      ensures critical.active == old(critical.active)
      ensures critical.hits == if critical.active then old(critical.hits) + 1 else old(critical.hits)
    {
      critical.Trigger();
      failedCount := failedCount + 1;
    }

    method LogWarning(warnMsg: string)
      modifies this
      ensures warningCount == old(warningCount) + 1
      ensures passedCount == old(passedCount) && failedCount == old(failedCount)
      ensures critical == old(critical) && params == old(params) && name == old(name)
      ensures failureThreshold == old(failureThreshold)
    {
      warningCount := warningCount + 1;
    }

    /** `Check`: a positive value is a pass, anything else a failure; the value is returned. */
    method Check(value: int, comment: string) returns (r: int)
      modifies this, critical
      ensures r == value
      ensures passedCount == old(passedCount) + (if value > 0 then 1 else 0)
      ensures failedCount == old(failedCount) + (if value > 0 then 0 else 1)
      ensures warningCount == old(warningCount)
      ensures critical == old(critical) && params == old(params) && name == old(name)
      ensures failureThreshold == old(failureThreshold)
      ensures critical.active == old(critical.active)
      ensures critical.hits == if value <= 0 && critical.active then old(critical.hits) + 1 else old(critical.hits)
    {
      if value > 0 {
        LogPass("CHECK::PASS::" + comment);
      } else {
        LogFail("CHECK::FAIL::" + comment);
      }
      r := value;
    }

    /** `Verify`: true is a pass, false a failure; the value is returned. */
    method Verify(value: bool, comment: string, errMsg: string) returns (r: bool)
      modifies this, critical
      ensures r == value
      ensures passedCount == old(passedCount) + (if value then 1 else 0)
      ensures failedCount == old(failedCount) + (if value then 0 else 1)
      ensures warningCount == old(warningCount)
      ensures critical == old(critical) && params == old(params) && name == old(name)
      ensures failureThreshold == old(failureThreshold)
      ensures critical.active == old(critical.active)
      ensures critical.hits == if !value && critical.active then old(critical.hits) + 1 else old(critical.hits)
    {
      if value {
        LogPass(comment);
      } else {
        LogFail(errMsg);
      }
      r := value;
    }

    /**
     * `ReturnFromRun`: the verdict on the counts so far. Reporting a
     * critical error goes through `LogError`, so it also counts one more
     * failure (and one more hit if the section is still active).
     */
    method ReturnFromRun() returns (code: int)
      modifies this, critical
      ensures code == Verdict(old(failureThreshold), old(passedCount), old(failedCount), old(critical.hits) > 0)
      ensures passedCount == old(passedCount) && warningCount == old(warningCount)
      ensures failedCount == old(failedCount) + (if code == TcCriticalError then 1 else 0)
      ensures critical == old(critical) && params == old(params) && name == old(name)
      ensures failureThreshold == old(failureThreshold)
      ensures critical.active == old(critical.active)
      ensures critical.hits == old(critical.hits) + (if code == TcCriticalError && old(critical.active) then 1 else 0)
    {
      var total := passedCount + failedCount;
      if critical.Triggered() {
        LogError("ERROR:: Found Critical error during run!");
        return TcCriticalError;
      }
      if total == 0 {
        code := if failureThreshold >= 0 then TcPassed else TcFailed;
      } else if failureThreshold * total >= 100 * failedCount {
        code := TcPassed;
      } else {
        code := TcFailed;
      }
    }
  }
}
