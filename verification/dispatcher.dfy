/**
 * The build matcher: turns a NEW_BUILD request into one LAUNCH_RUN request
 * per matching run, pushed onto the dispatch queue in match order, and then
 * answers the build request once. The dispatch queue is an outbox; the
 * replies to the launch requests are not waited for.
 */
module Dispatcher {
  import opened Wrappers
  import opened Commands
  import opened Runs
  import Decimal
  import Master

  /** Milliseconds the matcher waits for each launch reply (not modelled). */
  const MAX_WAIT_MATCH_RETURN := 10000

  /** The wire form of the launch request for one run. */
  function LaunchMessage(r: RunInfo): (m: CommandInfo)
    ensures m.command == CMD_LAUNCH_RUN && IsRunData(m.data) && DecodeRunInfo(m.data) == r
  {
    RunInfoRoundTrip(r);
    GetMessageInfo(CMD_LAUNCH_RUN, RunInfoData(r))
  }

  /** What one build request amounts to: the runs launched, in order, and the reply. */
  datatype MatchOutcome = MatchOutcome(launches: seq<RunInfo>, reply: CommandInfo)

  /**
   * The rule `OnMessageRecieved` follows. A request that does not decode
   * launches nothing and is answered with the decoding error; a nil match
   * list launches nothing and answers "no runs matched"; a list of N runs
   * (possibly empty) launches exactly those runs and answers "launched N runs".
   * Every answer carries CMD_OK.
   */
  function BuildOutcome(info: InternalCommandInfo, matcher: BuildInfo -> Option<seq<RunInfo>>): (o: MatchOutcome)
    requires info.command == CMD_NEW_BUILD ==> IsBuildData(info.data)
    ensures o.reply.command == CMD_OK
    ensures info.command != CMD_NEW_BUILD ==>
              o.launches == [] && o.reply.data == [StrV("Build match err"), StrV("No build info")]
    ensures info.command == CMD_NEW_BUILD ==>
              var matches := matcher(GetBuildInfo(info).0);
              && (matches.None? ==> o.launches == [] && o.reply.data == [StrV("no runs matched")])
              && (matches.Some? ==> o.launches == matches.value
                                    && o.reply.data == [StrV("launched " + Decimal.IntToString(|o.launches|) + " runs")])
  {
    var (build, err) := GetBuildInfo(info);
    if err.None? then
      match matcher(build)
      case Some(runs) =>
        MatchOutcome(runs, GetMessageInfo(CMD_OK, [StrV("launched " + Decimal.IntToString(|runs|) + " runs")]))
      case None =>
        MatchOutcome([], GetMessageInfo(CMD_OK, [StrV("no runs matched")]))
    else
      MatchOutcome([], GetMessageInfo(CMD_OK, [StrV("Build match err"), StrV(err.value)]))
  }

  /** A nil match list and an empty one launch nothing alike but are answered differently. */
  lemma NilAndEmptyMatchesDiffer(info: InternalCommandInfo, nilMatcher: BuildInfo -> Option<seq<RunInfo>>,
                                 emptyMatcher: BuildInfo -> Option<seq<RunInfo>>)
    requires info.command == CMD_NEW_BUILD && IsBuildData(info.data)
    requires nilMatcher(GetBuildInfo(info).0) == None
    requires emptyMatcher(GetBuildInfo(info).0) == Some([])
    ensures BuildOutcome(info, nilMatcher).launches == BuildOutcome(info, emptyMatcher).launches == []
    ensures BuildOutcome(info, nilMatcher).reply != BuildOutcome(info, emptyMatcher).reply
  {
    var a := BuildOutcome(info, nilMatcher).reply.data[0].s;
    var b := BuildOutcome(info, emptyMatcher).reply.data[0].s;
    assert a[0] == 'n' && b[0] == 'l';
  }

  /**
   * Every launch request the matcher pushes is accepted by the dispatcher,
   * which forwards exactly the matched run to the router.
   */
  lemma LaunchesReachRouter(info: InternalCommandInfo, matcher: BuildInfo -> Option<seq<RunInfo>>, i: nat, now: string)
    requires info.command == CMD_NEW_BUILD ==> IsBuildData(info.data)
    requires i < |BuildOutcome(info, matcher).launches|
    ensures var m := LaunchMessage(BuildOutcome(info, matcher).launches[i]);
            && Master.Response(m.command, m.data, now).forward == Some(BuildOutcome(info, matcher).launches[i])
            && Master.Response(m.command, m.data, now).reply.command == CMD_OK
  {
    Master.LaunchIsForwarded(BuildOutcome(info, matcher).launches[i], now);
  }

  /** The mock matcher as a matching policy. */
  function MockMatcher(runNum: RunId): BuildInfo -> Option<seq<RunInfo>> {
    b => FindMatches(BuildMockMatch(runNum), b)
  }

  /**
   * The build-notification scenario: the mock matcher answers a NEW_BUILD for
   * version "T1.0_1" with three launches and "launched 3 runs".
   */
  lemma MockScenario(slot: ReplySlot, runNum: RunId)
    ensures var info := InternalCommandInfo(CMD_NEW_BUILD, slot, [StrV("T1.0_1"), StrV("Fun"), StrV("~/projects/fun")]);
            var o := BuildOutcome(info, MockMatcher(runNum));
            && |o.launches| == 3
            && (forall k | 0 <= k < 3 :: o.launches[k].id == runNum + k && o.launches[k].name == "Runplan_T1.0_1")
            && o.reply == CommandInfo(CMD_OK, [StrV("launched 3 runs")])
  {
    var info := InternalCommandInfo(CMD_NEW_BUILD, slot, [StrV("T1.0_1"), StrV("Fun"), StrV("~/projects/fun")]);
    var build := GetBuildInfo(info).0;
    assert build.version == "T1.0_1";
    var matches := FindMatches(BuildMockMatch(runNum), build);
    assert MockMatcher(runNum)(build) == matches;
    var o := BuildOutcome(info, MockMatcher(runNum));
    assert o.launches == matches.value;
    assert |o.launches| == 3;
    assert forall k | 0 <= k < 3 :: o.launches[k].id == runNum + k && o.launches[k].name == "Runplan_T1.0_1";
    assert Decimal.IntToString(3) == "3";
    assert "launched " + "3" + " runs" == "launched 3 runs";
    assert o.reply == CommandInfo(CMD_OK, [StrV("launched 3 runs")]);
  }

  class InternalBuildMatcher {
    /** The pluggable matching policy; `None` is Go's nil slice. */
    var matcher: BuildInfo -> Option<seq<RunInfo>>
    /** Requests pushed onto the dispatch queue, oldest first. */
    var chnRunplans: seq<InternalCommandInfo>
    var isStopRequested: bool

    constructor Init(iMatch: BuildInfo -> Option<seq<RunInfo>>)
      ensures matcher == iMatch && chnRunplans == [] && !isStopRequested
    {
      matcher := iMatch;
      chnRunplans := [];
      isStopRequested := false;
    }

    /** Any exit message stops the matcher's loop. */
    function Stop(mes: int): (stopRequested: bool)
      ensures stopRequested
    {
      true
    }

    /** `CreatRunInfoMes`: a LAUNCH_RUN request for `run` with a fresh, empty reply slot. */
    method CreatRunInfoMes(run: RunInfo) returns (m: InternalCommandInfo)
      ensures Stripped(m) == LaunchMessage(run)
      ensures fresh(m.chnReturn) && m.chnReturn.reply == None
    {
      var slot := new ReplySlot();
      m := GetInternalMessageInfo(CMD_LAUNCH_RUN, slot, RunInfoData(run));
    }

    /**
     * `OnMessageRecieved`: pushes one launch request per match, in match
     * order, each with its own fresh reply slot, and then writes the build
     * request's reply exactly once.
     */
    method OnMessageRecieved(nextMessage: InternalCommandInfo)
      requires nextMessage.chnReturn.reply == None
      requires nextMessage.command == CMD_NEW_BUILD ==> IsBuildData(nextMessage.data)
      modifies this`chnRunplans, nextMessage.chnReturn
      ensures var o := BuildOutcome(nextMessage, matcher);
        var n0 := |old(chnRunplans)|;
        && |chnRunplans| == n0 + |o.launches|
        && chnRunplans[..n0] == old(chnRunplans)
        && (forall j | 0 <= j < |o.launches| :: Stripped(chnRunplans[n0 + j]) == LaunchMessage(o.launches[j]))
        && (forall j | n0 <= j < |chnRunplans| ::
              fresh(chnRunplans[j].chnReturn) && chnRunplans[j].chnReturn.reply == None)
        && nextMessage.chnReturn.reply == Some(o.reply)
    {
      var n0 := |chnRunplans|;
      var (nextBuild, err) := GetBuildInfo(nextMessage);
      if err.None? {
        var newRunplans := matcher(nextBuild);
        if newRunplans.Some? {
          var runs := newRunplans.value;
          for i := 0 to |runs|
            invariant |chnRunplans| == n0 + i
            invariant chnRunplans[..n0] == old(chnRunplans)
            invariant forall j | 0 <= j < i :: Stripped(chnRunplans[n0 + j]) == LaunchMessage(runs[j])
            invariant forall j | n0 <= j < |chnRunplans| ::
                        fresh(chnRunplans[j].chnReturn) && chnRunplans[j].chnReturn.reply == None
            invariant nextMessage.chnReturn.reply == None
          {
            var outMes := CreatRunInfoMes(runs[i]);
            chnRunplans := chnRunplans + [outMes];
          }
          nextMessage.chnReturn.Send(GetMessageInfo(CMD_OK, [StrV("launched " + Decimal.IntToString(|runs|) + " runs")]));
        } else {
          nextMessage.chnReturn.Send(GetMessageInfo(CMD_OK, [StrV("no runs matched")]));
        }
      } else {
        nextMessage.chnReturn.Send(GetMessageInfo(CMD_OK, [StrV("Build match err"), StrV(err.value)]));
      }
    }
  }
}
