/**
 * Runs and builds: the values the build matcher produces and the dispatcher
 * consumes, with their positional encodings into message data.
 */
module Runs {
  import opened Wrappers
  import opened Commands
  import Decimal

  type RunId = int

  /** `RunId.String`: the decimal rendering of the id. */
  function RunIdString(id: RunId): (s: string)
    ensures Decimal.IsNumeral(s) && Decimal.ParseInt(s) == id
    ensures s[0] == '-' <==> id < 0
    ensures s[0] == '0' ==> s == "0"
    ensures s[0] == '-' ==> s[1] != '0'
  {
    Decimal.IntRoundTrip(id);
    Decimal.IntToString(id)
  }

  datatype RunInfo = RunInfo(id: RunId, name: string, launchType: string)

  /** `BuildComplete` is a timestamp; the zero `BuildInfo` has 0 here. */
  datatype BuildInfo = BuildInfo(version: string, project: string, path: string, buildComplete: int)

  const ZeroBuildInfo := BuildInfo("", "", "", 0)

  /** The data of a LAUNCH_RUN message: id, name and launch type, in that order. */
  function RunInfoData(r: RunInfo): (data: seq<Value>)
    ensures |data| == 3 && data[0] == IdV(r.id) && data[1] == StrV(r.name) && data[2] == StrV(r.launchType)
  {
    [IdV(r.id), StrV(r.name), StrV(r.launchType)]
  }

  /** Data the dispatcher can decode without a failed type assertion. */
  predicate IsRunData(data: seq<Value>) {
    |data| >= 3 && data[0].IdV? && data[1].StrV? && data[2].StrV?
  }

  /** The positional decoding of a LAUNCH_RUN message's data. */
  function DecodeRunInfo(data: seq<Value>): (r: RunInfo)
    requires IsRunData(data)
    ensures RunInfoData(r) == data[..3]
  {
    RunInfo(data[0].id, data[1].s, data[2].s)
  }

  /** Encoding a run and decoding it again gives the run back. */
  lemma RunInfoRoundTrip(r: RunInfo)
    ensures IsRunData(RunInfoData(r))
    ensures DecodeRunInfo(RunInfoData(r)) == r
  {
  }

  /** The data of a NEW_BUILD message: version, project and path strings first. */
  predicate IsBuildData(data: seq<Value>) {
    |data| >= 3 && data[0].StrV? && data[1].StrV? && data[2].StrV?
  }

  /**
   * `GetBuildInfo`: a NEW_BUILD message decodes positionally (the completion
   * time is not taken from the data); any other command yields the zero
   * `BuildInfo` and the error "No build info".
   */
  function GetBuildInfo(info: InternalCommandInfo): (res: (BuildInfo, Option<string>))
    requires info.command == CMD_NEW_BUILD ==> IsBuildData(info.data)
    ensures res.1.None? <==> info.command == CMD_NEW_BUILD
    ensures res.1.Some? ==> res.0 == ZeroBuildInfo && res.1.value == "No build info"
    ensures res.1.None? ==> [StrV(res.0.version), StrV(res.0.project), StrV(res.0.path)] == info.data[..3]
    ensures res.0.buildComplete == 0
  {
    if info.command == CMD_NEW_BUILD then
      (BuildInfo(info.data[0].s, info.data[1].s, info.data[2].s, 0), None)
    else
      (BuildInfo("", "", "", 0), Some("No build info"))
  }

  /** The mock matcher, whose only state is the first run number it hands out. */
  datatype BuildMockMatch = BuildMockMatch(runNum: RunId)

  /**
   * `BuildMockMatch.FindMatches`: three consecutive run ids starting at
   * `runNum`, all named after the build's version, launched auto, manual, auto.
   */
  function FindMatches(mock: BuildMockMatch, build: BuildInfo): (runs: Option<seq<RunInfo>>)
    ensures runs.Some? && |runs.value| == 3
    ensures forall i | 0 <= i < 3 ::
              runs.value[i].id == mock.runNum + i && runs.value[i].name == "Runplan_" + build.version
    ensures runs.value[0].launchType == "auto" && runs.value[1].launchType == "manual"
         && runs.value[2].launchType == "auto"
  {
    var name := "Runplan_" + build.version;
    Some([RunInfo(mock.runNum, name, "auto"),
          RunInfo(mock.runNum + 1, name, "manual"),
          RunInfo(mock.runNum + 2, name, "auto")])
  }
}
