/**
 * The central dispatcher: decodes each internal request, forwards accepted
 * launches to the runplan router and answers every request exactly once.
 * The router channel is an outbox and the reply channel a write-once slot.
 */
module Master {
  import opened Wrappers
  import opened Commands
  import opened Runs

  /** What one request amounts to: the run forwarded to the router, if any, and the reply. */
  datatype Outcome = Outcome(forward: Option<RunInfo>, reply: CommandInfo)

  /**
   * The dispatch rule: LAUNCH_RUN forwards the positionally decoded run and
   * answers OK ("Runplan launched" and the time it was accepted); every other
   * code forwards nothing and answers NO_COMMAND.
   */
  function Response(command: int, data: seq<Value>, now: string): (o: Outcome)
    requires command == CMD_LAUNCH_RUN ==> IsRunData(data)
    ensures o.forward.Some? <==> command == CMD_LAUNCH_RUN
    ensures o.forward.Some? ==> RunInfoData(o.forward.value) == data[..3]
    ensures o.reply.command == CMD_OK <==> command == CMD_LAUNCH_RUN
    ensures o.reply.command == CMD_NO_COMMAND <==> command != CMD_LAUNCH_RUN
    ensures o.reply.data == if command == CMD_LAUNCH_RUN then [StrV("Runplan launched"), StrV(now)]
                            else [StrV("No command processed")]
  {
    if command == CMD_LAUNCH_RUN then
      Outcome(Some(DecodeRunInfo(data)), GetMessageInfo(CMD_OK, [StrV("Runplan launched"), StrV(now)]))
    else
      Outcome(None, GetMessageInfo(CMD_NO_COMMAND, [StrV("No command processed")]))
  }

  /** A launch request built from a run is accepted and forwards that very run. */
  lemma LaunchIsForwarded(r: RunInfo, now: string)
    ensures IsRunData(RunInfoData(r))
    ensures Response(CMD_LAUNCH_RUN, RunInfoData(r), now).forward == Some(r)
    ensures Response(CMD_LAUNCH_RUN, RunInfoData(r), now).reply.command == CMD_OK
  {
    RunInfoRoundTrip(r);
  }

  class Master {
    /** Runs sent to the runplan router, oldest first. */
    var routerOutbox: seq<RunInfo>

    constructor ()
      ensures routerOutbox == []
    {
      routerOutbox := [];
    }

    /** Any exit message stops the dispatch loop. */
    function Stop(message: int): (stopRequested: bool)
      ensures stopRequested
    {
      true
    }

    /**
     * `ProcessMessage`: forwards at most one run and writes the request's
     * reply slot exactly once (it is empty before and full after). `now`
     * stands for the clock reading put in the OK reply.
     */
    method ProcessMessage(info: InternalCommandInfo, now: string)
      requires info.chnReturn.reply == None
      requires info.command == CMD_LAUNCH_RUN ==> IsRunData(info.data)
      modifies this, info.chnReturn
      ensures var o := Response(info.command, info.data, now);
        && routerOutbox == old(routerOutbox) + (if o.forward.Some? then [o.forward.value] else [])
        && info.chnReturn.reply == Some(o.reply)
    {
      var o := Response(info.command, info.data, now);
      if o.forward.Some? {
        routerOutbox := routerOutbox + [o.forward.value];
      }
      info.chnReturn.Send(o.reply);
    }
  }
}
