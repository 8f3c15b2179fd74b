/**
 * The scheduling engine: the runplan router's handler registry, the
 * scheduler's live map from run id to runplan, and the runplan lifecycle.
 * Channels are outboxes; the asynchronous completion of a started runplan is
 * the explicit step `RunPlan.Complete`; Go's map iteration order is a
 * nondeterministic choice.
 */
module Scheduler {
  import opened Wrappers
  import opened Runs
  import Collections

  /** Milliseconds the scheduler sleeps after each sweep (not modelled). */
  const LAUNCH_DELAY := 1000

  datatype RunStatus = Unknown | Idle | Paused | Running | Finished | Faulted

  /** The statuses from which a runplan may be launched. */
  predicate Launchable(s: RunStatus) {
    s == Idle || s == Paused
  }

  /** Position in the lifecycle Idle/Paused, Running, Finished. */
  function Stage(s: RunStatus): nat {
    match s
    case Running => 1
    case Finished => 2
    case _ => 0
  }

  class RunPlan {
    var info: RunInfo
    var status: RunStatus
    /** Units of work started and not yet completed. */
    var pendingCompletions: nat

    constructor Init(runInfo: RunInfo)
      ensures info == runInfo && status == Idle && pendingCompletions == 0
      ensures Lifecycle()
    {
      info := runInfo;
      status := Idle;
      pendingCompletions := 0;
    }

    /**
     * The lifecycle invariant under the scheduler's discipline: work is
     * outstanding exactly while the runplan is Running, and at most once.
     */
    ghost predicate Lifecycle()
      reads this
    {
      pendingCompletions <= 1 && (pendingCompletions == 1 <==> status == Running)
    }

    function Name(): (n: string)
      reads this
      ensures n == info.name
    {
      info.name
    }

    function Id(): (id: RunId)
      reads this
      ensures id == info.id
    {
      info.id
    }

    function GetStatus(): (s: RunStatus)
      reads this
      ensures s == status
    {
      status
    }

    /** Marks the runplan Running and starts one unit of asynchronous work. */
    method Start()
      modifies this
      ensures status == Running && info == old(info)
      ensures pendingCompletions == old(pendingCompletions) + 1
      ensures Launchable(old(status)) && old(Lifecycle()) ==> Lifecycle()
    {
      status := Running;
      pendingCompletions := pendingCompletions + 1;
    }

    /** The asynchronous work of a started runplan finishes. */
    method Complete()
      requires pendingCompletions > 0
      modifies this
      ensures status == Finished && info == old(info)
      ensures pendingCompletions == old(pendingCompletions) - 1
      ensures old(Lifecycle()) ==> Lifecycle() && Stage(old(status)) < Stage(status)
    {
      status := Finished;
      pendingCompletions := pendingCompletions - 1;
    }

    /** Declared by the source with an empty body. */
    method Cancel()
      ensures unchanged(this)
    {
    }

    /** Declared by the source with an empty body. */
    method Pause()
      ensures unchanged(this)
    {
    }
  }

  class Schedule {
    var name: string
    var exitScheduler: bool
    var runs: map<RunId, RunPlan>
    var status: RunStatus

    constructor Init(name: string)
      ensures this.name == name && runs == map[] && status == Idle && !exitScheduler
      ensures Valid()
    {
      this.name := name;
      runs := map[];
      exitScheduler := false;
      status := Idle;
    }

    /** Every live runplan is filed under its own id and keeps its lifecycle. */
    ghost predicate Valid()
      reads this, runs.Values
    {
      forall id | id in runs :: runs[id].info.id == id && runs[id].Lifecycle()
    }

    /** `AddRun`: replaces the runplan filed under the same id, and only if there is one. */
    method AddRun(run: RunPlan) returns (err: Option<string>)
      modifies this
      ensures err == None
      ensures runs == if run.info.id in old(runs) then old(runs)[run.info.id := run] else old(runs)
      ensures runs.Keys == old(runs).Keys
      ensures old(Valid()) && run.Lifecycle() ==> Valid()
      ensures name == old(name) && status == old(status) && exitScheduler == old(exitScheduler)
    {
      if run.Id() in runs {
        runs := runs[run.Id() := run];
      }
      err := None;
    }

    /**
     * `launchRunplan`: an unknown id is ignored; a live runplan is started
     * only if it is Idle or Paused, otherwise it is left as it is.
     */
    method LaunchRunplan(id: RunId) returns (err: Option<string>)
      requires Valid()
      modifies if id in runs then {runs[id]} else {}
      ensures err == None
      ensures Valid()
      ensures id in runs ==> runs[id].info == old(runs[id].info)
      ensures id in runs ==>
                runs[id].status == (if Launchable(old(runs[id].status)) then Running else old(runs[id].status))
      ensures id in runs ==> Stage(old(runs[id].status)) <= Stage(runs[id].status)
    {
      err := None;
      if id !in runs {
        return;
      }
      var run := runs[id];
      var status := run.GetStatus();
      if status == Idle || status == Paused {
        run.Start();
      }
    }

    /**
     * The sweep of `onProcessEvents`: removes exactly the Finished runplans
     * and leaves every other entry as it was.
     */
    method Sweep()
      requires Valid()
      modifies this
      ensures runs == map id | id in old(runs) && old(runs)[id].status != Finished :: old(runs)[id]
      ensures Valid()
      ensures name == old(name) && status == old(status) && exitScheduler == old(exitScheduler)
    {
      var unvisited := runs.Keys;
      while unvisited != {}
        invariant unvisited <= old(runs).Keys
        invariant forall id | id in old(runs) :: (id in runs <==> id in unvisited || old(runs)[id].status != Finished)
        invariant forall id | id in runs :: id in old(runs) && runs[id] == old(runs)[id]
        invariant name == old(name) && status == old(status) && exitScheduler == old(exitScheduler)
        decreases unvisited
      {
        ghost var someKey := Collections.Pick(unvisited);
        var key :| key in unvisited;
        var run := runs[key];
        if run.GetStatus() == Finished {
          runs := runs - {run.Id()};
        }
        unvisited := unvisited - {key};
      }
      ghost var kept := map id | id in old(runs) && old(runs)[id].status != Finished :: old(runs)[id];
      assert forall id | id in old(runs) :: id !in unvisited;
      assert forall id :: id in runs <==> id in kept;
      assert runs.Keys == kept.Keys;
      assert forall id | id in runs :: runs[id] == kept[id];
    }

    /** The scheduler loop marks the scheduler Running when it starts. */
    method Start()
      modifies this`status
      ensures status == Running
    {
      status := Running;
    }

    /**
     * One iteration of the scheduler loop: the run received, if any (`None`
     * is the one-second timeout), followed by the sweep.
     */
    method Step(received: Option<RunInfo>)
      requires Valid()
      modifies this
      ensures runs == map id | id in old(runs) && old(runs)[id].status != Finished :: old(runs)[id]
      ensures Valid()
      ensures name == old(name) && status == old(status) && exitScheduler == old(exitScheduler)
    {
      if received.Some? {
        Receive(received.value);
      }
      Sweep();
    }

    /** `getQualifiedRun`: always a fresh Idle runplan for the run, and no error. */
    method GetQualifiedRun(runInfo: RunInfo) returns (run: RunPlan, err: Option<string>)
      ensures fresh(run) && run.info == runInfo && run.status == Idle && run.Lifecycle()
      ensures err == None
    {
      run := new RunPlan.Init(runInfo);
      err := None;
    }

    /**
     * One received run in the scheduler loop. The runplan is added and
     * launched only when `getQualifiedRun` reports an error, which it never
     * does, so a received run changes nothing in the live map.
     */
    method Receive(runInfo: RunInfo)
      requires Valid()
      modifies this
      ensures runs == old(runs) && Valid()
      ensures name == old(name) && status == old(status) && exitScheduler == old(exitScheduler)
    {
      var run, err := GetQualifiedRun(runInfo);
      if err.Some? {
        // Here the source adds the runplan and launches it; the branch is
        // never taken because GetQualifiedRun never reports an error.
        assert false;
      }
    }
  }

  /** The only schedule handler: it hands each run on to its scheduler, oldest first. */
  class SimpleSchedueHandler {
    var sent: seq<RunInfo>

    constructor Init()
      ensures sent == []
    {
      sent := [];
    }

    method SendRunplanInfo(runInfo: RunInfo)
      modifies this
      ensures sent == old(sent) + [runInfo]
    {
      sent := sent + [runInfo];
    }
  }

  /** Hands each accepted run to one of the registered schedule handlers. */
  class RunplanRouter {
    var handlers: map<string, SimpleSchedueHandler>

    constructor Init()
      ensures handlers == map[]
    {
      handlers := map[];
    }

    /** Registers a handler under a name, replacing any handler of that name. */
    method AddScheduleHandler(name: string, schedHandler: SimpleSchedueHandler) returns (err: Option<string>)
      modifies this
      ensures handlers == old(handlers)[name := schedHandler]
      ensures err == None
    {
      handlers := handlers[name := schedHandler];
      err := None;
    }

    /**
     * `getQualifiedScheduleHandler`: nil exactly when no handler is
     * registered, otherwise whichever registered handler the map's iteration
     * order offers first.
     */
    method GetQualifiedScheduleHandler(runInfo: RunInfo) returns (h: Option<SimpleSchedueHandler>)
      ensures h.None? <==> handlers == map[]
      ensures h.Some? ==> h.value in handlers.Values
    {
      if handlers == map[] {
        return None;
      }
      ghost var someName := Collections.Pick(handlers.Keys);
      var name :| name in handlers;
      h := Some(handlers[name]);
    }

    /**
     * One iteration of the router loop: the run goes to exactly one
     * registered handler and no other handler receives anything. With no
     * handler registered the source calls a method on nil, so one must be.
     */
    method Route(runInfo: RunInfo) returns (ghost chosen: SimpleSchedueHandler)
      requires handlers != map[]
      modifies handlers.Values
      ensures chosen in handlers.Values
      ensures chosen.sent == old(chosen.sent) + [runInfo]
      ensures forall other | other in handlers.Values && other != chosen :: other.sent == old(other.sent)
    {
      var schedHandler := GetQualifiedScheduleHandler(runInfo);
      chosen := schedHandler.value;
      schedHandler.value.SendRunplanInfo(runInfo);
    }
  }
}
