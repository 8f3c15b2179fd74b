# go-QA control plane and test bookkeeping, in Dafny

go-QA is a build-triggered run-dispatch engine written in Go. A "build
finished" notification is matched against a policy and becomes a set of
runplans. The runplans are routed to a scheduler, tracked through their
lifecycle, and reported back. The same control plane answers direct commands
through a uniform request/reply protocol. Next to it, a small test framework
counts check points in test cases, groups test cases into suites, and
aggregates suite and test outcomes into statistics. A levelled logger serves
both halves.

This project models the sequential decision and bookkeeping layer of that
system:

- the command vocabulary and the dispatcher's rule (`master.go`);
- the build matcher (`dispatcher.go`);
- the scheduler's live map, the runplan lifecycle and the router's handler
  registry (`scheduler.go`);
- test-case parameters, counters and the verdict (`testcase.go`);
- the suite's test list (`testsuite.go`);
- the result aggregation (`testreporter.go`);
- the logger's level filter, registry and message helpers (`logger.go`).

The model makes these substitutions:

- A channel the code sends on is an outbox, a `seq` field that the sending
  method extends.
- A request's reply channel is a `ReplySlot` object. It can be written once,
  and every handler is proved to write it exactly once.
- Go's map iteration order is a nondeterministic choice (`:|`).
- The asynchronous completion of a started runplan is an explicit
  `RunPlan.Complete` step.
- `interface{}` data is the `Value` datatype.
- Where the Go code panics, the model has a precondition. A failed type
  assertion on the positional data, a write to a nil map and a call on a nil
  handler all panic. So `RunplanRouter.Route` requires a registered handler
  (scheduler.go:86-87, 100-106), `SuiteStartTest` and `ManagerResult.StartTest`
  require a made `tempTests` map (testreporter.go:195), and the `ManagerResult` methods that write
  `activeSuites` (`StartSuite`, `StartTest`, `TestStarted`, `EndTest`,
  `RecordTest`, the `Test*` recorders and `SuiteStarted`) require a made
  `activeSuites` map (testreporter.go:270-436). Every caller in the model meets them.
- The clock reading in a reply and the operating system name are parameters.

Modules, one per source file plus shared ones:

| module | file | models |
|---|---|---|
| `Wrappers`, `Collections` | `wrappers.dfy` | `Option`; two small facts about maps and sets |
| `Decimal` | `decimal.dfy` | the `%d` rendering of integers and its parser |
| `Commands` | `commands.dfy` | command codes, `CmdName`, message envelopes, reply slot |
| `Runs` | `runs.dfy` | `RunId`, `RunInfo`, `BuildInfo`, their positional encodings, the mock matcher |
| `Master` | `master.dfy` | `ProcessMessage` |
| `Dispatcher` | `dispatcher.dfy` | `InternalBuildMatcher` |
| `Scheduler` | `scheduler.dfy` | `RunPlan`, `Schedule`, `SimpleSchedueHandler`, `RunplanRouter` |
| `ResultCodes` | `resultcodes.dfy` | the test-case and suite status codes |
| `TestCases` | `testcase.dfy` | `Parameters`, `Section`, `TestCase` |
| `TestSuites` | `testsuite.dfy` | `DefaultSuite`, `CreateSuite` |
| `TestReporter` | `testreporter.dfy` | `ReporterStatistics`, `suiteResult`, `ManagerResult` |
| `Logger` | `logger.dfy` | `GoQALog` and the stream level filter |

Some behaviours of the code look unintended. They are reproduced, not
corrected, and each is stated in a contract:

- `CMD_CANCEL_RUNPLAN` renders as `"CANCEL_CURRENT_RUN"` (`CmdName`, `CmdNameCollisions`).
- `Schedule.AddRun` only replaces a runplan already filed under the same id.
- The scheduler loop adds and launches a received run only when
  `getQualifiedRun` fails, which it never does. A received run therefore
  changes nothing (`Schedule.Receive`).
- `testSetupError` bumps the setup-failure counters.
- `suiteFailed` bumps the suite error counter.
- `suiteSkipped` ends the suite twice.
- A nil match list and an empty one are answered differently
  (`NilAndEmptyMatchesDiffer`).
- `ReturnFromRun` reports a critical error through `LogError`. That counts one
  more failure.
- `LogWarning` tags its message `ERROR::`.

Where the system's documented design and the code differ, the model follows
the code:

- The code numbers its command codes from `CMD_UNKNOWN = 0`.
- A received run never reaches the live map, so the documented skipping of a
  duplicate run id does not arise.
- `Cancel` and `Pause` are empty.

## Model

| member | source | states |
|---|---|---|
| Decimal.NatToString | dispatcher.go:20-22 | the rendering of a natural number is a non-empty string of digits with no leading zero, except for "0" itself |
| Decimal.NatRoundTrip | dispatcher.go:20-22 | parsing the decimal rendering of a natural number gives the number back (proved by induction on the digits) |
| Decimal.IntRoundTrip | dispatcher.go:20-22 | the rendering of any integer, with a minus sign for negatives, is a numeral that parses back to the integer |
| Decimal.IntToStringInjective | dispatcher.go:20-22 | two integers render to the same string exactly when they are equal |
| Runs.RunIdString | dispatcher.go:20-22 | `RunId.String` is a decimal numeral denoting the id, in canonical form: a minus sign exactly for negative ids, no leading zero, and no `-0` |
| Commands.CmdName | master.go:41-66 | the result is "UNKNOWN" exactly for codes outside OK..GET_ALL_RUNPLAN_STATUS, including UNKNOWN, ERR_TIMEOUT and ERR_UNKNOWN; every other code renders as its declared name, except that CANCEL_RUNPLAN renders as CANCEL_CURRENT_RUN |
| Commands.CmdNameCollisions | master.go:50-53 | two distinct codes with the same name are either both unnamed or exactly the two cancel commands |
| Commands.ReplySlot.constructor | master.go:81-85 | a new reply slot holds no reply |
| Commands.ReplySlot.Send | master.go:252-263 | a reply may only be written to an empty slot, and afterwards the slot holds it |
| Commands.GetMessageInfo | master.go:286-288 | the message carries the given command and data unchanged |
| Commands.GetInternalMessageInfo | master.go:290-292 | the request carries the given command, reply slot and data unchanged |
| Commands.Stripped | master.go:81-85 | dropping a request's reply slot keeps its command and data |
| Runs.RunInfoData | dispatcher.go:83-86 | a launch request's data is exactly [id, name, launch type] |
| Runs.DecodeRunInfo | master.go:253-256 | the dispatcher's positional decoding re-encodes to the first three data items |
| Runs.RunInfoRoundTrip | dispatcher.go:83-86 | decoding the data of the launch request built for a run gives the run back |
| Runs.GetBuildInfo | dispatcher.go:69-81 | a NEW_BUILD request decodes without error to version, project and path equal to data[0..2], with completion time 0; any other command gives the zero build and the error "No build info" |
| Runs.FindMatches | dispatcher.go:46-58 | the mock matcher returns exactly three runs with ids runNum, runNum+1, runNum+2, all named "Runplan_" + version, launched auto, manual, auto |
| Master.Response | master.go:248-264 | a run is forwarded exactly for LAUNCH_RUN, decoded positionally from the data; the reply is OK ("Runplan launched", time) exactly for LAUNCH_RUN and NO_COMMAND ("No command processed") for every other code |
| Master.LaunchIsForwarded | master.go:253-258 | the launch request built for any run is accepted with OK and forwards that very run |
| Master.Master.constructor | master.go:181-189 | a new dispatcher has sent nothing to the router |
| Master.Master.Stop | master.go:223-226 | every exit message stops the dispatch loop |
| Master.Master.ProcessMessage | master.go:248-264 | the router outbox grows by exactly the forwarded run, if any; the empty reply slot is written exactly once with the reply the dispatch rule gives |
| Dispatcher.LaunchMessage | dispatcher.go:83-86 | the launch message for a run is a LAUNCH_RUN whose data the dispatcher decodes back to that run |
| Dispatcher.BuildOutcome | dispatcher.go:101-123 | every answer is OK; an undecodable request launches nothing and answers ["Build match err", "No build info"]; a nil match list launches nothing and answers "no runs matched"; a list of N runs launches exactly those runs in order and answers "launched N runs" |
| Dispatcher.NilAndEmptyMatchesDiffer | dispatcher.go:105-118 | a nil match list and an empty one both launch nothing, but their replies differ |
| Dispatcher.LaunchesReachRouter | dispatcher.go:105-115 | every launch request the matcher pushes is accepted by the dispatcher, which forwards exactly the matched run |
| Dispatcher.MockScenario | dispatcher.go:46-58 | with the mock matcher, a NEW_BUILD for version "T1.0_1" launches three runs with consecutive ids named "Runplan_T1.0_1" and answers "launched 3 runs" |
| Dispatcher.InternalBuildMatcher.Init | dispatcher.go:88-95 | the matcher starts with the given policy, nothing queued, and no stop request |
| Dispatcher.InternalBuildMatcher.Stop | dispatcher.go:97-99 | every exit message stops the matcher |
| Dispatcher.InternalBuildMatcher.CreatRunInfoMes | dispatcher.go:83-86 | the request is the launch message for the run, with a fresh empty reply slot |
| Dispatcher.InternalBuildMatcher.OnMessageRecieved | dispatcher.go:101-123 | the dispatch queue keeps its earlier entries and gains one launch request per matched run, in match order, each with its own fresh empty reply slot; the build request's slot is then written exactly once with the reply `BuildOutcome` gives |
| Scheduler.RunPlan.Init | scheduler.go:212-216 | a runplan starts Idle with a copy of its run info and no outstanding work |
| Scheduler.RunPlan.Name | scheduler.go:204-206 | the runplan's name is its run's name |
| Scheduler.RunPlan.Id | scheduler.go:208-210 | the runplan's id is its run's id |
| Scheduler.RunPlan.GetStatus | scheduler.go:239-241 | the current status |
| Scheduler.RunPlan.Start | scheduler.go:218-229 | the runplan becomes Running with one more unit of work outstanding; from Idle or Paused this keeps the lifecycle invariant |
| Scheduler.RunPlan.Complete | scheduler.go:220-227 | outstanding work finishes and the runplan becomes Finished, strictly later in the lifecycle |
| Scheduler.RunPlan.Cancel | scheduler.go:231-233 | cancelling changes nothing |
| Scheduler.RunPlan.Pause | scheduler.go:235-237 | pausing changes nothing |
| Scheduler.Schedule.Init | scheduler.go:125-133 | a new scheduler has an empty live map, is Idle and not asked to exit |
| Scheduler.Schedule.AddRun | scheduler.go:163-168 | a runplan replaces the one filed under its id only if there is one; the key set never changes and no error is returned |
| Scheduler.Schedule.LaunchRunplan | scheduler.go:170-185 | an unknown id changes nothing; a live runplan becomes Running if it was Idle or Paused and is otherwise left as it was; the status never moves backwards; no error is returned |
| Scheduler.Schedule.Sweep | scheduler.go:153-161 | exactly the Finished runplans are removed; every other entry stays as it was |
| Scheduler.Schedule.Start | scheduler.go:135-137 | the scheduler loop marks the scheduler Running |
| Scheduler.Schedule.Step | scheduler.go:138-149 | one iteration of the scheduler loop leaves exactly the runplans that were not Finished; the scheduler's name, status and exit flag are kept |
| Scheduler.Schedule.GetQualifiedRun | scheduler.go:191-195 | always a fresh Idle runplan for the run, and no error |
| Scheduler.Schedule.Receive | scheduler.go:142-145 | a received run leaves the live map, the name, the status and the exit flag unchanged |
| Scheduler.SimpleSchedueHandler.Init | scheduler.go:49-51 | a new handler has handed nothing on |
| Scheduler.SimpleSchedueHandler.SendRunplanInfo | scheduler.go:52-54 | the run is handed on after all earlier ones |
| Scheduler.RunplanRouter.Init | scheduler.go:93-98 | a new router has no handlers |
| Scheduler.RunplanRouter.AddScheduleHandler | scheduler.go:62-66 | the handler is registered under its name, replacing any handler of that name; no error |
| Scheduler.RunplanRouter.GetQualifiedScheduleHandler | scheduler.go:100-106 | nil exactly when no handler is registered, otherwise one of the registered handlers |
| Scheduler.RunplanRouter.Route | scheduler.go:80-91 | a routed run reaches exactly one registered handler, and no other handler receives anything |
| TestCases.InitParamEffect | testcase.go:142-152 | an absent name is inserted with an empty comment; a present nil value takes a non-nil one and keeps its comment; otherwise the store is unchanged; other names are never touched and the stored value is returned |
| TestCases.InitParamIdempotent | testcase.go:142-152 | initialising the same parameter twice with the same value is the same as once |
| TestCases.InitParamKeepsAdded | testcase.go:142-160 | a non-nil value stored by `AddParam` is kept by a later `InitParam` of that name |
| TestCases.Parameters.constructor | testcase.go:189-191 | a new store has no map allocated and no parameters |
| TestCases.Parameters.Init | testcase.go:121-125 | the map is allocated and its contents stay as they are |
| TestCases.Parameters.Count | testcase.go:127-132 | the number of distinct names stored, 0 before the map is allocated |
| TestCases.Parameters.UpdateValue | testcase.go:134-140 | a present name takes the new value and keeps its comment, and the value is returned; an absent name is not inserted and nil is returned; the key set never changes |
| TestCases.Parameters.InitParam | testcase.go:142-152 | the store and the result are as `InitParamEffect` describes |
| TestCases.Parameters.AddParam | testcase.go:156-160 | the parameter is stored unconditionally, replacing any of that name; other names are unchanged and the value is returned |
| TestCases.Parameters.GetParam | testcase.go:164-168 | the stored parameter and true exactly when the name is present, otherwise the zero parameter and false |
| TestCases.Parameters.GetParamValue | testcase.go:170-177 | the stored value and true exactly when the name is present, otherwise nil and false |
| TestCases.Parameters.GetParamComment | testcase.go:179-186 | the stored comment and true exactly when the name is present, otherwise nil and false |
| TestCases.Section.constructor | testcase.go:81-84 | a new section is inactive and has no hits |
| TestCases.Section.Trigger | testcase.go:86-90 | a hit is counted only while the section is active |
| TestCases.Section.Start | testcase.go:92-94 | the section becomes active and keeps its hits |
| TestCases.Section.End | testcase.go:96-98 | the section becomes inactive and keeps its hits |
| TestCases.Section.Triggered | testcase.go:100-105 | true exactly when the section has been hit at least once |
| TestCases.FailureRate | testcase.go:317-323 | the failure rate is a percentage between 0 and 100, and is 0 exactly when nothing failed |
| TestCases.Verdict | testcase.go:316-336 | the verdict is critical error, passed or failed, and is critical error exactly when the critical section was hit |
| TestCases.VerdictMatchesFailureRate | testcase.go:318-335 | without a critical hit, the run passes exactly when the threshold is at least the exact failure rate |
| TestCases.DefaultThresholdPassesOnlyWithoutFailures | testcase.go:222-230 | with the default threshold 0 a run passes exactly when nothing failed |
| TestCases.TestCase.constructor | testcase.go:204-216 | a new test case has no name, threshold 0, zero counters and an unhit section |
| TestCases.TestCase.Init | testcase.go:222-230 | the name and parameters are taken; the threshold is initialised as `InitParam` does with default 0; a fresh critical section starts; the counters are kept |
| TestCases.TestCase.Name | testcase.go:218-220 | the test case's name |
| TestCases.TestCase.LogPass | testcase.go:287-290 | only the pass counter goes up, by one |
| TestCases.TestCase.LogFail | testcase.go:276-280 | the failure counter goes up by one and the critical section is triggered; nothing else changes |
| TestCases.TestCase.LogError | testcase.go:270-274 | the failure counter goes up by one and the critical section is triggered; nothing else changes |
| TestCases.TestCase.LogWarning | testcase.go:282-285 | only the warning counter goes up, by one |
| TestCases.TestCase.Check | testcase.go:248-255 | a pass is counted exactly when the value is positive, a failure (with a trigger) otherwise; the value is returned |
| TestCases.TestCase.Verify | testcase.go:257-264 | a pass is counted exactly when the value is true, a failure (with a trigger) otherwise; the value is returned |
| TestCases.TestCase.ReturnFromRun | testcase.go:316-336 | the result is the verdict on the counts before the call: critical error whenever the section was hit, otherwise pass or fail by threshold; a critical error also counts one more failure; the critical section counts exactly one more hit when it was active and the code is a critical error, and no hit otherwise |
| TestSuites.DefaultSuite.constructor | testsuite.go:22-25 | a new suite has no name and no test cases |
| TestSuites.DefaultSuite.Init | testsuite.go:31-34 | the suite is named, its list is emptied, and the parameters passed in are ignored, so its threshold is 0 |
| TestSuites.DefaultSuite.Name | testsuite.go:36-38 | the suite's name is its embedded test case's name |
| TestSuites.DefaultSuite.Setup | testsuite.go:40-46 | always `SuiteOk` with an empty message |
| TestSuites.DefaultSuite.Teardown | testsuite.go:48-53 | always `SuiteOk` with an empty message |
| TestSuites.DefaultSuite.AddTest | testsuite.go:55-58 | the test case is appended at the end and earlier entries are unchanged |
| TestSuites.DefaultSuite.GetTestCase | testsuite.go:67-74 | nil exactly when no test case has the name; otherwise the first one in insertion order that has it |
| TestSuites.CreateSuite | testsuite.go:81-85 | a fresh suite with the given name and no test cases |
| TestReporter.BumpTest | testreporter.go:319-422 | a test recorder raises its own counter by one, and the total exactly when the outcome counts towards it; the total stays the sum of the counted outcomes |
| TestReporter.BumpSuite | testreporter.go:424-489 | a suite recorder raises its own counter by one, and the total exactly when the outcome counts towards it; the total stays the sum of the counted outcomes |
| TestReporter.BumpTestTouchesOnlyItsCounter | testreporter.go:319-422 | no other test counter moves |
| TestReporter.BumpSuiteTouchesOnlyItsCounter | testreporter.go:424-489 | no other suite counter moves |
| TestReporter.ZeroStatisticsAllZero | testreporter.go:124-149 | after a reset all nineteen counters are zero, and the sums hold |
| TestReporter.NewSuite | testreporter.go:173-178 | a suite result starts named, with no tests, room for 100 and zero counters |
| TestReporter.SuiteAddTestResult | testreporter.go:206-214 | the result is appended after all earlier ones, and the list fits its capacity, which grows by 100 only when it was full, and then to exactly 100 more than the earlier length |
| TestReporter.SuiteStartTest | testreporter.go:192-196 | a new test result is filed under the test's name and nothing else changes |
| TestReporter.SuiteEndTest | testreporter.go:198-204 | exactly one entry is appended, the started test of that name (or Go's zero result) with the given status and message; counters and started tests stay |
| TestReporter.SuiteRecordTest | testreporter.go:319-329 | a recorder appends exactly one entry to the suite and bumps the suite's counter for its outcome |
| TestReporter.RecordAfterStartAppends | testreporter.go:192-204 | after `StartTest` for a name, recording a result of that name appends exactly one entry named after the test with the result's status and message |
| TestReporter.BumpThenEndIsRecord | testreporter.go:301-305 | bumping a suite's counter in the active map and then ending the test there gives the suite's recorded result |
| TestReporter.Grown | testreporter.go:289-299 | the grown backing array has room for the extra entries and holds the old entries in order |
| TestReporter.ManagerResult.constructor | testreporter.go:237-245 | a new manager result is Go's zero value |
| TestReporter.ManagerResult.ZeroIsValid | testreporter.go:237-245 | the zero value satisfies the counter-sum and capacity invariants |
| TestReporter.ManagerResult.FinishedSuites | testreporter.go:247-249 | the finished suites, as many as were ended |
| TestReporter.ManagerResult.Init | testreporter.go:251-256 | the manager is named, the active map is emptied, the finished list is empty with room for 10, and the statistics stay |
| TestReporter.ManagerResult.AddSuiteResult | testreporter.go:289-299 | the result is appended after all earlier ones, across growth of the backing array by 10 when it was full |
| TestReporter.ManagerResult.StartSuite | testreporter.go:266-271 | a freshly initialised result is filed under the suite's name |
| TestReporter.ManagerResult.EndSuite | testreporter.go:273-279 | the suite's result with the status and message is appended to the finished list, and the suite stays active |
| TestReporter.ManagerResult.StartTest | testreporter.go:307-311 | the test is started in its suite, and nothing else changes |
| TestReporter.ManagerResult.TestStarted | testreporter.go:313-317 | the same as `StartTest` |
| TestReporter.ManagerResult.EndTest | testreporter.go:301-305 | the test is ended in its suite (an unknown suite is a zero result), and the statistics are unchanged |
| TestReporter.ManagerResult.RecordTest | testreporter.go:319-329 | a test recorder bumps the totals and the suite's counters once for its outcome and appends the result to the suite, keeping every sum invariant |
| TestReporter.ManagerResult.TestPassed | testreporter.go:319-329 | a passed test is recorded as passed |
| TestReporter.ManagerResult.TestError | testreporter.go:331-341 | an erroneous test is recorded as an error |
| TestReporter.ManagerResult.TestFailed | testreporter.go:343-354 | a failed test is recorded as failed |
| TestReporter.ManagerResult.TestNotFound | testreporter.go:356-366 | a missing test is recorded as not found |
| TestReporter.ManagerResult.TestSkipped | testreporter.go:368-378 | a skipped test is recorded as skipped |
| TestReporter.ManagerResult.TestSetupFailed | testreporter.go:380-390 | a setup failure is recorded as a setup failure |
| TestReporter.ManagerResult.TestSetupError | testreporter.go:392-402 | a setup error is recorded as a setup failure, and the setup-error counter never moves |
| TestReporter.ManagerResult.TestTeardownFailed | testreporter.go:404-412 | a teardown failure is recorded without changing the total |
| TestReporter.ManagerResult.TestTeardownError | testreporter.go:414-422 | a teardown error is recorded without changing the total |
| TestReporter.ManagerResult.RecordSuite | testreporter.go:424-430 | a suite recorder bumps its suite counter once and appends the suite's result, keeping the suite sum invariant |
| TestReporter.ManagerResult.SuitePassed | testreporter.go:424-430 | a passed suite is counted as passed and ended with status `SuitePassed` |
| TestReporter.ManagerResult.SuiteStarted | testreporter.go:432-438 | the suite's entry becomes a freshly initialised result, and nothing is counted |
| TestReporter.ManagerResult.SuiteFailed | testreporter.go:440-446 | a failed suite is counted as an error, not a failure, and ended with status `SuiteFailed` |
| TestReporter.ManagerResult.SuiteNotFound | testreporter.go:448-454 | a missing suite is counted as not found and ended with status `SuiteNotFound` |
| TestReporter.ManagerResult.SuiteSkipped | testreporter.go:456-461 | a skipped suite is counted nowhere and appended to the finished list twice |
| TestReporter.ManagerResult.SuiteSetupFailed | testreporter.go:463-468 | a setup failure is counted and nothing is appended |
| TestReporter.ManagerResult.SuiteSetupError | testreporter.go:470-475 | a setup error is counted and nothing is appended |
| TestReporter.ManagerResult.SuiteTeardownFailed | testreporter.go:477-482 | the suite is ended, then the teardown failure is counted without changing the total |
| TestReporter.ManagerResult.SuiteTeardownError | testreporter.go:484-489 | the suite is ended, then the teardown error is counted without changing the total |
| TestReporter.ManagerResult.ManagerStarted | testreporter.go:503-506 | the statistics are zeroed, and the active map and the finished list are emptied |
| Logger.PrintedLevels | logger.go:63-76 | the reference table of which message levels each stream level prints |
| Logger.PrintsMatchesTable | logger.go:63-76 | on the helpers' levels, the stream switch prints a message exactly when the table lists its level |
| Logger.AllPrintsEverything | logger.go:64-65 | an ALL stream prints every message |
| Logger.MessageStreamGatesDebug | logger.go:66-69 | a MESSAGE stream prints every non-debug message, and a debug one exactly when it was added in debug mode |
| Logger.OtherLevelsPrintNothing | logger.go:63-76 | a stream at any level the switch does not name, such as DEBUG or NOT_SET, prints nothing |
| Logger.StreamOutput | logger.go:59-77 | a stream prints at most as many lines as it receives |
| Logger.StreamOutputAppend | logger.go:59-77 | a stream's output on two batches is its output on the first followed by its output on the second |
| Logger.AllStreamEchoesEverything | logger.go:64-65 | an ALL stream echoes every pattern, in order |
| Logger.SilentStreamPrintsNothing | logger.go:63-76 | a stream at an unnamed level prints nothing of any sequence of messages |
| Logger.LineEnd | logger.go:111-115 | the line ending is "\n" exactly on linux and "\r\n" everywhere else |
| Logger.Tagged | logger.go:171-207 | a helper's pattern starts with its tag and ends with the line ending |
| Logger.UntagTagged | logger.go:171-207 | the caller's message is recovered from a tagged pattern |
| Logger.Registered | logger.go:142-146 | adding a name registers it; a name already registered keeps its stream, and every other stream is kept |
| Logger.RegisterTwice | logger.go:142-146 | registering a name a second time changes nothing, whatever stream is offered |
| Logger.GoQALog.constructor | logger.go:88-95 | a new logger is uninitialised, with no streams and nothing queued |
| Logger.GoQALog.Init | logger.go:98-125 | the first call empties the registry and the queue, clears debug mode, picks the line ending and marks the logger initialised; a later call changes nothing |
| Logger.GoQALog.Ready | logger.go:127-136 | ready exactly when initialised, initialising first unless an earlier initialisation faulted |
| Logger.GoQALog.Add | logger.go:138-147 | once ready, the name is registered with the current debug mode, and an existing stream of that name is never replaced; a logger that stays uninitialised keeps its streams; the line ending is kept once set and chosen by the OS on first initialisation |
| Logger.GoQALog.Printf | logger.go:149-152 | one message with the level and pattern is queued after all earlier ones |
| Logger.GoQALog.SetDebug | logger.go:165-169 | once ready, the debug mode is set; registered streams are unchanged; otherwise the debug mode is kept; the line ending is kept once set and chosen by the OS on first initialisation |
| Logger.GoQALog.Emit | logger.go:171-175 | once ready, exactly one tagged message is queued; otherwise nothing is |
| Logger.GoQALog.LogError | logger.go:171-175 | once ready, exactly one `ERROR::` message at error level is queued; the registered streams, the debug mode and the line ending are kept, or set by a first initialisation to no streams, no debug mode and the OS's line ending |
| Logger.GoQALog.LogDebug | logger.go:177-183 | a `DEBUG::` message at debug level is queued exactly when the logger is ready and in debug mode; the registered streams, the debug mode and the line ending are kept, or set by a first initialisation to no streams, no debug mode and the OS's line ending |
| Logger.GoQALog.LogWarning | logger.go:185-189 | once ready, exactly one warning-level message tagged `ERROR::` is queued; the registered streams, the debug mode and the line ending are kept, or set by a first initialisation to no streams, no debug mode and the OS's line ending |
| Logger.GoQALog.LogPass | logger.go:191-195 | once ready, exactly one `PASS::` message at pass level is queued; the registered streams, the debug mode and the line ending are kept, or set by a first initialisation to no streams, no debug mode and the OS's line ending |
| Logger.GoQALog.LogFail | logger.go:197-201 | once ready, exactly one `FAIL::` message at fail level is queued; the registered streams, the debug mode and the line ending are kept, or set by a first initialisation to no streams, no debug mode and the OS's line ending |
| Logger.GoQALog.LogMessage | logger.go:203-207 | once ready, exactly one `MSG::` message at message level is queued; the registered streams, the debug mode and the line ending are kept, or set by a first initialisation to no streams, no debug mode and the OS's line ending |

## Left out

- Go's `int` and `RunId` are 64 bits wide and wrap past 2^63-1. The model's integers are unbounded, so `Runs.FindMatches` (`runNum+1`, `runNum+2`, dispatcher.go:51, 54) and every `+1` counter bump in the test case and test reporter do not wrap. With `runNum` at the largest 64-bit value, Go gives the ids MaxInt64, MinInt64 and MinInt64+1; the model gives MaxInt64, MaxInt64+1 and MaxInt64+2. No caller gets near that value.
- `listeners.go` is not part of this model. It is TCP listening, connection handling and `time.After` timeouts.
- `JSON_Encode` and `MessageSender` (master.go:92-170) are not modelled. They are JSON encoding and a network client.
- `Master.Init`, `Master.Run` and `StartMasterScheduler` (master.go:213-242, 270-284) are goroutine and channel wiring. `ProcessMessage` is modelled instead, with its sends as an outbox.
- The `Master` logging delegates (master.go:193-211) are not modelled. They only forward to the logger.
- `InternalBuildMatcher.Run` and `onProcessEvents` (dispatcher.go:125-145) are not modelled. The 10-second wait for each launch reply is not modelled either: launch replies are ignored, and a timed-out wait never stops the remaining pushes.
- The bounded `CommandQueue` (100 entries, master.go:33, 179) and `LOG_QUEUE_SIZE` are not modelled. The outboxes are unbounded, so the blocking of a full channel is not captured.
- `Schedule.Start`'s goroutine loop, its one-second receive timeout and the sweep's one-second sleep are not modelled as running code. One iteration is `Schedule.Step`, with the timeout as `None`.
- `RunplanRouter.Run`'s goroutine is not modelled as running code. One iteration is `RunplanRouter.Route`.
- `StopScheduler`, `PauseScheduler` and `GetAvailableSchedulers` (scheduler.go:68-78) are stubs that return nil, and are not modelled.
- `Scheduler.Schedule.LaunchRunplan`: the source starts the runplan with `go run.Start()`, so it becomes Running shortly after the call rather than during it. The model starts it synchronously.
- `Scheduler.RunPlan.Start`: the ten 700 ms sleeps before completion are replaced by the explicit `Complete` step.
- `testmanager.go` is not part of this model. It is goroutine and mutex orchestration with XML loading, and its counter methods refer to fields that `ManagerResult` does not have.
- Report rendering (`TextReporter`, testreporter.go:516-614) is not modelled. It formats times and writes to the logger.
- Start and end times, the `Runtime` methods, `EndManager` and `managerFinished`/`managerPassed`/`managerFailed`/`managerSetUpFailed`/`managerTearDownFailed` are not modelled. These only record the time.
- `resetManagerStatistics` is not modelled. It is `Init` under the current name.
- `GetTests`, `GetSuites` and the `Name` accessors of `suiteResult` and `ManagerResult` are plain field reads and are not modelled.
- `ManagerResult`'s mutex is not modelled. The recorders run one at a time.
- `TestError`, `Create` and `Throw` (testcase.go:44-79) are not modelled. They are stack traces, formatting and `panic`.
- `TestCase.Setup`, `Run`, `Teardown` and `Test` (testcase.go:232-247) are overridable defaults, and are not modelled.
- `RunTest` and `InitTest` (testcase.go:338-349) are not modelled. They are a goroutine call and interface dispatch.
- `TestCase.LogMessage`, `LogDebug` and `GetLogger` are not modelled. They only write to the logger.
- The `InitParam`, `AddParam`, `GetParamValue` and `GetParams` delegates on `TestCase` (testcase.go:300-315) are not modelled. They forward to the parameter store.
- The logger messages inside the `TestCase.Log*` methods, `Check`, `Verify` and `ReturnFromRun` are not modelled. Only the counters are.
- `TestCases.TestCase.ReturnFromRun`: the failure rate is compared with exact arithmetic rather than float64. At exact boundaries the float result can differ: 7 failures in 100 check points give a rate of 7.000000000000001, and a threshold of 7 fails there. The model passes that run.
- `TestCases.TestCase.Init`: the source passes `Parameters` by value, so the test case shares the caller's map. The model passes the store by reference, which shows the same sharing. The copy of the `made` flag is not distinguished. Because Go copies the `Parameters` value, a caller's store that was never made does not gain the `failureThreshold` entry that `InitParam` adds (testcase.go:139-146, 222-230); in the model it does.
- `TestSuites.DefaultSuite.GetTestCases` has no contract. It returns the list field as it is.
- `RunSuite` and `GetParent` of `DefaultSuite` (testsuite.go:27-30, 60-65) are not modelled. They are goroutine hand-offs to the test manager.
- `Logger.GoQALog.Printf`: the variadic `args` are dropped. A `%` in a caller's message would be read as a format verb by the source, and this is not modelled. The method requires an initialised logger, because sending on the nil channel of an uninitialised one blocks for ever.
- The logger's delivery goroutines, `Sync` and `sync` polling, and the writes to the `io.Writer` (logger.go:57-86, 118-124, 154-164) are not modelled as running code. What a stream prints of the queued messages is the function `StreamOutput`.
- `Logger.GoQALog.Init`: the recovery path that sets `faulted` when initialisation panics is not modelled, because nothing in the modelled initialisation can panic. `faulted` is kept as a field so that `Ready`'s second branch is modelled.
- `runtime.GOOS` and the clock reading in the dispatcher's OK reply are parameters.
