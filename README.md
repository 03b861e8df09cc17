# Baratine actor scheduler — a Dafny model

Baratine is a Java framework for services written as single-threaded
actors. Each service has an inbox, and messages reach it through a
*worker*, a small state machine that asks a *thread launcher* for a
backing thread when one is needed and gives the thread back when the inbox
runs dry. This project models that scheduling layer and the null objects
and small protocol objects it relies on. It also models a set of
self-contained pieces of the surrounding framework:

- big-endian integer streams;
- a chunked character buffer;
- event addresses;
- MIME types of static files;
- the close-state machine of an HTTP request;
- route dispatch;
- command-line options;
- TCP port builders;
- two comparators.

Each Java class is one Dafny module.

- Objects whose fields the Java code updates become classes with
  `modifies` frames.
- Pure enum and string code becomes functions with lemmas.
- Loops become methods with loop invariants.

Concurrency is modelled sequentially:

- each compare-and-swap is one atomic step;
- the clock is a parameter (`now`);
- what other threads do meanwhile is a script passed to the method.

Callbacks into code outside the model are parameters:

- whether a route handles a request (`handles`);
- which messages make delivery throw (`throwing`);
- the pod a server belongs to (`PodView`);
- a resolved request body (`resolved`);
- a freshly generated session id (`generated`);
- whether a gateway's current message refuses a value (`taken`).

A Java `null` argument is `None`, and an exception is an `Err`/`Fail`
value (module `Wrappers`). Java's 32- and 64-bit integer arithmetic,
`String.indexOf`, `lastIndexOf`, `compareTo` and `hashCode` are defined
once in module `JavaLang`.

## Model

| member | source | states |
|---|---|---|
| WorkerAmp.State.ToWake | core/src/main/java/com/caucho/v5/amp/thread/WorkerAmpBase.java:329-383 | IDLE, ACTIVE and PARK become ACTIVE_WAKE; ACTIVE_WAKE and CLOSED are left as they are |
| WorkerAmp.State.ToIdle | core/src/main/java/com/caucho/v5/amp/thread/WorkerAmpBase.java:344-392 | ACTIVE and PARK become IDLE; ACTIVE_WAKE and CLOSED are kept; on IDLE it fails with UnsupportedOperation |
| WorkerAmp.State.IsIdle | core/src/main/java/com/caucho/v5/amp/thread/WorkerAmpBase.java:329-389 | true exactly for IDLE |
| WorkerAmp.State.IsActive | core/src/main/java/com/caucho/v5/amp/thread/WorkerAmpBase.java:329-389 | true exactly for ACTIVE and ACTIVE_WAKE |
| WorkerAmp.State.IsWake | core/src/main/java/com/caucho/v5/amp/thread/WorkerAmpBase.java:329-389 | true exactly for ACTIVE_WAKE, which is also active |
| WorkerAmp.State.IsPark | core/src/main/java/com/caucho/v5/amp/thread/WorkerAmpBase.java:329-389 | true exactly for PARK, which is not active |
| WorkerAmp.State.IsClosed | core/src/main/java/com/caucho/v5/amp/thread/WorkerAmpBase.java:329-389 | true exactly for CLOSED |
| WorkerAmp.WakeThenIdleKeepsWake | core/src/main/java/com/caucho/v5/amp/thread/WorkerAmpBase.java:329-392 | after a wake, toIdle keeps the pending wake (or CLOSED), and a second wake changes nothing |
| WorkerAmp.AfterExtKeepsPendingWake | core/src/main/java/com/caucho/v5/amp/thread/WorkerAmpBase.java:113-149 | once a wake is pending (or the worker is closed), no sequence of wake and close calls from other threads loses it |
| WorkerAmp.AfterExtNeverIdles | core/src/main/java/com/caucho/v5/amp/thread/WorkerAmpBase.java:113-149 | while a thread owns the worker, wake and close calls from other threads never bring it back to IDLE |
| WorkerAmp.WorkerAmpBase.constructor | core/src/main/java/com/caucho/v5/amp/thread/WorkerAmpBase.java:65-75 | a new worker is IDLE, has no thread, and has made no starts, unparks or tasks |
| WorkerAmp.WorkerAmpBase.SetWorkerIdleTimeout | core/src/main/java/com/caucho/v5/amp/thread/WorkerAmpBase.java:82-88 | a negative timeout is rejected with IllegalArgument and leaves the field; any other is stored |
| WorkerAmp.WorkerAmpBase.IdleTimeout | core/src/main/java/com/caucho/v5/amp/thread/WorkerAmpBase.java:174-180 | a permanent worker uses 30000 ms; any other uses the configured timeout, which is never negative |
| WorkerAmp.WorkerAmpBase.IsTaskActive | core/src/main/java/com/caucho/v5/amp/thread/WorkerAmpBase.java:90-93 | a thread owns the worker: the state is neither IDLE nor CLOSED |
| WorkerAmp.WorkerAmpBase.IsClosed | core/src/main/java/com/caucho/v5/amp/thread/WorkerAmpBase.java:95-98 | the state register holds CLOSED |
| WorkerAmp.WorkerAmpBase.Close | core/src/main/java/com/caucho/v5/amp/thread/WorkerAmpBase.java:113-123 | the state becomes CLOSED from any state, and the recorded thread, if any, is unparked |
| WorkerAmp.WorkerAmpBase.Wake | core/src/main/java/com/caucho/v5/amp/thread/WorkerAmpBase.java:125-149 | the new state is toWake of the old one; a thread start is requested exactly when the old state was IDLE; the recorded thread is unparked exactly when the old state was PARK; on CLOSED nothing changes |
| WorkerAmp.WorkerAmpBase.Interfere | core/src/main/java/com/caucho/v5/amp/thread/WorkerAmpBase.java:113-149 | the state after other threads' calls is AfterExt of the old one; it is never IDLE, a pending wake survives, and no thread is started |
| WorkerAmp.WorkerAmpBase.RunLoop | core/src/main/java/com/caucho/v5/amp/thread/WorkerAmpBase.java:214-275 | a CLOSED worker returns at once without running a task; the loop never idles the worker or starts a thread; a wake made during the run is served by another task pass unless the worker is closed |
| WorkerAmp.WorkerAmpBase.Run | core/src/main/java/com/caucho/v5/amp/thread/WorkerAmpBase.java:183-305 | on exit the thread is cleared and toIdle is applied; the result is IDLE, ACTIVE_WAKE or CLOSED; exactly one new thread is started when it is ACTIVE_WAKE, so no wake is lost |
| ThreadLauncher.ThrottleStep | core/src/main/java/com/caucho/v5/amp/thread/ThreadLauncherBase.java:589-630 | an expired window restarts with count 1 and the flag cleared; otherwise the count grows; a warning is issued only when the flag was clear, and it sets the flag; the sleep happens exactly when the limit is reached and a sleep time is set |
| ThreadLauncher.AtMostOneWarningPerWindow | core/src/main/java/com/caucho/v5/amp/thread/ThreadLauncherBase.java:589-630 | any run of updateThrottle calls within one window issues at most one warning, and none if the window has already warned |
| ThreadLauncher.ThreadLauncherBase.constructor | core/src/main/java/com/caucho/v5/amp/thread/ThreadLauncherBase.java:59-104 | the configuration starts at its defaults, every counter at 0, and the lifecycle is not yet active |
| ThreadLauncher.ThreadLauncherBase.Update | core/src/main/java/com/caucho/v5/amp/thread/ThreadLauncherBase.java:527-534 | the idle expiry is re-armed to now + idleTimeout and the launcher is woken once |
| ThreadLauncher.ThreadLauncherBase.SetThreadMax | core/src/main/java/com/caucho/v5/amp/thread/ThreadLauncherBase.java:122-143 | an unchanged value is a no-op; a non-positive value means 8192; a value below idleMin fails with a config error and leaves threadMax; otherwise it is stored and the launcher updated |
| ThreadLauncher.ThreadLauncherBase.SetIdleMin | core/src/main/java/com/caucho/v5/amp/thread/ThreadLauncherBase.java:156-178 | an unchanged value is a no-op; a non-positive value means the default; a value above threadMax fails and leaves idleMin; otherwise it is stored |
| ThreadLauncher.ThreadLauncherBase.SetIdleMax | core/src/main/java/com/caucho/v5/amp/thread/ThreadLauncherBase.java:188-209 | an unchanged value is a no-op; a non-positive value means the default; a value above threadMax fails and leaves idleMax; otherwise it is stored |
| ThreadLauncher.ThreadLauncherBase.SetIdleTimeout | core/src/main/java/com/caucho/v5/amp/thread/ThreadLauncherBase.java:219-225 | the idle timeout is stored |
| ThreadLauncher.ThreadLauncherBase.SetThrottlePeriod | core/src/main/java/com/caucho/v5/amp/thread/ThreadLauncherBase.java:244-250 | only the throttle period changes |
| ThreadLauncher.ThreadLauncherBase.SetThrottleLimit | core/src/main/java/com/caucho/v5/amp/thread/ThreadLauncherBase.java:252-258 | only the throttle limit changes |
| ThreadLauncher.ThreadLauncherBase.SetThrottleSleepTime | core/src/main/java/com/caucho/v5/amp/thread/ThreadLauncherBase.java:260-263 | only the throttle sleep time changes |
| ThreadLauncher.ThreadLauncherBase.ResetThrottle | core/src/main/java/com/caucho/v5/amp/thread/ThreadLauncherBase.java:580-587 | the current window's count goes back to 0 |
| ThreadLauncher.ThreadLauncherBase.Start | core/src/main/java/com/caucho/v5/amp/thread/ThreadLauncherBase.java:269-274 | the lifecycle becomes active and the launcher is woken once |
| ThreadLauncher.ThreadLauncherBase.Close | core/src/main/java/com/caucho/v5/amp/thread/ThreadLauncherBase.java:277-282 | the lifecycle is destroyed: no longer active |
| ThreadLauncher.ThreadLauncherBase.IsThreadMax | core/src/main/java/com/caucho/v5/amp/thread/ThreadLauncherBase.java:288-291 | running plus starting threads have reached threadMax |
| ThreadLauncher.ThreadLauncherBase.IsThreadHigh | core/src/main/java/com/caucho/v5/amp/thread/ThreadLauncherBase.java:293-299 | running plus starting threads are more than half of threadMax |
| ThreadLauncher.ThreadLauncherBase.IsIdleLow | core/src/main/java/com/caucho/v5/amp/thread/ThreadLauncherBase.java:408-411 | fewer idle threads than idleMin |
| ThreadLauncher.ThreadLauncherBase.IsIdleOverflow | core/src/main/java/com/caucho/v5/amp/thread/ThreadLauncherBase.java:432-435 | more idle threads than idleMax |
| ThreadLauncher.ThreadLauncherBase.SaturationPredicates | core/src/main/java/com/caucho/v5/amp/thread/ThreadLauncherBase.java:288-300 | a pool at threadMax is also "high"; an overflowing idle pool is not "low" |
| ThreadLauncher.ThreadLauncherBase.WakeIfLowIdle | core/src/main/java/com/caucho/v5/amp/thread/ThreadLauncherBase.java:456-469 | too few idle and starting threads re-arm the expiry and wake the launcher; otherwise nothing changes |
| ThreadLauncher.ThreadLauncherBase.OnChildThreadLaunchBegin | core/src/main/java/com/caucho/v5/amp/thread/ThreadLauncherBase.java:306-321 | threadCount rises by one; startingCount falls by one, clamped at 0, and a clamp is recorded; the creation total rises by one; too few idle and starting threads re-arm the idle expiry to now + idleTimeout and wake the launcher, otherwise the expiry is kept |
| ThreadLauncher.ThreadLauncherBase.OnChildThreadLaunchEnd | core/src/main/java/com/caucho/v5/amp/thread/ThreadLauncherBase.java:328-339 | threadCount falls by one; a pool that was at threadMax wakes the launcher; too few idle and starting threads re-arm the idle expiry and wake it once more, otherwise the expiry is kept |
| ThreadLauncher.ThreadLauncherBase.OnChildThreadResumeBegin | core/src/main/java/com/caucho/v5/amp/thread/ThreadLauncherBase.java:346-354 | threadCount rises by one |
| ThreadLauncher.ThreadLauncherBase.OnChildThreadResumeEnd | core/src/main/java/com/caucho/v5/amp/thread/ThreadLauncherBase.java:356-365 | threadCount falls by one; a pool that was at threadMax wakes the launcher; too few idle and starting threads re-arm the idle expiry and wake it once more, otherwise the expiry is kept |
| ThreadLauncher.ThreadLauncherBase.OnChildIdleBegin | core/src/main/java/com/caucho/v5/amp/thread/ThreadLauncherBase.java:441-447 | idleCount rises by exactly one |
| ThreadLauncher.ThreadLauncherBase.OnChildIdleEnd | core/src/main/java/com/caucho/v5/amp/thread/ThreadLauncherBase.java:449-454 | idleCount falls by exactly one; too few idle threads re-arm the idle expiry to now + idleTimeout and wake the launcher, otherwise the expiry is kept |
| ThreadLauncher.ThreadLauncherBase.IsIdleExpire | core/src/main/java/com/caucho/v5/amp/thread/ThreadLauncherBase.java:374-406 | true when inactive; false when idleCount ≤ idleMin; true above idleMax when idleMin < idleMax; otherwise true exactly when the expiry has passed and the CAS to now + idleTimeout wins |
| ThreadLauncher.ThreadLauncherBase.DoStart | core/src/main/java/com/caucho/v5/amp/thread/ThreadLauncherBase.java:483-517 | admits exactly when active, threadCount + prior startingCount ≤ threadMax and idleCount + prior startingCount < idleMin; an admission raises startingCount by one and a refusal leaves it; onThreadMax is counted exactly when the pool was over threadMax; the effect is AdmitStep's |
| ThreadLauncher.ThreadLauncherBase.UpdateIdleExpireTime | core/src/main/java/com/caucho/v5/amp/thread/ThreadLauncherBase.java:471-481 | the expiry becomes now + idleTimeout |
| ThreadLauncher.ThreadLauncherBase.UpdateThrottle | core/src/main/java/com/caucho/v5/amp/thread/ThreadLauncherBase.java:589-630 | the window, warnings and sleeps move exactly as ThrottleStep says |
| ThreadLauncher.ThreadLauncherBase.StartConnection | core/src/main/java/com/caucho/v5/amp/thread/ThreadLauncherBase.java:537-578 | the outcome and every changed field (starting count, launched ids, gId, onThreadMax count, idle expiry, throttle window, warnings, sleeps) are exactly those of Run on the fields found on entry |
| ThreadLauncher.ThreadLauncherBase.RunTask | core/src/main/java/com/caucho/v5/amp/thread/ThreadLauncherBase.java:666-671 | answers -1; a failing launch passes LaunchFailure on; the launched ids are the next ones in order and none fails; startingCount and gId grow by the launches (gId once more on failure); onThreadMax is counted only on the final refusal; the expiry is re-armed once any start was admitted; the throttle moves as the repeated updateThrottle calls say and warns at most once, not at all in a window that already warned; the pool stays within threadMax + 1 |
| ThreadLauncher.ConsecutiveAt | core/src/main/java/com/caucho/v5/amp/thread/ThreadLauncherBase.java:549 | the i-th of n consecutive ids from first is first + i: incrementAndGet hands out ids in order |
| ThreadLauncher.RepeatedWarnsAtMostOnce | core/src/main/java/com/caucho/v5/amp/thread/ThreadLauncherBase.java:589-630 | updateThrottle calls on one clock reading warn at most once, and never when the window is open and has already warned |
| ThreadLauncher.AdmitStep | core/src/main/java/com/caucho/v5/amp/thread/ThreadLauncherBase.java:483-517 | doStart on values: it admits exactly when Admits holds |
| ThreadLauncher.RunLaunches | core/src/main/java/com/caucho/v5/amp/thread/ThreadLauncherBase.java:537-571 | the threads launched by a startConnection run are the next ids in order, and none of them is a failing one |
| ThreadLauncher.RunCounts | core/src/main/java/com/caucho/v5/amp/thread/ThreadLauncherBase.java:537-575 | each launched thread keeps its starting slot and took one id; a failing launch took an id, gives back its slot and ends the run with LaunchFailure |
| ThreadLauncher.RunRefusal | core/src/main/java/com/caucho/v5/amp/thread/ThreadLauncherBase.java:483-512 | a run that passes ends on a refusal, after which doStart would admit nothing; onThreadMax is counted at most once, on that refusal, exactly when the pool was over threadMax |
| ThreadLauncher.RunThrottle | core/src/main/java/com/caucho/v5/amp/thread/ThreadLauncherBase.java:537-550 | once any start was admitted the idle expiry is now + idleTimeout, otherwise unchanged; the throttle window, warnings and sleeps are those of one updateThrottle call per id taken |
| ThreadLauncher.RunBound | core/src/main/java/com/caucho/v5/amp/thread/ThreadLauncherBase.java:483-512 | the starts a run admits keep threadCount + startingCount within threadMax + 1 |
| ThreadLauncher.ThreadLauncherBase.StartOne | core/src/main/java/com/caucho/v5/amp/thread/ThreadLauncherBase.java:541-569 | one pass of the loop body: the effect is LaunchStep's (expiry re-armed, next id, one throttle call, then either a launch or a reservation given back) |
| WorkerDeliver.DrainSplits | core/src/main/java/com/caucho/v5/amp/queue/WorkerDeliverSingleThread.java:81-87 | a drain splits the queue into what was delivered and what is left; only a throwing message stops delivery, and it is the last one delivered |
| WorkerDeliver.DrainThrowsIff | core/src/main/java/com/caucho/v5/amp/queue/WorkerDeliverSingleThread.java:81-87 | a drain is cut short exactly when some queued message throws, and everything before the first such message is delivered |
| WorkerDeliver.RunImplDeliversInOrder | core/src/main/java/com/caucho/v5/amp/queue/WorkerDeliverSingleThread.java:72-90 | what runImpl delivers followed by what stays queued is the hand-over order: an inline tail first, else the queue followed by an accepted tail |
| WorkerDeliver.RunImplThrowsIff | core/src/main/java/com/caucho/v5/amp/queue/WorkerDeliverSingleThread.java:72-90 | a runImpl batch is cut short exactly when some message in the hand-over order throws |
| WorkerDeliver.BracketedCountsHooks | core/src/main/java/com/caucho/v5/amp/queue/WorkerDeliverSingleThread.java:78-90 | in a bracketed batch, beforeBatch occurs only first and afterBatch only last |
| WorkerDeliver.DeliveriesAppend | core/src/main/java/com/caucho/v5/amp/queue/WorkerDeliverSingleThread.java:81-87 | delivering one more message adds exactly one delivery event at the end |
| WorkerDeliver.WorkerDeliverSingleThread.constructor | core/src/main/java/com/caucho/v5/amp/queue/WorkerDeliverSingleThread.java:72-90 | a new worker has an empty queue and an empty event log |
| WorkerDeliver.WorkerDeliverSingleThread.IsEmpty | core/src/main/java/com/caucho/v5/amp/queue/WorkerDeliverSingleThread.java:66-69 | true exactly when the queue is empty |
| WorkerDeliver.WorkerDeliverSingleThread.IsRunOneValid | core/src/main/java/com/caucho/v5/amp/queue/WorkerDeliverSingleThread.java:94-97 | true exactly when the queue is empty, the same as isEmpty |
| WorkerDeliver.WorkerDeliverSingleThread.Offer | core/src/main/java/com/caucho/v5/amp/queue/WorkerDeliverSingleThread.java:81-87 | the queue accepts exactly while below capacity, appending the message at the back |
| WorkerDeliver.WorkerDeliverSingleThread.DeliverOne | core/src/main/java/com/caucho/v5/amp/queue/WorkerDeliverSingleThread.java:83-84 | one delivery event is logged; it fails exactly for a throwing message |
| WorkerDeliver.WorkerDeliverSingleThread.DrainQueue | core/src/main/java/com/caucho/v5/amp/queue/WorkerDeliverSingleThread.java:86 | the queue and the log move as Drain says, and it fails exactly when Drain was cut short |
| WorkerDeliver.WorkerDeliverSingleThread.DeliverInline | core/src/main/java/com/caucho/v5/amp/queue/WorkerDeliverSingleThread.java:81-87 | an inline tail is delivered first; if it throws the queue is untouched, otherwise the queue is drained after it |
| WorkerDeliver.WorkerDeliverSingleThread.RunImpl | core/src/main/java/com/caucho/v5/amp/queue/WorkerDeliverSingleThread.java:72-90 | the batch is RunImplBatch of the old queue, and the new log entries are bracketed by exactly one beforeBatch and one afterBatch, even when delivery throws |
| WorkerDeliver.WorkerDeliverSingleThread.RunOneImpl | core/src/main/java/com/caucho/v5/amp/queue/WorkerDeliverSingleThread.java:100-119 | an empty queue or a rejected offer gives exactly one inline delivery; an accepted offer wakes the worker and delivers nothing inline; either way the batch is bracketed |
| WorkerDeliver.WorkerDeliverSingleThread.Shutdown | core/src/main/java/com/caucho/v5/amp/queue/WorkerDeliverSingleThread.java:147-152 | the deliverer hears the mode before the worker base does |
| WorkerDeliver.WorkerDeliverSingleThread.Close | core/src/main/java/com/caucho/v5/amp/queue/WorkerDeliverSingleThread.java:154-158 | the same as shutdown(IMMEDIATE) |
| Outbox.Outbox.IsEmpty | core/src/main/java/com/caucho/v5/amp/queue/Outbox.java:39-42 | the default answer is true |
| Outbox.Outbox.Offer | core/src/main/java/com/caucho/v5/amp/queue/Outbox.java:47 | the message joins the pending messages |
| Outbox.Outbox.Flush | core/src/main/java/com/caucho/v5/amp/queue/Outbox.java:49 | every pending message is sent, in order, and none remain |
| Outbox.Outbox.FlushAndExecuteLast | core/src/main/java/com/caucho/v5/amp/queue/Outbox.java:51-66 | flushes and answers true, and it answers false exactly when messages remain afterwards |
| Outbox.Outbox.Context | core/src/main/java/com/caucho/v5/amp/queue/Outbox.java:68-71 | the default context is null |
| Outbox.Outbox.GetAndSetContext | core/src/main/java/com/caucho/v5/amp/queue/Outbox.java:73-76 | the default answers null and changes nothing |
| RingBlockerNull.NextOfferSequence | core/src/main/java/com/caucho/v5/amp/queue/RingBlockerNull.java:41-44 | always 0 |
| RingBlockerNull.NextPollSequence | core/src/main/java/com/caucho/v5/amp/queue/RingBlockerNull.java:72-75 | always 0 |
| RingBlockerNull.OfferWait | core/src/main/java/com/caucho/v5/amp/queue/RingBlockerNull.java:47-52 | never waits |
| RingBlockerNull.PollWait | core/src/main/java/com/caucho/v5/amp/queue/RingBlockerNull.java:79-84 | never waits |
| RingBlockerNull.IsPollWait | core/src/main/java/com/caucho/v5/amp/queue/RingBlockerNull.java:87-90 | always false |
| RingBlockerNull.Wake | core/src/main/java/com/caucho/v5/amp/queue/RingBlockerNull.java:60-63 | always true |
| RingBlockerNull.WakeAll | core/src/main/java/com/caucho/v5/amp/queue/RingBlockerNull.java:66-69 | is wake: no effect |
| RingBlockerNull.OfferWake | core/src/main/java/com/caucho/v5/amp/queue/RingBlockerNull.java:54-57 | no effect |
| RingBlockerNull.PollWake | core/src/main/java/com/caucho/v5/amp/queue/RingBlockerNull.java:92-95 | no effect |
| RingBlockerNull.OnActive | core/src/main/java/com/caucho/v5/amp/queue/RingBlockerNull.java:97-100 | no effect |
| RingBlockerNull.OnInit | core/src/main/java/com/caucho/v5/amp/queue/RingBlockerNull.java:102-105 | no effect |
| RingBlockerNull.Shutdown | core/src/main/java/com/caucho/v5/amp/queue/RingBlockerNull.java:107-110 | no effect, whatever the mode |
| RingBlockerNull.NeverWaits | core/src/main/java/com/caucho/v5/amp/queue/RingBlockerNull.java:47-84 | a queue using the null blocker waits in none of any number of offer or poll waits |
| JournalNull.WriteSend | core/src/main/java/com/caucho/v5/amp/journal/JournalNull.java:45-50 | no effect |
| JournalNull.WriteQuery | core/src/main/java/com/caucho/v5/amp/journal/JournalNull.java:52-57 | no effect |
| JournalNull.Inbox | core/src/main/java/com/caucho/v5/amp/journal/JournalNull.java:59-63 | no effect |
| JournalNull.Flush | core/src/main/java/com/caucho/v5/amp/journal/JournalNull.java:65-69 | no effect |
| JournalNull.IsSaveRequest | core/src/main/java/com/caucho/v5/amp/journal/JournalNull.java:71-75 | always false |
| JournalNull.SaveStart | core/src/main/java/com/caucho/v5/amp/journal/JournalNull.java:76-80 | always true |
| JournalNull.SaveEnd | core/src/main/java/com/caucho/v5/amp/journal/JournalNull.java:82-85 | no effect |
| JournalNull.Delay | core/src/main/java/com/caucho/v5/amp/journal/JournalNull.java:104-106 | no effect |
| JournalNull.SequenceReplay | core/src/main/java/com/caucho/v5/amp/journal/JournalNull.java:109-112 | always 0 |
| JournalNull.ReplayStart | core/src/main/java/com/caucho/v5/amp/journal/JournalNull.java:88-93 | the continuation is completed exactly once, with true, and the queue is untouched |
| JournalNull.ReplayAllCompletesTrue | core/src/main/java/com/caucho/v5/amp/journal/JournalNull.java:88-93 | n replays complete the continuation n more times, every time with true, and leave the queue |
| InPipe.InPipeBase.constructor | api/src/main/java/io/baratine/io/InPipeBase.java:41-52 | a new pipe has no in-flow and has forwarded nothing |
| InPipe.InPipeBase.SetInFlow | api/src/main/java/io/baratine/io/InPipeBase.java:42-47 | null is rejected with NullPointer and leaves the flow; any other flow is stored |
| InPipe.InPipeBase.InFlow | api/src/main/java/io/baratine/io/InPipeBase.java:49-52 | the last flow that was set |
| InPipe.InPipeBase.Forward | api/src/main/java/io/baratine/io/InPipeBase.java:60-76 | one call is forwarded to the current in-flow; without one it fails with NullPointer and forwards nothing |
| InPipe.InPipeBase.Credit | api/src/main/java/io/baratine/io/InPipeBase.java:60-64 | exactly credit(n) is forwarded to the current in-flow |
| InPipe.InPipeBase.Pause | api/src/main/java/io/baratine/io/InPipeBase.java:66-70 | exactly one pause is forwarded to the current in-flow |
| InPipe.InPipeBase.Resume | api/src/main/java/io/baratine/io/InPipeBase.java:72-76 | exactly one resume is forwarded to the current in-flow |
| InPipe.InPipeBase.Handle | api/src/main/java/io/baratine/io/InPipeBase.java:54-58 | the pipe's handler receives (value, exn, ok) |
| InPipe.InPipeBase.Fail | api/src/main/java/io/baratine/io/InPipeBase.java:54-58 | fail(exn) is handle(null, exn, false) |
| InPipe.CreditsToAppend | api/src/main/java/io/baratine/io/InPipeBase.java:60-64 | the credits forwarded to a flow add up over consecutive runs of calls |
| ResultStreamGateway.ResultStreamGateway.constructor | core/src/main/java/com/caucho/v5/amp/remote/ResultStreamGateway.java:55-64 | a new gateway has no message, sequence 0, and is not cancelled |
| ResultStreamGateway.ResultStreamGateway.Accept | core/src/main/java/com/caucho/v5/amp/remote/ResultStreamGateway.java:72-86 | the value goes into the current message when it takes it; otherwise a new message numbered by the incremented sequence is created, offered once with timeout 0, and holds the value |
| ResultStreamGateway.ResultStreamGateway.Ok | core/src/main/java/com/caucho/v5/amp/remote/ResultStreamGateway.java:88-103 | the stream completes with the current sequence, in the current message or a new one, and the gateway is cancelled |
| ResultStreamGateway.ResultStreamGateway.Fail | core/src/main/java/com/caucho/v5/amp/remote/ResultStreamGateway.java:105-120 | the stream fails with the exception, in the current message or a new one, and the gateway is cancelled |
| ResultStreamGateway.ResultStreamGateway.Handle | core/src/main/java/com/caucho/v5/amp/remote/ResultStreamGateway.java:122-134 | ok set means ok(); otherwise a non-null exception means fail(exn); otherwise accept(value); under each guard the messages, the sequence, the cancel flag and the streamCancel calls are exactly those of the method called |
| ResultStreamGateway.ResultStreamGateway.IsCancelled | core/src/main/java/com/caucho/v5/amp/remote/ResultStreamGateway.java:136-140 | the cancel flag |
| ResultStreamGateway.ResultStreamGateway.Cancel | core/src/main/java/com/caucho/v5/amp/remote/ResultStreamGateway.java:142-149 | the flag is set, and streamCancel(qid) is called only by the first cancel |
| IoUtil.WriteInt | core/src/main/java/com/caucho/v5/io/IoUtil.java:76-83 | exactly 4 bytes, most significant first |
| IoUtil.WriteLong | core/src/main/java/com/caucho/v5/io/IoUtil.java:98-109 | exactly 8 bytes, most significant first |
| IoUtil.ReadInt | core/src/main/java/com/caucho/v5/io/IoUtil.java:67-74 | an int built from four reads, consuming four bytes |
| IoUtil.ReadLong | core/src/main/java/com/caucho/v5/io/IoUtil.java:85-96 | a long built from eight reads, consuming eight bytes |
| IoUtil.ReadWriteInt | core/src/main/java/com/caucho/v5/io/IoUtil.java:67-83 | readInt of what writeInt(v) wrote is v, and the rest of the stream is left |
| IoUtil.ReadWriteLong | core/src/main/java/com/caucho/v5/io/IoUtil.java:85-109 | readLong of what writeLong(v) wrote is v, and the rest of the stream is left |
| IoUtil.LineEnd | core/src/main/java/com/caucho/v5/io/IoUtil.java:54-65 | the position of the first '\n', or the end of the data |
| IoUtil.LineEndOfLine | core/src/main/java/com/caucho/v5/io/IoUtil.java:54-65 | a line followed by '\n' ends where the line ends |
| IoUtil.Readln | core/src/main/java/com/caucho/v5/io/IoUtil.java:54-65 | the characters before the first '\n' or the end of the stream; the newline is consumed but not returned |
| IoUtil.ReadAll | core/src/main/java/com/caucho/v5/io/IoUtil.java:183-202 | at most length bytes, stopping at the first non-positive read, placed contiguously from offset; the rest of the buffer is unchanged |
| IoUtil.Copy | core/src/main/java/com/caucho/v5/io/IoUtil.java:111-129 | writes the input in order until a read returns ≤ 0, and answers the total written |
| IoUtil.CopyLength | core/src/main/java/com/caucho/v5/io/IoUtil.java:131-150 | stops reading once the total reaches len, and the last read is not capped, so the total may pass len by less than one read |
| TempCharStream.CharOf | framework/src/main/java/com/caucho/v5/vfs/TempCharStream.java:171-184 | the char of an int is its value modulo 65536 |
| TempCharStream.CharsOfBytesAt | framework/src/main/java/com/caucho/v5/vfs/TempCharStream.java:124-142 | a byte cast to char keeps a non-negative value and sign-extends a negative one |
| TempCharStream.CharsOfBytesAppend | framework/src/main/java/com/caucho/v5/vfs/TempCharStream.java:124-142 | converting two byte runs is converting each in turn |
| TempCharStream.CharsOfBytesSplit | framework/src/main/java/com/caucho/v5/vfs/TempCharStream.java:124-142 | converting a run of bytes is converting its two adjacent halves in turn |
| TempCharStream.FlattenLength | framework/src/main/java/com/caucho/v5/vfs/TempCharStream.java:214-223 | the stream's content is as long as the sum of its chunk lengths |
| TempCharStream.TempCharStream.constructor | framework/src/main/java/com/caucho/v5/vfs/TempCharStream.java:40-42 | a new stream is empty |
| TempCharStream.TempCharStream.OpenWrite | framework/src/main/java/com/caucho/v5/vfs/TempCharStream.java:47-55 | the stream is empty, with no head and no tail |
| TempCharStream.TempCharStream.ClearWrite | framework/src/main/java/com/caucho/v5/vfs/TempCharStream.java:225-233 | the stream is empty, with no head and no tail |
| TempCharStream.TempCharStream.Discard | framework/src/main/java/com/caucho/v5/vfs/TempCharStream.java:235-239 | the stream is empty, with no head and no tail |
| TempCharStream.TempCharStream.Destroy | framework/src/main/java/com/caucho/v5/vfs/TempCharStream.java:244-257 | the stream is empty, with no head and no tail |
| TempCharStream.TempCharStream.CanWrite | framework/src/main/java/com/caucho/v5/vfs/TempCharStream.java:94-97 | always true |
| TempCharStream.TempCharStream.EnsureTail | framework/src/main/java/com/caucho/v5/vfs/TempCharStream.java:186-198 | a chunk is added only when there is no tail or the tail is full; afterwards the tail has room and the content is unchanged |
| TempCharStream.TempCharStream.AppendToTail | framework/src/main/java/com/caucho/v5/vfs/TempCharStream.java:111-117 | the copied chars are appended to the content, within the tail's capacity |
| TempCharStream.TempCharStream.Fill | framework/src/main/java/com/caucho/v5/vfs/TempCharStream.java:104-119 | one pass of a write loop appends a non-empty prefix of what is left, adding chunks only at the end |
| TempCharStream.TempCharStream.WriteChar | framework/src/main/java/com/caucho/v5/vfs/TempCharStream.java:171-184 | write(int) appends exactly one char |
| TempCharStream.TempCharStream.WriteChars | framework/src/main/java/com/caucho/v5/vfs/TempCharStream.java:99-121 | appends exactly buf[off..off+len) and leaves buf unchanged |
| TempCharStream.TempCharStream.WriteString | framework/src/main/java/com/caucho/v5/vfs/TempCharStream.java:147-169 | appends exactly s[off..off+len) |
| TempCharStream.TempCharStream.Stage | framework/src/main/java/com/caucho/v5/vfs/TempCharStream.java:130-134 | the staging buffer holds the bytes cast to char |
| TempCharStream.TempCharStream.WriteStaged | framework/src/main/java/com/caucho/v5/vfs/TempCharStream.java:130-138 | appends one staged run of bytes cast to char |
| TempCharStream.TempCharStream.WriteBytes | framework/src/main/java/com/caucho/v5/vfs/TempCharStream.java:124-142 | appends each byte cast to char, in order |
| TempCharStream.TempCharStream.GetLength | framework/src/main/java/com/caucho/v5/vfs/TempCharStream.java:214-223 | the sum of the chunk lengths, which is the length of the content |
| TempCharStream.TempCharStream.ReadString | framework/src/main/java/com/caucho/v5/vfs/TempCharStream.java:73-89 | the concatenation of all chunks, leaving the stream empty |
| TempCharStream.WriteThenRead | framework/src/main/java/com/caucho/v5/vfs/TempCharStream.java:73-169 | reading back two writes gives their concatenation, and its length |
| EventScheme.PodStart | framework/src/main/java/com/caucho/v5/ramp/events/EventSchemeImpl.java:205-211 | the position just after the first "://", or -1 when there is none |
| EventScheme.CutAtSlashUnique | framework/src/main/java/com/caucho/v5/ramp/events/EventSchemeImpl.java:211-218 | the pod name that a tail determines is unique |
| EventScheme.PodName | framework/src/main/java/com/caucho/v5/ramp/events/EventSchemeImpl.java:203-219 | "" without "://"; otherwise the text up to the next '/', or the whole remainder without one |
| EventScheme.SubPath | framework/src/main/java/com/caucho/v5/ramp/events/EventSchemeImpl.java:190-201 | the whole address without "://"; otherwise it fails with StringIndexOutOfBounds exactly when no '/' follows "://", and else answers a suffix starting with '/' |
| EventScheme.PodNameThenSubPath | framework/src/main/java/com/caucho/v5/ramp/events/EventSchemeImpl.java:190-219 | the pod name followed by the sub-path is the part of the address after "://" |
| EventScheme.KindFor | framework/src/main/java/com/caucho/v5/ramp/events/EventSchemeImpl.java:135-144 | a plain node for an empty pod name, a server node for a local pod, a client node otherwise |
| EventScheme.EventSchemeImpl.constructor | framework/src/main/java/com/caucho/v5/ramp/events/EventSchemeImpl.java:65-72 | the scheme has the given address and no nodes |
| EventScheme.EventSchemeImpl.Create | framework/src/main/java/com/caucho/v5/ramp/events/EventSchemeImpl.java:65-72 | a missing (null) address throws NullPointerException, and only then; otherwise a new scheme with that address and no nodes |
| EventScheme.EventSchemeImpl.Default | framework/src/main/java/com/caucho/v5/ramp/events/EventSchemeImpl.java:56-63 | the default scheme address is "event:" |
| EventScheme.EventSchemeImpl.Name | framework/src/main/java/com/caucho/v5/ramp/events/EventSchemeImpl.java:98-101 | the scheme's address |
| EventScheme.EventSchemeImpl.LookupPubSubNode | framework/src/main/java/com/caucho/v5/ramp/events/EventSchemeImpl.java:122-150 | an existing node is returned; a new one of KindFor's kind is added; no entry is ever replaced; an address without a sub-path fails and changes nothing |
| EventScheme.EventSchemeImpl.OnLookup | framework/src/main/java/com/caucho/v5/ramp/events/EventSchemeImpl.java:103-109 | for the key scheme address + path: an address without a sub-path fails with StringIndexOutOfBounds and changes nothing; an existing node is returned unchanged; otherwise a new node of KindFor's kind is recorded under the key and returned; every other entry is kept |
| EventScheme.EventSchemeImpl.LookupPath | framework/src/main/java/com/caucho/v5/ramp/events/EventSchemeImpl.java:111-114 | the same lookup as lookupPubSubNode, for the full address given: failure without a sub-path, the existing node, or a new node of KindFor's kind; no entry is replaced |
| EventScheme.LookupIsMemoised | framework/src/main/java/com/caucho/v5/ramp/events/EventSchemeImpl.java:133-149 | two lookups of one address return the same node |
| WebStaticFile.ConfigGet | web/src/main/java/com/caucho/v5/web/webapp/WebStaticFile.java:66 | a configured value, or the default |
| WebStaticFile.RootPath | web/src/main/java/com/caucho/v5/web/webapp/WebStaticFile.java:66 | "server.file", defaulting to "classpath:/public" |
| WebStaticFile.IndexPath | web/src/main/java/com/caucho/v5/web/webapp/WebStaticFile.java:84-86 | "" and "/" become "/" followed by the configured index, "index.html" by default; other paths are kept |
| WebStaticFile.IndexPathIdempotent | web/src/main/java/com/caucho/v5/web/webapp/WebStaticFile.java:84-86 | defaulting the index path twice is defaulting it once |
| WebStaticFile.SwitchType | web/src/main/java/com/caucho/v5/web/webapp/WebStaticFile.java:147-171 | text/plain exactly for an extension the switch does not list |
| WebStaticFile.MimeType | web/src/main/java/com/caucho/v5/web/webapp/WebStaticFile.java:135-172 | text/plain exactly when the path has no '.' or the text from its last '.' is not a listed extension |
| WebStaticFile.MimeTypeOfExtension | web/src/main/java/com/caucho/v5/web/webapp/WebStaticFile.java:145-171 | the type is chosen by the text from the last '.', with any unknown extension giving text/plain |
| WebStaticFile.CharsetOnlyOnText | web/src/main/java/com/caucho/v5/web/webapp/WebStaticFile.java:145-167 | exactly .html, .css and .js carry "; charset=utf-8" |
| WebStaticFile.UpperCaseExtensionIsPlain | web/src/main/java/com/caucho/v5/web/webapp/WebStaticFile.java:147-171 | ".HTML" is matched case-sensitively and gives text/plain |
| RequestBaratine.ToCloseRead | web/src/main/java/com/caucho/v5/web/webapp/RequestBaratineImpl.java:1248-1282 | CLOSE_WRITE and CLOSE go to CLOSE, and every other state to CLOSE_READ |
| RequestBaratine.ToCloseWrite | web/src/main/java/com/caucho/v5/web/webapp/RequestBaratineImpl.java:1243-1287 | CLOSE_READ and CLOSE go to CLOSE, and every other state to CLOSE_WRITE |
| RequestBaratine.BothSidesClose | web/src/main/java/com/caucho/v5/web/webapp/RequestBaratineImpl.java:1211-1295 | closing read and write in either order reaches CLOSE |
| RequestBaratine.CloseIsIdempotent | web/src/main/java/com/caucho/v5/web/webapp/RequestBaratineImpl.java:1243-1287 | closing one side twice is closing it once, and CLOSE is absorbing |
| RequestBaratine.Service | web/src/main/java/com/caucho/v5/web/webapp/RequestBaratineImpl.java:969-1040 | the connection state each request state answers: ACCEPT is not served; a closing request answers CLOSE_READ_A; an incomplete body answers READ; a served request answers by keepalive |
| RequestBaratine.FirstCookie | web/src/main/java/com/caucho/v5/web/webapp/RequestBaratineImpl.java:195-205 | the value of the first cookie with that name, or none when no cookie has it |
| RequestBaratine.UpToSlash | web/src/main/java/com/caucho/v5/web/webapp/RequestBaratineImpl.java:226-243 | the longest prefix without '/' |
| RequestBaratine.UpToSlashOf | web/src/main/java/com/caucho/v5/web/webapp/RequestBaratineImpl.java:226-243 | the text before the first '/' of name + "/" + rest is the name |
| RequestBaratine.SessionNameRoundTrip | web/src/main/java/com/caucho/v5/web/webapp/RequestBaratineImpl.java:226-243 | the session name can be read back from the session address built from it |
| RequestBaratine.RequestBaratineImpl.constructor | web/src/main/java/com/caucho/v5/web/webapp/RequestBaratineImpl.java:115-119 | a new request is in ACCEPT with no body chunks |
| RequestBaratine.RequestBaratineImpl.OnCloseRead | web/src/main/java/com/caucho/v5/web/webapp/RequestBaratineImpl.java:905-919 | the state is toCloseRead of the old one; CLOSE_READ_S is answered exactly when the new state is CLOSE_READ, and CLOSE otherwise |
| RequestBaratine.RequestBaratineImpl.OnCloseWrite | web/src/main/java/com/caucho/v5/web/webapp/RequestBaratineImpl.java:922-955 | the state is toCloseWrite of the old one; the connection's write side is closed; a wake is requested exactly when the old state was CLOSE_READ |
| RequestBaratine.RequestBaratineImpl.BodyChunk | web/src/main/java/com/caucho/v5/web/webapp/RequestBaratineImpl.java:1047-1056 | the chunk is appended, in arrival order |
| RequestBaratine.RequestBaratineImpl.InputStream | web/src/main/java/com/caucho/v5/web/webapp/RequestBaratineImpl.java:515-525 | an incomplete body fails with IllegalState; a complete one hands over all chunks and empties the list |
| RequestBaratine.RequestBaratineImpl.Body | web/src/main/java/com/caucho/v5/web/webapp/RequestBaratineImpl.java:484-497 | an already-read body is returned again; an incomplete body fails with IllegalState; otherwise the body is resolved and kept |
| RequestBaratine.RequestBaratineImpl.BodyAsync | web/src/main/java/com/caucho/v5/web/webapp/RequestBaratineImpl.java:500-512 | a complete body is delivered at once; otherwise the waiter is recorded for later |
| RequestBaratine.RequestBaratineImpl.BodyComplete | web/src/main/java/com/caucho/v5/web/webapp/RequestBaratineImpl.java:1059-1068 | the body is marked complete, and a waiting reader, if any, gets the body |
| RequestBaratine.RequestBaratineImpl.SetResponseCookie | web/src/main/java/com/caucho/v5/web/webapp/RequestBaratineImpl.java:870-884 | exactly one cookie is appended to the response cookies, http-only with path "/"; no other field changes |
| RequestBaratine.RequestBaratineImpl.SessionId | web/src/main/java/com/caucho/v5/web/webapp/RequestBaratineImpl.java:259-265 | the session cookie's value when there is one; otherwise a generated id, which is also set as the session cookie |
| RequestBaratine.RequestBaratineImpl.Session | web/src/main/java/com/caucho/v5/web/webapp/RequestBaratineImpl.java:226-243 | a name containing '/' is rejected with IllegalArgument and sets no cookie; otherwise the answer is "session:///" + name + "/" + the cookie's id, setting nothing, or + the generated id, which is set as the JSESSIONID cookie; no other field changes |
| RequestBaratine.RequestBaratineImpl.SessionImpl | web/src/main/java/com/caucho/v5/web/webapp/RequestBaratineImpl.java:253-268 | an address that does not start with "session:" and end with "/" is rejected and sets no cookie; otherwise the answer is the address + the cookie's id, setting nothing, or the address + the generated id, which is set as the JSESSIONID cookie; no other field changes |
| RequestBaratine.RequestBaratineImpl.SessionOfType | web/src/main/java/com/caucho/v5/web/webapp/RequestBaratineImpl.java:246-251 | fails with IllegalArgument, setting no cookie, exactly when the type's address is not a session address; otherwise answers address + "/" + the cookie's id, or + the generated id, which is then set as the JSESSIONID cookie |
| RequestBaratine.RequestBaratineImpl.LookupCookie | web/src/main/java/com/caucho/v5/web/webapp/RequestBaratineImpl.java:195-205 | the loop finds the first cookie with that name |
| Invocation.HttpStatus.Code | web/src/main/java/com/caucho/v5/web/webapp/InvocationBaratine.java:168-174 | METHOD_NOT_ALLOWED is 405, NOT_FOUND is 404 |
| Invocation.FirstHandler | web/src/main/java/com/caucho/v5/web/webapp/InvocationBaratine.java:162-166 | the first route that serves the request, or none when no route does |
| Invocation.InvocationBaratine.constructor | web/src/main/java/com/caucho/v5/web/webapp/InvocationBaratine.java:55-61 | no path, path info "" and no routes |
| Invocation.InvocationBaratine.Path | web/src/main/java/com/caucho/v5/web/webapp/InvocationBaratine.java:67-77 | the path that was set, or else the URI |
| Invocation.InvocationBaratine.SetPath | web/src/main/java/com/caucho/v5/web/webapp/InvocationBaratine.java:79-84 | null is rejected with NullPointer and leaves the path; any other path is stored; no other field changes |
| Invocation.InvocationBaratine.SetPathInfo | web/src/main/java/com/caucho/v5/web/webapp/InvocationBaratine.java:91-96 | null is rejected with NullPointer; any other value is stored; no other field changes |
| Invocation.InvocationBaratine.SetParams | web/src/main/java/com/caucho/v5/web/webapp/InvocationBaratine.java:103-108 | null is rejected with NullPointer; any other value is stored; no other field changes |
| Invocation.InvocationBaratine.SetQueryMap | web/src/main/java/com/caucho/v5/web/webapp/InvocationBaratine.java:115-120 | null is rejected with NullPointer; any other value is stored; no other field changes |
| Invocation.InvocationBaratine.SetRoutes | web/src/main/java/com/caucho/v5/web/webapp/InvocationBaratine.java:122-127 | null is rejected with NullPointer; any other value is stored; no other field changes |
| Invocation.InvocationBaratine.SetWebApp | web/src/main/java/com/caucho/v5/web/webapp/InvocationBaratine.java:129-134 | null is rejected with NullPointer; any other value is stored; no other field changes |
| Invocation.InvocationBaratine.Service | web/src/main/java/com/caucho/v5/web/webapp/InvocationBaratine.java:147-180 | routes are tried in order up to the first that serves the request, and later ones are not called; with none, it halts with 405 when there are routes and 404 when there are none; it always answers CLOSE |
| CommandManager.OptionCli.constructor | web/src/main/java/com/caucho/v5/cli/args/CommandManager.java:108-119 | the option's name, flag and type as given, without a parser yet |
| CommandManager.LongKey | web/src/main/java/com/caucho/v5/cli/args/CommandManager.java:108-119 | a name starting with "-" as it is, and any other name behind "--" |
| CommandManager.LongKeyIdempotent | web/src/main/java/com/caucho/v5/cli/args/CommandManager.java:108-119 | normalising a key twice is normalising it once |
| CommandManager.RegisteredType | web/src/main/java/com/caucho/v5/cli/args/CommandManager.java:137-139 | DEFAULT becomes GENERAL, and other types are unchanged |
| CommandManager.CommandManager.constructor | web/src/main/java/com/caucho/v5/cli/args/CommandManager.java:45-46 | no options and no commands |
| CommandManager.CommandManager.IsOption | web/src/main/java/com/caucho/v5/cli/args/CommandManager.java:48-57 | true exactly when the name is registered |
| CommandManager.CommandManager.IsFlag | web/src/main/java/com/caucho/v5/cli/args/CommandManager.java:59-68 | false for an unregistered name, else the option's flag |
| CommandManager.CommandManager.GetOption | web/src/main/java/com/caucho/v5/cli/args/CommandManager.java:103-106 | the option registered under the name, if any |
| CommandManager.CommandManager.AddOption | web/src/main/java/com/caucho/v5/cli/args/CommandManager.java:129-142 | the option replaces any under the name, with the name's first insertion position kept; it gets a parser; DEFAULT becomes GENERAL |
| CommandManager.CommandManager.RegisterOption | web/src/main/java/com/caucho/v5/cli/args/CommandManager.java:108-119 | registers under the name, behind "--" unless it already starts with "-"; a new key joins the insertion order and an existing one keeps its place; the parser is attached, DEFAULT becomes GENERAL, and the commands are kept |
| CommandManager.CommandManager.AddTinyOption | web/src/main/java/com/caucho/v5/cli/args/CommandManager.java:121-127 | registers under "-" + name, replacing an existing option there; a new name is appended to the insertion order and an existing one keeps its place; the parser is attached, DEFAULT becomes GENERAL, and the commands are kept |
| CommandManager.CommandManager.FillOptions | web/src/main/java/com/caucho/v5/cli/args/CommandManager.java:70-76 | appends the registered options in first-insertion order |
| CommandManager.CommandManager.GetCommand | web/src/main/java/com/caucho/v5/cli/args/CommandManager.java:83-86 | the command registered under the name, if any |
| CommandManager.CommandManager.Command | web/src/main/java/com/caucho/v5/cli/args/CommandManager.java:96-101 | afterwards getCommand(name) answers the command |
| CommandManager.CommandManager.CommandNamed | web/src/main/java/com/caucho/v5/cli/args/CommandManager.java:88-94 | registers the command under its own name and answers it |
| PortTcpBuilder.AtomicLong.constructor | web/src/main/java/com/caucho/v5/network/port/PortTcpBuilder.java:74-82 | a new counter is 0 |
| PortTcpBuilder.BindAddress | web/src/main/java/com/caucho/v5/network/port/PortTcpBuilder.java:117-125 | null, "*" and "" mean every interface (none); any other address is kept |
| PortTcpBuilder.PortKey | web/src/main/java/com/caucho/v5/network/port/PortTcpBuilder.java:127-130 | the port name followed by ".port" |
| PortTcpBuilder.PortTcpBuilder.constructor | web/src/main/java/com/caucho/v5/network/port/PortTcpBuilder.java:46-67 | port name "server", default port -1, and nothing else set |
| PortTcpBuilder.PortTcpBuilder.Address | web/src/main/java/com/caucho/v5/network/port/PortTcpBuilder.java:117-125 | the address to bind, never "*" or "" |
| PortTcpBuilder.PortTcpBuilder.SetAddress | web/src/main/java/com/caucho/v5/network/port/PortTcpBuilder.java:173-176 | the address is stored as given; no other field changes |
| PortTcpBuilder.PortTcpBuilder.Port | web/src/main/java/com/caucho/v5/network/port/PortTcpBuilder.java:127-130 | the configured "<portName>.port", or the default port |
| PortTcpBuilder.PortTcpBuilder.SetPortName | web/src/main/java/com/caucho/v5/network/port/PortTcpBuilder.java:89-96 | null is rejected with NullPointer and the name kept; otherwise the name is stored and the builder answered; no other field changes |
| PortTcpBuilder.PortTcpBuilder.SetPortDefault | web/src/main/java/com/caucho/v5/network/port/PortTcpBuilder.java:98-103 | the default port is stored and the builder answered; no other field changes |
| PortTcpBuilder.PortTcpBuilder.SetProtocol | web/src/main/java/com/caucho/v5/network/port/PortTcpBuilder.java:105-110 | null is rejected with NullPointer and the protocol kept; otherwise the protocol is stored; no other field changes |
| PortTcpBuilder.PortTcpBuilder.SetAmpManager | web/src/main/java/com/caucho/v5/network/port/PortTcpBuilder.java:69-72 | the manager is stored as given; no other field changes |
| PortTcpBuilder.PortTcpBuilder.AmpManager | web/src/main/java/com/caucho/v5/network/port/PortTcpBuilder.java:184-189 | the manager, failing with NullPointer when none is set |
| PortTcpBuilder.PortTcpBuilder.GetConnectionSequence | web/src/main/java/com/caucho/v5/network/port/PortTcpBuilder.java:74-82 | the builder's counter, or a fresh counter at 0 when it has none |
| PortTcpBuilder.DefaultPort | web/src/main/java/com/caucho/v5/network/port/PortTcpBuilder.java:46-130 | a fresh builder listens on every interface, on the configured "server.port" or else -1 |
| Priorities.Compare | core/src/main/java/com/caucho/v5/config/Priorities.java:13-37 | annotated before unannotated (-1, or 1 swapped); two unannotated classes by name; two annotated by the 32-bit difference of their priorities, then by name |
| Priorities.CompareObjects | core/src/main/java/com/caucho/v5/config/Priorities.java:8-11 | objects compare as their classes do |
| Priorities.CompareReflexive | core/src/main/java/com/caucho/v5/config/Priorities.java:13-37 | compare(a, a) is 0 |
| Priorities.CompareAntisymmetric | core/src/main/java/com/caucho/v5/config/Priorities.java:13-37 | swapping the arguments negates the sign, when the priority difference does not overflow |
| Priorities.CompareZero | core/src/main/java/com/caucho/v5/config/Priorities.java:13-37 | classes that compare as 0 have the same priority and name |
| Priorities.OverflowBreaksAntisymmetry | core/src/main/java/com/caucho/v5/config/Priorities.java:30-36 | with priorities Integer.MIN_VALUE and 0, both orders answer a negative number |
| Priorities.ComparePriorities | core/src/main/java/com/caucho/v5/config/Priorities.java:30-36 | the sign of the priority difference, computed without overflow |
| Priorities.CompareCorrected | core/src/main/java/com/caucho/v5/config/Priorities.java:13-37 | the order of compare, with the priorities compared without overflow |
| Priorities.CompareCorrectedAntisymmetric | core/src/main/java/com/caucho/v5/config/Priorities.java:13-37 | the corrected order is antisymmetric for all priorities |
| Priorities.CompareCorrectedAgrees | core/src/main/java/com/caucho/v5/config/Priorities.java:13-37 | the corrected order agrees in sign with compare whenever compare does not overflow |
| StringCli.TypeOrdinal | framework/src/main/java/com/caucho/v5/cli/shell_old/StringCli.java:44-48 | a string value's type is STRING |
| StringCli.StringValueOf | framework/src/main/java/com/caucho/v5/cli/shell_old/StringCli.java:50-60 | javaValue() and stringValue() are the wrapped string |
| StringCli.Equals | framework/src/main/java/com/caucho/v5/cli/shell_old/StringCli.java:68-78 | true exactly for a string value holding an equal string; any other object, value or not, is unequal |
| StringCli.HashCodeOf | framework/src/main/java/com/caucho/v5/cli/shell_old/StringCli.java:62-66 | the string's hash, a Java int |
| StringCli.EqualsHashCode | framework/src/main/java/com/caucho/v5/cli/shell_old/StringCli.java:62-78 | equal values have equal hash codes |
| StringCli.CompareTo | framework/src/main/java/com/caucho/v5/cli/shell_old/StringCli.java:80-98 | -1 for an object that is not a value; the sign of the type-ordinal difference when the types differ; a failed cast for another value of the same type; else the string comparison |
| StringCli.CompareToConsistentWithEquals | framework/src/main/java/com/caucho/v5/cli/shell_old/StringCli.java:68-98 | between two strings compareTo is 0 exactly when equals holds, and swapping them negates it |

## Left out

- Real concurrency is left out: atomicity across threads, `LockSupport.park`/`unpark`, `parkUntil` timing, thread names and context class loaders. Each compare-and-swap is one atomic step, and other threads' calls are a script passed to the method.
- Time is the parameter `now`; `Thread.sleep` in the throttle is counted (`sleeps`), not performed.
- Logging, `printStackTrace`, the `DOUBLE_THREAD` print and `toString` are not behaviour the model keeps.
- Getters that only read a field (`getThreadMax`, `getIdleCount`, `getState`, `getCreateCountTotal` and the like) are read as fields.
- WorkerAmp.WorkerAmpBase.RunLoop: the script of interference points is finite, so a loop that would run forever is cut off when the script runs out. The result says so (`exhausted`), and that case is treated like `runTask` throwing.
- WorkerDeliver.WorkerDeliverSingleThread.RunImpl: the queue (`QueueDeliver`) is not part of this model. It is a bounded FIFO whose `deliver` hands over messages front to back until one throws; which messages throw is a parameter.
- ThreadLauncher.ThreadLauncherBase.DoStart: the bound proved is threadMax + 1, not threadMax. The code compares the starting count read before its own increment, so one reservation over the bound can succeed.
- ThreadLauncher.ThreadLauncherBase.StartConnection: the clock is read once per call, not once per start, so every start in one call re-arms the expiry to the same time and passes the throttle on the same clock.
- ThreadLauncher.ThreadLauncherBase: the Java `int` counters (`threadCount`, `gId`, `createCountTotal`) and the `long` expiry are unbounded integers in the model; wrap-around after 2^31 - 1 starts is not captured.
- ResultStreamGateway.ResultStreamGateway.Accept: whether the current message takes a value is the parameter `taken`. Building and offering a message through the outbox is a record of the messages, each offered once with timeout 0.
- IoUtil.Copy: the `long` total is not wrapped at 64 bits, because a model stream is a finite sequence.
- IoUtil.InputStream: a model stream always hands out as many bytes as it can, up to its chunk size, the requested length and the bytes left (`Take`). A Java stream may hand out fewer; the callers' loops are proved for this stream only.
- IoUtil.walk, IoUtil.removeAll and the close helpers are left out: they are filesystem calls and exception swallowing.
- TempCharStream.TempCharStream.GetLength: Java's `int` total may overflow past 2^31 - 1; the model's length is unbounded.
- The chunk list of `TempCharStream` is a sequence of arrays, not a linked list. The buffer size of `TempCharBuffer` is the constructor's parameter `chunkSize`. Buffer pooling (`freeAll`, `_bufferCount`) and the head/tail accessors are not modelled.
- TempCharStream.TempCharStream.WriteChars: callers must pass an offset and length inside the source, even for a length of zero or less. Java throws IndexOutOfBoundsException for a bad range, possibly after copying part of it; that error path is not modelled.
- TempCharStream.TempCharStream.WriteString: callers must pass an offset and length inside the source, even for a length of zero or less. Java throws IndexOutOfBoundsException for a bad range, possibly after copying part of it; that error path is not modelled.
- TempCharStream.TempCharStream.WriteBytes: callers must pass an offset and length inside the source, even for a length of zero or less. Java throws IndexOutOfBoundsException for a bad range, possibly after copying part of it; that error path is not modelled.
- TempCharStream.TempCharStream.WriteChars: the source array must not be one of the stream's own chunks; Java would allow that aliasing.
- java.lang `String.compareTo` and `hashCode` work on UTF-16 code units. Dafny's `char` is a Unicode scalar value, so strings with characters outside the Basic Multilingual Plane compare differently.
- EventScheme: `init`, `destroy`, `subscribeImpl`, `subscribeRemote` and server updates are left out, because they depend on the service manager and pod servers, which are not part of this model. Whether a pod is local is the parameter `PodView`.
- WebStaticFile: the file reading and writing in `handle` is left out (filesystem I/O); its index-path defaulting and the root configuration are modelled.
- RequestBaratine: HTTP output, writers, view rendering, the WebSocket upgrade, attributes and proxying are left out; `RequestBaratine.Service` keeps only the connection state each request state answers. The random session id is the parameter `generated`.
- RequestBaratine.RequestBaratineImpl.Body: the requested type is a non-null value in the model, so the NullPointerException that `Objects.requireNonNull(type)` throws in `body(type)` and `body(type, result)` (RequestBaratineImpl.java:486, 503) for a null type is not modelled.
- RequestBaratine.RequestBaratineImpl.Body: reading the body into a type goes through body resolvers that are not part of this model; the resolved value is the parameter `resolved`.
- Invocation.InvocationBaratine.Service: each route's answer is the parameter `handles`, and the context class loader switch is left out.
- CommandManager: option parsers are recorded by a flag (`hasParser`), not built. The parser that `command(name, command)` attaches to a command (CommandManager.java:100) is not modelled either: a command is a plain value.
- PortTcpBuilder.PortTcpBuilder.constructor: the configuration is a map value, never null, so the NullPointerException of `Objects.requireNonNull(env)` (PortTcpBuilder.java:64) is not modelled.
- PortTcpBuilder: the configuration is a map from keys to ints; the remaining builder getters and the SSL, protocol and server wiring are left out.
- StringCli: the other value's `TypeCli` is given by its ordinal, and `STRING`'s ordinal is a parameter.

## Findings

| source | as written | input that shows it | evidently intended | confidence | as-written member | corrected member |
|---|---|---|---|---|---|---|
| core/src/main/java/com/caucho/v5/config/Priorities.java:30-33 | two annotated classes compare by the int difference `pa - pb`, which can overflow | priorities Integer.MIN_VALUE and 0: both compare(a, b) and compare(b, a) are negative | compare the priorities without subtracting (`Integer.compare`), so the order is antisymmetric | not executed | Priorities.OverflowBreaksAntisymmetry | Priorities.CompareCorrectedAntisymmetric |
