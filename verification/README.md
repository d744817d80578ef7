# Verified model of the proxy runtime

The module runs a light-client proxy library on one thread and lets any number of other threads call
it. This project models that runtime, the descriptor arithmetic it admits calls by, its
configuration and its JSON-RPC handler, and proves what they promise over every run, every input and
every interleaving.

## How it is laid out

- **The admission gate.** `Admission.dfy` is the state under `m_admissionMu` with one transition per
  critical section, for any number of callers, heartbeats, releases, restarts and shutdowns, and an
  invariant kept by every run. `AdmissionTheorems.dfy` states what follows; `FifoSemaphore.dfy` is the
  plain semaphore it refines. `WaitLoop.dfy` is one caller's whole wait with the others in between.
- **The whole runtime.** `Runtime.dfy` is a step relation over lock-sized steps: callers, start() and
  stop(), the proxy thread, and a library whose completions arrive in any order, never, or inside the
  issuing call; the clock and the descriptor snapshot are arbitrary. `Slots.dfy` and `SyncHealth.dfy`
  hold the functions its steps are made of, `Runs.dfy` the two languages its logs must belong to, and
  the other `Runtime*.dfy` files the invariants, conjunct by conjunct and thread by thread.
  `RuntimePromises.dfy`, `RuntimeTheorems.dfy`, `RuntimeCommitted.dfy`, `RuntimeCeiling.dfy` and
  `RuntimeRestarts.dfy` state the results, `RuntimeGaps.dfy` has the runs that break what holds only conditionally.
- **The objects.** `AdmissionGate.dfy`, `CallTable.dfy`, `RunHealth.dfy`, `ProxyRuntime.dfy` and
  `PumpHistogram.dfy` are the runtime's fields and methods in their imperative form, the fields
  grouped by the lock or thread that owns them. Every method is proved against the functions of the
  step relation, the record of the run keeps its state equal to its history, and `Simulation.dfy`
  proves that an object showing a state of the step relation shows, after a method, the state that a
  named sequence of its steps leads to.
- **The parked thread.** `ParkHandshake.dfy` is `m_startMu` and `m_startCv` at the grain of single
  lock, test, sleep, write and notify actions.
- **Configuration and JSON-RPC.** `Json.dfy`, `Csv.dfy`, `ProxyConfig.dfy`, `BeaconUrls.dfy` and
  `RpcHttpServer.dfy`, each with its specification, its theorems and its loops. JSON keys are
  constructors of one type; integers have the width the parser gives them.
- `ResourceBudget.dfy` is the descriptor arithmetic.

## What is assumed

- **A start() finds the last run finished**, and no other start() in its prologue: that is when
  `EnterStart` is enabled, whatever shutdown() has asked for. The code checks `m_runActive` alone
  (src/proxy_runtime.cpp:200), which falls before `m_runFinished` rises. A start() already blocked may
  be overlapped by another one, and stop() by anything.
- **What each result needs of its callers** is in its hypothesis. Results over `Reached` need nothing.
  The others turn on what a start() finds when it is entered, each with a lemma that says exactly what.
  Conservation: nobody with a
  reservation, nothing queued (`ConservedIffSettled`). The ceiling: no caller between its state check
  (src/proxy_runtime.cpp:560) and the admission gate, or shutdown requested (`SafeIffUnchecked`). Nobody
  left waiting between runs: besides, no caller with a reservation that has not come to the enqueue gate
  (src/proxy_runtime.cpp:573-589), or shutdown requested (`NobodyLeftIffSealed`). The code checks none of
  these. Callers on a ticket of an old epoch matter to none of them.
- **The library completes each box at most once, only while it is entered, and never after
  stopVerifProxy**, and reports cancellation only after it, so that the two early exits on that code
  are not taken.
- A run's `maxInFlight` is positive, which the configuration checks (`ValidKnobs`).

## Findings

- The start/stop handshake holds one answer. A start() whose run has failed, and which has not woken
  yet, can be overtaken by a second start() that clears `m_startDone` (src/proxy_runtime.cpp:251-256):
  it then stays blocked and is told the second run's outcome. `AnswerIsForOwnRun` gives the exact
  condition; in `AnswerIsTakenOver` a start() whose own library start returned NULL is told of success.
- `releaseAdmission` is not tagged with an epoch, so a caller admitted in one run and enqueued in the
  next is counted by nobody (`StraddlerIsNotCounted`), and neither is a command queued in the prologue
  of a run whose library start then fails (`QueuedCommandIsNotCounted`): a NULL answer does not empty
  the queue, and the next start() resets the count (src/proxy_runtime.cpp:203-215).
- For the same reason nobody releases the waiter of such a command: between runs it waits on a slot that
  is not done, and only its own time-out, or another start(), ends that (`WaiterIsStranded`).
- start() first stores the configured maximum as the ceiling and lowers it to what the descriptors allow
  afterwards (src/proxy_runtime.cpp:227-234): callers from the last run that come in between are admitted
  past it (`CeilingIsExceeded`).
- From the moment shutdown takes the pending list to teardown's reset, `m_admitted` still counts the
  queued commands that were dropped; `ReservationsAreConserved` carries them as written off.
- The RPC handler's comment (src/rpc_http_server.cpp:51-62) says bare numbers are promoted to hex; the
  code passes results through unchanged (src/rpc_http_server.cpp:117), and so does the model. A null id and a batch
  element that is not an object count as notifications (src/rpc_http_server.cpp:78), unlike sections 4
  and 6 of the JSON-RPC 2.0 specification.

## Model

| member | source | states |
|---|---|---|
| Admission.InvRun | src/proxy_runtime.cpp:721-823 | Every interleaving of callers, heartbeats, releases, restarts and shutdowns keeps the queue strictly increasing, without duplicates and below the next ticket, the queued tickets exactly this epoch's waiters, and all counters equal to what happened |
| AdmissionTheorems.ReachableIsKept | src/proxy_runtime.cpp:203-215 | The same of everything reachable from the initial gate |
| AdmissionTheorems.NoOvertaking | src/proxy_runtime.cpp:737-778 | While a ticket is queued, one step grants nothing except to a ticket not after it: nothing on arrival, nothing to a heartbeat |
| AdmissionTheorems.NoOvertakingRun | src/proxy_runtime.cpp:734-778 | However long a ticket stays queued, across any run and restart, everything granted meanwhile went to tickets before it |
| AdmissionTheorems.GrantGoesToLongestWaiting | src/proxy_runtime.cpp:766-778 | A grant goes to the contender that has waited longest; one on arrival or to a heartbeat finds no contender |
| AdmissionTheorems.RefinesFifoSemaphore | src/proxy_runtime.cpp:713-823 | Every transition of the gate is a step of a plain FIFO semaphore |
| AdmissionTheorems.GrantsAreSemaphoreGrants | src/proxy_runtime.cpp:737-814 | The gate hands out a reservation exactly when that semaphore does, to the waiter it serves |
| AdmissionTheorems.WaitersAreAccountedFor | src/proxy_runtime.cpp:748-792 | callsQueued is still waiting plus admitted plus timed out plus shut down; timeouts and rejections are exactly the endings of those kinds; queuedNow is the queue's length; no ended ticket is queued |
| AdmissionTheorems.EndingsAreFinal | src/proxy_runtime.cpp:755-798 | A wait that has ended never changes its ending and never comes back |
| AdmissionTheorems.AdmittedInOwnEpoch | src/proxy_runtime.cpp:203-208 | No ticket is admitted in another epoch than its own |
| AdmissionTheorems.WaitEndsAtDeadline | src/proxy_runtime.cpp:755-797 | A pass leaves the caller waiting exactly when nothing closes, its epoch is current, its deadline is ahead, and it is not both first and unblocked |
| AdmissionTheorems.GateAgreesWithCapacity | src/proxy_runtime.cpp:680-711 | The inline test in the gate blocks on descriptors exactly when the capacity function leaves no room |
| AdmissionTheorems.AdmissionIsWithinBudget | src/proxy_runtime.cpp:680-711 | At every admission with a known snapshot, open plus all reservations times the cost per call plus the reserve fits the limit, and the ceiling holds |
| WaitLoop.WaitOutEnds | src/proxy_runtime.cpp:780-797 | A wait whose last pass is at or after its deadline is over, its ticket ended, whatever the others did between passes |
| WaitLoop.WaitIsARun | src/proxy_runtime.cpp:755-798 | A whole wait, with anything in between, is a run of the gate |
| AdmissionGate.AdmissionGate.AdmissionBlockLocked | src/proxy_runtime.cpp:680-711 | Computes the gate's block from the live snapshot |
| AdmissionGate.AdmissionGate.RemoveAdmissionTicketLocked | src/proxy_runtime.cpp:713-719 | The search and erase removes exactly that ticket, or changes nothing and says so |
| AdmissionGate.AdmissionGate.EnterAdmission | src/proxy_runtime.cpp:721-753 | The head of the wait is the gate's arrival step |
| AdmissionGate.AdmissionGate.AdmissionTurn | src/proxy_runtime.cpp:755-797 | One pass of the loop is the gate's retry step |
| AdmissionGate.AdmissionGate.WaitForAdmission | src/proxy_runtime.cpp:721-798 | The whole loop ends, leaves no ticket behind, and returns true exactly when the ticket, or the arrival, was admitted |
| AdmissionGate.AdmissionGate.TryAdmit | src/proxy_runtime.cpp:800-814 | A heartbeat is admitted exactly when nobody waits and nothing blocks, and never waits |
| AdmissionGate.AdmissionGate.ReleaseAdmission | src/proxy_runtime.cpp:816-823 | One reservation back, never below zero, nothing else touched |
| AdmissionGate.AdmissionGate.RestartAdmission | src/proxy_runtime.cpp:203-215 | A fresh epoch, an empty queue, no reservation, no stop request, nothing else touched |
| ResourceBudget.ReserveBounds | src/resource_budget.cpp:35-38 | The reserve is a quarter of the limit between 16 and 128, and exceeds the limit exactly below 16 |
| ResourceBudget.CapacityIsLargestThatFits | src/resource_budget.cpp:40-49 | The capacity is the largest number of operations that fits beside what is open and the reserve |
| ResourceBudget.CapacityUnknown | src/resource_budget.cpp:42-44 | Minus one exactly when the budget cannot be known |
| ResourceBudget.SubtractionFits | src/resource_budget.cpp:46-48 | Exactly when the 64-bit subtraction overflows: for a limit of one to fourteen and an open count that close to the largest value |
| RuntimeReservations.BudgetIsSafe | src/proxy_runtime.cpp:219-243 | A run that may start gets between one call and the configured maximum, and all of them fit the start snapshot; it may not start exactly when not even one fits |
| ProxyRuntime.ProxyRuntime.CostPerCall | src/proxy_runtime.cpp:219-226 | The cost of a call is between four and the largest 64-bit value; it is two more than the downloads exactly when that lies there, is more only to make four, and is less only at the largest value |
| ProxyRuntime.ProxyRuntime.Budget | src/proxy_runtime.cpp:227-243 | The configured maximum, lowered to what the snapshot leaves room for, and whether one call fits |
| RuntimeRuns.LifeRun | src/proxy_runtime.cpp:199-504 | Every run of the whole runtime keeps the gate, log, handshake, event, identity, sync, heartbeat and history invariants |
| RuntimePromises.RunsProjectToTheGate | src/proxy_runtime.cpp:559-566 | Every run of the runtime is a legal run of the gate, so the gate's theorems hold inside it, straddling callers or not |
| RuntimeTheorems.ConservedIffSettled | src/proxy_runtime.cpp:199-215 | Over a whole run, the count is exact in every state if and only if nobody held a reservation and no command was queued whenever a start() was entered |
| RuntimeTheorems.ReservationsAreConserved | src/proxy_runtime.cpp:559-823 | If every restart is settled: while a run is up, admitted equals callers on their way to the gate plus queued commands plus outstanding boxes plus the one in hand; until teardown's reset also what was written off; and nothing from there to the next start(), behind a closed gate |
| RuntimeTheorems.InFlightIsAdmitted | src/proxy_runtime.cpp:485-491 | If every restart is settled, in flight is at most admitted plus the one unadmitted sync |
| RuntimeCeiling.CeilingIffNeverUndercut | src/proxy_runtime.cpp:680-694 | Over a whole run, no more is ever reserved than the ceiling if and only if no start() sets a ceiling below what has been admitted since it was entered |
| RuntimeCeiling.OnlyTheBudgetBreaksTheCeiling | src/proxy_runtime.cpp:227-234 | Step by step: every other step of anybody keeps it |
| RuntimeCeiling.InFlightIsWithinTheCeiling | src/proxy_runtime.cpp:485-491 | If besides every restart is settled, in flight is at most the ceiling plus one |
| RuntimeGaps.CeilingIsExceeded | src/proxy_runtime.cpp:227-234 | A run that starts with two reservations under a ceiling of one |
| RuntimeCeiling.RestartKeepsTheCeiling | src/proxy_runtime.cpp:203-234 | From any reachable state, no continuation of a start() up to the next one can undercut the ceiling if and only if it finds no caller between its state check and the admission gate, or shutdown requested |
| RuntimeCeiling.SafeIffUnchecked | src/proxy_runtime.cpp:203-234 | Over a whole run, the ceiling is never at risk if and only if every start() finds that |
| RuntimeCeiling.InFlightIsBounded | src/proxy_runtime.cpp:485-491 | If every start() finds that, nobody with a reservation and nothing queued, in flight is at most admitted plus one and at most the ceiling plus one, in every state |
| RuntimeCeiling.CeilingIsBudgeted | src/proxy_runtime.cpp:227-234 | In every reachable state of a run its ceiling is between one and the configured maximum |
| RuntimeCommitted.TimedOutCallStaysCommitted | src/proxy_runtime.cpp:592-601 | A caller that gives up before shutdown has taken the queue gives nothing back: through every later run its slot stays owned and its command queued, in hand or outstanding, until the library completes it, shutdown drops it or teardown writes it off |
| RuntimeCommitted.CommittedUntilEnded | src/proxy_runtime.cpp:485-512 | In every reachable state, exactly those three steps end it |
| RuntimeCommitted.CommittedIsCounted | src/proxy_runtime.cpp:485-491 | If every restart is settled, the gate counts every such command, waited for or not |
| RuntimeGaps.ConservedAcrossRestart | src/proxy_runtime.cpp:203-215 | From any reachable state, a restart leaves the count exact if and only if no caller is between its admission and the enqueue gate and no command is queued |
| RuntimeGaps.StraddlerIsNotCounted | src/proxy_runtime.cpp:816-823 | A run from the initial state in which the next run counts no reservation although one exists |
| RuntimeGaps.QueuedCommandIsNotCounted | src/proxy_runtime.cpp:203-215 | A reachable state in which nobody holds a reservation and a restart is still wrong: a command is queued |
| RuntimeTheorems.NoWaiterLeftBehind | src/proxy_runtime.cpp:506-529 | In every reachable state between shutdown's walk and the end of teardown, every slot anybody owns is done, every waiting caller can return, and both lists are empty |
| RuntimeRestarts.RestartLeavesNobody | src/proxy_runtime.cpp:199-215 | From any reachable state, no continuation of a start() up to the next one leaves anybody behind between runs if and only if nobody is left already and it finds no caller between the state check and the enqueue gate without a ticket, or shutdown requested; callers on old tickets and refused ones do no harm |
| RuntimeRestarts.NobodyLeftIffSealed | src/proxy_runtime.cpp:199-215 | Over a whole run, nobody is left behind between runs, nor can be, if and only if every start() finds that |
| RuntimeRestarts.NoWaiterLeftBetweenRuns | src/proxy_runtime.cpp:506-529 | And then, in every state between runs and before the library has answered, every owned slot is done, both lists are empty and every waiting caller can return |
| RuntimeTheorems.OnlyTheOpenGateLeavesAWaiter | src/proxy_runtime.cpp:573-589 | Step by step, in any reachable state between runs: only passing the open enqueue gate leaves somebody behind |
| RuntimeGaps.WaiterIsStranded | src/proxy_runtime.cpp:367-393 | A run in which one does, the library answers NULL, and a waiter is left on an undone slot that neither the proxy thread nor the library will touch |
| RuntimeTheorems.NothingEnqueuedWhileClosing | src/proxy_runtime.cpp:573-579 | In every reachable state from the moment a run starts to close until it is over, a caller at the enqueue gate is turned away and both lists stay |
| RuntimeRestarts.NothingEnqueuedBetweenRuns | src/proxy_runtime.cpp:573-579 | And then a caller that comes to the enqueue gate there is turned away |
| RuntimeTheorems.EveryUndoneSlotIsReachable | src/proxy_runtime.cpp:506-518 | In every reachable state every undone slot with a waiter, a queued command or a box is where shutdown will look, and there is none once it has looked |
| RuntimeTheorems.OutcomeIsDecidedOnce | src/proxy_runtime.cpp:611-626 | A slot's outcome is decided by whichever of its completion and shutdown is first, and is what that one said |
| RuntimeTheorems.DoneIsFinal | src/proxy_runtime.cpp:514-527 | Once done, status and result never change again, in this run or a later one |
| RuntimeTheorems.RegistrationIsBounded | src/proxy_runtime.cpp:531-539 | Right after pruning and pushing, the list is within 256 or the number of owned slots, and kept every owned entry in order |
| RuntimeTheorems.PendingBoundCaller | src/proxy_runtime.cpp:580-582 | In every reachable state the bound holds when a call registers, the new slot counted |
| RuntimeTheorems.PendingBoundSync | src/proxy_runtime.cpp:941-945 | In every reachable state it holds when a sync registers |
| RuntimeTheorems.PendingBoundBeat | src/proxy_runtime.cpp:872-876 | In every reachable state it holds when a heartbeat registers |
| Slots.PruneIsSound | src/proxy_runtime.cpp:531-539 | Front walk and sweep drop only expired entries and keep the owned ones in order |
| Slots.PruneIsBounded | src/proxy_runtime.cpp:531-539 | After prune and push the length is at most the sweep length or the owned slots |
| CallTable.CallTable.PrunePendingLocked | src/proxy_runtime.cpp:531-539 | The two loops compute that pruning |
| CallTable.CallTable.FailAllPending | src/proxy_runtime.cpp:506-529 | The walk leaves every owned registered slot done, with this reason if it had no outcome, touches no other, empties both lists, and counts exactly the slots it released |
| CallTable.CallTable.DrainCommands | src/proxy_runtime.cpp:541-553 | Every queued command is handed over, oldest first, and counted in flight |
| CallTable.CallSlot.Complete | src/proxy_runtime.cpp:618-626 | The first writer decides |
| ProxyRuntime.ProxyRuntime.EnqueueCall | src/proxy_runtime.cpp:568-590 | Refused exactly when stopping, with the reservation given back; else registered and queued |
| ProxyRuntime.ProxyRuntime.CallbackTrampoline | src/proxy_runtime.cpp:611-644 | The slot takes the outcome unless it has one, the outcome it ended with is noted by kind, and exactly calls and heartbeats give a reservation back |
| ProxyRuntime.ProxyRuntime.IssueKeepAlive | src/proxy_runtime.cpp:829-877 | A heartbeat is issued and registered exactly when the gate admits it at once |
| ProxyRuntime.ProxyRuntime.KeepAlive | src/proxy_runtime.cpp:420-426 | One is tried exactly when due, and the next is timed whether or not it was admitted |
| ProxyRuntime.ProxyRuntime.IssueSync | src/proxy_runtime.cpp:934-954 | The sync is registered, the phase set, one box handed over and one library entry made |
| ProxyRuntime.ProxyRuntime.AdvanceSync | src/proxy_runtime.cpp:908-932 | One step of the cycle, issuing at most one sync, and none from a completion |
| ProxyRuntime.ProxyRuntime.StartPrologue | src/proxy_runtime.cpp:199-256 | start() up to its wait: refused while a run is active, failed when nothing fits, else a fresh epoch, the budget, and the run posted |
| Simulation.Prologue | src/proxy_runtime.cpp:199-256 | On an object showing a state, it leaves it showing where the steps enter, size, budget, launch and post lead, or the first three when nothing fits |
| Simulation.Enqueue | src/proxy_runtime.cpp:568-590 | The enqueue gate is the step that passes it, followed by the refusal when closed |
| Simulation.Advance | src/proxy_runtime.cpp:908-932 | A turn of the cycle is its step followed by the launch it decided on, or by the two halves of the answer the first good cycle owes |
| Simulation.TakeBeat | src/proxy_runtime.cpp:420-426 | The heartbeat part of a turn is its attempt, and when admitted the issue, the return and the registration |
| Simulation.Land | src/proxy_runtime.cpp:611-644 | The trampoline is completion, note and, for calls and heartbeats, release |
| Simulation.DrainAll | src/proxy_runtime.cpp:541-553 | Draining is take, dispatch, return for every queued command, then finding the queue empty |
| Simulation.FailAll | src/proxy_runtime.cpp:506-529 | Failing all is taking the list and one step per entry, with as many slots released |
| Simulation.WalkRuns | src/proxy_runtime.cpp:513-528 | From any list, those steps end with exactly the owned entries done and counted, and nothing else moved |
| ProxyRuntime.ProxyRuntime.DrainLibrary | src/proxy_runtime.cpp:473-477 | The drain ends when nothing is in flight or the schedule before the deadline is used up, and enters only the pump |
| ProxyRuntime.ProxyRuntime.Teardown | src/proxy_runtime.cpp:456-504 | Drain, then pumps only, then one stop and one free; every registered owned slot done and no done slot changed; no reservation, nothing queued; start() answered; the farewell events in order |
| RuntimePromises.LibraryIsUsedAsItMustBe | src/proxy_runtime.cpp:320-483 | After one NimMain, the library entries are complete runs, each a lone NULL start or start, interval, work, pumps, stop, free, then a part of one |
| Runs.LibraryTraceIsRuns | src/proxy_runtime.cpp:351-483 | Every trace the typestate allows is a sequence of such runs |
| RuntimePromises.EventsTellTheStory | src/proxy_runtime.cpp:179-191 | The events are complete attempts: Starting, one proxyStarted, swings between Running and Degraded, Draining, Stopped, one proxyStopped, or Starting, Failed; each resting where the next begins |
| RuntimePromises.LastAnnouncedIsReported | src/proxy_runtime.cpp:179-191 | The last state announced is the state reported |
| Runs.EventLogIsRuns | src/proxy_runtime.cpp:179-191 | Every event log the attempt language allows parses into such attempts |
| RuntimePromises.HealthIsHistory | src/proxy_runtime.cpp:884-1011 | From the first good cycle until teardown a run is Degraded exactly when its last three beats or its last three cycles all failed, and Running otherwise; the streak counters are the trailing failures of the logs |
| RuntimePromises.ServingMeansServed | src/proxy_runtime.cpp:993-998 | Whenever the state is Running or Degraded, a cycle of the run in progress has succeeded and teardown has not begun |
| RuntimePromises.ClosingStatesStand | src/proxy_runtime.cpp:884-900 | In every reachable state: Draining is left only for Stopped, and Stopped only by a new start(), whatever still completes |
| SyncHealth.BeatKeepsStateIsHistory | src/proxy_runtime.cpp:884-900 | A beat keeps the state equal to what the history says |
| SyncHealth.FinishKeepsStateIsHistory | src/proxy_runtime.cpp:965-990 | So does a finished cycle |
| RunHealth.RunHealth.NoteHeartbeat | src/proxy_runtime.cpp:884-900 | The handler, on the fields, is that transition and keeps the object's state and streaks equal to its recorded outcomes |
| RunHealth.RunHealth.FinishSyncCycle | src/proxy_runtime.cpp:965-990 | So does the verdict, with start() released on the first good one and only then, and the run serving exactly from then on |
| RunHealth.RunHealth.ReleaseStart | src/proxy_runtime.cpp:993-1011 | Only the first release of a run counts, Running is set before it, and a failure keeps the record sound |
| RunHealth.RunHealth.BeginSyncing | src/proxy_runtime.cpp:403-410 | A new run's record starts sound, whatever the last one left |
| RunHealth.RunHealth.GoingSaysHealth | src/proxy_runtime.cpp:884-990 | While the run goes, whoever reads a released object reads Degraded exactly when three beats or three cycles in a row have just failed, and Running otherwise |
| RuntimePromises.NotServingBeforeFirstGoodCycle | src/proxy_runtime.cpp:399-424 | However many cycles fail, a run without a good one is Starting, owes start() its answer and has sent no beat |
| RuntimePromises.SyncCyclesAreDisciplined | src/proxy_runtime.cpp:908-990 | OP is issued exactly after a good L1 sync with OP configured, a cycle succeeds exactly when all its syncs do, starts are spaced, that of the cycle in progress too, and at most one sync is out, exactly in phases Eth and Op |
| SyncHealth.FinishKeepsDiscipline | src/proxy_runtime.cpp:965-990 | Finishing a cycle keeps the spacing: the interval, or two seconds before the first success |
| RuntimePromises.OneHeartbeatAtMost | src/proxy_runtime.cpp:421-426 | At most one heartbeat is out, and only after the first good cycle |
| RuntimePromises.StartSucceedsOnlyWhenServed | src/proxy_runtime.cpp:259-282 | Whoever is told of success is told so after a wholly good cycle of the run last requested, whose state had become Running |
| RuntimePromises.AnswerIsOfTheLastRun | src/proxy_runtime.cpp:367-393 | Whatever answer there is, it was written by the run last requested; a good one after a wholly good cycle of that run |
| RuntimePromises.AnswerIsForOwnRun | src/proxy_runtime.cpp:251-282 | When a blocked start() can return, the run whose outcome it is told is the one it posted if and only if no other start() was posted since; a success is of a run that was served |
| RuntimeGaps.AnswerIsTakenOver | src/proxy_runtime.cpp:251-282 | A run in which a start() whose own run ended with the library's NULL is told of success, the second run's |
| ParkHandshake.NoWakeUpIsLostIffGuarded | src/proxy_runtime.cpp:331-348 | No interleaving leaves the thread asleep with work to do and no notify owed, if and only if the predicate is written under the lock |
| ParkHandshake.WakeRun | src/proxy_runtime.cpp:132-136 | Guarded, every reachable state keeps the notify owed |
| ParkHandshake.UnluckyRun | src/proxy_runtime.cpp:132-136 | The interleaving that loses a wake-up when it is not |
| PumpHistogram.PumpHistogram.RecordPump | src/proxy_runtime.cpp:646-657 | After any samples, each counter is the number of its class in its interval, they sum to the calls, and the maximum is that of the samples and zero |
| PumpHistogram.PumpHistogram.Bucket | src/proxy_runtime.cpp:647-650 | The loop finds the interval the duration lies in |
| PumpHistogram.OneBucket | src/proxy_runtime.cpp:647-650 | The intervals do not overlap |
| ProxyConfig.AcceptedIsValid | src/proxy_config.cpp:265-382 | Only valid configs are accepted |
| ProxyConfig.RawRoundTrip | src/proxy_config.cpp:411-453 | Writing a config and reading it gives it back if and only if it is valid |
| ProxyConfig.AcceptedRoundTrips | src/proxy_config.cpp:265-453 | Whatever is accepted is accepted again from its own output and comes out field for field the same |
| ProxyConfig.AbsentIsFilledEmptyIsNot | src/proxy_config.cpp:293-315 | Absent lists are filled from the network, explicit ones are kept, and the beacon source is derived from whether the list was edited |
| ProxyConfig.ExplicitlyEmptyIsRefused | src/proxy_config.cpp:301-320 | An execution list that is there but empty, or null, is refused |
| ProxyConfig.UpstreamListsAreFaithful | src/proxy_config.cpp:384-393 | Each list given to the library splits at its commas into exactly the list configured, and an empty optional list is not given |
| ProxyConfig.ReadList | src/proxy_config.cpp:117-141 | The loops read an array of strings, or a comma-separated one, as specified |
| ProxyConfig.CheckUrls | src/proxy_config.cpp:143-164 | The loop reports the first bad URL, if there is one |
| ProxyConfig.FromJson | src/proxy_config.cpp:265-382 | The parser, step by step, and its result is valid and survives its own output |
| Csv.SplitUndoesJoin | src/proxy_config.cpp:203-207 | Splitting what was joined gives the list back if and only if every entry is non-empty and without a comma |
| Csv.SplitJoinSplit | src/proxy_config.cpp:117-128 | On any text, split, join and split again is split |
| Csv.JoinCsv | src/proxy_config.cpp:203-207 | The loop joins, and what it joined splits back |
| Csv.SplitCsv | src/proxy_config.cpp:123-127 | The line reader's loop splits |
| BeaconUrls.ReturnedUrlsSurviveCsv | src/proxy_config.cpp:237-263 | A returned list is non-empty, usable, and survives the comma-separated form |
| BeaconUrls.OneProvider | src/proxy_config.cpp:254-256 | A provider contributes its address exactly when enabled with one |
| BeaconUrls.ProvidersInOrder | src/proxy_config.cpp:253-256 | Providers contribute one after the other, up to the first that throws |
| BeaconUrls.BeaconUrlsFromModule | src/proxy_config.cpp:237-263 | The function, loop and refusals, does this |
| RpcHttpServer.OneResponseEachInOrder | src/rpc_http_server.cpp:131-141 | A batch's responses are exactly one per object element with a non-null id, in order, each for its element after the dispatches before it |
| RpcHttpServer.WhereIsExact | src/rpc_http_server.cpp:135-138 | The positions those responses stand for are exactly the answered elements, increasing |
| RpcHttpServer.ResponseIsWellFormed | src/rpc_http_server.cpp:63-73 | A response carries the version, its request's id, and exactly one of result and error |
| RpcHttpServer.ResponseSaysWhatHappened | src/rpc_http_server.cpp:77-119 | A result exactly when dispatched and answered, unchanged; else the code of what went wrong |
| RpcHttpServer.DispatchedInOrder | src/rpc_http_server.cpp:89-107 | Exactly the elements with a string method and absent, null or array params are dispatched, in order, notifications included |
| RpcHttpServer.ParamsAreGivenOnes | src/rpc_http_server.cpp:43-49 | Parameters go through as given but for one false after exactly two of six methods |
| RpcHttpServer.NoBodyIffNothingAsks | src/rpc_http_server.cpp:131-140 | No body exactly for a non-empty batch of nothing but notifications |
| RpcHttpServer.HandleOne | src/rpc_http_server.cpp:77-119 | One request: what is dispatched, whether it is answered, and how |
| RpcHttpServer.HandleBody | src/rpc_http_server.cpp:123-146 | A whole body: the dispatch log grows by exactly its calls and the reply is the one specified, parse errors and empty batches included |

## Left out

- 64-bit counters (tickets, epochs, identities, call totals) do not wrap in the model; the descriptor
  arithmetic and the parsed integers have their width.
- `RunHealth`, `CallTable`, `AdmissionGate` and `ProxyRuntime` are one class in the source; the model
  splits its fields by the lock or thread that owns them, and a command is the identity of its slot.
- The class methods are single critical sections; how they interleave is the step relation's subject.
  `runOnce`'s outer loop is there only, and so are completions that arrive inside the issuing call.
- Real time: pump durations, naps on `m_cv`, the 1 ms back-off, and how long a drain takes.
- stop()'s own waiting and result, and the destructor's bounded wait and abort.
- Texts: error wording in the runtime, `blockedReport`, and the fields kept only for status.
- Payload decoding of answers, head tracking, and what `statusSnapshot` reports.
- Memory order: steps are sequentially consistent, and the stores at the head of start()
  (src/proxy_runtime.cpp:217-227) are one step.
- libverifproxy itself, its heap and threads, curl, sockets and the descriptor query.
- Network table lookups beyond the three profiles, URL redaction, `migrateRetiredDefaults`, and
  persistence.
- `fromJson`'s out-parameter after a refusal, and the wording of its messages: a problem is a key and
  a kind.
- JSON lexing and printing: a body arrives parsed or not, and a string is a sequence of characters.
- The HTTP transport, the generated method wrappers, and named parameters, which the handler refuses.
- Dispatch order among callers admitted at once: only admission is FIFO.
