/** The whole runtime as a step relation: any number of callers, start() and stop() callers, one
    proxy thread, and a library whose completions arrive whenever it is entered. Each step is one
    critical section, or a stretch of the proxy thread no other thread can observe half-done. */
module Runtime {
  import opened ResourceBudget
  import A = Admission
  import opened Slots
  import opened SyncHealth
  import opened Runs

  const DEFAULT_SYNC_INTERVAL_MS: int := 12000

  /** The settings of a run that steer control flow. */
  datatype Config = Config(
    maxInFlight: int,
    parallelBlockDownloads: int,
    queueTimeoutMs: int,
    keepAlive: bool,
    keepAliveIntervalMs: int,
    op: bool)

  // ---------------------------------------------------------------------------
  // State
  // ---------------------------------------------------------------------------

  datatype Outcome = NotAdmitted | Refused | TimedOut | Answered(status: int, result: string)

  /** Where one call() stands. */
  datatype Caller =
    | Checked               // saw the proxy serving, not yet at the admission gate
    | Queued                // holds an admission ticket
    | Holding               // holds a reservation, not yet at the enqueue gate
    | Refusing              // met a closed enqueue gate, reservation not yet returned
    | Waiting(slot: nat)    // enqueued, blocked on its slot
    | Left(outcome: Outcome)

  /** Where the loop resumes when the library returns. */
  datatype Back = ToTop | ToPush(slot: nat) | ToBeat

  /** Inside a library call: running it, or in one of the two halves of a completion handler. */
  datatype InCall = Inside | Delivered(slot: nat, status: int) | Releasing(slot: nat, status: int)

  datatype AwayPc = Unborn | Born | Parked | Exited
  datatype BeforePc = Opening | NullHandshake | NullState | NullEvent | NullFinish | Setup
  datatype LoopPc =
    | DrainQueue | Dispatch(slot: nat) | CheckStop
    | StepSync | LaunchSync(slot: nat, op: bool)
    | Beat | LaunchBeat | PushBeat(slot: nat)
    | Pumping
    | LoopCall(call: InCall, back: Back)
  datatype DrainPc = Drain | DrainCall(call: InCall) | Swap | Fail(rest: seq<nat>) | StopLib
  datatype TailPc = FreeLib | Deactivate | ClearFlight | ClearAdmitted | CloseStopped | CloseEvent | CloseFinish

  /** Where the proxy thread is: between runs, before the loop, in the loop, telling start() how it
      went, about to drain, draining, or closing. */
  datatype Pc =
    | Away(away: AwayPc)
    | Before(before: BeforePc)
    | Loop(loop: LoopPc)
    | Announce(ok: bool, released: bool)
    | Leaving
    | Drains(drain: DrainPc)
    | Tail(tail: TailPc)

  /** Where the start() in its prologue stands; at most one is. */
  datatype Starter = NoStart | Sizing | Budgeting | Launching | Posting

  /** Slots and the three places a command can be: queued, handed to the library, abandoned. */
  datatype Calls = Calls(
    slots: map<nat, Slot>,
    nextId: nat,
    queue: seq<nat>,
    pending: seq<nat>,
    callBoxes: set<nat>,
    syncBoxes: set<nat>,
    leaked: set<nat>,
    inFlight: int,
    leakedCalls: nat,
    writtenOff: nat)            // reservations whose command shutdown discarded or whose box it abandoned

  /** The start/stop handshake, and which run each part of it belongs to. */
  datatype Handshake = Handshake(
    runRequested: bool,
    runFinished: bool,
    startDone: bool,
    startOk: bool,
    runActive: bool,
    haveContext: bool,
    run: nat,                   // the run last requested
    current: nat,               // the run the proxy thread last picked up
    answerRun: nat,             // the run startDone and startOk speak of
    syncedRun: nat,             // the run the cycle history belongs to
    servedRun: nat,             // the last run whose state became Running
    blocked: map<nat, nat>)     // start() callers still blocked, with the run each requested

  datatype Sys = Sys(
    adm: A.State,
    calls: Calls,
    health: Health,
    hs: Handshake,
    pc: Pc,
    starter: Starter,
    callers: map<nat, Caller>,
    trace: seq<LibCall>,
    clock: int,
    cfg: Config)

  const INITIAL: Sys := Sys(
    A.INITIAL,
    Calls(map[], 1, [], [], {}, {}, {}, 0, 0, 0),
    FRESH,
    Handshake(false, true, false, false, false, false, 0, 0, 0, 0, 0, map[]),
    Away(Unborn), NoStart, map[], [], 0,
    Config(64, 10, 30000, true, 12000, false))

  // ---------------------------------------------------------------------------
  // Ownership
  // ---------------------------------------------------------------------------

  function CallSlots(call: InCall): set<nat> {
    if call.Inside? then {} else {call.slot}
  }

  /** Slots the proxy thread holds in its own hands. */
  function HandSlots(pc: Pc): set<nat> {
    match pc
    case Loop(Dispatch(id)) => {id}
    case Loop(LaunchSync(id, _)) => {id}
    case Loop(PushBeat(id)) => {id}
    case Loop(LoopCall(call, back)) => CallSlots(call) + if back.ToPush? then {back.slot} else {}
    case Drains(DrainCall(call)) => CallSlots(call)
    case _ => {}
  }

  /** The library call the proxy thread is inside, if it is. */
  function CallOf(pc: Pc): Option<InCall> {
    match pc
    case Loop(LoopCall(call, _)) => Some(call)
    case Drains(DrainCall(call)) => Some(call)
    case _ => None
  }

  function WithCall(pc: Pc, call: InCall): Pc {
    match pc
    case Loop(LoopCall(_, back)) => Loop(LoopCall(call, back))
    case Drains(DrainCall(_)) => Drains(DrainCall(call))
    case _ => pc
  }

  function WaitedSlots(callers: map<nat, Caller>): set<nat> {
    set c | c in callers && callers[c].Waiting? :: callers[c].slot
  }

  /** Every slot somebody owns: its waiter, its queued command, its box, or the proxy thread. A
      weak reference to any other slot has expired. */
  function Owned(s: Sys): set<nat> {
    Elements(s.calls.queue) + s.calls.callBoxes + s.calls.syncBoxes + s.calls.leaked
    + WaitedSlots(s.callers) + HandSlots(s.pc)
  }

  // ---------------------------------------------------------------------------
  // Steps of a caller
  // ---------------------------------------------------------------------------

  predicate IsServing(s: Sys) {
    SyncHealth.Serving(s.health.state)
  }

  function SetCaller(s: Sys, c: nat, caller: Caller): Sys {
    s.(callers := s.callers[c := caller])
  }

  function CallEnter(s: Sys, c: nat, live: Snapshot): Sys
    requires s.adm.gate.perCall > 0
  {
    var next := match A.EntryOf(s.adm.gate, live)
                case Refused => Left(NotAdmitted)
                case Admit => Holding
                case Join(_) => Queued;
    SetCaller(s, c, next).(adm := A.Enter(s.adm, c, live, s.clock, s.cfg.queueTimeoutMs))
  }

  function CallRetry(s: Sys, c: nat, live: Snapshot): Sys
    requires s.adm.gate.perCall > 0 && c in s.adm.waiters
  {
    var next := match A.VerdictOf(s.adm.gate, s.adm.waiters[c], live, s.clock)
                case Stay(_) => Queued
                case End(Admitted(_)) => Holding
                case End(_) => Left(NotAdmitted);
    SetCaller(s, c, next).(adm := A.Turn(s.adm, c, live, s.clock))
  }

  /** A fresh slot, with the next identity. */
  function Create(calls: Calls, kind: Kind): Calls {
    calls.(slots := calls.slots[calls.nextId := NewSlot(kind)], nextId := calls.nextId + 1)
  }

  /** Prune, then push. */
  function Push(calls: Calls, owned: set<nat>, id: nat): Calls {
    calls.(pending := Prune(calls.pending, owned) + [id])
  }

  /** The enqueue gate: refuse once the run is stopping, else register and queue the command. */
  function CallGate(s: Sys, c: nat): Sys {
    var id := s.calls.nextId;
    var created := Create(s.calls, User);
    if A.Closing(s.adm.gate) then SetCaller(s, c, Refusing).(calls := created)
    else
      var pushed := Push(created, Owned(s), id);
      SetCaller(s, c, Waiting(id)).(calls := pushed.(queue := pushed.queue + [id]))
  }

  function CallRefuse(s: Sys, c: nat): Sys {
    SetCaller(s, c, Left(Refused)).(adm := s.adm.(gate := A.ReleaseGate(s.adm.gate)))
  }

  function CallWake(s: Sys, c: nat): Sys
    requires c in s.callers && s.callers[c].Waiting? && s.callers[c].slot in s.calls.slots
  {
    var slot := s.calls.slots[s.callers[c].slot];
    SetCaller(s, c, Left(Answered(slot.status, slot.result)))
  }

  // ---------------------------------------------------------------------------
  // Steps of start() and stop()
  // ---------------------------------------------------------------------------

  /** Descriptors one call may need: the downloads it fans out to, two more, and at least four. */
  function PerCall(parallelBlockDownloads: int): int {
    var fanOut := if parallelBlockDownloads > INT64_MAX - 2 then INT64_MAX else parallelBlockDownloads + 2;
    Max(4, fanOut)
  }

  /** The ceiling for the run, 0 when not even one call fits. */
  function EffectiveMax(cfg: Config, initial: Snapshot): int {
    var capacity := DescriptorOperationCapacity(initial, PerCall(cfg.parallelBlockDownloads));
    if capacity >= 0 then Min(cfg.maxInFlight, capacity) else cfg.maxInFlight
  }

  predicate NoRoomToStart(cfg: Config, initial: Snapshot) {
    DescriptorOperationCapacity(initial, PerCall(cfg.parallelBlockDownloads)) == 0
  }

  function StartEnter(s: Sys, cfg: Config): Sys {
    s.(adm := s.adm.(gate := A.RestartGate(s.adm.gate)), cfg := cfg, starter := Sizing)
  }

  /** The cost per call, and the configured maximum as the ceiling for now. */
  function StartSize(s: Sys): Sys {
    var gate := s.adm.gate.(perCall := PerCall(s.cfg.parallelBlockDownloads), effective := s.cfg.maxInFlight);
    s.(adm := s.adm.(gate := gate), calls := s.calls.(inFlight := 0), starter := Budgeting)
  }

  /** The ceiling comes down to what the descriptor limit allows. */
  function StartBudget(s: Sys, initial: Snapshot): Sys {
    var budgeted := s.(adm := s.adm.(gate := s.adm.gate.(effective := EffectiveMax(s.cfg, initial))));
    if NoRoomToStart(s.cfg, initial)
    then budgeted.(health := SetState(s.health, Failed), starter := NoStart)
    else budgeted.(starter := Launching)
  }

  function StartLaunch(s: Sys): Sys {
    s.(pc := if s.pc == Away(Unborn) then Away(Born) else s.pc, health := SetState(s.health, Starting), starter := Posting)
  }

  function StartPost(s: Sys, id: nat): Sys {
    var run := s.hs.run + 1;
    s.(hs := s.hs.(startDone := false, startOk := false, runFinished := false, runRequested := true,
                   run := run, blocked := s.hs.blocked[id := run]),
       starter := NoStart)
  }

  function StartReturn(s: Sys, id: nat): Sys {
    s.(hs := s.hs.(blocked := s.hs.blocked - {id}))
  }

  // ---------------------------------------------------------------------------
  // Steps of the proxy thread
  // ---------------------------------------------------------------------------

  function Go(s: Sys, loop: LoopPc): Sys {
    s.(pc := Loop(loop))
  }

  function EnterLib(s: Sys, call: LibCall, back: Back): Sys {
    s.(trace := s.trace + [call], pc := Loop(LoopCall(Inside, back)))
  }

  function PickUp(s: Sys): Sys {
    if s.adm.gate.shutdown then s.(pc := Away(Exited))
    else s.(hs := s.hs.(runRequested := false, current := s.hs.run), health := ForgetBeats(s.health), pc := Before(Opening))
  }

  function Open(s: Sys, ok: bool): Sys {
    if ok then s.(trace := s.trace + [StartOk], hs := s.hs.(haveContext := true), pc := Before(Setup))
    else s.(trace := s.trace + [StartNull], pc := Before(NullHandshake))
  }

  /** The library answered NULL: release start(), report the failure, release stop(). */
  function NullStep(s: Sys): Sys {
    match s.pc
    case Before(NullHandshake) =>
      s.(hs := s.hs.(startDone := true, startOk := false, answerRun := s.hs.current), pc := Before(NullState))
    case Before(NullState) => s.(health := SetState(s.health, Failed), pc := Before(NullEvent))
    case Before(NullEvent) => s.(health := Emit(s.health, ProxyStarted(false)), pc := Before(NullFinish))
    case _ => FinishRun(s)
  }

  function BeginLoop(s: Sys, reportedMs: int): Sys {
    var interval := if reportedMs > 0 then reportedMs else DEFAULT_SYNC_INTERVAL_MS;
    s.(trace := s.trace + [SyncInterval], hs := s.hs.(runActive := true, syncedRun := s.hs.current),
       health := BeginSyncing(s.health, interval, s.clock), pc := Loop(DrainQueue))
  }

  function DrainStep(s: Sys): Sys {
    if s.calls.queue == [] then Go(s, CheckStop)
    else Go(s, Dispatch(s.calls.queue[0])).(calls := s.calls.(queue := s.calls.queue[1..]))
  }

  function DispatchStep(s: Sys, id: nat): Sys {
    EnterLib(s, ProxyCall, ToTop).(
      calls := s.calls.(callBoxes := s.calls.callBoxes + {id}, inFlight := s.calls.inFlight + 1))
  }

  function CheckStopStep(s: Sys): Sys {
    if !A.Closing(s.adm.gate) then Go(s, StepSync)
    else if s.health.startReleased then s.(pc := Leaving)
    else s.(health := s.health.(startReleased := true), pc := Announce(false, false))
  }

  /** Register a fresh sync slot and get ready to launch it. */
  function RegisterSync(s: Sys, op: bool): Sys {
    var id := s.calls.nextId;
    var created := Create(s.calls, if op then Kind.OpSync else Kind.Sync);
    Go(s, LaunchSync(id, op)).(calls := Push(created, Owned(s), id))
  }

  /** One step of the cycle; the clock may have moved by the time a cycle's start is stamped. */
  function SyncStep(s: Sys, elapsed: nat): Sys {
    match SyncAction(s.health, s.cfg.op, s.clock)
    case Nothing => Go(s, Beat)
    case IssueEth =>
      var now := s.clock + elapsed;
      RegisterSync(s, false).(health := BeginCycle(s.health, now), clock := now)
    case IssueOp => RegisterSync(s, true)
    case Finish =>
      var finished := s.(health := FinishCycle(s.health));
      if ReleasesStart(s.health)
      then finished.(hs := s.hs.(servedRun := s.hs.current), pc := Announce(true, false))
      else Go(finished, Beat)
  }

  function LaunchSyncStep(s: Sys, id: nat, op: bool): Sys {
    EnterLib(s, if op then LibCall.OpSync else EthSync, ToBeat).(
      health := IssueSync(s.health, op),
      calls := s.calls.(syncBoxes := s.calls.syncBoxes + {id}, inFlight := s.calls.inFlight + 1))
  }

  /** Release the blocked start(), then announce the outcome. */
  function AnnounceStep(s: Sys): Sys
    requires s.pc.Announce?
  {
    if !s.pc.released
    then s.(hs := s.hs.(startDone := true, startOk := s.pc.ok, answerRun := s.hs.current), pc := Announce(s.pc.ok, true))
    else s.(health := Emit(s.health, ProxyStarted(s.pc.ok)), pc := if s.pc.ok then Loop(Beat) else Leaving)
  }

  predicate BeatDue(s: Sys) {
    s.health.startReleased && s.cfg.keepAlive && !s.health.heartbeatInFlight && s.clock >= s.health.nextBeat
  }

  function BeatStep(s: Sys, live: Snapshot): Sys
    requires s.adm.gate.perCall > 0
  {
    if !BeatDue(s) then Go(s, Pumping)
    else if A.HeartbeatAdmitted(s.adm.gate, live) then Go(s, LaunchBeat).(adm := A.TryAdmit(s.adm, live))
    else Go(s, Pumping).(health := s.health.(nextBeat := s.clock + s.cfg.keepAliveIntervalMs))
  }

  function LaunchBeatStep(s: Sys): Sys {
    var id := s.calls.nextId;
    var created := Create(s.calls, Heartbeat);
    EnterLib(s, ProxyCall, ToPush(id)).(
      health := s.health.(heartbeatInFlight := true),
      calls := created.(callBoxes := created.callBoxes + {id}, inFlight := created.inFlight + 1))
  }

  function PushBeatStep(s: Sys, id: nat): Sys {
    Go(s, Pumping).(calls := Push(s.calls, Owned(s), id),
                    health := s.health.(nextBeat := s.clock + s.cfg.keepAliveIntervalMs))
  }

  function AfterCall(pc: Pc): Pc {
    match pc
    case Loop(LoopCall(_, ToTop)) => Loop(DrainQueue)
    case Loop(LoopCall(_, ToPush(id))) => Loop(PushBeat(id))
    case Loop(LoopCall(_, ToBeat)) => Loop(Beat)
    case _ => Drains(Drain)
  }

  /** The library completes an outstanding box: the slot takes the outcome unless it has one. */
  function Callback(s: Sys, id: nat, status: int, result: string): Sys
    requires id in s.calls.slots
  {
    s.(calls := s.calls.(slots := s.calls.slots[id := Slots.Complete(s.calls.slots[id], status, result)],
                         callBoxes := s.calls.callBoxes - {id}, syncBoxes := s.calls.syncBoxes - {id}),
       pc := WithCall(s.pc, Delivered(id, status)))
  }

  /** What the completion means, by kind; it never enters the library. */
  function NoteStep(s: Sys, id: nat, status: int): Sys
    requires id in s.calls.slots
  {
    var slot := s.calls.slots[id];
    var ok := slot.status == RET_SUCCESS;
    var landed := s.(calls := s.calls.(inFlight := s.calls.inFlight - 1), pc := WithCall(s.pc, Releasing(id, status)));
    match slot.kind
    case User => landed
    case Heartbeat => landed.(health := NoteHeartbeat(s.health.(heartbeatInFlight := false), ok))
    case _ => landed.(health := NoteSync(s.health, slot.kind.OpSync?, ok), pc := WithCall(s.pc, Inside))
  }

  function ReleaseStep(s: Sys): Sys {
    s.(adm := s.adm.(gate := A.ReleaseGate(s.adm.gate)), pc := WithCall(s.pc, Inside))
  }

  function LeaveStep(s: Sys): Sys {
    s.(health := SetState(s.health, RunState.Draining), trace := s.trace + [DrainBegins], pc := Drains(Drain))
  }

  function SwapStep(s: Sys): Sys {
    s.(calls := s.calls.(queue := [], pending := [], writtenOff := |s.calls.queue|), pc := Drains(Fail(s.calls.pending)))
  }

  /** Release one more waiter; the slots left behind are never completed by the library. */
  function FailStep(s: Sys, rest: seq<nat>): Sys {
    if rest == [] then s.(pc := Drains(StopLib))
    else
      var id := rest[0];
      var next := s.(pc := Drains(Fail(rest[1..])));
      if id in Owned(s) && id in s.calls.slots && !s.calls.slots[id].done
      then next.(calls := s.calls.(
                   slots := s.calls.slots[id := Slots.Complete(s.calls.slots[id], RET_ERROR, SHUTTING_DOWN)],
                   leakedCalls := s.calls.leakedCalls + 1))
      else next
  }

  function GoTail(s: Sys, tail: TailPc): Sys {
    s.(pc := Tail(tail))
  }

  function FreeStep(s: Sys): Sys {
    GoTail(s, Deactivate).(trace := s.trace + [Free], hs := s.hs.(haveContext := false))
  }

  function DeactivateStep(s: Sys): Sys {
    GoTail(s, ClearFlight).(hs := s.hs.(runActive := false))
  }

  /** What the library still holds is leaked for good. */
  function AbandonBoxes(s: Sys): Sys {
    GoTail(s, ClearAdmitted).(calls := s.calls.(
      inFlight := 0, callBoxes := {}, syncBoxes := {}, leaked := s.calls.leaked + s.calls.callBoxes + s.calls.syncBoxes,
      writtenOff := s.calls.writtenOff + |s.calls.callBoxes|))
  }

  function ClearStep(s: Sys): Sys {
    GoTail(s, CloseStopped).(adm := s.adm.(gate := s.adm.gate.(admitted := 0)))
  }

  function StoppedStep(s: Sys): Sys {
    GoTail(s, CloseEvent).(health := SetState(s.health, Stopped))
  }

  function FarewellStep(s: Sys): Sys {
    GoTail(s, CloseFinish).(health := Emit(s.health, ProxyStopped))
  }

  function FinishRun(s: Sys): Sys {
    s.(hs := s.hs.(runFinished := true), pc := Away(Parked))
  }

  /** The tail of teardown, one step at a time. */
  function TailStep(s: Sys): Sys
    requires s.pc.Tail?
  {
    match s.pc.tail
    case FreeLib => FreeStep(s)
    case Deactivate => DeactivateStep(s)
    case ClearFlight => AbandonBoxes(s)
    case ClearAdmitted => ClearStep(s)
    case CloseStopped => StoppedStep(s)
    case CloseEvent => FarewellStep(s)
    case CloseFinish => FinishRun(s)
  }

  // ---------------------------------------------------------------------------
  // The step relation
  // ---------------------------------------------------------------------------

  datatype CallLabel =
    | Check | Enter(live: Snapshot) | Retry(live: Snapshot) | PassGate | Refuse | Wake | TimeOut

  datatype StartLabel =
    | EnterStart(cfg: Config) | Size | Budget(live: Snapshot) | Launch | Post(id: nat) | WakeStart(id: nat) | TimeOutStart(id: nat)

  datatype WorldLabel = RequestStop | RequestShutdown | Tick(elapsed: nat)

  datatype ThreadLabel = Boot | PickUpRun | OpenLibrary(ok: bool) | NullReply | EnterLoop(reportedMs: int)

  datatype LoopLabel =
    | DrainOne | DispatchOne | CheckStopping | AdvanceSync(elapsed: nat) | IssueSyncCall | AnnounceStart
    | TryBeat(live: Snapshot) | IssueBeat | RegisterBeat | PumpOnce

  datatype LibraryLabel = Return | Complete(slot: nat, status: int, result: string) | Note | GiveBack

  datatype CloseLabel = EnterDraining | DrainPump | EndDrain | SwapPending | FailOne | StopLibrary | FinishTail

  datatype Label =
    | ByCaller(c: nat, call: CallLabel)
    | ByStarter(start: StartLabel)
    | ByWorld(world: WorldLabel)
    | ByThread(thread: ThreadLabel)
    | InLoop(loop: LoopLabel)
    | ByLibrary(library: LibraryLabel)
    | InClose(close: CloseLabel)

  predicate IsCaller(s: Sys, c: nat, where: Caller) {
    c in s.callers && s.callers[c] == where
  }

  predicate IsWaiting(s: Sys, c: nat, done: bool) {
    && c in s.callers && s.callers[c].Waiting? && s.callers[c].slot in s.calls.slots
    && s.calls.slots[s.callers[c].slot].done == done
  }

  predicate CallEnabled(s: Sys, c: nat, call: CallLabel) {
    match call
    case Check => c !in s.callers && IsServing(s)
    case Enter(_) => IsCaller(s, c, Checked) && c !in s.adm.waiters
    case Retry(_) => IsCaller(s, c, Queued) && c in s.adm.waiters
    case PassGate => IsCaller(s, c, Holding)
    case Refuse => IsCaller(s, c, Refusing)
    case Wake => IsWaiting(s, c, true)
    case TimeOut => IsWaiting(s, c, false)
  }

  function CallNext(s: Sys, c: nat, call: CallLabel): Sys
    requires s.adm.gate.perCall > 0 && CallEnabled(s, c, call)
  {
    match call
    case Check => SetCaller(s, c, Checked)
    case Enter(live) => CallEnter(s, c, live)
    case Retry(live) => CallRetry(s, c, live)
    case PassGate => CallGate(s, c)
    case Refuse => CallRefuse(s, c)
    case Wake => CallWake(s, c)
    case TimeOut => SetCaller(s, c, Left(TimedOut))
  }

  /** A start() is entered only when the last run has finished and no other start() is in its
      prologue: the code checks less, and relies on its callers for this. */
  predicate StartEnabled(s: Sys, start: StartLabel) {
    match start
    case EnterStart(cfg) =>
      s.hs.runFinished && s.starter.NoStart? && !s.hs.runActive && cfg.maxInFlight > 0
    case Size => s.starter.Sizing?
    case Budget(_) => s.starter.Budgeting?
    case Launch => s.starter.Launching?
    case Post(id) => s.starter.Posting? && id !in s.hs.blocked
    case WakeStart(id) => id in s.hs.blocked && s.hs.startDone
    case TimeOutStart(id) => id in s.hs.blocked && !s.hs.startDone
  }

  function StartNext(s: Sys, start: StartLabel): Sys
    requires StartEnabled(s, start)
  {
    match start
    case EnterStart(cfg) => StartEnter(s, cfg)
    case Size => StartSize(s)
    case Budget(live) => StartBudget(s, live)
    case Launch => StartLaunch(s)
    case Post(id) => StartPost(s, id)
    case WakeStart(id) => StartReturn(s, id)
    case TimeOutStart(id) => StartReturn(s, id)
  }

  function WorldNext(s: Sys, world: WorldLabel): Sys {
    match world
    case RequestStop => s.(adm := s.adm.(gate := s.adm.gate.(stopRequested := true)))
    case RequestShutdown => s.(adm := s.adm.(gate := s.adm.gate.(shutdown := true)))
    case Tick(elapsed) => s.(clock := s.clock + elapsed)
  }

  predicate ThreadEnabled(s: Sys, thread: ThreadLabel) {
    match thread
    case Boot => s.pc == Away(Born)
    case PickUpRun => s.pc == Away(Parked) && (s.hs.runRequested || s.adm.gate.shutdown)
    case OpenLibrary(_) => s.pc == Before(Opening)
    case NullReply => s.pc.Before? && s.pc != Before(Opening) && s.pc != Before(Setup)
    case EnterLoop(_) => s.pc == Before(Setup)
  }

  function ThreadNext(s: Sys, thread: ThreadLabel): Sys
    requires ThreadEnabled(s, thread)
  {
    match thread
    case Boot => s.(trace := s.trace + [NimMain], pc := Away(Parked))
    case PickUpRun => PickUp(s)
    case OpenLibrary(ok) => Open(s, ok)
    case NullReply => NullStep(s)
    case EnterLoop(reportedMs) => BeginLoop(s, reportedMs)
  }

  predicate LoopEnabled(s: Sys, loop: LoopLabel) {
    match loop
    case DrainOne => s.pc == Loop(DrainQueue)
    case DispatchOne => s.pc.Loop? && s.pc.loop.Dispatch?
    case CheckStopping => s.pc == Loop(CheckStop)
    case AdvanceSync(_) => s.pc == Loop(StepSync)
    case IssueSyncCall => s.pc.Loop? && s.pc.loop.LaunchSync?
    case AnnounceStart => s.pc.Announce?
    case TryBeat(_) => s.pc == Loop(Beat)
    case IssueBeat => s.pc == Loop(LaunchBeat)
    case RegisterBeat => s.pc.Loop? && s.pc.loop.PushBeat?
    case PumpOnce => s.pc == Loop(Pumping)
  }

  function LoopNext(s: Sys, loop: LoopLabel): Sys
    requires s.adm.gate.perCall > 0 && LoopEnabled(s, loop)
  {
    match loop
    case DrainOne => DrainStep(s)
    case DispatchOne => DispatchStep(s, s.pc.loop.slot)
    case CheckStopping => CheckStopStep(s)
    case AdvanceSync(elapsed) => SyncStep(s, elapsed)
    case IssueSyncCall => LaunchSyncStep(s, s.pc.loop.slot, s.pc.loop.op)
    case AnnounceStart => AnnounceStep(s)
    case TryBeat(live) => BeatStep(s, live)
    case IssueBeat => LaunchBeatStep(s)
    case RegisterBeat => PushBeatStep(s, s.pc.loop.slot)
    case PumpOnce => EnterLib(s, Pump, ToTop)
  }

  /** Completions arrive only while the library is entered, before it was stopped, once per box. */
  predicate LibraryEnabled(s: Sys, library: LibraryLabel) {
    var call := CallOf(s.pc);
    match library
    case Return => call == Some(Inside)
    case Complete(id, _, _) =>
      call == Some(Inside) && id in s.calls.slots && (id in s.calls.callBoxes || id in s.calls.syncBoxes)
    case Note => call.Some? && call.value.Delivered? && call.value.slot in s.calls.slots
    case GiveBack => call.Some? && call.value.Releasing?
  }

  function LibraryNext(s: Sys, library: LibraryLabel): Sys
    requires LibraryEnabled(s, library)
  {
    match library
    case Return => s.(pc := AfterCall(s.pc))
    case Complete(id, status, result) => Callback(s, id, status, result)
    case Note => NoteStep(s, CallOf(s.pc).value.slot, CallOf(s.pc).value.status)
    case GiveBack => ReleaseStep(s)
  }

  predicate CloseEnabled(s: Sys, close: CloseLabel) {
    match close
    case EnterDraining => s.pc == Leaving
    case DrainPump => s.pc == Drains(Drain) && s.calls.inFlight > 0
    case EndDrain => s.pc == Drains(Drain)
    case SwapPending => s.pc == Drains(Swap)
    case FailOne => s.pc.Drains? && s.pc.drain.Fail?
    case StopLibrary => s.pc == Drains(StopLib)
    case FinishTail => s.pc.Tail?
  }

  function CloseNext(s: Sys, close: CloseLabel): Sys
    requires CloseEnabled(s, close)
  {
    match close
    case EnterDraining => LeaveStep(s)
    case DrainPump => s.(trace := s.trace + [Pump], pc := Drains(DrainCall(Inside)))
    case EndDrain => s.(pc := Drains(Swap))
    case SwapPending => SwapStep(s)
    case FailOne => FailStep(s, s.pc.drain.rest)
    case StopLibrary => s.(trace := s.trace + [Stop], pc := Tail(FreeLib))
    case FinishTail => TailStep(s)
  }

  predicate Enabled(s: Sys, l: Label) {
    s.adm.gate.perCall > 0 &&
    match l
    case ByCaller(c, call) => CallEnabled(s, c, call)
    case ByStarter(start) => StartEnabled(s, start)
    case ByWorld(_) => true
    case ByThread(thread) => ThreadEnabled(s, thread)
    case InLoop(loop) => LoopEnabled(s, loop)
    case ByLibrary(library) => LibraryEnabled(s, library)
    case InClose(close) => CloseEnabled(s, close)
  }

  function Next(s: Sys, l: Label): Sys
    requires Enabled(s, l)
  {
    match l
    case ByCaller(c, call) => CallNext(s, c, call)
    case ByStarter(start) => StartNext(s, start)
    case ByWorld(world) => WorldNext(s, world)
    case ByThread(thread) => ThreadNext(s, thread)
    case InLoop(loop) => LoopNext(s, loop)
    case ByLibrary(library) => LibraryNext(s, library)
    case InClose(close) => CloseNext(s, close)
  }

  predicate Legal(s: Sys, ls: seq<Label>)
    decreases |ls|
  {
    ls == [] || (Enabled(s, ls[0]) && Legal(Next(s, ls[0]), ls[1..]))
  }

  function Exec(s: Sys, ls: seq<Label>): Sys
    requires Legal(s, ls)
    decreases |ls|
  {
    if ls == [] then s else Exec(Next(s, ls[0]), ls[1..])
  }
}
