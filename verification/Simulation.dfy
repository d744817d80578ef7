/** The runtime object does what the step relation says: each method, called on an object that shows
    a state of the step relation, leaves it showing the state a named sequence of steps leads to. */
module Simulation {
  import opened ResourceBudget
  import opened Slots
  import opened SyncHealth
  import opened Runs
  import opened Runtime
  import opened RuntimeSteps
  import opened CallTable
  import opened ProxyRuntime
  import RunHealth
  import A = Admission

  function HeldOf(calls: Calls): Lists {
    Lists(calls.nextId, calls.queue, calls.pending, calls.inFlight, calls.callBoxes, calls.syncBoxes)
  }

  /** The part of the state the cycle reads and writes. */
  function SyncViewOf(s: Sys): SyncView {
    SyncView(s.health, s.hs.startDone, s.hs.startOk, s.calls.slots, HeldOf(s.calls), s.trace)
  }

  /** The object's fields are the state's. */
  ghost predicate Shows(rt: ProxyRuntime, s: Sys)
    reads rt, rt.gate, rt.calls, rt.calls.slots.Values, rt.health
  {
    rt.Synced() == SyncViewOf(s) && ShowsRest(rt, s)
  }

  ghost predicate ShowsRest(rt: ProxyRuntime, s: Sys)
    reads rt, rt.gate
  {
    && rt.gate.Admissions() == s.adm && rt.cfg == s.cfg
    && rt.runRequested == s.hs.runRequested && rt.runFinished == s.hs.runFinished && rt.runActive == s.hs.runActive
  }

  /** The rest of what the object shows. */
  ghost predicate SameBesides(s: Sys, s': Sys) {
    && s'.adm == s.adm && s'.cfg == s.cfg
    && s'.hs.runRequested == s.hs.runRequested && s'.hs.runFinished == s.hs.runFinished && s'.hs.runActive == s.hs.runActive
  }

  // ---------------------------------------------------------------------------
  // The enqueue gate
  // ---------------------------------------------------------------------------

  /** A caller at the enqueue gate passes it, or is refused and gives its reservation back. */
  function EnqueueSteps(s: Sys, c: nat): seq<Label> {
    if A.Closing(s.adm.gate) then [ByCaller(c, PassGate), ByCaller(c, Refuse)] else [ByCaller(c, PassGate)]
  }

  lemma EnqueueRuns(s: Sys, c: nat)
    requires s.adm.gate.perCall > 0 && CallEnabled(s, c, PassGate)
    ensures Legal(s, EnqueueSteps(s, c))
    ensures Exec(s, EnqueueSteps(s, c)) == if A.Closing(s.adm.gate) then CallRefuse(CallGate(s, c), c) else CallGate(s, c)
  {
    if A.Closing(s.adm.gate) {
      Two(s, ByCaller(c, PassGate), ByCaller(c, Refuse));
    } else {
      One(s, ByCaller(c, PassGate));
    }
  }

  method Enqueue(rt: ProxyRuntime, owned: set<nat>, ghost s: Sys, ghost c: nat) returns (queued: bool, id: nat)
    requires rt.calls.Valid() && Shows(rt, s) && owned == Owned(s)
    requires s.adm.gate.perCall > 0 && CallEnabled(s, c, PassGate)
    modifies rt.gate, rt.calls
    ensures rt.calls.Valid() && Legal(s, EnqueueSteps(s, c)) && Shows(rt, Exec(s, EnqueueSteps(s, c)))
    ensures IsCaller(Exec(s, EnqueueSteps(s, c)), c, if queued then Waiting(id) else Left(Refused))
  {
    EnqueueRuns(s, c);
    queued, id := rt.EnqueueCall(owned);
  }

  // ---------------------------------------------------------------------------
  // The sync cycle
  // ---------------------------------------------------------------------------

  /** One step of the cycle, then the launch it decided on, or the answer the first good cycle owes. */
  function AdvanceSteps(s: Sys, elapsed: nat): seq<Label> {
    match SyncAction(s.health, s.cfg.op, s.clock)
    case Nothing => [InLoop(AdvanceSync(elapsed))]
    case Finish =>
      if ReleasesStart(s.health) then [InLoop(AdvanceSync(elapsed)), InLoop(AnnounceStart), InLoop(AnnounceStart)]
      else [InLoop(AdvanceSync(elapsed))]
    case _ => [InLoop(AdvanceSync(elapsed)), InLoop(IssueSyncCall)]
  }

  /** Where they lead. */
  function AdvanceEnd(s: Sys, elapsed: nat): Sys
    requires s.pc == Loop(StepSync)
  {
    var s' := SyncStep(s, elapsed);
    match SyncAction(s.health, s.cfg.op, s.clock)
    case Nothing => s'
    case Finish => if ReleasesStart(s.health) then AnnounceStep(AnnounceStep(s')) else s'
    case IssueEth => LaunchSyncStep(s', s.calls.nextId, false)
    case IssueOp => LaunchSyncStep(s', s.calls.nextId, true)
  }

  lemma AdvanceRuns(s: Sys, elapsed: nat)
    requires s.adm.gate.perCall > 0 && s.pc == Loop(StepSync)
    ensures Legal(s, AdvanceSteps(s, elapsed)) && Exec(s, AdvanceSteps(s, elapsed)) == AdvanceEnd(s, elapsed)
  {
    match SyncAction(s.health, s.cfg.op, s.clock)
    case Nothing => One(s, InLoop(AdvanceSync(elapsed)));
    case Finish =>
      if ReleasesStart(s.health) {
        Three(s, InLoop(AdvanceSync(elapsed)), InLoop(AnnounceStart), InLoop(AnnounceStart));
      } else {
        One(s, InLoop(AdvanceSync(elapsed)));
      }
    case _ => Two(s, InLoop(AdvanceSync(elapsed)), InLoop(IssueSyncCall));
  }

  lemma AdvanceIssues(s: Sys, s': Sys, op: bool)
    requires s' == RegisterSync(s, op).(health := s'.health, clock := s'.clock)
    ensures var t := LaunchSyncStep(s', s.calls.nextId, op);
            SyncViewOf(t) == SyncIssued(SyncViewOf(s).(health := s'.health), op, Owned(s)) && SameBesides(s, t)
  {
  }

  lemma AdvanceAnswers(s: Sys, elapsed: nat)
    requires s.pc == Loop(StepSync) && SyncAction(s.health, s.cfg.op, s.clock) == Finish
    ensures SyncViewOf(AdvanceEnd(s, elapsed)) == CycleEnded(SyncViewOf(s)) && SameBesides(s, AdvanceEnd(s, elapsed))
  {
    var s' := SyncStep(s, elapsed);
    VerdictIsIn(s, elapsed);
    if ReleasesStart(s.health) {
      TwoAnnouncements(s');
    }
  }

  lemma VerdictIsIn(s: Sys, elapsed: nat)
    requires s.pc == Loop(StepSync) && SyncAction(s.health, s.cfg.op, s.clock) == Finish
    ensures var s' := SyncStep(s, elapsed);
            && SyncViewOf(s') == SyncViewOf(s).(health := FinishCycle(s.health)) && SameBesides(s, s')
            && (ReleasesStart(s.health) ==> s'.pc == Announce(true, false))
  {
    var f := FinishCycle(s.health);
    assert SyncStep(s, elapsed) == s.(health := f, hs := SyncStep(s, elapsed).hs, pc := SyncStep(s, elapsed).pc);
  }

  lemma TwoAnnouncements(s: Sys)
    requires s.pc == Announce(true, false)
    ensures var t, v := AnnounceStep(AnnounceStep(s)), SyncViewOf(s);
            && SyncViewOf(t) == v.(health := Emit(v.health, ProxyStarted(true)), startDone := true, startOk := true)
            && SameBesides(s, t)
  {
  }

  /** The steps move that part as the object's method does. */
  lemma AdvanceMoves(s: Sys, elapsed: nat)
    requires s.pc == Loop(StepSync)
    ensures var t, action := AdvanceEnd(s, elapsed), SyncAction(s.health, s.cfg.op, s.clock);
            SyncViewOf(t) == SyncAdvanced(SyncViewOf(s), action, s.clock + elapsed, Owned(s)) && SameBesides(s, t)
  {
    match SyncAction(s.health, s.cfg.op, s.clock)
    case Nothing =>
    case Finish => AdvanceAnswers(s, elapsed);
    case IssueEth => AdvanceIssues(s, SyncStep(s, elapsed), false);
    case IssueOp => AdvanceIssues(s, SyncStep(s, elapsed), true);
  }

  method Advance(rt: ProxyRuntime, elapsed: nat, owned: set<nat>, ghost s: Sys, now: int)
    requires rt.calls.Valid() && Shows(rt, s) && owned == Owned(s) && now == s.clock
    requires s.adm.gate.perCall > 0 && s.pc == Loop(StepSync)
    modifies rt.calls, rt.health, rt`trace
    ensures rt.calls.Valid() && Legal(s, AdvanceSteps(s, elapsed)) && Shows(rt, Exec(s, AdvanceSteps(s, elapsed)))
  {
    AdvanceRuns(s, elapsed);
    AdvanceMoves(s, elapsed);
    AdvanceTo(rt, now, now + elapsed, owned, s, AdvanceEnd(s, elapsed));
  }

  method AdvanceTo(rt: ProxyRuntime, now: int, stamp: int, owned: set<nat>, ghost s: Sys, ghost t: Sys)
    requires rt.calls.Valid() && Shows(rt, s) && SameBesides(s, t)
    requires SyncViewOf(t) == SyncAdvanced(SyncViewOf(s), SyncAction(s.health, s.cfg.op, now), stamp, owned)
    modifies rt.calls, rt.health, rt`trace
    ensures rt.calls.Valid() && Shows(rt, t)
  {
    rt.AdvanceSync(now, stamp, owned);
  }

  // ---------------------------------------------------------------------------
  // A completion
  // ---------------------------------------------------------------------------

  /** The outcome reaches its slot, is noted by kind, and a call's reservation is given back. */
  function LandSteps(s: Sys, id: nat, status: int, result: string): seq<Label>
    requires id in s.calls.slots
  {
    var noted := [ByLibrary(Complete(id, status, result)), ByLibrary(Note)];
    if IsSync(s.calls.slots[id].kind) then noted else noted + [ByLibrary(GiveBack)]
  }

  function LandEnd(s: Sys, id: nat, status: int, result: string): Sys
    requires id in s.calls.slots
  {
    var noted := NoteStep(Callback(s, id, status, result), id, status);
    if IsSync(s.calls.slots[id].kind) then noted else ReleaseStep(noted)
  }

  lemma LandRuns(s: Sys, id: nat, status: int, result: string)
    requires s.adm.gate.perCall > 0 && LibraryEnabled(s, Complete(id, status, result))
    ensures Legal(s, LandSteps(s, id, status, result))
    ensures Exec(s, LandSteps(s, id, status, result)) == LandEnd(s, id, status, result)
  {
    NoteFollows(s, id, status, result);
    if IsSync(s.calls.slots[id].kind) {
      Two(s, ByLibrary(Complete(id, status, result)), ByLibrary(Note));
    } else {
      Three(s, ByLibrary(Complete(id, status, result)), ByLibrary(Note), ByLibrary(GiveBack));
    }
  }

  lemma NoteFollows(s: Sys, id: nat, status: int, result: string)
    requires LibraryEnabled(s, Complete(id, status, result))
    ensures var s1 := Callback(s, id, status, result);
            && s1.adm == s.adm && CallOf(s1.pc) == Some(Delivered(id, status)) && id in s1.calls.slots
            && s1.calls.slots[id].kind == s.calls.slots[id].kind
            && var s2 := NoteStep(s1, id, status);
               s2.adm == s.adm
               && (!IsSync(s.calls.slots[id].kind) ==> CallOf(s2.pc) == Some(Releasing(id, status)))
  {
  }

  function Landed(v: SyncView, id: nat, status: int, result: string): SyncView
    requires id in v.slots
  {
    var slot := Slots.Complete(v.slots[id], status, result);
    v.(health := RunHealth.Noted(v.health, slot.kind, slot.status), slots := v.slots[id := slot],
       held := v.held.(callBoxes := v.held.callBoxes - {id}, syncBoxes := v.held.syncBoxes - {id}, inFlight := v.held.inFlight - 1))
  }

  lemma LandMoves(s: Sys, id: nat, status: int, result: string)
    requires id in s.calls.slots
    ensures var t, kind := LandEnd(s, id, status, result), s.calls.slots[id].kind;
            && SyncViewOf(t) == Landed(SyncViewOf(s), id, status, result)
            && SameBesides(s, t.(adm := s.adm))
            && t.adm == if IsSync(kind) then s.adm else s.adm.(gate := A.ReleaseGate(s.adm.gate))
  {
    var s1 := Callback(s, id, status, result);
    NoteMoves(s1, id, status);
  }

  lemma NoteMoves(s: Sys, id: nat, status: int)
    requires id in s.calls.slots
    ensures var t, slot, v := NoteStep(s, id, status), s.calls.slots[id], SyncViewOf(s);
            && SyncViewOf(t) == v.(health := RunHealth.Noted(v.health, slot.kind, slot.status), held := v.held.(inFlight := v.held.inFlight - 1))
            && SameBesides(s, t)
  {
  }

  method Land(rt: ProxyRuntime, id: nat, status: int, result: string, ghost s: Sys)
    requires rt.calls.Valid() && rt.calls.Counted() && Shows(rt, s) && rt.calls.Outstanding(id)
    requires s.adm.gate.perCall > 0 && LibraryEnabled(s, Complete(id, status, result))
    modifies rt.calls.slots[id], rt.calls`callBoxes, rt.calls`syncBoxes, rt.calls`inFlight, rt.gate, rt.health, rt`callsFailed
    ensures rt.calls.Valid() && rt.calls.Counted()
    ensures Legal(s, LandSteps(s, id, status, result)) && Shows(rt, Exec(s, LandSteps(s, id, status, result)))
  {
    LandRuns(s, id, status, result);
    LandMoves(s, id, status, result);
    LandTo(rt, id, status, result, s, LandEnd(s, id, status, result));
  }

  method LandTo(rt: ProxyRuntime, id: nat, status: int, result: string, ghost s: Sys, ghost t: Sys)
    requires rt.calls.Valid() && rt.calls.Counted() && Shows(rt, s) && rt.calls.Outstanding(id) && id in s.calls.slots
    requires SyncViewOf(t) == Landed(SyncViewOf(s), id, status, result) && SameBesides(s, t.(adm := s.adm))
    requires t.adm == if IsSync(s.calls.slots[id].kind) then s.adm else s.adm.(gate := A.ReleaseGate(s.adm.gate))
    modifies rt.calls.slots[id], rt.calls`callBoxes, rt.calls`syncBoxes, rt.calls`inFlight, rt.gate, rt.health, rt`callsFailed
    ensures rt.calls.Valid() && rt.calls.Counted() && Shows(rt, t)
  {
    assert id in rt.calls.Views();
    assert rt.calls.slots[id].View() == s.calls.slots[id];
    rt.CallbackTrampoline(id, status, result);
    assert rt.Synced() == Landed(SyncViewOf(s), id, status, result);
  }

  // ---------------------------------------------------------------------------
  // start() up to its wait
  // ---------------------------------------------------------------------------

  function PrologueSteps(cfg: Config, initial: Snapshot, id: nat): seq<Label> {
    var sized := [ByStarter(EnterStart(cfg)), ByStarter(Size), ByStarter(Budget(initial))];
    if NoRoomToStart(cfg, initial) then sized else sized + [ByStarter(Launch), ByStarter(Post(id))]
  }

  function Sized(s: Sys, cfg: Config, initial: Snapshot): Sys {
    StartBudget(StartSize(StartEnter(s, cfg)), initial)
  }

  function PrologueEnd(s: Sys, cfg: Config, initial: Snapshot, id: nat): Sys {
    if NoRoomToStart(cfg, initial) then Sized(s, cfg, initial) else StartPost(StartLaunch(Sized(s, cfg, initial)), id)
  }

  lemma PrologueRuns(s: Sys, cfg: Config, initial: Snapshot, id: nat)
    requires s.adm.gate.perCall > 0 && StartEnabled(s, EnterStart(cfg)) && id !in s.hs.blocked
    ensures Legal(s, PrologueSteps(cfg, initial, id))
    ensures Exec(s, PrologueSteps(cfg, initial, id)) == PrologueEnd(s, cfg, initial, id)
  {
    var l1, l2, l3 := ByStarter(EnterStart(cfg)), ByStarter(Size), ByStarter(Budget(initial));
    SizingFollows(s, cfg, initial, id);
    if NoRoomToStart(cfg, initial) {
      Three(s, l1, l2, l3);
    } else {
      Two(Sized(s, cfg, initial), ByStarter(Launch), ByStarter(Post(id)));
      ThreeMore(s, l1, l2, l3, [ByStarter(Launch), ByStarter(Post(id))]);
    }
  }

  lemma SizingFollows(s: Sys, cfg: Config, initial: Snapshot, id: nat)
    requires s.adm.gate.perCall > 0 && StartEnabled(s, EnterStart(cfg)) && id !in s.hs.blocked
    ensures Enabled(StartEnter(s, cfg), ByStarter(Size))
    ensures Enabled(StartSize(StartEnter(s, cfg)), ByStarter(Budget(initial)))
    ensures var s3 := Sized(s, cfg, initial);
            !NoRoomToStart(cfg, initial) ==>
              s3.starter == Launching && s3.adm.gate.perCall > 0 && s3.hs == s.hs
  {
  }

  ghost predicate PrologueLeads(s: Sys, cfg: Config, initial: Snapshot, t: Sys) {
    var ok := !NoRoomToStart(cfg, initial);
    && t.adm == s.adm.(gate := A.RestartGate(s.adm.gate).(
         perCall := PerCall(cfg.parallelBlockDownloads), effective := EffectiveMax(cfg, initial)))
    && t.health == SetState(s.health, if ok then Starting else RunState.Failed)
    && t.cfg == cfg && t.calls == s.calls.(inFlight := 0) && t.trace == s.trace
    && t.hs.runActive == s.hs.runActive
    && (if ok then t.hs.runRequested && !t.hs.runFinished && !t.hs.startDone && !t.hs.startOk else t.hs == s.hs)
  }

  lemma PrologueMoves(s: Sys, cfg: Config, initial: Snapshot, id: nat)
    ensures PrologueLeads(s, cfg, initial, PrologueEnd(s, cfg, initial, id))
  {
    SizedMoves(s, cfg, initial);
  }

  lemma SizedMoves(s: Sys, cfg: Config, initial: Snapshot)
    ensures var t := Sized(s, cfg, initial);
            && t.adm == s.adm.(gate := A.RestartGate(s.adm.gate).(
                 perCall := PerCall(cfg.parallelBlockDownloads), effective := EffectiveMax(cfg, initial)))
            && t.health == (if NoRoomToStart(cfg, initial) then SetState(s.health, RunState.Failed) else s.health)
            && t.cfg == cfg && t.calls == s.calls.(inFlight := 0) && t.trace == s.trace && t.hs == s.hs
  {
  }

  method Prologue(rt: ProxyRuntime, cfg: Config, initial: Snapshot, ghost s: Sys, ghost id: nat) returns (ok: bool)
    requires Shows(rt, s) && s.adm.gate.perCall > 0 && StartEnabled(s, EnterStart(cfg)) && id !in s.hs.blocked
    modifies rt`cfg, rt`runRequested, rt`runFinished, rt.gate, rt.health, rt.calls`inFlight
    ensures ok == !NoRoomToStart(cfg, initial)
    ensures Legal(s, PrologueSteps(cfg, initial, id)) && Shows(rt, Exec(s, PrologueSteps(cfg, initial, id)))
  {
    PrologueRuns(s, cfg, initial, id);
    PrologueMoves(s, cfg, initial, id);
    ok := PrologueTo(rt, cfg, initial, s, PrologueEnd(s, cfg, initial, id));
  }

  method PrologueTo(rt: ProxyRuntime, cfg: Config, initial: Snapshot, ghost s: Sys, ghost t: Sys) returns (ok: bool)
    requires Shows(rt, s) && !s.hs.runActive && PrologueLeads(s, cfg, initial, t)
    modifies rt`cfg, rt`runRequested, rt`runFinished, rt.gate, rt.health, rt.calls`inFlight
    ensures ok == !NoRoomToStart(cfg, initial) && Shows(rt, t)
  {
    ok := rt.StartPrologue(cfg, initial);
  }

  // ---------------------------------------------------------------------------
  // The heartbeat
  // ---------------------------------------------------------------------------

  predicate BeatIssues(s: Sys, live: Snapshot)
    requires s.adm.gate.perCall > 0
  {
    BeatDue(s) && A.HeartbeatAdmitted(s.adm.gate, live)
  }

  function BeatSteps(s: Sys, live: Snapshot): seq<Label>
    requires s.adm.gate.perCall > 0
  {
    if BeatIssues(s, live) then [InLoop(TryBeat(live))] + [InLoop(IssueBeat), ByLibrary(Return), InLoop(RegisterBeat)]
    else [InLoop(TryBeat(live))]
  }

  function BeatReturned(s: Sys, live: Snapshot): Sys
    requires s.adm.gate.perCall > 0
  {
    var issued := LaunchBeatStep(BeatStep(s, live));
    issued.(pc := AfterCall(issued.pc))
  }

  function BeatEnd(s: Sys, live: Snapshot): Sys
    requires s.adm.gate.perCall > 0
  {
    if BeatIssues(s, live) then PushBeatStep(BeatReturned(s, live), s.calls.nextId) else BeatStep(s, live)
  }

  lemma BeatRuns(s: Sys, live: Snapshot)
    requires s.adm.gate.perCall > 0 && s.pc == Loop(Beat)
    ensures Legal(s, BeatSteps(s, live)) && Exec(s, BeatSteps(s, live)) == BeatEnd(s, live)
  {
    if BeatIssues(s, live) {
      var s1 := BeatStep(s, live);
      assert s1.pc == Loop(LaunchBeat) && s1.adm.gate.perCall == s.adm.gate.perCall;
      BeatComesBack(s1);
      Three(s1, InLoop(IssueBeat), ByLibrary(Return), InLoop(RegisterBeat));
      Cons(s, InLoop(TryBeat(live)), [InLoop(IssueBeat), ByLibrary(Return), InLoop(RegisterBeat)]);
    } else {
      One(s, InLoop(TryBeat(live)));
    }
  }

  lemma BeatComesBack(s: Sys)
    requires s.pc == Loop(LaunchBeat)
    ensures var s1 := LaunchBeatStep(s);
            && s1.adm == s.adm && CallOf(s1.pc) == Some(Inside) && AfterCall(s1.pc) == Loop(PushBeat(s.calls.nextId))
  {
  }

  function BeatMoved(v: SyncView, issued: bool, due: bool, next: int, owned: set<nat>): SyncView {
    var id := v.held.nextId;
    var timed := v.(health := v.health.(heartbeatInFlight := v.health.heartbeatInFlight || issued,
                                        nextBeat := if due then next else v.health.nextBeat));
    if !issued then timed
    else timed.(slots := v.slots[id := NewSlot(Heartbeat)],
                held := v.held.(nextId := id + 1, pending := Prune(v.held.pending, owned) + [id],
                                callBoxes := v.held.callBoxes + {id}, inFlight := v.held.inFlight + 1),
                trace := v.trace + [ProxyCall])
  }

  lemma BeatMoves(s: Sys, live: Snapshot)
    requires s.adm.gate.perCall > 0 && s.pc == Loop(Beat)
    ensures var t := BeatEnd(s, live);
            && SyncViewOf(t) == BeatMoved(SyncViewOf(s), BeatIssues(s, live), BeatDue(s),
                                          s.clock + s.cfg.keepAliveIntervalMs, Owned(s) + {s.calls.nextId})
            && SameBesides(s, t.(adm := s.adm))
            && t.adm == if BeatDue(s) then A.TryAdmit(s.adm, live) else s.adm
  {
    if BeatIssues(s, live) {
      BeatOwns(s, live);
    }
  }

  lemma BeatOwns(s: Sys, live: Snapshot)
    requires s.adm.gate.perCall > 0 && s.pc == Loop(Beat) && BeatIssues(s, live)
    ensures Owned(BeatReturned(s, live)) == Owned(s) + {s.calls.nextId}
  {
  }

  method TakeBeat(rt: ProxyRuntime, live: Snapshot, owned: set<nat>, now: int, ghost s: Sys)
    requires rt.calls.Valid() && Shows(rt, s) && owned == Owned(s) + {s.calls.nextId} && now == s.clock
    requires s.adm.gate.perCall > 0 && s.pc == Loop(Beat)
    modifies rt.gate, rt.calls, rt.health, rt`trace
    ensures rt.calls.Valid() && Legal(s, BeatSteps(s, live)) && Shows(rt, Exec(s, BeatSteps(s, live)))
  {
    BeatRuns(s, live);
    BeatMoves(s, live);
    TakeBeatTo(rt, live, owned, now, s, BeatEnd(s, live));
  }

  method TakeBeatTo(rt: ProxyRuntime, live: Snapshot, owned: set<nat>, now: int, ghost s: Sys, ghost t: Sys)
    requires rt.calls.Valid() && Shows(rt, s) && s.adm.gate.perCall > 0 && now == s.clock
    requires SyncViewOf(t) == BeatMoved(SyncViewOf(s), BeatIssues(s, live), BeatDue(s), now + s.cfg.keepAliveIntervalMs, owned)
    requires SameBesides(s, t.(adm := s.adm)) && t.adm == if BeatDue(s) then A.TryAdmit(s.adm, live) else s.adm
    modifies rt.gate, rt.calls, rt.health, rt`trace
    ensures rt.calls.Valid() && Shows(rt, t)
  {
    rt.KeepAlive(now, now, live, owned);
  }

  // ---------------------------------------------------------------------------
  // Draining the command queue
  // ---------------------------------------------------------------------------

  /** Each command is taken, handed over, and the library returns; then the queue is found empty. */
  function DrainSteps(queue: seq<nat>): seq<Label> {
    if queue == [] then [InLoop(DrainOne)]
    else [InLoop(DrainOne)] + ([InLoop(DispatchOne)] + ([ByLibrary(Return)] + DrainSteps(queue[1..])))
  }

  function DrainEnd(s: Sys): Sys {
    s.(calls := s.calls.(queue := [], callBoxes := s.calls.callBoxes + Elements(s.calls.queue), inFlight := s.calls.inFlight + |s.calls.queue|),
       trace := s.trace + seq(|s.calls.queue|, _ => ProxyCall), pc := Loop(CheckStop))
  }

  /** The state after the first command. */
  function OneDrained(s: Sys): Sys
    requires s.calls.queue != []
  {
    s.(calls := s.calls.(queue := s.calls.queue[1..], callBoxes := s.calls.callBoxes + {s.calls.queue[0]}, inFlight := s.calls.inFlight + 1),
       trace := s.trace + [ProxyCall])
  }

  lemma {:induction false} DrainRuns(s: Sys)
    requires s.adm.gate.perCall > 0 && s.pc == Loop(DrainQueue)
    ensures Legal(s, DrainSteps(s.calls.queue)) && Exec(s, DrainSteps(s.calls.queue)) == DrainEnd(s)
    decreases |s.calls.queue|
  {
    if s.calls.queue == [] {
      One(s, InLoop(DrainOne));
      assert DrainEnd(s) == DrainStep(s);
    } else {
      var s3, rest := OneDrained(s), DrainSteps(s.calls.queue[1..]);
      DrainRuns(s3);
      OneDrains(s);
      Cons(DispatchStep(DrainStep(s), s.calls.queue[0]), ByLibrary(Return), rest);
      Cons(DrainStep(s), InLoop(DispatchOne), [ByLibrary(Return)] + rest);
      Cons(s, InLoop(DrainOne), [InLoop(DispatchOne)] + ([ByLibrary(Return)] + rest));
      DrainEndsAlike(s);
    }
  }

  lemma OneDrains(s: Sys)
    requires s.adm.gate.perCall > 0 && s.pc == Loop(DrainQueue) && s.calls.queue != []
    ensures Enabled(s, InLoop(DrainOne)) && Next(s, InLoop(DrainOne)) == DrainStep(s)
    ensures var s1 := DrainStep(s);
            && Enabled(s1, InLoop(DispatchOne)) && Next(s1, InLoop(DispatchOne)) == DispatchStep(s1, s.calls.queue[0])
    ensures var s2 := DispatchStep(DrainStep(s), s.calls.queue[0]);
            && Enabled(s2, ByLibrary(Return)) && Next(s2, ByLibrary(Return)) == OneDrained(s)
  {
  }

  lemma DrainEndsAlike(s: Sys)
    requires s.calls.queue != []
    ensures DrainEnd(OneDrained(s)) == DrainEnd(s)
  {
    var q := s.calls.queue;
    assert Elements(q) == {q[0]} + Elements(q[1..]);
    assert [ProxyCall] + seq(|q| - 1, _ => ProxyCall) == seq(|q|, _ => ProxyCall);
  }

  method DrainAll(rt: ProxyRuntime, ghost s: Sys)
    requires rt.calls.Valid() && Shows(rt, s) && s.adm.gate.perCall > 0 && s.pc == Loop(DrainQueue)
    modifies rt.calls, rt`trace, rt`callsTotal
    ensures rt.calls.Valid() && Legal(s, DrainSteps(s.calls.queue)) && Shows(rt, Exec(s, DrainSteps(s.calls.queue)))
  {
    DrainRuns(s);
    rt.DrainCommands();
  }

  // ---------------------------------------------------------------------------
  // Shutdown's walk
  // ---------------------------------------------------------------------------

  function WalkSteps(rest: seq<nat>): seq<Label> {
    if rest == [] then [InClose(FailOne)] else [InClose(FailOne)] + WalkSteps(rest[1..])
  }

  /** The walk ends with the lists as they were and the slots walked over. */
  ghost predicate Walked(s: Sys, s': Sys, rest: seq<nat>) {
    && s' == s.(calls := s.calls.(slots := s'.calls.slots, leakedCalls := s'.calls.leakedCalls), pc := Drains(StopLib))
    && WalkedOver(s.calls.slots, s'.calls.slots, rest, Owned(s), SHUTTING_DOWN)
    && s'.calls.leakedCalls == s.calls.leakedCalls + |Released(s.calls.slots, rest, Owned(s))|
  }

  lemma {:induction false} WalkRuns(s: Sys, rest: seq<nat>)
    requires s.adm.gate.perCall > 0 && s.pc == Drains(Fail(rest)) && forall id :: id in rest ==> id in s.calls.slots
    ensures Legal(s, WalkSteps(rest)) && Walked(s, Exec(s, WalkSteps(rest)), rest)
    decreases |rest|
  {
    if rest == [] {
      One(s, InClose(FailOne));
      assert Released(s.calls.slots, rest, Owned(s)) == {};
    } else {
      var s1 := FailStep(s, rest);
      FailStays(s, rest);
      WalkRuns(s1, rest[1..]);
      Cons(s, InClose(FailOne), WalkSteps(rest[1..]));
      WalkGrowsAtFront(s, s1, Exec(s1, WalkSteps(rest[1..])), rest);
    }
  }

  lemma FailStays(s: Sys, rest: seq<nat>)
    requires s.adm.gate.perCall > 0 && s.pc == Drains(Fail(rest)) && rest != [] && rest[0] in s.calls.slots
    ensures var s1, id := FailStep(s, rest), rest[0];
            && s1 == s.(calls := s.calls.(slots := s1.calls.slots, leakedCalls := s1.calls.leakedCalls), pc := Drains(Fail(rest[1..])))
            && s1.calls.slots == (if id in Owned(s) then s.calls.slots[id := Slots.Complete(s.calls.slots[id], RET_ERROR, SHUTTING_DOWN)]
                                  else s.calls.slots)
            && s1.calls.leakedCalls == s.calls.leakedCalls + (if id in Owned(s) && !s.calls.slots[id].done then 1 else 0)
            && Owned(s1) == Owned(s)
  {
    var s1 := FailStep(s, rest);
    assert HandSlots(s1.pc) == HandSlots(s.pc) == {};
  }

  lemma WalkGrowsAtFront(s: Sys, s1: Sys, s': Sys, rest: seq<nat>)
    requires rest != [] && rest[0] in s.calls.slots && Walked(s1, s', rest[1..]) && Owned(s1) == Owned(s)
    requires s1 == s.(calls := s.calls.(slots := s1.calls.slots, leakedCalls := s1.calls.leakedCalls), pc := s1.pc)
    requires s1.calls.slots == if rest[0] in Owned(s) then s.calls.slots[rest[0] := Slots.Complete(s.calls.slots[rest[0]], RET_ERROR, SHUTTING_DOWN)]
                               else s.calls.slots
    requires s1.calls.leakedCalls == s.calls.leakedCalls + if rest[0] in Owned(s) && !s.calls.slots[rest[0]].done then 1 else 0
    ensures Walked(s, s', rest)
  {
    var id, owned := rest[0], Owned(s);
    assert forall i :: i in rest <==> i == id || i in rest[1..];
    var later := Released(s1.calls.slots, rest[1..], owned);
    if id in owned && !s.calls.slots[id].done {
      assert Released(s.calls.slots, rest, owned) == later + {id};
    } else {
      assert Released(s.calls.slots, rest, owned) == later;
    }
  }

  lemma WalkedAlike(before: map<nat, Slot>, a: map<nat, Slot>, b: map<nat, Slot>, walked: seq<nat>, owned: set<nat>)
    requires WalkedOver(before, a, walked, owned, SHUTTING_DOWN) && WalkedOver(before, b, walked, owned, SHUTTING_DOWN)
    ensures a == b
  {
  }

  /** The list is taken, then walked. */
  function FailSteps(pending: seq<nat>): seq<Label> {
    [InClose(SwapPending)] + WalkSteps(pending)
  }

  lemma FailRuns(s: Sys)
    requires s.adm.gate.perCall > 0 && s.pc == Drains(Swap) && forall id :: id in s.calls.pending ==> id in s.calls.slots
    ensures Legal(s, FailSteps(s.calls.pending))
    ensures var t, v := Exec(s, FailSteps(s.calls.pending)), SyncViewOf(s);
            && SyncViewOf(t) == v.(slots := t.calls.slots, held := v.held.(pending := [], queue := [])) && SameBesides(s, t)
            && WalkedOver(s.calls.slots, t.calls.slots, s.calls.pending, Owned(SwapStep(s)), SHUTTING_DOWN)
            && t.calls.leakedCalls == s.calls.leakedCalls + |Released(s.calls.slots, s.calls.pending, Owned(SwapStep(s)))|
  {
    WalkRuns(SwapStep(s), s.calls.pending);
    Cons(s, InClose(SwapPending), WalkSteps(s.calls.pending));
  }

  method FailAll(rt: ProxyRuntime, owned: set<nat>, ghost s: Sys)
    requires rt.calls.Valid() && Shows(rt, s) && s.adm.gate.perCall > 0 && s.pc == Drains(Swap) && owned == Owned(SwapStep(s))
    modifies rt.calls, rt.calls.slots.Values
    ensures rt.calls.Valid() && Legal(s, FailSteps(s.calls.pending)) && Shows(rt, Exec(s, FailSteps(s.calls.pending)))
    ensures rt.calls.leaked - old(rt.calls.leaked) == Exec(s, FailSteps(s.calls.pending)).calls.leakedCalls - s.calls.leakedCalls
  {
    PendingIsKnown(rt, s);
    FailRuns(s);
    FailAllTo(rt, owned, s, Exec(s, FailSteps(s.calls.pending)));
  }

  lemma PendingIsKnown(rt: ProxyRuntime, s: Sys)
    requires rt.calls.Valid() && Shows(rt, s)
    ensures forall id :: id in s.calls.pending ==> id in s.calls.slots
  {
    assert rt.calls.Views().Keys == rt.calls.slots.Keys;
    assert rt.calls.Views() == s.calls.slots;
  }

  method FailAllTo(rt: ProxyRuntime, owned: set<nat>, ghost s: Sys, ghost t: Sys)
    requires rt.calls.Valid() && Shows(rt, s) && SameBesides(s, t)
    requires var v := SyncViewOf(s); SyncViewOf(t) == v.(slots := t.calls.slots, held := v.held.(pending := [], queue := []))
    requires WalkedOver(s.calls.slots, t.calls.slots, s.calls.pending, owned, SHUTTING_DOWN)
    requires t.calls.leakedCalls == s.calls.leakedCalls + |Released(s.calls.slots, s.calls.pending, owned)|
    modifies rt.calls, rt.calls.slots.Values
    ensures rt.calls.Valid() && Shows(rt, t)
    ensures rt.calls.leaked - old(rt.calls.leaked) == t.calls.leakedCalls - s.calls.leakedCalls
  {
    rt.calls.FailAllPending(owned, SHUTTING_DOWN);
    WalkedAlike(s.calls.slots, rt.calls.Views(), t.calls.slots, s.calls.pending, owned);
  }
}
