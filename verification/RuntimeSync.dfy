/** What the library holds, and what the run's history says: one sync and one heartbeat at most,
    both known to the thread, and a health state that is exactly their recorded outcomes. */
module RuntimeSync {
  import opened Slots
  import opened SyncHealth
  import opened Runtime

  /** The library may hold boxes: from the loop until they are written off. */
  predicate HoldsBoxes(pc: Pc) {
    match pc
    case Away(_) => false
    case Before(_) => false
    case Tail(tail) => tail.FreeLib? || tail.Deactivate? || tail.ClearFlight?
    case _ => true
  }

  /** The completion being handled, if one is. */
  function DeliveredSlot(pc: Pc): Option<nat> {
    match CallOf(pc)
    case Some(Delivered(id, _)) => Some(id)
    case _ => None
  }

  predicate Delivering(s: Sys, kind: Kind) {
    var d := DeliveredSlot(s.pc);
    d.Some? && d.value in s.calls.slots && s.calls.slots[d.value].kind == kind
  }

  // ---------------------------------------------------------------------------
  // Identities
  // ---------------------------------------------------------------------------

  ghost predicate KindOf(calls: Calls, id: nat, kind: Kind) {
    id in calls.slots && calls.slots[id].kind == kind
  }

  ghost predicate IdsInv(s: Sys) {
    && s.calls.nextId >= 1
    && (forall id: nat :: id in s.calls.slots <==> 1 <= id < s.calls.nextId)
    && (forall id :: id in s.calls.queue ==> KindOf(s.calls, id, User))
    && (forall id :: id in s.calls.callBoxes ==> KindOf(s.calls, id, User) || KindOf(s.calls, id, Heartbeat))
    && (forall id :: id in s.calls.syncBoxes ==> KindOf(s.calls, id, Kind.Sync) || KindOf(s.calls, id, Kind.OpSync))
    && (forall id :: id in HandSlots(s.pc) ==> id in s.calls.slots)
    && (match s.pc
        case Loop(Dispatch(id)) => KindOf(s.calls, id, User)
        case Loop(LaunchSync(id, op)) => KindOf(s.calls, id, if op then Kind.OpSync else Kind.Sync)
        case _ => true)
  }

  lemma IdsCaller(s: Sys, c: nat, call: CallLabel)
    requires IdsInv(s) && s.adm.gate.perCall > 0 && CallEnabled(s, c, call)
    ensures IdsInv(CallNext(s, c, call))
  {
    if call.PassGate? {
      IdsGate(s, c);
    } else {
      assert CallNext(s, c, call).calls == s.calls;
    }
  }

  lemma IdsGate(s: Sys, c: nat)
    requires IdsInv(s)
    ensures IdsInv(CallGate(s, c))
  {
  }

  lemma IdsLoop(s: Sys, loop: LoopLabel)
    requires IdsInv(s) && s.adm.gate.perCall > 0 && LoopEnabled(s, loop)
    ensures IdsInv(LoopNext(s, loop))
  {
    match loop
    case DrainOne => IdsDrain(s);
    case DispatchOne => IdsDispatch(s, s.pc.loop.slot);
    case AdvanceSync(elapsed) => IdsSync(s, elapsed);
    case IssueSyncCall => IdsIssue(s, s.pc.loop.slot, s.pc.loop.op);
    case IssueBeat => IdsBeat(s);
    case RegisterBeat => IdsFrame(s, PushBeatStep(s, s.pc.loop.slot));
    case _ => IdsFrame(s, LoopNext(s, loop));
  }

  /** No slot, queued command or box has changed, and the thread has none in hand. */
  lemma IdsFrame(s: Sys, s': Sys)
    requires IdsInv(s) && s'.calls == s.calls.(pending := s'.calls.pending) && HandSlots(s'.pc) == {}
    ensures IdsInv(s')
  {
  }

  lemma IdsDispatch(s: Sys, id: nat)
    requires IdsInv(s) && s.pc == Loop(Dispatch(id))
    ensures IdsInv(DispatchStep(s, id))
  {
  }

  lemma IdsIssue(s: Sys, id: nat, op: bool)
    requires IdsInv(s) && s.pc == Loop(LaunchSync(id, op))
    ensures IdsInv(LaunchSyncStep(s, id, op))
  {
  }

  lemma IdsSync(s: Sys, elapsed: nat)
    requires IdsInv(s) && s.pc == Loop(StepSync)
    ensures IdsInv(SyncStep(s, elapsed))
  {
    match SyncAction(s.health, s.cfg.op, s.clock)
    case IssueEth => IdsRegister(s, false);
    case IssueOp => IdsRegister(s, true);
    case _ => IdsFrame(s, SyncStep(s, elapsed));
  }

  lemma IdsRegister(s: Sys, op: bool)
    requires IdsInv(s)
    ensures IdsInv(RegisterSync(s, op))
  {
  }

  lemma IdsBeat(s: Sys)
    requires IdsInv(s) && s.pc == Loop(LaunchBeat)
    ensures IdsInv(LaunchBeatStep(s))
  {
  }

  lemma IdsDrain(s: Sys)
    requires IdsInv(s) && s.pc == Loop(DrainQueue)
    ensures IdsInv(DrainStep(s))
  {
    if s.calls.queue != [] {
      assert s.calls.queue[0] in s.calls.queue;
      assert forall id :: id in s.calls.queue[1..] ==> id in s.calls.queue;
    }
  }

  lemma IdsLibrary(s: Sys, library: LibraryLabel)
    requires IdsInv(s) && LibraryEnabled(s, library)
    ensures IdsInv(LibraryNext(s, library))
  {
  }

  lemma IdsClose(s: Sys, close: CloseLabel)
    requires IdsInv(s) && CloseEnabled(s, close)
    ensures IdsInv(CloseNext(s, close))
  {
    match close
    case FailOne => IdsFail(s, s.pc.drain.rest);
    case FinishTail => IdsTail(s);
    case _ =>
  }

  lemma IdsFail(s: Sys, rest: seq<nat>)
    requires IdsInv(s)
    ensures IdsInv(FailStep(s, rest))
  {
  }

  lemma IdsTail(s: Sys)
    requires IdsInv(s) && s.pc.Tail?
    ensures IdsInv(TailStep(s))
  {
    match s.pc.tail
    case ClearFlight => IdsAbandon(s);
    case _ => assert TailStep(s).calls == s.calls && HandSlots(TailStep(s).pc) == {};
  }

  lemma IdsAbandon(s: Sys)
    requires IdsInv(s)
    ensures IdsInv(AbandonBoxes(s))
  {
  }

  lemma IdsOthers(s: Sys, l: Label)
    requires IdsInv(s) && Enabled(s, l) && (l.ByStarter? || l.ByWorld? || l.ByThread?)
    ensures IdsInv(Next(s, l))
  {
    match l
    case ByStarter(start) => IdsStart(s, start);
    case ByThread(thread) => IdsThread(s, thread);
    case _ =>
  }

  lemma IdsStart(s: Sys, start: StartLabel)
    requires IdsInv(s) && StartEnabled(s, start)
    ensures IdsInv(StartNext(s, start))
  {
  }

  lemma IdsThread(s: Sys, thread: ThreadLabel)
    requires IdsInv(s) && ThreadEnabled(s, thread)
    ensures IdsInv(ThreadNext(s, thread))
  {
  }

  // ---------------------------------------------------------------------------
  // One sync at a time
  // ---------------------------------------------------------------------------

  ghost predicate OneBox(boxes: set<nat>, calls: Calls, kind: Kind) {
    exists id :: boxes == {id} && KindOf(calls, id, kind)
  }

  /** A sync is outstanding exactly when the phase says so, and it is the one the phase names. */
  ghost predicate SyncBoxInv(s: Sys) {
    if !HoldsBoxes(s.pc) then s.calls.syncBoxes == {}
    else if Delivering(s, Kind.Sync) then s.calls.syncBoxes == {} && s.health.phase == Eth
    else if Delivering(s, Kind.OpSync) then s.calls.syncBoxes == {} && s.health.phase == Op
    else if s.health.phase == Eth then OneBox(s.calls.syncBoxes, s.calls, Kind.Sync)
    else if s.health.phase == Op then OneBox(s.calls.syncBoxes, s.calls, Kind.OpSync)
    else s.calls.syncBoxes == {}
  }

  /** Between choosing to sync and launching it, nothing else has moved. */
  ghost predicate LaunchInv(s: Sys) {
    match s.pc
    case Loop(LaunchSync(_, op)) =>
      if op then s.health.phase == EthDone && s.health.syncOk && s.cfg.op
      else s.health.phase == NoSync && s.health.cycleStart >= s.health.nextSync
    case Loop(LaunchBeat) => !s.health.heartbeatInFlight && s.health.startReleased
    case _ => true
  }

  function HeartbeatBoxes(calls: Calls): set<nat> {
    set id | id in calls.callBoxes && id in calls.slots && calls.slots[id].kind == Heartbeat
  }

  /** At most one heartbeat is outstanding, the flag says whether, and none before start() was released. */
  ghost predicate HeartbeatInv(s: Sys) {
    && (HoldsBoxes(s.pc) && s.health.heartbeatInFlight ==> s.health.startReleased)
    && if !HoldsBoxes(s.pc) then s.calls.callBoxes == {}
       else if Delivering(s, Heartbeat) then HeartbeatBoxes(s.calls) == {} && s.health.heartbeatInFlight
       else if s.health.heartbeatInFlight then OneBox(HeartbeatBoxes(s.calls), s.calls, Heartbeat)
       else HeartbeatBoxes(s.calls) == {}
  }

  // --- each step keeps them ----------------------------------------------------

  /** No slot changes its kind, and none goes away. */
  ghost predicate KindsKept(calls: Calls, calls': Calls) {
    forall id :: id in calls.slots ==> id in calls'.slots && calls'.slots[id].kind == calls.slots[id].kind
  }

  lemma SyncBoxFrame(s: Sys, s': Sys)
    requires SyncBoxInv(s) && KindsKept(s.calls, s'.calls)
    requires s'.calls.syncBoxes == s.calls.syncBoxes && s'.health.phase == s.health.phase
    requires HoldsBoxes(s'.pc) == HoldsBoxes(s.pc)
    requires !HoldsBoxes(s.pc) || DeliveredSlot(s'.pc) == DeliveredSlot(s.pc) == None
    ensures SyncBoxInv(s')
  {
    if HoldsBoxes(s.pc) && (s.health.phase == Eth || s.health.phase == Op) {
      var id :| s.calls.syncBoxes == {id} && KindOf(s.calls, id, if s.health.phase == Eth then Kind.Sync else Kind.OpSync);
      assert KindOf(s'.calls, id, if s.health.phase == Eth then Kind.Sync else Kind.OpSync);
    }
  }

  lemma HeartbeatFrame(s: Sys, s': Sys)
    requires HeartbeatInv(s) && KindsKept(s.calls, s'.calls)
    requires HeartbeatBoxes(s'.calls) == HeartbeatBoxes(s.calls)
    requires s'.health.heartbeatInFlight == s.health.heartbeatInFlight
    requires s.health.startReleased ==> s'.health.startReleased
    requires HoldsBoxes(s.pc) && HoldsBoxes(s'.pc) && DeliveredSlot(s'.pc) == DeliveredSlot(s.pc) == None
    ensures HeartbeatInv(s')
  {
    if s.health.heartbeatInFlight {
      var id :| HeartbeatBoxes(s.calls) == {id} && KindOf(s.calls, id, Heartbeat);
      assert KindOf(s'.calls, id, Heartbeat);
    }
  }

  lemma KindsCaller(s: Sys, c: nat, call: CallLabel)
    requires IdsInv(s) && s.adm.gate.perCall > 0 && CallEnabled(s, c, call)
    ensures KindsKept(s.calls, CallNext(s, c, call).calls)
    ensures HeartbeatBoxes(CallNext(s, c, call).calls) == HeartbeatBoxes(s.calls)
  {
  }

  lemma CallerFrames(s: Sys, c: nat, call: CallLabel)
    requires s.adm.gate.perCall > 0 && CallEnabled(s, c, call)
    ensures var s' := CallNext(s, c, call);
            && s'.pc == s.pc && s'.health == s.health && s'.hs == s.hs && s'.cfg == s.cfg && s'.starter == s.starter
            && s'.calls.syncBoxes == s.calls.syncBoxes && s'.calls.callBoxes == s.calls.callBoxes
            && s'.calls.leaked == s.calls.leaked && s'.calls.inFlight == s.calls.inFlight
  {
  }

  lemma BoxesCaller(s: Sys, c: nat, call: CallLabel)
    requires IdsInv(s) && SyncBoxInv(s) && HeartbeatInv(s) && LaunchInv(s)
    requires s.adm.gate.perCall > 0 && CallEnabled(s, c, call)
    ensures var s' := CallNext(s, c, call); SyncBoxInv(s') && HeartbeatInv(s') && LaunchInv(s')
  {
    KindsCaller(s, c, call);
    CallerFrames(s, c, call);
  }

  lemma KindsLoop(s: Sys, loop: LoopLabel)
    requires IdsInv(s) && s.adm.gate.perCall > 0 && LoopEnabled(s, loop)
    ensures KindsKept(s.calls, LoopNext(s, loop).calls)
  {
    if loop.AdvanceSync? {
      KindsSync(s, loop.elapsed);
    }
  }

  lemma KindsSync(s: Sys, elapsed: nat)
    requires IdsInv(s) && s.pc == Loop(StepSync)
    ensures KindsKept(s.calls, SyncStep(s, elapsed).calls)
    ensures HeartbeatBoxes(SyncStep(s, elapsed).calls) == HeartbeatBoxes(s.calls)
  {
    SyncCreates(s, elapsed);
  }

  /** A step of the cycle creates one slot at most, and hands over none. */
  lemma SyncCreates(s: Sys, elapsed: nat)
    requires s.pc == Loop(StepSync)
    ensures var calls' := SyncStep(s, elapsed).calls;
            && calls'.callBoxes == s.calls.callBoxes
            && (calls'.slots == s.calls.slots
                || calls'.slots == s.calls.slots[s.calls.nextId := NewSlot(Kind.Sync)]
                || calls'.slots == s.calls.slots[s.calls.nextId := NewSlot(Kind.OpSync)])
  {
  }

  /** Every loop step but the sync's own leaves the phase and the sync box alone. */
  lemma SyncBoxLoop(s: Sys, loop: LoopLabel)
    requires IdsInv(s) && SyncBoxInv(s) && s.adm.gate.perCall > 0 && LoopEnabled(s, loop)
    requires !loop.AdvanceSync? && !loop.IssueSyncCall?
    ensures SyncBoxInv(LoopNext(s, loop))
  {
    KindsLoop(s, loop);
    PcLoop(s, loop);
    PhaseLoop(s, loop);
    SyncBoxFrame(s, LoopNext(s, loop));
  }

  lemma PhaseLoop(s: Sys, loop: LoopLabel)
    requires s.adm.gate.perCall > 0 && LoopEnabled(s, loop) && !loop.AdvanceSync? && !loop.IssueSyncCall?
    ensures var s' := LoopNext(s, loop);
            s'.calls.syncBoxes == s.calls.syncBoxes && s'.health.phase == s.health.phase
  {
  }

  lemma SyncBoxAdvance(s: Sys, elapsed: nat)
    requires IdsInv(s) && SyncBoxInv(s) && s.pc == Loop(StepSync)
    ensures SyncBoxInv(SyncStep(s, elapsed))
  {
  }

  lemma SyncBoxIssue(s: Sys, id: nat, op: bool)
    requires SyncBoxInv(s) && LaunchInv(s) && IdsInv(s) && s.pc == Loop(LaunchSync(id, op))
    ensures SyncBoxInv(LaunchSyncStep(s, id, op))
  {
    var s' := LaunchSyncStep(s, id, op);
    assert s'.calls.syncBoxes == {id};
  }

  lemma LaunchLoop(s: Sys, loop: LoopLabel)
    requires s.adm.gate.perCall > 0 && LoopEnabled(s, loop)
    ensures LaunchInv(LoopNext(s, loop))
  {
  }

  lemma HeartbeatLoop(s: Sys, loop: LoopLabel)
    requires IdsInv(s) && HeartbeatInv(s) && s.adm.gate.perCall > 0 && LoopEnabled(s, loop)
    requires !loop.IssueBeat?
    ensures HeartbeatInv(LoopNext(s, loop))
  {
    var s' := LoopNext(s, loop);
    KindsLoop(s, loop);
    HeartbeatBoxesLoop(s, loop);
    FlagsLoop(s, loop);
    PcLoop(s, loop);
    HeartbeatFrame(s, s');
  }

  lemma FlagsLoop(s: Sys, loop: LoopLabel)
    requires s.adm.gate.perCall > 0 && LoopEnabled(s, loop) && !loop.IssueBeat?
    ensures LoopNext(s, loop).health.heartbeatInFlight == s.health.heartbeatInFlight
    ensures s.health.startReleased ==> LoopNext(s, loop).health.startReleased
  {
    if loop.AdvanceSync? {
      FlagsSync(s, loop.elapsed);
    }
  }

  lemma FlagsSync(s: Sys, elapsed: nat)
    ensures SyncStep(s, elapsed).health.heartbeatInFlight == s.health.heartbeatInFlight
    ensures s.health.startReleased ==> SyncStep(s, elapsed).health.startReleased
  {
  }

  lemma PcLoop(s: Sys, loop: LoopLabel)
    requires s.adm.gate.perCall > 0 && LoopEnabled(s, loop)
    ensures HoldsBoxes(s.pc) && HoldsBoxes(LoopNext(s, loop).pc)
    ensures DeliveredSlot(LoopNext(s, loop).pc) == DeliveredSlot(s.pc) == None
  {
  }

  lemma HeartbeatBoxesLoop(s: Sys, loop: LoopLabel)
    requires IdsInv(s) && s.adm.gate.perCall > 0 && LoopEnabled(s, loop) && !loop.IssueBeat?
    ensures HeartbeatBoxes(LoopNext(s, loop).calls) == HeartbeatBoxes(s.calls)
  {
    if loop.AdvanceSync? {
      KindsSync(s, loop.elapsed);
    }
  }

  lemma HeartbeatIssue(s: Sys)
    requires IdsInv(s) && HeartbeatInv(s) && LaunchInv(s) && s.pc == Loop(LaunchBeat)
    ensures HeartbeatInv(LaunchBeatStep(s))
  {
    var s' := LaunchBeatStep(s);
    var id := s.calls.nextId;
    assert HeartbeatBoxes(s'.calls) == {id};
    assert KindOf(s'.calls, id, Heartbeat);
  }

  lemma SyncBoxCallback(s: Sys, id: nat, status: int, result: string)
    requires IdsInv(s) && SyncBoxInv(s) && LibraryEnabled(s, Complete(id, status, result))
    ensures SyncBoxInv(Callback(s, id, status, result))
  {
  }

  lemma SyncBoxNote(s: Sys, id: nat, status: int)
    requires IdsInv(s) && SyncBoxInv(s) && CallOf(s.pc) == Some(Delivered(id, status)) && id in s.calls.slots
    ensures SyncBoxInv(NoteStep(s, id, status))
  {
  }

  lemma HeartbeatCallback(s: Sys, id: nat, status: int, result: string)
    requires IdsInv(s) && HeartbeatInv(s) && LibraryEnabled(s, Complete(id, status, result))
    ensures HeartbeatInv(Callback(s, id, status, result))
  {
    var s' := Callback(s, id, status, result);
    assert HeartbeatBoxes(s'.calls) == HeartbeatBoxes(s.calls) - {id};
    if s.calls.slots[id].kind == Heartbeat {
      assert id in HeartbeatBoxes(s.calls);
    }
  }

  lemma HeartbeatNote(s: Sys, id: nat, status: int)
    requires IdsInv(s) && HeartbeatInv(s) && CallOf(s.pc) == Some(Delivered(id, status)) && id in s.calls.slots
    ensures HeartbeatInv(NoteStep(s, id, status))
  {
    var s' := NoteStep(s, id, status);
    assert HeartbeatBoxes(s'.calls) == HeartbeatBoxes(s.calls);
  }

  lemma BoxesLibraryRest(s: Sys, library: LibraryLabel)
    requires SyncBoxInv(s) && HeartbeatInv(s) && LibraryEnabled(s, library) && (library.Return? || library.GiveBack?)
    ensures var s' := LibraryNext(s, library); SyncBoxInv(s') && HeartbeatInv(s')
  {
  }

  lemma LaunchLibrary(s: Sys, library: LibraryLabel)
    requires LibraryEnabled(s, library)
    ensures LaunchInv(LibraryNext(s, library))
  {
  }

  lemma BoxesClose(s: Sys, close: CloseLabel)
    requires SyncBoxInv(s) && HeartbeatInv(s) && CloseEnabled(s, close) && !close.FailOne?
    ensures var s' := CloseNext(s, close); SyncBoxInv(s') && HeartbeatInv(s') && LaunchInv(s')
  {
    if close.FinishTail? {
      BoxesTail(s);
    }
  }

  lemma BoxesTail(s: Sys)
    requires SyncBoxInv(s) && HeartbeatInv(s) && s.pc.Tail?
    ensures var s' := TailStep(s); SyncBoxInv(s') && HeartbeatInv(s') && LaunchInv(s')
  {
  }

  lemma BoxesFail(s: Sys, rest: seq<nat>)
    requires SyncBoxInv(s) && HeartbeatInv(s) && s.pc == Drains(Fail(rest))
    ensures var s' := FailStep(s, rest); SyncBoxInv(s') && HeartbeatInv(s') && LaunchInv(s')
  {
    var s' := FailStep(s, rest);
    assert KindsKept(s.calls, s'.calls);
    assert HeartbeatBoxes(s'.calls) == HeartbeatBoxes(s.calls);
    SyncBoxFrame(s, s');
    HeartbeatFrame(s, s');
  }

  lemma BoxesThread(s: Sys, thread: ThreadLabel)
    requires SyncBoxInv(s) && HeartbeatInv(s) && ThreadEnabled(s, thread)
    requires s.pc.Before? ==> !s.health.heartbeatInFlight
    ensures var s' := ThreadNext(s, thread); SyncBoxInv(s') && HeartbeatInv(s') && LaunchInv(s')
  {
  }

  lemma BoxesStart(s: Sys, start: StartLabel)
    requires SyncBoxInv(s) && HeartbeatInv(s) && LaunchInv(s) && StartEnabled(s, start)
    requires s.hs.runFinished || s.starter != NoStart ==> s.pc.Away?
    ensures var s' := StartNext(s, start); SyncBoxInv(s') && HeartbeatInv(s') && LaunchInv(s')
  {
  }
}
