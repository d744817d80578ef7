/** The run's health is exactly its history, and a start() is told of success only when it is due. */
module RuntimeHistory {
  import opened Slots
  import opened SyncHealth
  import opened Runtime
  import opened RuntimeLife
  import opened RuntimeSync

  ghost predicate HistoryKept(s: Sys) {
    && SyncDiscipline(s.health, s.cfg.op)
    && StreaksAreHistory(s.health)
    && StateIsHistory(s.health)
  }

  ghost predicate HistoryInv(s: Sys) {
    match s.pc
    case Away(_) => true
    case Before(_) => s.health.heartbeatStreak == 0 && !s.health.heartbeatInFlight
    case Loop(_) =>
      && HistoryKept(s)
      && (s.health.startReleased <==> SomeCycleSucceeded(s.health))
      && (!s.health.startReleased ==> s.health.beats == [] && s.health.state == Starting)
    case Announce(ok, _) => HistoryKept(s) && s.health.startReleased && (ok <==> SomeCycleSucceeded(s.health))
    case Leaving => HistoryKept(s) && (SomeCycleSucceeded(s.health) ==> IsServing(s))
    case _ => HistoryKept(s)
  }

  /** In the loop, once start() has been released, the run serves. */
  ghost predicate ServesOnceReleased(s: Sys) {
    s.pc.Loop? && s.health.startReleased ==> IsServing(s)
  }

  /** Some cycle of the run succeeded in every sync it issued. */
  ghost predicate SomeCycleWhollyGood(h: Health) {
    exists i :: 0 <= i < |h.cycles| && WhollyGood(h.cycles[i])
  }

  predicate WhollyGood(c: Cycle) {
    c.ok && c.eth && (c.op.Some? ==> c.op.value)
  }

  /** A start() that is told of success is told so of the run last requested, after a good cycle of
      that run and after its state became Running. */
  ghost predicate SuccessIsEarned(s: Sys) {
    var earned := s.hs.syncedRun == s.hs.run && s.hs.servedRun == s.hs.run && SomeCycleWhollyGood(s.health);
    && (s.hs.startDone && s.hs.startOk ==> earned)
    && (s.pc.Announce? && s.pc.ok ==> earned)
    && (s.pc.Loop? && s.health.startReleased ==> s.hs.startOk)
  }

  // --- history ----------------------------------------------------------------

  /** Only these fields of the health matter to the history. */
  ghost predicate SameHistory(h: Health, h': Health) {
    && h'.beats == h.beats && h'.cycles == h.cycles
    && h'.heartbeatStreak == h.heartbeatStreak && h'.syncStreak == h.syncStreak
  }

  ghost predicate SameCycle(h: Health, h': Health) {
    && h'.phase == h.phase && h'.syncOk == h.syncOk && h'.cycleStart == h.cycleStart && h'.nextSync == h.nextSync
    && h'.intervalMs == h.intervalMs && h'.ethOutcome == h.ethOutcome && h'.opOutcome == h.opOutcome
  }

  lemma KeptFrame(s: Sys, s': Sys)
    requires HistoryKept(s) && s'.cfg.op == s.cfg.op
    requires SameHistory(s.health, s'.health) && SameCycle(s.health, s'.health)
    requires s'.health.state == s.health.state || (s'.health.state != Running && s'.health.state != Degraded)
    ensures HistoryKept(s')
  {
  }

  lemma HistoryBegins(s: Sys, reportedMs: int)
    requires HistoryInv(s) && s.pc == Before(Setup) && s.health.state == Starting
    ensures HistoryInv(BeginLoop(s, reportedMs))
  {
  }

  lemma HistoryFinish(s: Sys)
    requires HistoryInv(s) && s.pc.Loop? && SyncAction(s.health, s.cfg.op, s.clock) == Finish
    ensures HistoryKept(s.(health := FinishCycle(s.health)))
    ensures FinishCycle(s.health).startReleased <==> SomeCycleSucceeded(FinishCycle(s.health))
  {
    FinishKeepsDiscipline(s.health, s.cfg.op, s.clock);
    FinishKeepsReleased(s.health);
    FinishKeepsStreaks(s.health);
    FinishKeepsStateIsHistory(s.health);
  }

  lemma FinishUnreleased(h: Health)
    ensures !FinishCycle(h).startReleased ==> FinishCycle(h).state == h.state || h.state == Running
    ensures FinishCycle(h).beats == h.beats
    ensures ReleasesStart(h) ==> FinishCycle(h).startReleased
  {
  }

  lemma HistorySyncFinish(s: Sys, elapsed: nat)
    requires HistoryInv(s) && s.pc == Loop(StepSync) && SyncAction(s.health, s.cfg.op, s.clock) == Finish
    ensures HistoryInv(SyncStep(s, elapsed))
  {
    var finished := s.(health := FinishCycle(s.health));
    HistoryFinish(s);
    FinishUnreleased(s.health);
    KeptFrame(finished, SyncStep(s, elapsed));
  }

  lemma HistorySyncIssue(s: Sys, elapsed: nat)
    requires HistoryInv(s) && s.pc == Loop(StepSync) && SyncAction(s.health, s.cfg.op, s.clock) == IssueEth
    ensures HistoryInv(SyncStep(s, elapsed))
  {
    var s' := SyncStep(s, elapsed);
    assert s'.health == BeginCycle(s.health, s.clock + elapsed);
    assert s'.cfg == s.cfg;
  }

  lemma HistorySyncWait(s: Sys, elapsed: nat)
    requires HistoryInv(s) && s.pc == Loop(StepSync)
    requires var action := SyncAction(s.health, s.cfg.op, s.clock); action == Nothing || action == IssueOp
    ensures HistoryInv(SyncStep(s, elapsed))
  {
    var s' := SyncStep(s, elapsed);
    assert s'.health == s.health && s'.cfg == s.cfg && s'.pc.Loop?;
    KeptFrame(s, s');
  }

  lemma HistoryIssueSync(s: Sys, id: nat, op: bool)
    requires HistoryInv(s) && LaunchInv(s) && s.pc == Loop(LaunchSync(id, op))
    ensures HistoryInv(LaunchSyncStep(s, id, op))
  {
    var s' := LaunchSyncStep(s, id, op);
    assert s'.health == IssueSync(s.health, op) && s'.cfg == s.cfg;
    IssueKept(s.health, op, s.cfg.op);
  }

  lemma IssueKept(h: Health, op: bool, configured: bool)
    requires SyncDiscipline(h, configured)
    requires if op then h.phase == EthDone && h.syncOk && configured else h.phase == NoSync && h.cycleStart >= h.nextSync
    ensures SyncDiscipline(IssueSync(h, op), configured)
  {
  }

  /** The remaining loop steps leave the history and the cycle as they are. */
  lemma LoopKeepsHistory(s: Sys, loop: LoopLabel)
    requires s.adm.gate.perCall > 0 && LoopEnabled(s, loop)
    requires !loop.AdvanceSync? && !loop.IssueSyncCall?
    ensures var s' := LoopNext(s, loop);
            SameHistory(s.health, s'.health) && SameCycle(s.health, s'.health) && s'.cfg == s.cfg
            && s'.health.state == s.health.state
  {
  }

  lemma HistoryLoopRest(s: Sys, loop: LoopLabel)
    requires HistoryInv(s) && ServesOnceReleased(s) && s.adm.gate.perCall > 0 && LoopEnabled(s, loop)
    requires !loop.AdvanceSync? && !loop.IssueSyncCall?
    ensures HistoryInv(LoopNext(s, loop))
  {
    LoopKeepsHistory(s, loop);
    KeptFrame(s, LoopNext(s, loop));
  }

  lemma HistoryLoop(s: Sys, loop: LoopLabel)
    requires HistoryInv(s) && LaunchInv(s) && ServesOnceReleased(s) && s.adm.gate.perCall > 0 && LoopEnabled(s, loop)
    ensures HistoryInv(LoopNext(s, loop))
  {
    match loop
    case AdvanceSync(elapsed) =>
      match SyncAction(s.health, s.cfg.op, s.clock) {
        case Finish => HistorySyncFinish(s, elapsed);
        case IssueEth => HistorySyncIssue(s, elapsed);
        case _ => HistorySyncWait(s, elapsed);
      }
    case IssueSyncCall => HistoryIssueSync(s, s.pc.loop.slot, s.pc.loop.op);
    case _ => HistoryLoopRest(s, loop);
  }

  lemma BeatLeavesCycle(h: Health, ok: bool)
    ensures var h' := NoteHeartbeat(h.(heartbeatInFlight := false), ok);
            SameCycle(h, h') && h'.cycles == h.cycles && h'.startReleased == h.startReleased
            && (h.state == Starting ==> h'.state == Starting)
  {
  }

  lemma HistoryNoteBeat(s: Sys, id: nat, status: int)
    requires HistoryInv(s) && CallOf(s.pc) == Some(Delivered(id, status)) && id in s.calls.slots
    requires s.calls.slots[id].kind == Heartbeat && s.health.startReleased
    ensures HistoryInv(NoteStep(s, id, status))
  {
    var ok := s.calls.slots[id].status == RET_SUCCESS;
    var s' := NoteStep(s, id, status);
    assert s'.health == NoteHeartbeat(s.health.(heartbeatInFlight := false), ok) && s'.cfg == s.cfg;
    BeatKept(s, s', ok);
    BeatLeavesCycle(s.health, ok);
  }

  lemma BeatKept(s: Sys, s': Sys, ok: bool)
    requires HistoryKept(s) && s'.health == NoteHeartbeat(s.health.(heartbeatInFlight := false), ok) && s'.cfg == s.cfg
    ensures HistoryKept(s')
  {
    BeatKeptHealth(s.health, ok);
    BeatLeavesCycle(s.health, ok);
    DisciplineFrame(s.health, s'.health, s.cfg.op);
  }

  lemma DisciplineFrame(h: Health, h': Health, op: bool)
    requires SyncDiscipline(h, op) && SameCycle(h, h') && h'.cycles == h.cycles
    ensures SyncDiscipline(h', op)
  {
  }

  lemma BeatKeptHealth(h: Health, ok: bool)
    requires StreaksAreHistory(h) && StateIsHistory(h)
    ensures var h' := NoteHeartbeat(h.(heartbeatInFlight := false), ok); StreaksAreHistory(h') && StateIsHistory(h')
  {
    var landed := h.(heartbeatInFlight := false);
    BeatKeepsStreaks(landed, ok);
    BeatKeepsStateIsHistory(landed, ok);
  }

  lemma HistoryNoteSync(s: Sys, id: nat, status: int)
    requires HistoryInv(s) && SyncBoxInv(s) && CallOf(s.pc) == Some(Delivered(id, status)) && id in s.calls.slots
    requires IsSync(s.calls.slots[id].kind)
    ensures HistoryInv(NoteStep(s, id, status))
  {
    var slot := s.calls.slots[id];
    var s' := NoteStep(s, id, status);
    assert s'.health == NoteSync(s.health, slot.kind.OpSync?, slot.status == RET_SUCCESS) && s'.cfg == s.cfg;
    NoteSyncKeepsDiscipline(s.health, s.cfg.op, slot.status == RET_SUCCESS);
    assert SameHistory(s.health, s'.health);
  }

  lemma HistoryLibrary(s: Sys, library: LibraryLabel)
    requires HistoryInv(s) && SyncBoxInv(s) && HeartbeatInv(s) && LibraryEnabled(s, library)
    ensures HistoryInv(LibraryNext(s, library))
  {
    var s' := LibraryNext(s, library);
    if library.Note? {
      var id, status := CallOf(s.pc).value.slot, CallOf(s.pc).value.status;
      match s.calls.slots[id].kind {
        case User => HistoryQuiet(s, s');
        case Heartbeat => HistoryNoteBeat(s, id, status);
        case _ => HistoryNoteSync(s, id, status);
      }
    } else {
      HistoryQuiet(s, s');
    }
  }

  /** Steps that do not touch the health and stay in the same stretch of the run. */
  lemma HistoryQuiet(s: Sys, s': Sys)
    requires HistoryInv(s) && s'.health == s.health && s'.cfg == s.cfg
    requires (s.pc.Loop? && s'.pc.Loop?) || (s.pc.Drains? && s'.pc.Drains?) || s'.pc == s.pc
    ensures HistoryInv(s')
  {
    if !s.pc.Away? && !s.pc.Before? {
      KeptFrame(s, s');
    }
  }

  lemma HistoryClose(s: Sys, close: CloseLabel)
    requires HistoryInv(s) && CloseEnabled(s, close)
    ensures HistoryInv(CloseNext(s, close))
  {
    CloseLeavesHistory(s, close);
    KeptFrame(s, CloseNext(s, close));
  }

  lemma CloseLeavesHistory(s: Sys, close: CloseLabel)
    requires CloseEnabled(s, close)
    ensures var s' := CloseNext(s, close);
            SameHistory(s.health, s'.health) && SameCycle(s.health, s'.health) && s'.cfg == s.cfg
            && (s'.health.state == s.health.state || (s'.health.state != Running && s'.health.state != Degraded))
  {
    match close
    case FailOne => FailLeavesHistory(s, s.pc.drain.rest);
    case FinishTail => TailLeavesHistory(s);
    case _ =>
  }

  lemma FailLeavesHistory(s: Sys, rest: seq<nat>)
    ensures FailStep(s, rest).health == s.health && FailStep(s, rest).cfg == s.cfg
  {
  }

  lemma TailLeavesHistory(s: Sys)
    requires s.pc.Tail?
    ensures var s' := TailStep(s);
            SameHistory(s.health, s'.health) && SameCycle(s.health, s'.health) && s'.cfg == s.cfg
            && (s'.health.state == s.health.state || s'.health.state == Stopped)
  {
  }

  lemma HistoryThread(s: Sys, thread: ThreadLabel)
    requires HistoryInv(s) && ThreadEnabled(s, thread)
    requires s.pc == Before(Setup) ==> s.health.state == Starting
    ensures HistoryInv(ThreadNext(s, thread))
  {
    if thread.EnterLoop? {
      HistoryBegins(s, thread.reportedMs);
    }
  }

  lemma HistoryStart(s: Sys, start: StartLabel)
    requires HistoryInv(s) && HandshakeInv(s) && StartEnabled(s, start)
    ensures HistoryInv(StartNext(s, start))
  {
    if start.WakeStart? || start.TimeOutStart? {
      HistoryQuiet(s, StartNext(s, start));
    }
  }
}
