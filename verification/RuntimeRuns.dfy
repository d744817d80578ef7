/** What every run of the whole runtime keeps, whoever calls what and when. */
module RuntimeRuns {
  import opened SyncHealth
  import opened Runs
  import opened Runtime
  import opened RuntimeLogs
  import opened RuntimeLife
  import opened RuntimeSync
  import opened RuntimeHistory
  import A = Admission

  // ---------------------------------------------------------------------------
  // The admission gate inside the runtime
  // ---------------------------------------------------------------------------

  /** The callers queued are exactly the gate's waiters. */
  ghost predicate QueuedInv(s: Sys) {
    forall c :: c in s.adm.waiters <==> (c in s.callers && s.callers[c] == Queued)
  }

  /** What a step of the runtime is to the gate, if anything. */
  function AdmissionLabel(s: Sys, l: Label): Option<A.Label>
    requires Enabled(s, l)
  {
    match l
    case ByCaller(c, Enter(live)) => Some(A.Arrive(c, live, s.clock, s.cfg.queueTimeoutMs))
    case ByCaller(c, Retry(live)) => Some(A.Retry(c, live, s.clock))
    case ByCaller(_, Refuse) => Some(A.Release)
    case ByStarter(EnterStart(_)) => Some(A.Restart)
    case ByStarter(Size) => Some(A.Configure(PerCall(s.cfg.parallelBlockDownloads), s.cfg.maxInFlight))
    case ByStarter(Budget(live)) => Some(A.Configure(s.adm.gate.perCall, EffectiveMax(s.cfg, live)))
    case ByWorld(RequestStop) => Some(A.SetStop)
    case ByWorld(RequestShutdown) => Some(A.SetShutdown)
    case InLoop(TryBeat(live)) => if BeatDue(s) then Some(A.Beat(live)) else None
    case ByLibrary(GiveBack) => Some(A.Release)
    case InClose(FinishTail) => if s.pc.tail.ClearAdmitted? then Some(A.Clear) else None
    case _ => None
  }

  /** Every step of the runtime is a step of the gate, or none: all that is proved of the gate over
      its own runs holds inside the runtime. */
  lemma RuntimeDrivesTheGate(s: Sys, l: Label)
    requires Enabled(s, l)
    ensures var al := AdmissionLabel(s, l);
            Drives(s, Next(s, l), al)
  {
    match l
    case ByCaller(c, call) => CallerDrives(s, c, call);
    case InLoop(loop) => LoopDrives(s, loop);
    case ByLibrary(library) => LibraryDrives(s, library);
    case InClose(close) => CloseDrives(s, close);
    case _ =>
  }

  /** The step of the gate this step of the runtime is. */
  ghost predicate Drives(s: Sys, s': Sys, al: Option<A.Label>) {
    if al.None? then s'.adm == s.adm else A.Enabled(s.adm, al.value) && s'.adm == A.Next(s.adm, al.value)
  }

  lemma CallerDrives(s: Sys, c: nat, call: CallLabel)
    requires s.adm.gate.perCall > 0 && CallEnabled(s, c, call)
    ensures Drives(s, CallNext(s, c, call), AdmissionLabel(s, ByCaller(c, call)))
  {
  }

  lemma LoopDrives(s: Sys, loop: LoopLabel)
    requires s.adm.gate.perCall > 0 && LoopEnabled(s, loop)
    ensures Drives(s, LoopNext(s, loop), AdmissionLabel(s, InLoop(loop)))
  {
  }

  lemma LibraryDrives(s: Sys, library: LibraryLabel)
    requires s.adm.gate.perCall > 0 && LibraryEnabled(s, library)
    ensures Drives(s, LibraryNext(s, library), AdmissionLabel(s, ByLibrary(library)))
  {
  }

  lemma CloseDrives(s: Sys, close: CloseLabel)
    requires s.adm.gate.perCall > 0 && CloseEnabled(s, close)
    ensures Drives(s, CloseNext(s, close), AdmissionLabel(s, InClose(close)))
  {
  }

  lemma QueuedCaller(s: Sys, c: nat, call: CallLabel)
    requires QueuedInv(s) && s.adm.gate.perCall > 0 && CallEnabled(s, c, call)
    ensures QueuedInv(CallNext(s, c, call))
  {
  }

  lemma QueuedOthers(s: Sys, l: Label)
    requires QueuedInv(s) && Enabled(s, l) && !l.ByCaller?
    ensures QueuedInv(Next(s, l))
  {
    match l
    case ByStarter(start) => StartKeepsWaiters(s, start);
    case ByWorld(_) =>
    case ByThread(thread) => ThreadKeepsWaiters(s, thread);
    case InLoop(loop) => LoopKeepsWaiters(s, loop);
    case ByLibrary(library) => LibraryKeepsWaiters(s, library);
    case InClose(close) => CloseKeepsWaiters(s, close);
  }

  /** Who waits where has not changed. */
  ghost predicate SameWaiters(s: Sys, s': Sys) {
    s'.callers == s.callers && s'.adm.waiters == s.adm.waiters
  }

  lemma StartKeepsWaiters(s: Sys, start: StartLabel)
    requires StartEnabled(s, start)
    ensures SameWaiters(s, StartNext(s, start))
  {
  }

  lemma ThreadKeepsWaiters(s: Sys, thread: ThreadLabel)
    requires ThreadEnabled(s, thread)
    ensures SameWaiters(s, ThreadNext(s, thread))
  {
  }

  lemma LoopKeepsWaiters(s: Sys, loop: LoopLabel)
    requires s.adm.gate.perCall > 0 && LoopEnabled(s, loop)
    ensures SameWaiters(s, LoopNext(s, loop))
  {
  }

  lemma LibraryKeepsWaiters(s: Sys, library: LibraryLabel)
    requires LibraryEnabled(s, library)
    ensures SameWaiters(s, LibraryNext(s, library))
  {
  }

  lemma CloseKeepsWaiters(s: Sys, close: CloseLabel)
    requires CloseEnabled(s, close)
    ensures SameWaiters(s, CloseNext(s, close))
  {
  }

  // ---------------------------------------------------------------------------
  // Success is earned
  // ---------------------------------------------------------------------------

  lemma EarnedLoop(s: Sys, loop: LoopLabel)
    requires SuccessIsEarned(s) && HandshakeInv(s) && AnswerInv(s) && HistoryInv(s)
    requires s.adm.gate.perCall > 0 && LoopEnabled(s, loop)
    ensures SuccessIsEarned(LoopNext(s, loop))
  {
    if loop.AdvanceSync? {
      EarnedSync(s, loop.elapsed);
    } else {
      LoopKeepsCycles(s, loop);
    }
  }

  lemma LoopKeepsCycles(s: Sys, loop: LoopLabel)
    requires s.adm.gate.perCall > 0 && LoopEnabled(s, loop) && !loop.AdvanceSync?
    ensures LoopNext(s, loop).health.cycles == s.health.cycles
  {
  }

  lemma FinishIsWhollyGood(h: Health, op: bool, now: int)
    requires SyncDiscipline(h, op) && SyncAction(h, op, now) == Finish
    ensures SomeCycleWhollyGood(h) || h.syncOk ==> SomeCycleWhollyGood(FinishCycle(h))
  {
    FinishCounts(h);
    var f := FinishCycle(h);
    if h.syncOk {
      assert WhollyGood(f.cycles[|h.cycles|]);
    } else if SomeCycleWhollyGood(h) {
      var i :| 0 <= i < |h.cycles| && WhollyGood(h.cycles[i]);
      assert f.cycles[i] == h.cycles[i];
    }
  }

  lemma EarnedSync(s: Sys, elapsed: nat)
    requires SuccessIsEarned(s) && HandshakeInv(s) && AnswerInv(s) && HistoryInv(s) && s.pc == Loop(StepSync)
    ensures SuccessIsEarned(SyncStep(s, elapsed))
  {
    if SyncAction(s.health, s.cfg.op, s.clock) == Finish {
      FinishIsWhollyGood(s.health, s.cfg.op, s.clock);
      FinishCounts(s.health);
    } else {
      assert SyncStep(s, elapsed).health.cycles == s.health.cycles;
    }
  }

  lemma EarnedLibrary(s: Sys, library: LibraryLabel)
    requires SuccessIsEarned(s) && LibraryEnabled(s, library)
    ensures SuccessIsEarned(LibraryNext(s, library))
  {
    LibraryKeepsCycles(s, library);
  }

  lemma LibraryKeepsCycles(s: Sys, library: LibraryLabel)
    requires LibraryEnabled(s, library)
    ensures var s' := LibraryNext(s, library);
            s'.health.cycles == s.health.cycles && s'.health.startReleased == s.health.startReleased && s'.hs == s.hs
  {
    match library
    case Note => NoteKeepsCycles(s, CallOf(s.pc).value.slot, CallOf(s.pc).value.status);
    case _ =>
  }

  lemma NoteKeepsCycles(s: Sys, id: nat, status: int)
    requires id in s.calls.slots
    ensures var s' := NoteStep(s, id, status);
            s'.health.cycles == s.health.cycles && s'.health.startReleased == s.health.startReleased && s'.hs == s.hs
  {
  }

  lemma EarnedClose(s: Sys, close: CloseLabel)
    requires SuccessIsEarned(s) && CloseEnabled(s, close)
    ensures SuccessIsEarned(CloseNext(s, close))
  {
    CloseLeavesHistory(s, close);
    CloseKeepsStart(s, close);
    CloseStaysClosing(s, close);
  }

  /** Nothing a waiting start() looks at has moved. */
  ghost predicate SameStart(hs: Handshake, hs': Handshake) {
    && hs'.startDone == hs.startDone && hs'.startOk == hs.startOk && hs'.run == hs.run && hs'.blocked == hs.blocked
    && hs'.current == hs.current && hs'.answerRun == hs.answerRun
    && hs'.syncedRun == hs.syncedRun && hs'.servedRun == hs.servedRun
  }

  lemma CloseKeepsStart(s: Sys, close: CloseLabel)
    requires CloseEnabled(s, close)
    ensures SameStart(s.hs, CloseNext(s, close).hs)
  {
    match close
    case FailOne => FailKeepsStart(s, s.pc.drain.rest);
    case FinishTail => TailKeepsStart(s);
    case _ =>
  }

  lemma FailKeepsStart(s: Sys, rest: seq<nat>)
    ensures FailStep(s, rest).hs == s.hs
  {
  }

  lemma TailKeepsStart(s: Sys)
    requires s.pc.Tail?
    ensures SameStart(s.hs, TailStep(s).hs)
  {
  }

  lemma CloseStaysClosing(s: Sys, close: CloseLabel)
    requires CloseEnabled(s, close)
    ensures !CloseNext(s, close).pc.Announce? && !CloseNext(s, close).pc.Loop?
  {
  }

  lemma EarnedThread(s: Sys, thread: ThreadLabel)
    requires SuccessIsEarned(s) && HandshakeInv(s) && ThreadEnabled(s, thread)
    ensures SuccessIsEarned(ThreadNext(s, thread))
  {
  }

  lemma EarnedStart(s: Sys, start: StartLabel)
    requires SuccessIsEarned(s) && HandshakeInv(s) && StartEnabled(s, start)
    ensures SuccessIsEarned(StartNext(s, start))
  {
  }

  // ---------------------------------------------------------------------------
  // The invariant
  // ---------------------------------------------------------------------------

  ghost predicate LifeInv(s: Sys) {
    && A.Inv(s.adm) && QueuedInv(s)
    && TraceInv(s) && HandshakeInv(s) && AnswerInv(s) && EventInv(s)
    && IdsInv(s) && SyncBoxInv(s) && LaunchInv(s) && HeartbeatInv(s)
    && HistoryInv(s) && SuccessIsEarned(s)
  }

  lemma LifeInitial()
    ensures LifeInv(INITIAL)
  {
    A.InvInitial();
    assert EventRun([]) == Some(AtRest(Idle));
    assert LibRun([]) == Some(Unloaded);
  }

  lemma GateStep(s: Sys, l: Label)
    requires A.Inv(s.adm) && QueuedInv(s) && Enabled(s, l)
    ensures A.Inv(Next(s, l).adm) && QueuedInv(Next(s, l))
  {
    RuntimeDrivesTheGate(s, l);
    var al := AdmissionLabel(s, l);
    if al.Some? {
      A.InvStep(s.adm, al.value);
    }
    match l
    case ByCaller(c, call) => QueuedCaller(s, c, call);
    case _ => QueuedOthers(s, l);
  }

  lemma EventStepKeeps(s: Sys, l: Label)
    requires HandshakeInv(s) && EventInv(s) && Enabled(s, l)
    ensures EventInv(Next(s, l))
  {
    EventStepMoves(s, l, EventRun(s.health.events).value);
    EventMovesKeeps(s, Next(s, l));
  }

  /** The rest of the invariant: what does not concern the gate or the two logs. */
  ghost predicate RunInv(s: Sys) {
    && HandshakeInv(s) && AnswerInv(s)
    && IdsInv(s) && SyncBoxInv(s) && LaunchInv(s) && HeartbeatInv(s)
    && HistoryInv(s) && SuccessIsEarned(s)
  }

  lemma RunCaller(s: Sys, c: nat, call: CallLabel)
    requires RunInv(s) && s.adm.gate.perCall > 0 && CallEnabled(s, c, call)
    ensures RunInv(CallNext(s, c, call))
  {
    IdsCaller(s, c, call);
    BoxesCaller(s, c, call);
    CallerFrames(s, c, call);
    HistoryQuiet(s, CallNext(s, c, call));
  }

  lemma RunStart(s: Sys, start: StartLabel)
    requires RunInv(s) && s.adm.gate.perCall > 0 && StartEnabled(s, start)
    ensures RunInv(StartNext(s, start))
  {
    IdsOthers(s, ByStarter(start));
    HandshakeStart(s, start);
    AnswerStart(s, start);
    BoxesStart(s, start);
    HistoryStart(s, start);
    EarnedStart(s, start);
  }

  lemma RunThread(s: Sys, thread: ThreadLabel)
    requires RunInv(s) && s.adm.gate.perCall > 0 && ThreadEnabled(s, thread)
    requires s.pc == Before(Setup) ==> s.health.state == Starting
    ensures RunInv(ThreadNext(s, thread))
  {
    IdsOthers(s, ByThread(thread));
    HandshakeThread(s, thread);
    AnswerThread(s, thread);
    BoxesThread(s, thread);
    HistoryThread(s, thread);
    EarnedThread(s, thread);
  }

  lemma RunLoop(s: Sys, loop: LoopLabel)
    requires RunInv(s) && ServesOnceReleased(s) && s.adm.gate.perCall > 0 && LoopEnabled(s, loop)
    ensures RunInv(LoopNext(s, loop))
  {
    HandshakeLoop(s, loop);
    AnswerLoop(s, loop);
    IdsLoop(s, loop);
    LaunchLoop(s, loop);
    RunLoopBoxes(s, loop);
    HistoryLoop(s, loop);
    EarnedLoop(s, loop);
  }

  lemma RunLoopBoxes(s: Sys, loop: LoopLabel)
    requires IdsInv(s) && SyncBoxInv(s) && LaunchInv(s) && HeartbeatInv(s)
    requires s.adm.gate.perCall > 0 && LoopEnabled(s, loop)
    ensures SyncBoxInv(LoopNext(s, loop)) && HeartbeatInv(LoopNext(s, loop))
  {
    match loop
    case AdvanceSync(elapsed) =>
      SyncBoxAdvance(s, elapsed);
      HeartbeatLoop(s, loop);
    case IssueSyncCall =>
      SyncBoxIssue(s, s.pc.loop.slot, s.pc.loop.op);
      HeartbeatLoop(s, loop);
    case IssueBeat =>
      SyncBoxLoop(s, loop);
      HeartbeatIssue(s);
    case _ =>
      SyncBoxLoop(s, loop);
      HeartbeatLoop(s, loop);
  }

  lemma RunLibrary(s: Sys, library: LibraryLabel)
    requires RunInv(s) && LibraryEnabled(s, library)
    ensures RunInv(LibraryNext(s, library))
  {
    HandshakeLibrary(s, library);
    IdsLibrary(s, library);
    LaunchLibrary(s, library);
    RunLibraryBoxes(s, library);
    HistoryLibrary(s, library);
    EarnedLibrary(s, library);
  }

  lemma RunLibraryBoxes(s: Sys, library: LibraryLabel)
    requires IdsInv(s) && SyncBoxInv(s) && HeartbeatInv(s) && LibraryEnabled(s, library)
    ensures SyncBoxInv(LibraryNext(s, library)) && HeartbeatInv(LibraryNext(s, library))
  {
    match library
    case Complete(id, status, result) =>
      SyncBoxCallback(s, id, status, result);
      HeartbeatCallback(s, id, status, result);
    case Note =>
      SyncBoxNote(s, CallOf(s.pc).value.slot, CallOf(s.pc).value.status);
      HeartbeatNote(s, CallOf(s.pc).value.slot, CallOf(s.pc).value.status);
    case _ =>
      BoxesLibraryRest(s, library);
  }

  lemma RunClose(s: Sys, close: CloseLabel)
    requires RunInv(s) && CloseEnabled(s, close)
    ensures RunInv(CloseNext(s, close))
  {
    HandshakeClose(s, close);
    CloseKeepsStart(s, close);
    AnswerFrame(s, CloseNext(s, close));
    IdsClose(s, close);
    if close.FailOne? {
      BoxesFail(s, s.pc.drain.rest);
    } else {
      BoxesClose(s, close);
    }
    HistoryClose(s, close);
    EarnedClose(s, close);
  }

  lemma RunWorld(s: Sys, world: WorldLabel)
    requires RunInv(s)
    ensures RunInv(WorldNext(s, world))
  {
    HistoryQuiet(s, WorldNext(s, world));
  }

  lemma SetupIsStarting(s: Sys)
    requires EventInv(s) && s.pc == Before(Setup)
    ensures s.health.state == Starting
  {
  }

  lemma ReleasedIsServing(s: Sys)
    requires EventInv(s)
    ensures ServesOnceReleased(s)
  {
  }

  lemma RunStep(s: Sys, l: Label)
    requires RunInv(s) && EventInv(s) && Enabled(s, l)
    ensures RunInv(Next(s, l))
  {
    match l
    case ByCaller(c, call) => RunCaller(s, c, call);
    case ByStarter(start) => RunStart(s, start);
    case ByWorld(world) => RunWorld(s, world);
    case ByThread(thread) =>
      if s.pc == Before(Setup) { SetupIsStarting(s); }
      RunThread(s, thread);
    case InLoop(loop) =>
      ReleasedIsServing(s);
      RunLoop(s, loop);
    case ByLibrary(library) => RunLibrary(s, library);
    case InClose(close) => RunClose(s, close);
  }

  lemma LifeStep(s: Sys, l: Label)
    requires LifeInv(s) && Enabled(s, l)
    ensures LifeInv(Next(s, l))
  {
    GateStep(s, l);
    TraceStep(s, l);
    EventStepKeeps(s, l);
    RunStep(s, l);
  }

  lemma {:induction false} LifeRun(s: Sys, ls: seq<Label>)
    requires LifeInv(s) && Legal(s, ls)
    ensures LifeInv(Exec(s, ls))
    decreases |ls|
  {
    if ls != [] {
      LifeStep(s, ls[0]);
      LifeRun(Next(s, ls[0]), ls[1..]);
    }
  }
}
