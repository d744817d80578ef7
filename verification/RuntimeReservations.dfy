/** Reservation conservation: every reservation the gate counts is somewhere. */
module RuntimeReservations {
  import opened ResourceBudget
  import opened Slots
  import opened SyncHealth
  import opened Runtime
  import opened RuntimeLife
  import opened RuntimeSync
  import opened RuntimeCalls
  import A = Admission

  predicate Holds(caller: Caller) {
    caller.Holding? || caller.Refusing?
  }

  /** Callers between admission and the enqueue gate. */
  function Holders(callers: map<nat, Caller>): set<nat> {
    set c | c in callers && Holds(callers[c])
  }

  /** A reservation in the proxy thread's hands: a command about to be issued, a heartbeat just
      admitted, or a completion whose reservation has not been given back yet. */
  function TokenInHand(s: Sys): nat {
    var call := CallOf(s.pc);
    if s.pc.Loop? && (s.pc.loop.Dispatch? || s.pc.loop.LaunchBeat?) then 1
    else if call.None? || call.value.Inside? then 0
    else if call.value.Releasing? then 1
    else if Delivering(s, Kind.Sync) || Delivering(s, Kind.OpSync) then 0 else 1
  }

  /** Reservations accounted for: at the gate, queued, outstanding, and in hand. */
  function Tokens(s: Sys): nat {
    |Holders(s.callers)| + |s.calls.queue| + |s.calls.callBoxes| + TokenInHand(s)
  }

  /** From the moment shutdown takes the pending list until teardown writes the reservations off. */
  predicate Abandoning(pc: Pc) {
    (pc.Drains? && (pc.drain.Fail? || pc.drain.StopLib?))
    || (pc.Tail? && (pc.tail.FreeLib? || pc.tail.Deactivate? || pc.tail.ClearFlight? || pc.tail.ClearAdmitted?))
  }

  /** Teardown has written every reservation off and the gate is closed: whoever still holds one gives
      back nothing. */
  ghost predicate WrittenOff(s: Sys) {
    s.adm.gate.admitted == 0 && s.calls.queue == [] && s.calls.callBoxes == {} && A.Closing(s.adm.gate)
  }

  /** The gate counts exactly the reservations that exist. While a run is torn down it also counts
      those of dropped commands and abandoned boxes, and then, until the next start(), none. */
  ghost predicate AdmittedInv(s: Sys) {
    var admitted := s.adm.gate.admitted;
    match s.pc
    case Away(_) => admitted == Tokens(s) || (WrittenOff(s) && s.starter.NoStart? && !s.hs.runRequested)
    case Tail(_) =>
      if Abandoning(s.pc)
      then s.calls.queue == [] && admitted == |Holders(s.callers)| + |s.calls.callBoxes| + s.calls.writtenOff
      else WrittenOff(s)
    case Drains(_) =>
      if Abandoning(s.pc)
      then s.calls.queue == [] && admitted == |Holders(s.callers)| + |s.calls.callBoxes| + s.calls.writtenOff
      else admitted == Tokens(s)
    case _ => admitted == Tokens(s)
  }

  /** Nobody holds a reservation and no command is queued when a start() is entered. */
  ghost predicate Settled(s: Sys, l: Label) {
    l.ByStarter? && l.start.EnterStart? ==> Holders(s.callers) == {} && s.calls.queue == []
  }

  // --- callers ------------------------------------------------------------------

  lemma HolderChange(callers: map<nat, Caller>, c: nat, next: Caller)
    requires c in callers
    ensures |Holders(callers[c := next])|
            == |Holders(callers)| - (if Holds(callers[c]) then 1 else 0) + if Holds(next) then 1 else 0
  {
    var changed := callers[c := next];
    if Holds(next) {
      assert Holders(changed) == Holders(callers) + {c};
    } else {
      assert Holders(changed) == Holders(callers) - {c};
    }
    if Holds(callers[c]) {
      assert c in Holders(callers);
    }
  }

  /** How one caller's step moves the gate's count, its own hold, and the command queue. */
  lemma AdmittedEnter(s: Sys, c: nat, live: Snapshot)
    requires AdmittedInv(s) && ClosingInv(s) && s.adm.gate.perCall > 0 && CallEnabled(s, c, Enter(live))
    ensures AdmittedInv(CallEnter(s, c, live))
  {
    var s' := CallEnter(s, c, live);
    HolderChange(s.callers, c, s'.callers[c]);
    EntryCounts(s.adm, c, live, s.clock, s.cfg.queueTimeoutMs);
  }

  lemma EntryCounts(a: A.State, c: nat, live: Snapshot, now: int, queueTimeoutMs: int)
    requires a.gate.perCall > 0
    ensures A.Enter(a, c, live, now, queueTimeoutMs).gate.admitted
            == a.gate.admitted + if A.EntryOf(a.gate, live).Admit? then 1 else 0
    ensures A.Closing(a.gate) ==> A.EntryOf(a.gate, live).Refused?
  {
  }

  lemma TurnCounts(a: A.State, c: nat, live: Snapshot, now: int)
    requires a.gate.perCall > 0 && c in a.waiters
    ensures var v := A.VerdictOf(a.gate, a.waiters[c], live, now);
            A.Turn(a, c, live, now).gate.admitted
            == a.gate.admitted + if v.End? && v.ending.Admitted? then 1 else 0
    ensures A.Closing(a.gate) ==> A.VerdictOf(a.gate, a.waiters[c], live, now) == A.End(A.ShutDown)
  {
  }

  lemma AdmittedRetry(s: Sys, c: nat, live: Snapshot)
    requires AdmittedInv(s) && ClosingInv(s) && s.adm.gate.perCall > 0 && CallEnabled(s, c, Retry(live))
    ensures AdmittedInv(CallRetry(s, c, live))
  {
    var s' := CallRetry(s, c, live);
    HolderChange(s.callers, c, s'.callers[c]);
    TurnCounts(s.adm, c, live, s.clock);
  }

  lemma AdmittedPassGate(s: Sys, c: nat)
    requires AdmittedInv(s) && ClosingInv(s) && IdsInv(s) && CallEnabled(s, c, PassGate)
    ensures AdmittedInv(CallGate(s, c))
  {
    var s' := CallGate(s, c);
    GateMovesOne(s, c);
    HolderChange(s.callers, c, s'.callers[c]);
    PassGateKeepsKinds(s, c);
    TokenInHandFrame(s, s');
    AdmittedMoved(s, s');
  }

  lemma PassGateKeepsKinds(s: Sys, c: nat)
    requires IdsInv(s)
    ensures KindsKept(s.calls, CallGate(s, c).calls)
  {
  }

  /** A reservation has moved between a caller and the queue, or none has, behind a closed gate. */
  lemma AdmittedMoved(s: Sys, s': Sys)
    requires AdmittedInv(s) && ClosingInv(s)
    requires s'.adm == s.adm && s'.pc == s.pc && s'.starter == s.starter && s'.hs == s.hs
    requires s'.calls.callBoxes == s.calls.callBoxes && s'.calls.writtenOff == s.calls.writtenOff
    requires TokenInHand(s') == TokenInHand(s)
    requires |Holders(s'.callers)| + |s'.calls.queue| == |Holders(s.callers)| + |s.calls.queue|
    requires A.Closing(s.adm.gate) ==> s'.calls.queue == s.calls.queue
    ensures AdmittedInv(s')
  {
  }

  lemma GateMovesOne(s: Sys, c: nat)
    requires CallEnabled(s, c, PassGate)
    ensures var s' := CallGate(s, c);
            && s'.adm == s.adm && s'.pc == s.pc && s'.starter == s.starter && s'.hs == s.hs
            && s'.callers == s.callers[c := s'.callers[c]] && s'.calls.callBoxes == s.calls.callBoxes
            && s'.calls.writtenOff == s.calls.writtenOff
            && (if A.Closing(s.adm.gate) then s'.callers[c] == Refusing && s'.calls.queue == s.calls.queue
                else s'.callers[c].Waiting? && |s'.calls.queue| == |s.calls.queue| + 1)
  {
  }

  lemma TokenInHandFrame(s: Sys, s': Sys)
    requires IdsInv(s) && KindsKept(s.calls, s'.calls) && s'.pc == s.pc
    ensures TokenInHand(s') == TokenInHand(s)
  {
  }

  lemma AdmittedRefuse(s: Sys, c: nat)
    requires AdmittedInv(s) && CallEnabled(s, c, Refuse)
    ensures AdmittedInv(CallRefuse(s, c))
  {
    HolderChange(s.callers, c, Left(Refused));
    assert c in Holders(s.callers);
  }

  lemma AdmittedCaller(s: Sys, c: nat, call: CallLabel)
    requires AdmittedInv(s) && ClosingInv(s) && IdsInv(s) && s.adm.gate.perCall > 0 && CallEnabled(s, c, call)
    ensures AdmittedInv(CallNext(s, c, call))
  {
    match call
    case Check => assert Holders(s.callers[c := Checked]) == Holders(s.callers);
    case Enter(live) => AdmittedEnter(s, c, live);
    case Retry(live) => AdmittedRetry(s, c, live);
    case PassGate => AdmittedPassGate(s, c);
    case Refuse => AdmittedRefuse(s, c);
    case Wake => AdmittedLeave(s, c, CallWake(s, c).callers[c].outcome);
    case TimeOut => AdmittedLeave(s, c, TimedOut);
  }

  lemma AdmittedLeave(s: Sys, c: nat, outcome: Outcome)
    requires AdmittedInv(s) && c in s.callers && s.callers[c].Waiting?
    ensures AdmittedInv(SetCaller(s, c, Left(outcome)))
  {
    HolderChange(s.callers, c, Left(outcome));
  }

  // --- the proxy thread -----------------------------------------------------------

  lemma AdmittedLoop(s: Sys, loop: LoopLabel)
    requires AdmittedInv(s) && PlaceInv(s) && IdsInv(s) && s.adm.gate.perCall > 0 && LoopEnabled(s, loop)
    ensures AdmittedInv(LoopNext(s, loop))
  {
    match loop
    case DispatchOne => AdmittedDispatch(s, s.pc.loop.slot);
    case IssueBeat => AdmittedBeat(s);
    case DrainOne => AdmittedDrain(s);
    case _ =>
      LoopKeepsCallers(s, loop);
      LoopKeepsTokens(s, loop);
  }

  lemma AdmittedDispatch(s: Sys, id: nat)
    requires AdmittedInv(s) && PlaceInv(s) && s.pc == Loop(Dispatch(id))
    ensures AdmittedInv(DispatchStep(s, id))
  {
    FlightIssue(s.calls.callBoxes, id);
  }

  lemma AdmittedBeat(s: Sys)
    requires AdmittedInv(s) && IdsInv(s) && s.pc == Loop(LaunchBeat)
    ensures AdmittedInv(LaunchBeatStep(s))
  {
    FlightIssue(s.calls.callBoxes, s.calls.nextId);
  }

  lemma AdmittedDrain(s: Sys)
    requires AdmittedInv(s) && s.pc == Loop(DrainQueue)
    ensures AdmittedInv(DrainStep(s))
  {
  }

  lemma LoopKeepsTokens(s: Sys, loop: LoopLabel)
    requires s.adm.gate.perCall > 0 && LoopEnabled(s, loop)
    requires !loop.DispatchOne? && !loop.IssueBeat? && !loop.DrainOne?
    ensures var s' := LoopNext(s, loop);
            && s'.calls.queue == s.calls.queue && s'.calls.callBoxes == s.calls.callBoxes
            && s'.adm.gate.admitted - TokenInHand(s') == s.adm.gate.admitted - TokenInHand(s)
            && (s'.pc.Loop? || s'.pc.Announce? || s'.pc.Leaving?)
  {
    if loop.AdvanceSync? {
      SyncKeepsTokens(s, loop.elapsed);
    }
  }

  lemma SyncKeepsTokens(s: Sys, elapsed: nat)
    requires s.pc == Loop(StepSync)
    ensures var s' := SyncStep(s, elapsed);
            && s'.calls.queue == s.calls.queue && s'.calls.callBoxes == s.calls.callBoxes
            && s'.adm == s.adm && TokenInHand(s') == TokenInHand(s) == 0 && (s'.pc.Loop? || s'.pc.Announce?)
  {
  }

  lemma AdmittedCallback(s: Sys, id: nat, status: int, result: string)
    requires AdmittedInv(s) && IdsInv(s) && LibraryEnabled(s, Complete(id, status, result))
    ensures AdmittedInv(Callback(s, id, status, result))
  {
    CallbackMovesToken(s, id, status, result);
    var s' := Callback(s, id, status, result);
    assert s'.adm == s.adm && s'.callers == s.callers && s'.calls.queue == s.calls.queue;
    assert s'.pc.Loop? == s.pc.Loop? && s'.pc.Drains? == s.pc.Drains? && !Abandoning(s'.pc);
  }

  /** The completion of a call moves its reservation from its box into the thread's hands. */
  lemma CallbackMovesToken(s: Sys, id: nat, status: int, result: string)
    requires IdsInv(s) && LibraryEnabled(s, Complete(id, status, result))
    ensures var s' := Callback(s, id, status, result);
            |s'.calls.callBoxes| + TokenInHand(s') == |s.calls.callBoxes| + TokenInHand(s)
  {
    var s' := Callback(s, id, status, result);
    CallbackKeepsKind(s, id, status, result);
    if id in s.calls.callBoxes {
      assert |s.calls.callBoxes - {id}| == |s.calls.callBoxes| - 1;
    } else {
      assert s.calls.callBoxes - {id} == s.calls.callBoxes;
    }
  }

  lemma CallbackKeepsKind(s: Sys, id: nat, status: int, result: string)
    requires LibraryEnabled(s, Complete(id, status, result))
    ensures var s' := Callback(s, id, status, result);
            CallOf(s'.pc) == Some(Delivered(id, status)) && id in s'.calls.slots
            && s'.calls.slots[id].kind == s.calls.slots[id].kind && s'.pc.Loop? == s.pc.Loop?
            && (s'.pc.Loop? ==> s'.pc.loop.LoopCall?)
  {
  }

  lemma AdmittedNote(s: Sys, id: nat, status: int)
    requires AdmittedInv(s) && CallOf(s.pc) == Some(Delivered(id, status)) && id in s.calls.slots
    ensures AdmittedInv(NoteStep(s, id, status))
  {
    var s' := NoteStep(s, id, status);
    assert TokenInHand(s') == TokenInHand(s);
  }

  lemma AdmittedLibrary(s: Sys, library: LibraryLabel)
    requires AdmittedInv(s) && IdsInv(s) && LibraryEnabled(s, library)
    ensures AdmittedInv(LibraryNext(s, library))
  {
    match library
    case Complete(id, status, result) => AdmittedCallback(s, id, status, result);
    case Note => AdmittedNote(s, CallOf(s.pc).value.slot, CallOf(s.pc).value.status);
    case _ =>
  }

  lemma AdmittedClose(s: Sys, close: CloseLabel)
    requires AdmittedInv(s) && ClosingInv(s) && HandshakeInv(s) && HeartbeatInv(s) && CloseEnabled(s, close)
    ensures AdmittedInv(CloseNext(s, close))
  {
    match close
    case FailOne => AdmittedFail(s, s.pc.drain.rest);
    case FinishTail => AdmittedTail(s);
    case _ =>
  }

  lemma AdmittedFail(s: Sys, rest: seq<nat>)
    requires AdmittedInv(s) && s.pc == Drains(Fail(rest))
    ensures AdmittedInv(FailStep(s, rest))
  {
  }

  lemma AdmittedTail(s: Sys)
    requires AdmittedInv(s) && ClosingInv(s) && HandshakeInv(s) && HeartbeatInv(s) && s.pc.Tail?
    ensures AdmittedInv(TailStep(s))
  {
  }

  lemma AdmittedStart(s: Sys, start: StartLabel)
    requires AdmittedInv(s) && HandshakeInv(s) && HeartbeatInv(s) && StartEnabled(s, start)
    requires Settled(s, ByStarter(start))
    ensures AdmittedInv(StartNext(s, start))
  {
    match start
    case EnterStart(cfg) => RestartCounts(s, cfg);
    case _ => assert Tokens(StartNext(s, start)) == Tokens(s);
  }

  /** A restart starts the count at nothing: it is exact if and only if nobody holds a reservation
      and no command is queued. */
  lemma RestartCounts(s: Sys, cfg: Config)
    requires HandshakeInv(s) && HeartbeatInv(s) && StartEnabled(s, EnterStart(cfg))
    ensures AdmittedInv(StartEnter(s, cfg)) <==> Holders(s.callers) == {} && s.calls.queue == []
  {
    var s' := StartEnter(s, cfg);
    assert s'.callers == s.callers && s'.calls == s.calls && s'.pc == s.pc && s.pc.Away?;
    assert TokenInHand(s') == 0 && s.calls.callBoxes == {};
    assert Holders(s.callers) == {} <==> |Holders(s.callers)| == 0;
  }

  lemma AdmittedThread(s: Sys, thread: ThreadLabel)
    requires AdmittedInv(s) && HandshakeInv(s) && ThreadEnabled(s, thread)
    ensures AdmittedInv(ThreadNext(s, thread))
  {
    var s' := ThreadNext(s, thread);
    assert s'.calls == s.calls && s'.callers == s.callers && s'.adm == s.adm && s'.starter == s.starter;
    assert TokenInHand(s') == TokenInHand(s) == 0;
  }

  lemma AdmittedWorld(s: Sys, world: WorldLabel)
    requires AdmittedInv(s)
    ensures AdmittedInv(WorldNext(s, world))
  {
  }

  // ---------------------------------------------------------------------------
  // The budget
  // ---------------------------------------------------------------------------

  /** What the budget gives a run that may start: at least one call, no more than configured, and
      no more than fits beside what is already open. */
  lemma BudgetIsSafe(cfg: Config, initial: Snapshot)
    requires cfg.maxInFlight > 0
    ensures PerCall(cfg.parallelBlockDownloads) >= 4
    ensures 0 <= EffectiveMax(cfg, initial) <= cfg.maxInFlight
    ensures EffectiveMax(cfg, initial) == 0 <==> NoRoomToStart(cfg, initial)
    ensures Known(initial) && !NoRoomToStart(cfg, initial)
            ==> Fits(initial, PerCall(cfg.parallelBlockDownloads), EffectiveMax(cfg, initial))
    ensures Known(initial) ==> (NoRoomToStart(cfg, initial) <==> !Fits(initial, PerCall(cfg.parallelBlockDownloads), 1))
  {
    var perCall := PerCall(cfg.parallelBlockDownloads);
    var effective := EffectiveMax(cfg, initial);
    if Known(initial) {
      CapacityIsLargestThatFits(initial, perCall, effective);
      CapacityIsLargestThatFits(initial, perCall, 1);
    }
  }
}
