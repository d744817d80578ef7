/** The promises of the runtime, over every run. */
module RuntimeTheorems {
  import opened Slots
  import opened SyncHealth
  import opened Runtime
  import opened RuntimeSteps
  import opened RuntimeSync
  import opened RuntimeRuns
  import opened RuntimeCalls
  import opened RuntimeReservations
  import opened RuntimePending
  import A = Admission

  // ---------------------------------------------------------------------------
  // Every run
  // ---------------------------------------------------------------------------

  /** What every run keeps of the gate's flags, the queue, the in-flight count and the pending list. */
  ghost predicate WiresInv(s: Sys) {
    ClosingInv(s) && PlaceInv(s) && FlightInv(s) && ListsInv(s)
  }

  lemma WiresCaller(s: Sys, c: nat, call: CallLabel)
    requires WiresInv(s) && IdsInv(s) && s.adm.gate.perCall > 0 && CallEnabled(s, c, call)
    ensures WiresInv(CallNext(s, c, call))
  {
    ClosingCaller(s, c, call);
    PlaceCaller(s, c, call);
    FlightCaller(s, c, call);
    PendingCaller(s, c, call);
  }

  lemma WiresLoop(s: Sys, loop: LoopLabel)
    requires WiresInv(s) && RunInv(s) && s.adm.gate.perCall > 0 && LoopEnabled(s, loop)
    ensures WiresInv(LoopNext(s, loop))
  {
    ClosingLoop(s, loop);
    PlaceLoop(s, loop);
    FlightLoop(s, loop);
    ListsLoop(s, loop);
  }

  lemma WiresLibrary(s: Sys, library: LibraryLabel)
    requires WiresInv(s) && RunInv(s) && LibraryEnabled(s, library)
    ensures WiresInv(LibraryNext(s, library))
  {
    ClosingLibrary(s, library);
    PlaceLibrary(s, library);
    FlightLibrary(s, library);
    match library
    case Complete(id, status, result) => ListsCallback(s, id, status, result);
    case _ => ListsLibraryRest(s, library);
  }

  lemma WiresClose(s: Sys, close: CloseLabel)
    requires WiresInv(s) && RunInv(s) && CloseEnabled(s, close)
    ensures WiresInv(CloseNext(s, close))
  {
    ClosingClose(s, close);
    PlaceClose(s, close);
    FlightClose(s, close);
    ListsClose(s, close);
  }

  lemma WiresStart(s: Sys, start: StartLabel)
    requires WiresInv(s) && RunInv(s) && s.adm.gate.perCall > 0 && StartEnabled(s, start)
    ensures WiresInv(StartNext(s, start))
  {
    ClosingStart(s, start);
    PlaceStart(s, start);
    FlightOthers(s, ByStarter(start));
    ListsOthers(s, ByStarter(start));
  }

  lemma WiresThread(s: Sys, thread: ThreadLabel)
    requires WiresInv(s) && RunInv(s) && s.adm.gate.perCall > 0 && ThreadEnabled(s, thread)
    ensures WiresInv(ThreadNext(s, thread))
  {
    ClosingThread(s, thread);
    PlaceThread(s, thread);
    FlightThread(s, thread);
    ListsOthers(s, ByThread(thread));
  }

  lemma WiresWorld(s: Sys, world: WorldLabel)
    requires WiresInv(s) && RunInv(s) && s.adm.gate.perCall > 0
    ensures WiresInv(WorldNext(s, world))
  {
    FlightOthers(s, ByWorld(world));
    ListsOthers(s, ByWorld(world));
  }

  lemma WiresStep(s: Sys, l: Label)
    requires WiresInv(s) && RunInv(s) && Enabled(s, l)
    ensures WiresInv(Next(s, l))
  {
    match l
    case ByCaller(c, call) => WiresCaller(s, c, call);
    case ByStarter(start) => WiresStart(s, start);
    case ByWorld(world) => WiresWorld(s, world);
    case ByThread(thread) => WiresThread(s, thread);
    case InLoop(loop) => WiresLoop(s, loop);
    case ByLibrary(library) => WiresLibrary(s, library);
    case InClose(close) => WiresClose(s, close);
  }

  lemma {:induction false} WiresRun(s: Sys, ls: seq<Label>)
    requires LifeInv(s) && WiresInv(s) && Legal(s, ls)
    ensures LifeInv(Exec(s, ls)) && WiresInv(Exec(s, ls))
    decreases |ls|
  {
    if ls != [] {
      LifeStep(s, ls[0]);
      WiresStep(s, ls[0]);
      WiresRun(Next(s, ls[0]), ls[1..]);
    }
  }

  lemma WiresInitial()
    ensures WiresInv(INITIAL)
  {
    assert WaitedSlots(INITIAL.callers) == {};
  }

  ghost predicate Reached(s: Sys) {
    exists ls :: Legal(INITIAL, ls) && Exec(INITIAL, ls) == s
  }

  lemma ReachedIsKept(s: Sys)
    requires Reached(s)
    ensures LifeInv(s) && WiresInv(s)
  {
    var ls :| Legal(INITIAL, ls) && Exec(INITIAL, ls) == s;
    LifeInitial();
    WiresInitial();
    WiresRun(INITIAL, ls);
  }

  /** What follows a reached state by legal steps is reached. */
  lemma ReachedOn(s: Sys, ls: seq<Label>)
    requires Reached(s) && Legal(s, ls)
    ensures Reached(Exec(s, ls))
  {
    var before :| Legal(INITIAL, before) && Exec(INITIAL, before) == s;
    RunsCompose(INITIAL, before, ls);
  }

  lemma ReachedNext(s: Sys, l: Label)
    requires Reached(s) && Enabled(s, l)
    ensures Reached(Next(s, l))
  {
    ReachedOn(s, [l]);
    assert Exec(s, [l]) == Next(s, l);
  }

  // ---------------------------------------------------------------------------
  // Runs whose restarts are settled
  // ---------------------------------------------------------------------------

  lemma AdmittedStep(s: Sys, l: Label)
    requires AdmittedInv(s) && RunInv(s) && ClosingInv(s) && PlaceInv(s) && Enabled(s, l) && Settled(s, l)
    ensures AdmittedInv(Next(s, l))
  {
    match l
    case ByCaller(c, call) => AdmittedCaller(s, c, call);
    case ByStarter(start) => AdmittedStart(s, start);
    case ByWorld(world) => AdmittedWorld(s, world);
    case ByThread(thread) => AdmittedThread(s, thread);
    case InLoop(loop) => AdmittedLoop(s, loop);
    case ByLibrary(library) => AdmittedLibrary(s, library);
    case InClose(close) => AdmittedClose(s, close);
  }

  /** A legal run in which nobody holds a reservation, and no command is queued, at any restart. */
  ghost predicate SettledRun(s: Sys, ls: seq<Label>)
    requires Legal(s, ls)
    decreases |ls|
  {
    ls == [] || (Settled(s, ls[0]) && SettledRun(Next(s, ls[0]), ls[1..]))
  }

  /** The gate's count is exact in every state of the run. */
  ghost predicate ConservedThroughout(s: Sys, ls: seq<Label>)
    requires Legal(s, ls)
    decreases |ls|
  {
    AdmittedInv(s) && (ls == [] || ConservedThroughout(Next(s, ls[0]), ls[1..]))
  }

  lemma {:induction false} ConservedIffSettledFrom(s: Sys, ls: seq<Label>)
    requires LifeInv(s) && WiresInv(s) && AdmittedInv(s) && Legal(s, ls)
    ensures ConservedThroughout(s, ls) <==> SettledRun(s, ls)
    decreases |ls|
  {
    if ls != [] {
      var l, s' := ls[0], Next(s, ls[0]);
      LifeStep(s, l);
      WiresStep(s, l);
      if Settled(s, l) {
        AdmittedStep(s, l);
        ConservedIffSettledFrom(s', ls[1..]);
      } else {
        RestartCounts(s, l.start.cfg);
        assert !AdmittedInv(s');
      }
    }
  }

  /** Over a whole run, the gate's count is exact in every state if and only if nobody held a
      reservation, and no command was queued, whenever a start() was entered. */
  lemma ConservedIffSettled(ls: seq<Label>)
    requires Legal(INITIAL, ls)
    ensures ConservedThroughout(INITIAL, ls) <==> SettledRun(INITIAL, ls)
  {
    LifeInitial();
    WiresInitial();
    AdmittedInitial();
    ConservedIffSettledFrom(INITIAL, ls);
  }

  lemma AdmittedInitial()
    ensures AdmittedInv(INITIAL)
  {
    assert Holders(INITIAL.callers) == {};
  }

  lemma {:induction false} SettledRunIsKept(s: Sys, ls: seq<Label>)
    requires LifeInv(s) && WiresInv(s) && AdmittedInv(s) && Legal(s, ls) && SettledRun(s, ls)
    ensures AdmittedInv(Exec(s, ls))
    decreases |ls|
  {
    if ls != [] {
      LifeStep(s, ls[0]);
      WiresStep(s, ls[0]);
      AdmittedStep(s, ls[0]);
      SettledRunIsKept(Next(s, ls[0]), ls[1..]);
    }
  }

  ghost predicate SettledReached(s: Sys) {
    exists ls :: Legal(INITIAL, ls) && SettledRun(INITIAL, ls) && Exec(INITIAL, ls) == s
  }

  lemma SettledReachedIsKept(s: Sys)
    requires SettledReached(s)
    ensures Reached(s) && LifeInv(s) && WiresInv(s) && AdmittedInv(s)
  {
    var ls :| Legal(INITIAL, ls) && SettledRun(INITIAL, ls) && Exec(INITIAL, ls) == s;
    ReachedIsKept(s);
    LifeInitial();
    WiresInitial();
    AdmittedInitial();
    SettledRunIsKept(INITIAL, ls);
  }

  // ---------------------------------------------------------------------------
  // Reservations
  // ---------------------------------------------------------------------------

  /** As long as every restart is settled, the gate counts exactly the reservations that exist:
      callers on their way to the enqueue gate, queued commands, outstanding calls and heartbeats, and
      the one the proxy thread has in hand. From shutdown's swap to teardown's reset it also counts
      the reservations written off, and from the reset to the next start() it counts none, behind a
      closed gate and with nothing queued or outstanding. */
  lemma ReservationsAreConserved(s: Sys)
    requires SettledReached(s)
    ensures !s.pc.Away? && !s.pc.Tail? && !Abandoning(s.pc) ==>
              s.adm.gate.admitted == |Holders(s.callers)| + |s.calls.queue| + |s.calls.callBoxes| + TokenInHand(s)
    ensures Abandoning(s.pc) ==>
              s.adm.gate.admitted == |Holders(s.callers)| + |s.calls.callBoxes| + s.calls.writtenOff && s.calls.queue == []
    ensures s.pc.Tail? && !Abandoning(s.pc) ==> WrittenOff(s)
    ensures s.pc.Away? ==> s.adm.gate.admitted == |Holders(s.callers)| + |s.calls.queue|
                           || (WrittenOff(s) && s.starter.NoStart? && !s.hs.runRequested)
  {
    SettledReachedIsKept(s);
  }

  lemma OneSyncAtMost(s: Sys)
    requires SyncBoxInv(s)
    ensures |s.calls.syncBoxes| + (if Delivering(s, Kind.Sync) || Delivering(s, Kind.OpSync) then 1 else 0) <= 1
  {
  }

  /** What is in flight is at most what is admitted plus the one unadmitted sync, as long as every
      restart is settled. */
  lemma InFlightIsAdmitted(s: Sys)
    requires SettledReached(s)
    ensures 0 <= s.calls.inFlight <= s.adm.gate.admitted + 1
  {
    SettledReachedIsKept(s);
    OneSyncAtMost(s);
    FlightIsTokens(s);
  }

  lemma FlightIsTokens(s: Sys)
    requires FlightInv(s) && AdmittedInv(s) && HeartbeatInv(s) && SyncBoxInv(s)
    ensures 0 <= s.calls.inFlight <= s.adm.gate.admitted + |s.calls.syncBoxes|
                                     + if Delivering(s, Kind.Sync) || Delivering(s, Kind.OpSync) then 1 else 0
  {
  }

  // ---------------------------------------------------------------------------
  // Shutdown leaves no waiter behind
  // ---------------------------------------------------------------------------

  /** In every state, every undone slot somebody owns is where shutdown will look; once shutdown has
      looked there is none. */
  lemma EveryUndoneSlotIsReachable(s: Sys, id: nat)
    requires Reached(s) && id in Owned(s) && !Done(s.calls, id)
    ensures id in Reachable(s)
    ensures !s.pc.Tail? && s.pc != Drains(StopLib)
  {
    ReachedIsKept(s);
    NobodyUndoneIfSwept(s);
  }

  lemma NobodyUndoneIfSwept(s: Sys)
    requires ReachInv(s) && PendingInv(s)
    ensures s.pc.Tail? || s.pc == Drains(StopLib) ==> forall id :: id in Owned(s) ==> Done(s.calls, id)
  {
    if s.pc.Tail? || s.pc == Drains(StopLib) {
      assert Reachable(s) == {};
    }
  }

  /** Nobody is blocked: every slot anybody owns is done and nothing is listed, so whoever waits can
      return. */
  ghost predicate NobodyLeft(s: Sys) {
    && (forall id :: id in Owned(s) ==> Done(s.calls, id))
    && s.calls.pending == [] && s.calls.queue == []
  }

  lemma WaitersCanReturn(s: Sys)
    requires NobodyLeft(s) && s.adm.gate.perCall > 0
    ensures forall c :: c in s.callers && s.callers[c].Waiting? ==> Enabled(s, ByCaller(c, Wake))
  {
    forall c | c in s.callers && s.callers[c].Waiting? ensures Enabled(s, ByCaller(c, Wake)) {
      assert s.callers[c].slot in WaitedSlots(s.callers);
      assert s.callers[c].slot in Owned(s);
    }
  }

  /** After shutdown has walked the pending list, and until the run is over, nobody is left behind. */
  lemma NoWaiterLeftBehind(s: Sys)
    requires Reached(s) && (s.pc.Tail? || s.pc == Drains(StopLib))
    ensures NobodyLeft(s)
    ensures forall c :: c in s.callers && s.callers[c].Waiting? ==> Enabled(s, ByCaller(c, Wake))
  {
    ReachedIsKept(s);
    NobodyUndoneIfSwept(s);
    WaitersCanReturn(s);
  }

  /** Between runs, exactly one step undoes it: a caller that passes the open enqueue gate before the library has
      answered the next run. */
  lemma OnlyTheOpenGateLeavesAWaiter(s: Sys, l: Label)
    requires Reached(s) && NobodyLeft(s) && Enabled(s, l)
    requires (s.pc.Away? || s.pc.Before?) && (Next(s, l).pc.Away? || Next(s, l).pc.Before?)
    ensures NobodyLeft(Next(s, l)) <==> !(l.ByCaller? && l.call.PassGate? && !A.Closing(s.adm.gate))
  {
    ReachedIsKept(s);
    LifeStep(s, l);
    WiresStep(s, l);
    if l.ByCaller? {
      OpenGateLeavesAWaiter(s, l.c, l.call);
    } else {
      AwaySteps(s, l);
      OthersKeepCalls(s, l);
      StillNobody(Next(s, l));
    }
  }

  lemma StillNobody(s: Sys)
    requires ReachInv(s) && s.calls.pending == [] && s.calls.queue == [] && (s.pc.Away? || s.pc.Before?)
    ensures NobodyLeft(s)
  {
    assert Reachable(s) == {};
  }

  lemma OpenGateLeavesAWaiter(s: Sys, c: nat, call: CallLabel)
    requires NobodyLeft(s) && s.adm.gate.perCall > 0 && CallEnabled(s, c, call) && (s.pc.Away? || s.pc.Before?)
    requires ReachInv(CallNext(s, c, call))
    ensures NobodyLeft(CallNext(s, c, call)) <==> !(call.PassGate? && !A.Closing(s.adm.gate))
  {
    var s' := CallNext(s, c, call);
    if call.PassGate? && !A.Closing(s.adm.gate) {
      assert s'.calls.queue == [s.calls.nextId];
    } else {
      CallerFrames(s, c, call);
      CallerKeepsLists(s, c, call);
      StillNobody(s');
    }
  }

  lemma AwaySteps(s: Sys, l: Label)
    requires Enabled(s, l) && (s.pc.Away? || s.pc.Before?)
    ensures l.ByCaller? || l.ByStarter? || l.ByWorld? || l.ByThread?
  {
  }

  /** From the moment a run starts to close until it is over, nothing is enqueued: a caller that still
      comes to the enqueue gate is turned away. */
  lemma NothingEnqueuedWhileClosing(s: Sys, c: nat)
    requires Reached(s) && CallEnabled(s, c, PassGate)
    requires s.pc.Leaving? || s.pc.Drains? || s.pc.Tail?
    ensures TurnedAway(s, CallGate(s, c), c)
  {
    ReachedIsKept(s);
  }

  ghost predicate TurnedAway(s: Sys, s': Sys, c: nat) {
    && c in s'.callers && s'.callers[c] == Refusing
    && s'.calls.queue == s.calls.queue && s'.calls.pending == s.calls.pending
  }

  /** What a step does to the slots: nothing, create one, or decide the outcome of one. */
  datatype SlotChange = Same | Created(kind: Kind) | Decided(slot: nat, status: int, result: string)

  function ChangeOf(s: Sys, l: Label): SlotChange {
    match l
    case ByCaller(_, PassGate) => Created(User)
    case InLoop(AdvanceSync(_)) =>
      var action := SyncAction(s.health, s.cfg.op, s.clock);
      if action == IssueEth then Created(Kind.Sync) else if action == IssueOp then Created(Kind.OpSync) else Same
    case InLoop(IssueBeat) => Created(Heartbeat)
    case ByLibrary(Complete(id, status, result)) => Decided(id, status, result)
    case InClose(FailOne) =>
      if s.pc.Drains? && s.pc.drain.Fail? && s.pc.drain.rest != [] && s.pc.drain.rest[0] in Owned(s)
      then Decided(s.pc.drain.rest[0], RET_ERROR, SHUTTING_DOWN) else Same
    case _ => Same
  }

  function Change(calls: Calls, change: SlotChange): map<nat, Slot> {
    match change
    case Same => calls.slots
    case Created(kind) => calls.slots[calls.nextId := NewSlot(kind)]
    case Decided(id, status, result) =>
      if id in calls.slots then calls.slots[id := Slots.Complete(calls.slots[id], status, result)] else calls.slots
  }

  lemma ChangeCaller(s: Sys, c: nat, call: CallLabel)
    requires s.adm.gate.perCall > 0 && CallEnabled(s, c, call)
    ensures CallNext(s, c, call).calls.slots == Change(s.calls, ChangeOf(s, ByCaller(c, call)))
  {
  }

  lemma ChangeLoop(s: Sys, loop: LoopLabel)
    requires s.adm.gate.perCall > 0 && LoopEnabled(s, loop)
    ensures LoopNext(s, loop).calls.slots == Change(s.calls, ChangeOf(s, InLoop(loop)))
  {
  }

  lemma ChangeLibrary(s: Sys, library: LibraryLabel)
    requires LibraryEnabled(s, library)
    ensures LibraryNext(s, library).calls.slots == Change(s.calls, ChangeOf(s, ByLibrary(library)))
  {
  }

  lemma ChangeClose(s: Sys, close: CloseLabel)
    requires CloseEnabled(s, close)
    ensures CloseNext(s, close).calls.slots == Change(s.calls, ChangeOf(s, InClose(close)))
  {
  }

  lemma ChangeStep(s: Sys, l: Label)
    requires Enabled(s, l)
    ensures Next(s, l).calls.slots == Change(s.calls, ChangeOf(s, l))
  {
    match l
    case ByCaller(c, call) => ChangeCaller(s, c, call);
    case InLoop(loop) => ChangeLoop(s, loop);
    case ByLibrary(library) => ChangeLibrary(s, library);
    case InClose(close) => ChangeClose(s, close);
    case _ => OthersKeepSlots(s, l);
  }

  lemma OthersKeepSlots(s: Sys, l: Label)
    requires Enabled(s, l) && (l.ByStarter? || l.ByWorld? || l.ByThread?)
    ensures Next(s, l).calls.slots == s.calls.slots
  {
  }

  /** A slot's outcome is decided once, by a completion of its own box or by shutdown, whichever is
      first, and is what that one said. */
  lemma OutcomeIsDecidedOnce(s: Sys, l: Label, id: nat)
    requires IdsInv(s) && Enabled(s, l) && id in s.calls.slots
    ensures id in Next(s, l).calls.slots
    ensures var change, slot, slot' := ChangeOf(s, l), s.calls.slots[id], Next(s, l).calls.slots[id];
            if slot.done || !change.Decided? || change.slot != id then slot' == slot
            else slot' == slot.(done := true, status := change.status, result := change.result)
  {
    ChangeStep(s, l);
  }

  /** Once done, a slot's status and result never change again, in this run or any later one. */
  lemma {:induction false} DoneIsFinal(s: Sys, ls: seq<Label>, id: nat)
    requires LifeInv(s) && Legal(s, ls) && Done(s.calls, id)
    ensures id in Exec(s, ls).calls.slots && Exec(s, ls).calls.slots[id] == s.calls.slots[id]
    decreases |ls|
  {
    if ls != [] {
      OutcomeIsDecidedOnce(s, ls[0], id);
      LifeStep(s, ls[0]);
      DoneIsFinal(Next(s, ls[0]), ls[1..], id);
    }
  }

  // ---------------------------------------------------------------------------
  // The pending list stays bounded
  // ---------------------------------------------------------------------------

  ghost predicate WithinBound(pending: seq<nat>, owned: set<nat>) {
    |pending| <= PENDING_SWEEP_AT || |pending| <= |owned|
  }

  /** Right after each registration the list holds at most the sweep length or one entry per slot
      still owned, the new one included, and every owned entry it held before. */
  lemma RegistrationIsBounded(pending: seq<nat>, owned: set<nat>, id: nat)
    requires Distinct(pending) && id !in pending
    ensures WithinBound(Prune(pending, owned) + [id], owned + {id})
    ensures OwnedOnly(Prune(pending, owned), owned) == OwnedOnly(pending, owned)
  {
    PruneIsBounded(pending, owned, id);
    PruneIsSound(pending, owned);
  }

  lemma PendingBoundCaller(s: Sys, c: nat)
    requires Reached(s) && CallEnabled(s, c, PassGate) && !A.Closing(s.adm.gate)
    ensures WithinBound(CallGate(s, c).calls.pending, Owned(s) + {s.calls.nextId})
    ensures s.calls.nextId in Owned(CallGate(s, c))
  {
    ReachedIsListed(s);
    RegistrationIsBounded(s.calls.pending, Owned(s), s.calls.nextId);
    assert CallGate(s, c).callers[c] == Waiting(s.calls.nextId);
    assert s.calls.nextId in WaitedSlots(CallGate(s, c).callers);
  }

  lemma PendingBoundSync(s: Sys, op: bool)
    requires Reached(s)
    ensures WithinBound(RegisterSync(s, op).calls.pending, Owned(s) + {s.calls.nextId})
  {
    ReachedIsListed(s);
    RegistrationIsBounded(s.calls.pending, Owned(s), s.calls.nextId);
  }

  lemma PendingBoundBeat(s: Sys, id: nat)
    requires Reached(s) && s.pc == Loop(PushBeat(id))
    ensures WithinBound(PushBeatStep(s, id).calls.pending, Owned(s))
  {
    ReachedIsListed(s);
    BeatIsOwned(s, id);
    RegistrationIsBounded(s.calls.pending, Owned(s), id);
  }

  lemma BeatIsOwned(s: Sys, id: nat)
    requires s.pc == Loop(PushBeat(id))
    ensures Owned(s) + {id} == Owned(s)
  {
  }

  lemma ReachedIsListed(s: Sys)
    requires Reached(s)
    ensures IdsInv(s) && PendingInv(s)
  {
    ReachedIsKept(s);
  }
}
