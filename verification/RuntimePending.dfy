/** The pending list: every undone slot somebody owns can be reached by shutdown, and after
    shutdown has walked the list no owned slot is left undone. */
module RuntimePending {
  import opened Slots
  import opened SyncHealth
  import opened Runtime
  import opened RuntimeSync
  import opened RuntimeCalls
  import A = Admission

  /** A heartbeat slot handed to the library before it is registered. */
  function BeatInHand(pc: Pc): set<nat> {
    match pc
    case Loop(PushBeat(id)) => {id}
    case Loop(LoopCall(_, ToPush(id))) => {id}
    case _ => {}
  }

  /** The slots shutdown will reach: the pending list, or what is left of it, and the heartbeat the
      proxy thread is about to register. */
  function Reachable(s: Sys): set<nat> {
    match s.pc
    case Drains(Fail(rest)) => Elements(rest)
    case _ => Elements(s.calls.pending) + BeatInHand(s.pc)
  }

  ghost predicate Done(calls: Calls, id: nat) {
    id in calls.slots && calls.slots[id].done
  }

  /** Every slot with a waiter, a queued command or an outstanding box is done or can be reached. */
  ghost predicate ReachInv(s: Sys) {
    forall id :: id in Owned(s) ==> Done(s.calls, id) || id in Reachable(s)
  }

  ghost predicate PendingInv(s: Sys) {
    && Distinct(s.calls.pending)
    && (forall id :: id in s.calls.pending ==> id in s.calls.slots && id !in BeatInHand(s.pc))
    && (Cleared(s.pc) ==> s.calls.pending == [] && s.calls.queue == [])
  }

  /** From the moment shutdown takes the pending list to the end of teardown. */
  predicate Cleared(pc: Pc) {
    pc.Tail? || (pc.Drains? && (pc.drain.Fail? || pc.drain.StopLib?))
  }

  ghost predicate WaitedInv(s: Sys) {
    && (forall id :: id in WaitedSlots(s.callers) ==> KindOf(s.calls, id, User))
    && s.calls.leaked <= s.calls.slots.Keys
  }

  // --- frames ---------------------------------------------------------------------

  lemma ReachFrame(s: Sys, s': Sys)
    requires ReachInv(s) && DoneKept(s.calls.slots, s'.calls.slots)
    requires Owned(s') <= Owned(s)
    requires forall id :: id in Reachable(s) && id in Owned(s') ==> Done(s'.calls, id) || id in Reachable(s')
    ensures ReachInv(s')
  {
  }

  lemma WaitedChange(callers: map<nat, Caller>, c: nat, next: Caller)
    ensures WaitedSlots(callers[c := next]) <= WaitedSlots(callers) + if next.Waiting? then {next.slot} else {}
  {
    var changed := callers[c := next];
    forall id | id in WaitedSlots(changed)
      ensures id in WaitedSlots(callers) || (next.Waiting? && id == next.slot)
    {
      var d :| d in changed && changed[d].Waiting? && changed[d].slot == id;
      if d != c {
        assert d in callers && callers[d].Waiting?;
      }
    }
  }

  // --- callers ----------------------------------------------------------------------

  lemma OwnedCaller(s: Sys, c: nat, next: Caller, s': Sys)
    requires s'.callers == s.callers[c := next] && s'.pc == s.pc
    requires s'.calls.callBoxes == s.calls.callBoxes && s'.calls.syncBoxes == s.calls.syncBoxes
    requires s'.calls.leaked == s.calls.leaked && s'.calls.queue == s.calls.queue
    ensures Owned(s') <= Owned(s) + if next.Waiting? then {next.slot} else {}
  {
    WaitedChange(s.callers, c, next);
  }

  lemma PushReach(pending: seq<nat>, owned: set<nat>, id: nat)
    ensures forall i :: i in Elements(pending) && i in owned ==> i in Elements(Prune(pending, owned) + [id])
    ensures id in Elements(Prune(pending, owned) + [id])
  {
    PruneIsSound(pending, owned);
    ElementsSnoc(Prune(pending, owned), id);
  }

  lemma PushPending(pending: seq<nat>, owned: set<nat>, id: nat)
    requires Distinct(pending) && id !in pending
    ensures Distinct(Prune(pending, owned) + [id])
    ensures forall i :: i in Prune(pending, owned) + [id] ==> i in pending || i == id
  {
    PruneIsSound(pending, owned);
    DistinctSnoc(Prune(pending, owned), id);
  }

  lemma ReachGate(s: Sys, c: nat)
    requires ReachInv(s) && IdsInv(s) && ClosingInv(s) && WaitedInv(s) && CallEnabled(s, c, PassGate)
    requires !A.Closing(s.adm.gate)
    ensures ReachInv(CallGate(s, c))
  {
    var id := s.calls.nextId;
    var s' := CallGate(s, c);
    var owned := Owned(s);
    WaitedChange(s.callers, c, Waiting(id));
    ElementsSnoc(s.calls.queue, id);
    assert Owned(s') <= owned + {id};
    PushReach(s.calls.pending, owned, id);
    assert DoneKept(s.calls.slots, s'.calls.slots);
    assert Reachable(s') == Elements(s'.calls.pending) + BeatInHand(s.pc);
  }

  lemma PendingGate(s: Sys, c: nat)
    requires PendingInv(s) && IdsInv(s) && ClosingInv(s) && CallEnabled(s, c, PassGate)
    requires !A.Closing(s.adm.gate)
    ensures PendingInv(CallGate(s, c))
  {
    PushPending(s.calls.pending, Owned(s), s.calls.nextId);
  }

  /** Every other step of a caller leaves the lists alone. */
  lemma CallerKeepsLists(s: Sys, c: nat, call: CallLabel)
    requires s.adm.gate.perCall > 0 && CallEnabled(s, c, call)
    requires !call.PassGate? || A.Closing(s.adm.gate)
    ensures var s' := CallNext(s, c, call);
            && s'.callers == s.callers[c := s'.callers[c]] && !s'.callers[c].Waiting?
            && s'.calls.queue == s.calls.queue && s'.calls.pending == s.calls.pending
            && (s'.calls.slots == s.calls.slots || s'.calls.slots == s.calls.slots[s.calls.nextId := NewSlot(User)])
  {
  }

  lemma PendingCallerRest(s: Sys, c: nat, call: CallLabel)
    requires PendingInv(s) && ReachInv(s) && IdsInv(s) && WaitedInv(s) && s.adm.gate.perCall > 0 && CallEnabled(s, c, call)
    requires !call.PassGate? || A.Closing(s.adm.gate)
    ensures var s' := CallNext(s, c, call); PendingInv(s') && ReachInv(s') && WaitedInv(s')
  {
    var s' := CallNext(s, c, call);
    CallerFrames(s, c, call);
    CallerKeepsLists(s, c, call);
    OwnedCaller(s, c, s'.callers[c], s');
    WaitedChange(s.callers, c, s'.callers[c]);
    assert Reachable(s') == Reachable(s);
    ReachFrame(s, s');
  }

  lemma WaitedGate(s: Sys, c: nat)
    requires IdsInv(s) && WaitedInv(s) && CallEnabled(s, c, PassGate) && !A.Closing(s.adm.gate)
    ensures WaitedInv(CallGate(s, c))
  {
    WaitedChange(s.callers, c, Waiting(s.calls.nextId));
  }

  lemma PendingCaller(s: Sys, c: nat, call: CallLabel)
    requires PendingInv(s) && ReachInv(s) && WaitedInv(s) && IdsInv(s) && ClosingInv(s)
    requires s.adm.gate.perCall > 0 && CallEnabled(s, c, call)
    ensures var s' := CallNext(s, c, call); PendingInv(s') && ReachInv(s') && WaitedInv(s')
  {
    if call.PassGate? && !A.Closing(s.adm.gate) {
      ReachGate(s, c);
      PendingGate(s, c);
      WaitedGate(s, c);
    } else {
      PendingCallerRest(s, c, call);
    }
  }

  // --- the loop -----------------------------------------------------------------------

  ghost predicate ListsInv(s: Sys) {
    PendingInv(s) && ReachInv(s) && WaitedInv(s)
  }

  /** A step that creates no slot and registers none. */
  lemma ListsFrame(s: Sys, s': Sys)
    requires ListsInv(s) && s'.callers == s.callers
    requires s'.calls.slots == s.calls.slots && s'.calls.pending == s.calls.pending && s'.calls.leaked == s.calls.leaked
    requires Owned(s') <= Owned(s) && BeatInHand(s'.pc) == BeatInHand(s.pc)
    requires Reachable(s) <= Reachable(s') && (Cleared(s'.pc) ==> Cleared(s.pc) && s'.calls.queue == s.calls.queue)
    ensures ListsInv(s')
  {
  }

  predicate QuietLoop(loop: LoopLabel) {
    !loop.AdvanceSync? && !loop.IssueBeat? && !loop.RegisterBeat?
  }

  lemma QuietLoopFrame(s: Sys, loop: LoopLabel)
    requires s.adm.gate.perCall > 0 && LoopEnabled(s, loop) && QuietLoop(loop)
    ensures var s' := LoopNext(s, loop);
            && s'.calls.slots == s.calls.slots && s'.calls.pending == s.calls.pending && s'.calls.leaked == s.calls.leaked
            && s'.callers == s.callers && BeatInHand(s'.pc) == BeatInHand(s.pc) == {}
            && !Cleared(s'.pc)
  {
  }

  /** What a slot is owned by may change hands, but no step of the loop adds an owner to an old slot. */
  lemma QuietLoopOwned(s: Sys, loop: LoopLabel)
    requires s.adm.gate.perCall > 0 && LoopEnabled(s, loop) && QuietLoop(loop)
    ensures Owned(LoopNext(s, loop)) <= Owned(s)
  {
    if loop.DrainOne? {
      DrainOwned(s);
    } else {
      assert LoopNext(s, loop).calls.queue == s.calls.queue;
    }
  }

  lemma DrainOwned(s: Sys)
    requires s.pc == Loop(DrainQueue)
    ensures Owned(DrainStep(s)) <= Owned(s)
  {
    if s.calls.queue != [] {
      assert s.calls.queue[0] in s.calls.queue;
      assert Elements(s.calls.queue[1..]) <= Elements(s.calls.queue);
    }
  }

  lemma ListsQuietLoop(s: Sys, loop: LoopLabel)
    requires ListsInv(s) && s.adm.gate.perCall > 0 && LoopEnabled(s, loop) && QuietLoop(loop)
    ensures ListsInv(LoopNext(s, loop))
  {
    QuietLoopFrame(s, loop);
    QuietLoopOwned(s, loop);
    ListsFrame(s, LoopNext(s, loop));
  }

  lemma ListsIssueBeat(s: Sys)
    requires ListsInv(s) && IdsInv(s) && s.pc == Loop(LaunchBeat)
    ensures ListsInv(LaunchBeatStep(s))
  {
    var s' := LaunchBeatStep(s);
    var id := s.calls.nextId;
    assert Owned(s') <= Owned(s) + {id};
    assert Reachable(s') == Elements(s.calls.pending) + {id};
    assert DoneKept(s.calls.slots, s'.calls.slots);
  }

  lemma ListsRegisterBeat(s: Sys, id: nat)
    requires ListsInv(s) && IdsInv(s) && s.pc == Loop(PushBeat(id))
    ensures ListsInv(PushBeatStep(s, id))
  {
    var s' := PushBeatStep(s, id);
    PushReach(s.calls.pending, Owned(s), id);
    PushPending(s.calls.pending, Owned(s), id);
    assert Owned(s') <= Owned(s);
  }

  lemma ListsRegisterSync(s: Sys, op: bool)
    requires ListsInv(s) && IdsInv(s) && s.pc == Loop(StepSync)
    ensures ListsInv(RegisterSync(s, op))
  {
    var s' := RegisterSync(s, op);
    var id := s.calls.nextId;
    PushReach(s.calls.pending, Owned(s), id);
    PushPending(s.calls.pending, Owned(s), id);
    assert Owned(s') <= Owned(s) + {id};
    assert DoneKept(s.calls.slots, s'.calls.slots);
  }

  lemma ListsSync(s: Sys, elapsed: nat)
    requires ListsInv(s) && IdsInv(s) && s.pc == Loop(StepSync)
    ensures ListsInv(SyncStep(s, elapsed))
  {
    var s' := SyncStep(s, elapsed);
    match SyncAction(s.health, s.cfg.op, s.clock)
    case IssueEth => ListsSame(RegisterSync(s, false), s'); ListsRegisterSync(s, false);
    case IssueOp => ListsRegisterSync(s, true);
    case _ =>
      assert s'.calls == s.calls && s'.callers == s.callers;
      assert Owned(s') == Owned(s);
      ListsFrame(s, s');
  }

  lemma ListsSame(s: Sys, s': Sys)
    requires s'.calls == s.calls && s'.callers == s.callers && s'.pc == s.pc
    ensures ListsInv(s) ==> ListsInv(s')
  {
    assert Owned(s') == Owned(s);
  }

  lemma ListsLoop(s: Sys, loop: LoopLabel)
    requires ListsInv(s) && IdsInv(s) && s.adm.gate.perCall > 0 && LoopEnabled(s, loop)
    ensures ListsInv(LoopNext(s, loop))
  {
    match loop
    case AdvanceSync(elapsed) => ListsSync(s, elapsed);
    case IssueBeat => ListsIssueBeat(s);
    case RegisterBeat => ListsRegisterBeat(s, s.pc.loop.slot);
    case _ => ListsQuietLoop(s, loop);
  }

  // --- the library ----------------------------------------------------------------------

  lemma ListsCallback(s: Sys, id: nat, status: int, result: string)
    requires ListsInv(s) && LibraryEnabled(s, Complete(id, status, result))
    ensures ListsInv(Callback(s, id, status, result))
  {
    var s' := Callback(s, id, status, result);
    assert Owned(s') <= Owned(s);
    assert DoneKept(s.calls.slots, s'.calls.slots);
    assert Reachable(s') == Reachable(s) && BeatInHand(s'.pc) == BeatInHand(s.pc);
    ReachFrame(s, s');
  }

  lemma ListsLibraryRest(s: Sys, library: LibraryLabel)
    requires ListsInv(s) && LibraryEnabled(s, library) && !library.Complete?
    ensures ListsInv(LibraryNext(s, library))
  {
    var s' := LibraryNext(s, library);
    LibraryRestFrame(s, library);
    assert Owned(s') <= Owned(s);
    ListsFrame(s, s');
  }

  lemma LibraryRestFrame(s: Sys, library: LibraryLabel)
    requires LibraryEnabled(s, library) && !library.Complete?
    ensures var s' := LibraryNext(s, library);
            && s'.calls == s.calls.(inFlight := s'.calls.inFlight) && s'.callers == s.callers
            && HandSlots(s'.pc) <= HandSlots(s.pc) && BeatInHand(s'.pc) == BeatInHand(s.pc)
            && !Cleared(s.pc) && !Cleared(s'.pc) && Reachable(s') == Reachable(s)
  {
  }

  // --- teardown -----------------------------------------------------------------------------

  lemma ListsSwap(s: Sys)
    requires ListsInv(s) && s.pc == Drains(Swap)
    ensures ListsInv(SwapStep(s))
  {
    var s' := SwapStep(s);
    assert Owned(s') <= Owned(s);
    ReachFrame(s, s');
  }

  lemma OwnedExist(s: Sys)
    requires IdsInv(s) && WaitedInv(s)
    ensures forall id :: id in Owned(s) ==> id in s.calls.slots
  {
  }

  lemma ListsFail(s: Sys, rest: seq<nat>)
    requires ListsInv(s) && IdsInv(s) && s.pc == Drains(Fail(rest))
    ensures ListsInv(FailStep(s, rest))
  {
    var s' := FailStep(s, rest);
    OwnedExist(s);
    assert Owned(s') == Owned(s);
    assert DoneKept(s.calls.slots, s'.calls.slots);
    if rest != [] {
      assert forall id :: id in Elements(rest) ==> id == rest[0] || id in Elements(rest[1..]);
      assert Reachable(s') == Elements(rest[1..]);
      assert rest[0] in Owned(s) ==> Done(s'.calls, rest[0]);
    }
  }

  lemma ListsClear(s: Sys)
    requires ListsInv(s) && IdsInv(s) && s.pc == Tail(ClearFlight)
    ensures ListsInv(AbandonBoxes(s))
  {
    var s' := AbandonBoxes(s);
    AbandonedStayOwned(s);
    AbandonedAreKnown(s);
    AbandonedIsReached(s);
    assert PendingInv(s');
  }

  /** A box the library will never complete keeps its slot alive. */
  lemma AbandonedStayOwned(s: Sys)
    requires s.pc == Tail(ClearFlight)
    ensures Owned(AbandonBoxes(s)) == Owned(s)
  {
  }

  lemma AbandonedIsReached(s: Sys)
    requires ReachInv(s) && s.pc == Tail(ClearFlight) && Owned(AbandonBoxes(s)) == Owned(s)
    ensures ReachInv(AbandonBoxes(s))
  {
    assert Reachable(AbandonBoxes(s)) == Reachable(s);
  }

  lemma AbandonedAreKnown(s: Sys)
    requires IdsInv(s) && WaitedInv(s)
    ensures WaitedInv(AbandonBoxes(s))
  {
  }

  lemma ListsCloseRest(s: Sys, close: CloseLabel)
    requires ListsInv(s) && CloseEnabled(s, close)
    requires !close.SwapPending? && !close.FailOne? && s.pc != Tail(ClearFlight)
    ensures ListsInv(CloseNext(s, close))
  {
    var s' := CloseNext(s, close);
    assert s'.calls == s.calls && s'.callers == s.callers;
    assert HandSlots(s'.pc) == HandSlots(s.pc) == {};
    assert Owned(s') == Owned(s);
    ListsFrame(s, s');
  }

  lemma ListsClose(s: Sys, close: CloseLabel)
    requires ListsInv(s) && IdsInv(s) && CloseEnabled(s, close)
    ensures ListsInv(CloseNext(s, close))
  {
    match close
    case SwapPending => ListsSwap(s);
    case FailOne => ListsFail(s, s.pc.drain.rest);
    case _ => if s.pc == Tail(ClearFlight) { ListsClear(s); } else { ListsCloseRest(s, close); }
  }

  lemma ListsOthers(s: Sys, l: Label)
    requires ListsInv(s) && Enabled(s, l) && (l.ByStarter? || l.ByWorld? || l.ByThread?)
    ensures ListsInv(Next(s, l))
  {
    OthersKeepCalls(s, l);
    var s' := Next(s, l);
    assert Owned(s') == Owned(s);
    ListsFrame(s, s');
  }

  lemma OthersKeepCalls(s: Sys, l: Label)
    requires Enabled(s, l) && (l.ByStarter? || l.ByWorld? || l.ByThread?)
    ensures var s' := Next(s, l);
            && s'.calls == s.calls.(inFlight := s'.calls.inFlight) && s'.callers == s.callers
            && HandSlots(s'.pc) == HandSlots(s.pc) && BeatInHand(s'.pc) == BeatInHand(s.pc)
            && (Cleared(s'.pc) ==> Cleared(s.pc)) && (s'.pc == s.pc || (!s.pc.Drains? && !s'.pc.Drains?))
  {
    match l
    case ByStarter(start) => StartersKeepCalls(s, start);
    case ByThread(thread) => ThreadKeepsCalls(s, thread);
    case _ =>
  }

  lemma StartersKeepCalls(s: Sys, start: StartLabel)
    requires StartEnabled(s, start)
    ensures var s' := StartNext(s, start);
            && s'.calls == s.calls.(inFlight := s'.calls.inFlight) && s'.callers == s.callers
            && (s'.pc == s.pc || (s.pc == Away(Unborn) && s'.pc == Away(Born)))
  {
  }

  lemma ThreadKeepsCalls(s: Sys, thread: ThreadLabel)
    requires ThreadEnabled(s, thread)
    ensures var s' := ThreadNext(s, thread);
            && s'.calls == s.calls && s'.callers == s.callers
            && (s.pc.Away? || s.pc.Before?) && (s'.pc.Away? || s'.pc.Before? || s'.pc == Loop(DrainQueue))
  {
  }
}
