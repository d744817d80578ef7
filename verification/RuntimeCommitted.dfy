/** A call's reservation from the enqueue gate on: it stays with its command and then with its box,
    whoever stops waiting for it, until the library completes it or the run is torn down. */
module RuntimeCommitted {
  import opened Slots
  import opened Runtime
  import opened RuntimeSync
  import opened RuntimeRuns
  import opened RuntimeCalls
  import opened RuntimeReservations
  import opened RuntimePending
  import opened RuntimeTheorems

  /** The slot's command is queued, in the proxy thread's hands, or with the library. */
  predicate Committed(s: Sys, id: nat) {
    id in s.calls.queue || s.pc == Loop(Dispatch(id)) || id in s.calls.callBoxes
  }

  /** What ends that: the slot's completion, shutdown dropping the queue, and teardown writing off what
      the library still holds. */
  predicate Ends(s: Sys, l: Label, id: nat) {
    (l.ByLibrary? && l.library.Complete? && l.library.slot == id)
    || (l == InClose(SwapPending) && id in s.calls.queue)
    || (l == InClose(FinishTail) && s.pc == Tail(ClearFlight))
  }

  lemma CommittedLoop(s: Sys, loop: LoopLabel, id: nat)
    requires Committed(s, id) && s.adm.gate.perCall > 0 && LoopEnabled(s, loop)
    ensures Committed(LoopNext(s, loop), id)
  {
    if loop.DrainOne? {
      assert s.calls.queue == [] || s.calls.queue == [s.calls.queue[0]] + s.calls.queue[1..];
    } else {
      LoopKeepsCommands(s, loop);
    }
  }

  /** Every loop step but the one that takes a command off the queue leaves queue and boxes as they
      were, or adds a box. */
  lemma LoopKeepsCommands(s: Sys, loop: LoopLabel)
    requires s.adm.gate.perCall > 0 && LoopEnabled(s, loop) && !loop.DrainOne?
    ensures var s' := LoopNext(s, loop);
            && s'.calls.queue == s.calls.queue && s.calls.callBoxes <= s'.calls.callBoxes
            && (s.pc.Loop? && s.pc.loop.Dispatch? ==> s.pc.loop.slot in s'.calls.callBoxes)
  {
  }

  lemma CommittedClose(s: Sys, close: CloseLabel, id: nat)
    requires Committed(s, id) && CloseEnabled(s, close) && !Ends(s, InClose(close), id)
    ensures Committed(CloseNext(s, close), id)
  {
    match close
    case FailOne =>
    case FinishTail => assert TailStep(s).calls == s.calls;
    case _ =>
  }

  lemma CommittedLibrary(s: Sys, library: LibraryLabel, id: nat)
    requires Committed(s, id) && LibraryEnabled(s, library) && !Ends(s, ByLibrary(library), id)
    ensures Committed(LibraryNext(s, library), id)
  {
    LibraryKeepsCommands(s, library);
  }

  lemma LibraryKeepsCommands(s: Sys, library: LibraryLabel)
    requires LibraryEnabled(s, library)
    ensures var s' := LibraryNext(s, library);
            && s'.calls.queue == s.calls.queue
            && s'.calls.callBoxes == (if library.Complete? then s.calls.callBoxes - {library.slot} else s.calls.callBoxes)
            && !(s.pc.Loop? && s.pc.loop.Dispatch?)
  {
  }

  lemma CommittedStays(s: Sys, l: Label, id: nat)
    requires Committed(s, id) && Enabled(s, l) && !Ends(s, l, id)
    ensures Committed(Next(s, l), id)
  {
    match l
    case ByCaller(c, call) =>
      CallerFrames(s, c, call);
      CallersKeepCommands(s, c, call);
    case InLoop(loop) => CommittedLoop(s, loop, id);
    case ByLibrary(library) => CommittedLibrary(s, library, id);
    case InClose(close) => CommittedClose(s, close, id);
    case ByStarter(start) => StartersKeepCalls(s, start);
    case ByThread(thread) => ThreadKeepsCalls(s, thread);
    case ByWorld(_) =>
  }

  lemma CallersKeepCommands(s: Sys, c: nat, call: CallLabel)
    requires s.adm.gate.perCall > 0 && CallEnabled(s, c, call)
    ensures s.calls.queue <= CallNext(s, c, call).calls.queue
  {
  }

  // ---------------------------------------------------------------------------
  // Whoever waits has a command somewhere
  // ---------------------------------------------------------------------------

  /** Until shutdown takes the pending list, an undone slot somebody waits on is committed. */
  ghost predicate WaitsForCommand(s: Sys) {
    !Cleared(s.pc) ==>
      forall id :: id in WaitedSlots(s.callers) && !Done(s.calls, id) ==> Committed(s, id)
  }

  lemma WaitsCaller(s: Sys, c: nat, call: CallLabel)
    requires WaitsForCommand(s) && IdsInv(s) && s.adm.gate.perCall > 0 && CallEnabled(s, c, call)
    ensures WaitsForCommand(CallNext(s, c, call))
  {
    var s' := CallNext(s, c, call);
    CallerFrames(s, c, call);
    CallersKeepCommands(s, c, call);
    CallersKeepUndone(s, c, call);
    WaitedChange(s.callers, c, s'.callers[c]);
    if !Cleared(s.pc) {
      forall id | id in WaitedSlots(s'.callers) && !Done(s'.calls, id) ensures Committed(s', id) {
        if s'.callers[c] == Waiting(id) {
          assert s'.calls.queue[|s.calls.queue|] == id;
        }
      }
    }
  }

  lemma CallersKeepUndone(s: Sys, c: nat, call: CallLabel)
    requires IdsInv(s) && s.adm.gate.perCall > 0 && CallEnabled(s, c, call)
    ensures var s' := CallNext(s, c, call);
            && s'.callers == s.callers[c := s'.callers[c]]
            && (forall id :: Done(s.calls, id) ==> Done(s'.calls, id))
            && (s'.callers[c].Waiting? ==> s'.calls.queue == s.calls.queue + [s'.callers[c].slot])
  {
  }

  lemma WaitsOthers(s: Sys, l: Label)
    requires WaitsForCommand(s) && IdsInv(s) && WiresInv(s) && Enabled(s, l) && !l.ByCaller?
    ensures WaitsForCommand(Next(s, l))
  {
    var s' := Next(s, l);
    OthersKeepCallers(s, l);
    if !Cleared(s'.pc) {
      forall id | id in WaitedSlots(s'.callers) && !Done(s'.calls, id) ensures Committed(s', id) {
        WaitsOne(s, l, id);
      }
    }
  }

  lemma WaitsOne(s: Sys, l: Label, id: nat)
    requires WaitsForCommand(s) && IdsInv(s) && WiresInv(s) && Enabled(s, l) && !Cleared(Next(s, l).pc)
    requires id in WaitedSlots(s.callers) && !Done(Next(s, l).calls, id)
    ensures Committed(Next(s, l), id)
  {
    assert KindOf(s.calls, id, User);
    OutcomeIsDecidedOnce(s, l, id);
    if Cleared(s.pc) {
      NobodyUndoneIfSwept(s);
      LeavingCleared(s, l);
    } else if Ends(s, l, id) {
      EndsAreVisible(s, l, id);
    } else {
      CommittedStays(s, l, id);
    }
  }

  lemma OthersKeepCallers(s: Sys, l: Label)
    requires Enabled(s, l) && !l.ByCaller?
    ensures Next(s, l).callers == s.callers
  {
    match l
    case ByStarter(start) => StartersKeepCalls(s, start);
    case ByThread(thread) => ThreadKeepsCalls(s, thread);
    case InLoop(loop) => LoopKeepsCallers(s, loop);
    case ByLibrary(library) => LibraryKeepsCallers(s, library);
    case InClose(close) => CloseKeepsCallers(s, close);
    case _ =>
  }

  lemma LibraryKeepsCallers(s: Sys, library: LibraryLabel)
    requires LibraryEnabled(s, library)
    ensures LibraryNext(s, library).callers == s.callers
  {
  }

  lemma CloseKeepsCallers(s: Sys, close: CloseLabel)
    requires CloseEnabled(s, close)
    ensures CloseNext(s, close).callers == s.callers
  {
  }

  /** Only the last step of teardown leaves the stretch from the swap on. */
  lemma LeavingCleared(s: Sys, l: Label)
    requires Enabled(s, l) && Cleared(s.pc) && !Cleared(Next(s, l).pc)
    ensures s.pc.Tail?
  {
  }

  /** A step that ends a commitment completes the slot or begins that stretch. */
  lemma EndsAreVisible(s: Sys, l: Label, id: nat)
    requires Enabled(s, l) && !Cleared(s.pc) && Ends(s, l, id)
    ensures Done(Next(s, l).calls, id) || Cleared(Next(s, l).pc)
  {
  }

  lemma WaitsStep(s: Sys, l: Label)
    requires WaitsForCommand(s) && IdsInv(s) && WiresInv(s) && Enabled(s, l)
    ensures WaitsForCommand(Next(s, l))
  {
    match l
    case ByCaller(c, call) => WaitsCaller(s, c, call);
    case _ => WaitsOthers(s, l);
  }

  lemma {:induction false} WaitsRun(s: Sys, ls: seq<Label>)
    requires LifeInv(s) && WiresInv(s) && WaitsForCommand(s) && Legal(s, ls)
    ensures WaitsForCommand(Exec(s, ls))
    decreases |ls|
  {
    if ls != [] {
      LifeStep(s, ls[0]);
      WiresStep(s, ls[0]);
      WaitsStep(s, ls[0]);
      WaitsRun(Next(s, ls[0]), ls[1..]);
    }
  }

  lemma ReachedWaits(s: Sys)
    requires Reached(s)
    ensures WaitsForCommand(s)
  {
    var ls :| Legal(INITIAL, ls) && Exec(INITIAL, ls) == s;
    LifeInitial();
    WiresInitial();
    assert WaitedSlots(INITIAL.callers) == {};
    WaitsRun(INITIAL, ls);
  }

  // ---------------------------------------------------------------------------
  // Giving up on a call gives nothing back
  // ---------------------------------------------------------------------------

  lemma EndsForGood(s: Sys, l: Label, id: nat)
    requires Committed(s, id) && IdsInv(s) && WiresInv(s) && Enabled(s, l) && Ends(s, l, id)
    ensures !Committed(Next(s, l), id)
  {
    if l.ByLibrary? {
      LibraryKeepsCommands(s, l.library);
    }
  }

  /** The steps named are exactly the ones that end it, in every reachable state. */
  lemma CommittedUntilEnded(s: Sys, l: Label, id: nat)
    requires Reached(s) && Committed(s, id) && Enabled(s, l)
    ensures Committed(Next(s, l), id) <==> !Ends(s, l, id)
  {
    ReachedIsKept(s);
    if Ends(s, l, id) {
      EndsForGood(s, l, id);
    } else {
      CommittedStays(s, l, id);
    }
  }

  /** A legal run in which nothing ends it. */
  predicate Unended(s: Sys, ls: seq<Label>, id: nat)
    requires Legal(s, ls)
    decreases |ls|
  {
    ls == [] || (!Ends(s, ls[0], id) && Unended(Next(s, ls[0]), ls[1..], id))
  }

  lemma {:induction false} CommittedRun(s: Sys, ls: seq<Label>, id: nat)
    requires Committed(s, id) && Legal(s, ls) && Unended(s, ls, id)
    ensures Committed(Exec(s, ls), id)
    decreases |ls|
  {
    if ls != [] {
      CommittedStays(s, ls[0], id);
      CommittedRun(Next(s, ls[0]), ls[1..], id);
    }
  }

  /** A caller that gives up on a slow call before shutdown has taken the queue gives nothing back:
      through every later run its slot stays owned and its command queued, in hand or outstanding,
      until the library completes it, shutdown drops it, or teardown writes it off. */
  lemma TimedOutCallStaysCommitted(s: Sys, c: nat, ls: seq<Label>)
    requires Reached(s) && s.adm.gate.perCall > 0 && CallEnabled(s, c, TimeOut) && !Cleared(s.pc)
    requires Legal(CallNext(s, c, TimeOut), ls) && Unended(CallNext(s, c, TimeOut), ls, s.callers[c].slot)
    ensures var s' := Exec(CallNext(s, c, TimeOut), ls);
            Committed(s', s.callers[c].slot) && s.callers[c].slot in Owned(s')
  {
    ReachedWaits(s);
    assert s.callers[c].slot in WaitedSlots(s.callers);
    CommittedRun(CallNext(s, c, TimeOut), ls, s.callers[c].slot);
  }

  /** All the slots whose command is somewhere. */
  function CommittedSlots(s: Sys): set<nat> {
    Elements(s.calls.queue) + s.calls.callBoxes + (if s.pc.Loop? && s.pc.loop.Dispatch? then {s.pc.loop.slot} else {})
  }

  /** And as long as every restart is settled, each of them is counted by the gate. */
  lemma CommittedIsCounted(s: Sys)
    requires SettledReached(s)
    ensures forall id :: id in CommittedSlots(s) <==> Committed(s, id)
    ensures |CommittedSlots(s)| <= s.adm.gate.admitted
  {
    SettledReachedIsKept(s);
    CommittedAreCounted(s);
  }

  lemma CommittedAreCounted(s: Sys)
    requires AdmittedInv(s) && HeartbeatInv(s)
    ensures forall id :: id in CommittedSlots(s) <==> Committed(s, id)
    ensures |CommittedSlots(s)| <= s.adm.gate.admitted
  {
    CommittedAreFew(s);
    CommittedAreTokens(s);
  }

  lemma CommittedAreFew(s: Sys)
    ensures |CommittedSlots(s)| <= |s.calls.queue| + |s.calls.callBoxes| + if s.pc.Loop? && s.pc.loop.Dispatch? then 1 else 0
  {
    FewElements(s.calls.queue);
    UnionIsSmall(Elements(s.calls.queue), s.calls.callBoxes);
  }

  lemma CommittedAreTokens(s: Sys)
    requires AdmittedInv(s) && HeartbeatInv(s)
    ensures |s.calls.queue| + |s.calls.callBoxes| + (if s.pc.Loop? && s.pc.loop.Dispatch? then 1 else 0) <= s.adm.gate.admitted
  {
  }

  lemma UnionIsSmall(a: set<nat>, b: set<nat>)
    ensures |a + b| <= |a| + |b|
  {
    assert a + b == a + (b - a);
  }

  lemma {:induction false} FewElements(q: seq<nat>)
    ensures |Elements(q)| <= |q|
  {
    if q != [] {
      FewElements(q[1..]);
      assert Elements(q) == {q[0]} + Elements(q[1..]);
    }
  }
}
