/** The enqueue gate, the command queue and the in-flight count, over every run. */
module RuntimeCalls {
  import opened ResourceBudget
  import opened Slots
  import opened Runtime
  import opened RuntimeLife
  import opened RuntimeSync
  import A = Admission

  // ---------------------------------------------------------------------------
  // The enqueue gate
  // ---------------------------------------------------------------------------

  /** Once a run has begun to close, the gate stays closed until the next start() opens it. */
  ghost predicate ClosingInv(s: Sys) {
    match s.pc
    case Announce(ok, _) => ok || A.Closing(s.adm.gate)
    case Leaving => A.Closing(s.adm.gate)
    case Drains(_) => A.Closing(s.adm.gate)
    case Tail(_) => A.Closing(s.adm.gate)
    case _ => true
  }

  /** The two flags that close the gate, and the two settings of the run. */
  ghost predicate SameFlags(g: A.Gate, g': A.Gate) {
    && g'.stopRequested == g.stopRequested && g'.shutdown == g.shutdown
    && g'.perCall == g.perCall && g'.effective == g.effective
  }

  lemma CallerKeepsFlags(s: Sys, c: nat, call: CallLabel)
    requires s.adm.gate.perCall > 0 && CallEnabled(s, c, call)
    ensures SameFlags(s.adm.gate, CallNext(s, c, call).adm.gate)
  {
  }

  lemma LoopKeepsCallers(s: Sys, loop: LoopLabel)
    requires s.adm.gate.perCall > 0 && LoopEnabled(s, loop)
    ensures LoopNext(s, loop).callers == s.callers
  {
  }

  lemma LoopKeepsFlags(s: Sys, loop: LoopLabel)
    requires s.adm.gate.perCall > 0 && LoopEnabled(s, loop)
    ensures SameFlags(s.adm.gate, LoopNext(s, loop).adm.gate)
  {
    match loop
    case TryBeat(live) => BeatKeepsFlags(s, live);
    case _ => LoopKeepsGate(s, loop);
  }

  lemma BeatKeepsFlags(s: Sys, live: Snapshot)
    requires s.adm.gate.perCall > 0
    ensures SameFlags(s.adm.gate, BeatStep(s, live).adm.gate)
  {
  }

  lemma LoopKeepsGate(s: Sys, loop: LoopLabel)
    requires s.adm.gate.perCall > 0 && LoopEnabled(s, loop) && !loop.TryBeat?
    ensures LoopNext(s, loop).adm == s.adm
  {
  }

  lemma ClosingCaller(s: Sys, c: nat, call: CallLabel)
    requires ClosingInv(s) && s.adm.gate.perCall > 0 && CallEnabled(s, c, call)
    ensures ClosingInv(CallNext(s, c, call))
  {
    CallerFrames(s, c, call);
    CallerKeepsFlags(s, c, call);
  }

  lemma ClosingStart(s: Sys, start: StartLabel)
    requires ClosingInv(s) && HandshakeInv(s) && StartEnabled(s, start)
    ensures ClosingInv(StartNext(s, start))
  {
  }

  lemma ClosingLoop(s: Sys, loop: LoopLabel)
    requires ClosingInv(s) && s.adm.gate.perCall > 0 && LoopEnabled(s, loop)
    ensures ClosingInv(LoopNext(s, loop))
  {
    LoopKeepsFlags(s, loop);
  }

  lemma ClosingLibrary(s: Sys, library: LibraryLabel)
    requires ClosingInv(s) && LibraryEnabled(s, library)
    ensures ClosingInv(LibraryNext(s, library))
  {
  }

  lemma ClosingClose(s: Sys, close: CloseLabel)
    requires ClosingInv(s) && CloseEnabled(s, close)
    ensures ClosingInv(CloseNext(s, close))
  {
  }

  lemma ClosingThread(s: Sys, thread: ThreadLabel)
    requires ClosingInv(s) && ThreadEnabled(s, thread)
    ensures ClosingInv(ThreadNext(s, thread))
  {
  }

  // ---------------------------------------------------------------------------
  // Where a command is
  // ---------------------------------------------------------------------------

  /** A command is queued once, and never both queued and outstanding. */
  ghost predicate PlaceInv(s: Sys) {
    && Distinct(s.calls.queue)
    && (forall id :: id in s.calls.queue ==> id !in s.calls.callBoxes)
    && (match s.pc
        case Loop(Dispatch(id)) => id !in s.calls.queue && id !in s.calls.callBoxes
        case _ => true)
  }

  lemma PlaceCaller(s: Sys, c: nat, call: CallLabel)
    requires PlaceInv(s) && IdsInv(s) && s.adm.gate.perCall > 0 && CallEnabled(s, c, call)
    ensures PlaceInv(CallNext(s, c, call))
  {
    CallerFrames(s, c, call);
    if call.PassGate? {
      DistinctSnoc(s.calls.queue, s.calls.nextId);
    } else {
      assert CallNext(s, c, call).calls == s.calls;
    }
  }

  lemma PlaceLoop(s: Sys, loop: LoopLabel)
    requires PlaceInv(s) && IdsInv(s) && s.adm.gate.perCall > 0 && LoopEnabled(s, loop)
    ensures PlaceInv(LoopNext(s, loop))
  {
    if loop.DrainOne? && s.calls.queue != [] {
      assert forall id :: id in s.calls.queue[1..] ==> id in s.calls.queue;
      assert s.calls.queue[0] in s.calls.queue;
    }
  }

  lemma PlaceStart(s: Sys, start: StartLabel)
    requires PlaceInv(s) && StartEnabled(s, start)
    ensures PlaceInv(StartNext(s, start))
  {
  }

  lemma PlaceThread(s: Sys, thread: ThreadLabel)
    requires PlaceInv(s) && ThreadEnabled(s, thread)
    ensures PlaceInv(ThreadNext(s, thread))
  {
  }

  lemma PlaceLibrary(s: Sys, library: LibraryLabel)
    requires PlaceInv(s) && LibraryEnabled(s, library)
    ensures PlaceInv(LibraryNext(s, library))
  {
  }

  lemma PlaceClose(s: Sys, close: CloseLabel)
    requires PlaceInv(s) && CloseEnabled(s, close)
    ensures PlaceInv(CloseNext(s, close))
  {
  }

  /** inFlight is what the library holds, plus the completion just taken from it. */
  ghost predicate FlightInv(s: Sys) {
    s.calls.inFlight == if HoldsBoxes(s.pc)
                        then |s.calls.callBoxes| + |s.calls.syncBoxes| + if DeliveredSlot(s.pc).Some? then 1 else 0
                        else 0
  }

  lemma FlightCaller(s: Sys, c: nat, call: CallLabel)
    requires FlightInv(s) && s.adm.gate.perCall > 0 && CallEnabled(s, c, call)
    ensures FlightInv(CallNext(s, c, call))
  {
    CallerFrames(s, c, call);
  }

  lemma FlightLoop(s: Sys, loop: LoopLabel)
    requires FlightInv(s) && PlaceInv(s) && IdsInv(s) && SyncBoxInv(s) && LaunchInv(s)
    requires s.adm.gate.perCall > 0 && LoopEnabled(s, loop)
    ensures FlightInv(LoopNext(s, loop))
  {
    PcLoop(s, loop);
    match loop
    case DispatchOne => FlightIssue(s.calls.callBoxes, s.pc.loop.slot);
    case IssueSyncCall => FlightIssue(s.calls.syncBoxes, s.pc.loop.slot);
    case IssueBeat => FlightIssue(s.calls.callBoxes, s.calls.nextId);
    case _ => LoopKeepsBoxes(s, loop);
  }

  lemma FlightIssue(boxes: set<nat>, id: nat)
    ensures id !in boxes ==> |boxes + {id}| == |boxes| + 1
  {
  }

  lemma LoopKeepsBoxes(s: Sys, loop: LoopLabel)
    requires s.adm.gate.perCall > 0 && LoopEnabled(s, loop)
    requires !loop.DispatchOne? && !loop.IssueSyncCall? && !loop.IssueBeat?
    ensures var calls' := LoopNext(s, loop).calls;
            && calls'.callBoxes == s.calls.callBoxes && calls'.syncBoxes == s.calls.syncBoxes
            && calls'.inFlight == s.calls.inFlight && calls'.leaked == s.calls.leaked
  {
  }

  lemma FlightLibrary(s: Sys, library: LibraryLabel)
    requires FlightInv(s) && IdsInv(s) && LibraryEnabled(s, library)
    ensures FlightInv(LibraryNext(s, library))
  {
    match library
    case Complete(id, status, result) => FlightCallback(s, id, status, result);
    case _ =>
  }

  lemma FlightCallback(s: Sys, id: nat, status: int, result: string)
    requires FlightInv(s) && IdsInv(s) && LibraryEnabled(s, Complete(id, status, result))
    ensures FlightInv(Callback(s, id, status, result))
  {
  }

  lemma FlightOthers(s: Sys, l: Label)
    requires FlightInv(s) && HandshakeInv(s) && Enabled(s, l)
    requires l.ByStarter? || l.ByWorld?
    ensures FlightInv(Next(s, l))
  {
  }

  lemma FlightThread(s: Sys, thread: ThreadLabel)
    requires FlightInv(s) && SyncBoxInv(s) && HeartbeatInv(s) && ThreadEnabled(s, thread)
    ensures FlightInv(ThreadNext(s, thread))
  {
  }

  lemma FlightClose(s: Sys, close: CloseLabel)
    requires FlightInv(s) && CloseEnabled(s, close)
    ensures FlightInv(CloseNext(s, close))
  {
  }
}
