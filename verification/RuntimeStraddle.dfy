/** Callers that are still on their way when a start() is entered: which of them matter to the new run,
    and what every run keeps as long as none of those is there. */
module RuntimeStraddle {
  import opened ResourceBudget
  import opened Runtime
  import opened RuntimeSteps
  import opened RuntimeLife
  import opened RuntimeSync
  import opened RuntimeRuns
  import opened RuntimeCalls
  import opened RuntimeReservations
  import opened RuntimePending
  import A = Admission

  /** A caller that can still pass the enqueue gate of a later run: one on a ticket of an old epoch is
      turned away, and one that was refused only gives its reservation back. */
  predicate MayPass(caller: Caller) {
    caller.Checked? || caller.Holding?
  }

  ghost predicate NoneChecked(callers: map<nat, Caller>) {
    forall c :: c in callers ==> !callers[c].Checked?
  }

  ghost predicate NoneMayPass(callers: map<nat, Caller>) {
    forall c :: c in callers ==> !MayPass(callers[c])
  }

  predicate Entering(l: Label) {
    l.ByStarter? && l.start.EnterStart?
  }

  /** A start() finds no caller between its state check and the admission gate, unless shutdown, which
      closes both gates for good, has been requested. */
  ghost predicate Unchecked(s: Sys, l: Label) {
    Entering(l) ==> s.adm.gate.shutdown || NoneChecked(s.callers)
  }

  /** Nor one with a reservation that has not come to the enqueue gate. */
  ghost predicate Sealed(s: Sys, l: Label) {
    Entering(l) ==> s.adm.gate.shutdown || NoneMayPass(s.callers)
  }

  /** No start() is entered. */
  ghost predicate NoRestart(ls: seq<Label>) {
    forall i :: 0 <= i < |ls| ==> !Entering(ls[i])
  }

  lemma RestOfNoRestart(ls: seq<Label>)
    requires NoRestart(ls) && ls != []
    ensures NoRestart(ls[1..])
  {
    assert forall i :: 0 <= i < |ls| - 1 ==> ls[1..][i] == ls[i + 1];
  }

  /** Every ticket still waited on was issued before this epoch. */
  ghost predicate OldTickets(a: A.State) {
    forall c :: c in a.waiters ==> a.waiters[c].epoch != a.gate.epoch
  }

  lemma RestartAgesTickets(a: A.State)
    requires A.Inv(a)
    ensures OldTickets(a.(gate := A.RestartGate(a.gate)))
  {
  }

  lemma NotServingUnlessServed(s: Sys)
    requires EventInv(s)
    ensures s.pc.Away? || s.pc.Before? || (s.pc.Loop? && !s.health.startReleased) ==> !IsServing(s)
  {
  }

  // ---------------------------------------------------------------------------
  // A caller's step
  // ---------------------------------------------------------------------------

  /** The gate admits nobody: it is shut down, or nobody is at it who could be admitted. */
  ghost predicate Barred(s: Sys) {
    s.adm.gate.shutdown || (NoneChecked(s.callers) && OldTickets(s.adm))
  }

  /** No step of a caller admits anybody, or changes that. */
  lemma BarredCaller(s: Sys, c: nat, call: CallLabel)
    requires Barred(s) && !IsServing(s) && s.adm.gate.perCall > 0 && CallEnabled(s, c, call)
    ensures Barred(CallNext(s, c, call))
    ensures CallNext(s, c, call).adm.gate.admitted == s.adm.gate.admitted
            || (call.Refuse? && CallNext(s, c, call).adm.gate == A.ReleaseGate(s.adm.gate))
    ensures !CallNext(s, c, call).callers[c].Holding?
  {
    CallerKeepsFlags(s, c, call);
    match call
    case Enter(live) => EntryCounts(s.adm, c, live, s.clock, s.cfg.queueTimeoutMs);
    case Retry(live) => RetryEnds(s, c, live);
    case _ =>
  }

  lemma RetryEnds(s: Sys, c: nat, live: Snapshot)
    requires Barred(s) && s.adm.gate.perCall > 0 && CallEnabled(s, c, Retry(live))
    ensures var s' := CallRetry(s, c, live);
            && s'.adm.gate.admitted == s.adm.gate.admitted && s'.adm.gate.epoch == s.adm.gate.epoch
            && s'.adm.gate.shutdown == s.adm.gate.shutdown && s'.adm.waiters == s.adm.waiters - {c}
            && s'.callers == s.callers[c := Left(NotAdmitted)]
  {
  }

  // ---------------------------------------------------------------------------
  // The prologue of a start()
  // ---------------------------------------------------------------------------

  /** In a prologue nothing has been admitted, nor will be. */
  ghost predicate PrologueInv(s: Sys) {
    !s.starter.NoStart? ==> s.adm.gate.admitted == 0 && Barred(s)
  }

  lemma PrologueStep(s: Sys, l: Label)
    requires PrologueInv(s) && A.Inv(s.adm) && HandshakeInv(s) && EventInv(s) && Enabled(s, l) && Unchecked(s, l)
    ensures PrologueInv(Next(s, l))
  {
    match l
    case ByCaller(c, call) => PrologueCaller(s, c, call);
    case ByStarter(start) => PrologueStart(s, start);
    case ByWorld(_) =>
    case ByThread(thread) => ThreadKeepsGate(s, thread);
    case InLoop(loop) => LoopKeepsStarter(s, loop);
    case ByLibrary(library) => LibraryKeepsStarter(s, library);
    case InClose(close) => CloseKeepsStarter(s, close);
  }

  lemma PrologueCaller(s: Sys, c: nat, call: CallLabel)
    requires PrologueInv(s) && HandshakeInv(s) && EventInv(s) && s.adm.gate.perCall > 0 && CallEnabled(s, c, call)
    ensures PrologueInv(CallNext(s, c, call))
  {
    CallerFrames(s, c, call);
    if !s.starter.NoStart? {
      NotServingUnlessServed(s);
      BarredCaller(s, c, call);
    }
  }

  lemma PrologueStart(s: Sys, start: StartLabel)
    requires PrologueInv(s) && A.Inv(s.adm) && HandshakeInv(s) && StartEnabled(s, start) && Unchecked(s, ByStarter(start))
    ensures PrologueInv(StartNext(s, start))
  {
    RestartAgesTickets(s.adm);
  }

  lemma ThreadKeepsGate(s: Sys, thread: ThreadLabel)
    requires ThreadEnabled(s, thread)
    ensures var s' := ThreadNext(s, thread); s'.starter == s.starter && s'.adm == s.adm && s'.callers == s.callers
  {
  }

  lemma LoopKeepsStarter(s: Sys, loop: LoopLabel)
    requires s.adm.gate.perCall > 0 && LoopEnabled(s, loop)
    ensures LoopNext(s, loop).starter == s.starter && !s.pc.Away?
  {
  }

  lemma LibraryKeepsStarter(s: Sys, library: LibraryLabel)
    requires LibraryEnabled(s, library)
    ensures LibraryNext(s, library).starter == s.starter && !s.pc.Away?
  {
  }

  lemma CloseKeepsStarter(s: Sys, close: CloseLabel)
    requires CloseEnabled(s, close)
    ensures CloseNext(s, close).starter == s.starter && !s.pc.Away?
  {
  }

  const UNKNOWN: Snapshot := Snapshot(-1, -1)

  /** A start() has just been entered, and shutdown has not been requested. */
  predicate JustEntered(t: Sys) {
    && t.starter == Sizing && t.pc.Away? && t.adm.gate.perCall > 0 && t.cfg.maxInFlight > 0
    && t.adm.gate.admitted == 0 && t.adm.gate.queue == [] && !A.Closing(t.adm.gate)
  }

  /** Without a known snapshot, a caller that comes to the admission gate once the maximum is stored is
      admitted at once. */
  lemma SizedThenEntered(t: Sys, c: nat) returns (u: Sys)
    requires JustEntered(t) && IsCaller(t, c, Checked) && c !in t.adm.waiters
    ensures var ls := [ByStarter(Size), ByCaller(c, Enter(UNKNOWN))]; Legal(t, ls) && Exec(t, ls) == u
    ensures u.starter == Budgeting && u.pc.Away? && u.adm.gate.perCall > 0 && !A.Closing(u.adm.gate)
    ensures u.cfg == t.cfg && u.adm.gate.admitted == 1 && IsCaller(u, c, Holding) && u.calls.queue == t.calls.queue
  {
    u := CallEnter(StartSize(t), c, UNKNOWN);
    Two(t, ByStarter(Size), ByCaller(c, Enter(UNKNOWN)));
  }

  // ---------------------------------------------------------------------------
  // Between runs
  // ---------------------------------------------------------------------------

  /** Nobody can pass either gate until the run serves. */
  ghost predicate Stale(s: Sys) {
    NoneMayPass(s.callers) && OldTickets(s.adm)
  }

  ghost predicate SealInv(s: Sys) {
    s.adm.gate.shutdown
    || match s.pc
       case Away(_) => Stale(s) || (A.Closing(s.adm.gate) && s.starter.NoStart? && !s.hs.runRequested)
       case Before(_) => Stale(s)
       case Loop(_) => s.health.startReleased || Stale(s)
       case _ => true
  }

  /** Between runs, and until the library has answered, both lists are empty. */
  ghost predicate IdleInv(s: Sys) {
    s.pc.Away? || s.pc.Before? ==> s.calls.queue == [] && s.calls.pending == []
  }

  /** Who waits, who holds what, and which epoch it is have not changed. */
  ghost predicate SameStale(s: Sys, s': Sys) {
    && s'.callers == s.callers && s'.adm.waiters == s.adm.waiters && s'.adm.gate.epoch == s.adm.gate.epoch
    && s'.adm.gate.shutdown == s.adm.gate.shutdown
  }

  lemma SealCaller(s: Sys, c: nat, call: CallLabel)
    requires SealInv(s) && EventInv(s) && s.adm.gate.perCall > 0 && CallEnabled(s, c, call)
    ensures SealInv(CallNext(s, c, call))
  {
    CallerFrames(s, c, call);
    CallerKeepsFlags(s, c, call);
    NotServingUnlessServed(s);
    if Stale(s) && !IsServing(s) {
      StaleCaller(s, c, call);
    }
  }

  lemma StaleCaller(s: Sys, c: nat, call: CallLabel)
    requires Stale(s) && !IsServing(s) && s.adm.gate.perCall > 0 && CallEnabled(s, c, call)
    ensures Stale(CallNext(s, c, call))
  {
    match call
    case Retry(live) => RetryEnds(s, c, live);
    case _ =>
  }

  lemma SealStart(s: Sys, start: StartLabel)
    requires SealInv(s) && A.Inv(s.adm) && HandshakeInv(s) && StartEnabled(s, start) && Sealed(s, ByStarter(start))
    ensures SealInv(StartNext(s, start))
  {
    RestartAgesTickets(s.adm);
  }

  lemma SealThread(s: Sys, thread: ThreadLabel)
    requires SealInv(s) && HandshakeInv(s) && ThreadEnabled(s, thread)
    ensures SealInv(ThreadNext(s, thread))
  {
  }

  lemma SealWorld(s: Sys, world: WorldLabel)
    requires SealInv(s)
    ensures SealInv(WorldNext(s, world))
  {
  }

  lemma FlagsOfLoop(s: Sys, loop: LoopLabel)
    requires s.adm.gate.perCall > 0 && LoopEnabled(s, loop)
    ensures s.health.startReleased ==> LoopNext(s, loop).health.startReleased
  {
    if loop.AdvanceSync? {
      FlagsSync(s, loop.elapsed);
    }
  }

  lemma LoopStays(s: Sys, loop: LoopLabel)
    requires s.adm.gate.perCall > 0 && LoopEnabled(s, loop)
    ensures SameStale(s, LoopNext(s, loop))
    ensures !LoopNext(s, loop).pc.Away? && !LoopNext(s, loop).pc.Before?
  {
    LoopKeepsWaiters(s, loop);
    LoopKeepsFlags(s, loop);
    LoopKeepsEpoch(s, loop);
  }

  lemma LoopKeepsEpoch(s: Sys, loop: LoopLabel)
    requires s.adm.gate.perCall > 0 && LoopEnabled(s, loop)
    ensures LoopNext(s, loop).adm.gate.epoch == s.adm.gate.epoch
    ensures !LoopNext(s, loop).pc.Away? && !LoopNext(s, loop).pc.Before?
  {
  }

  lemma SealLoop(s: Sys, loop: LoopLabel)
    requires SealInv(s) && HandshakeInv(s) && s.adm.gate.perCall > 0 && LoopEnabled(s, loop)
    ensures SealInv(LoopNext(s, loop))
  {
    LoopStays(s, loop);
    FlagsOfLoop(s, loop);
  }

  lemma LibraryStays(s: Sys, library: LibraryLabel)
    requires LibraryEnabled(s, library)
    ensures var s' := LibraryNext(s, library);
            && SameStale(s, s') && !s'.pc.Away? && !s'.pc.Before? && s'.pc.Loop? == s.pc.Loop?
            && s'.health.startReleased == s.health.startReleased
  {
  }

  lemma SealLibrary(s: Sys, library: LibraryLabel)
    requires SealInv(s) && LibraryEnabled(s, library)
    ensures SealInv(LibraryNext(s, library))
  {
    LibraryStays(s, library);
  }

  lemma SealClose(s: Sys, close: CloseLabel)
    requires SealInv(s) && ClosingInv(s) && HandshakeInv(s) && CloseEnabled(s, close)
    ensures SealInv(CloseNext(s, close))
  {
  }

  lemma SealStep(s: Sys, l: Label)
    requires SealInv(s) && A.Inv(s.adm) && HandshakeInv(s) && EventInv(s) && ClosingInv(s) && Enabled(s, l) && Sealed(s, l)
    ensures SealInv(Next(s, l))
  {
    match l
    case ByCaller(c, call) => SealCaller(s, c, call);
    case ByStarter(start) => SealStart(s, start);
    case ByWorld(world) => SealWorld(s, world);
    case ByThread(thread) => SealThread(s, thread);
    case InLoop(loop) => SealLoop(s, loop);
    case ByLibrary(library) => SealLibrary(s, library);
    case InClose(close) => SealClose(s, close);
  }

  lemma IdleCaller(s: Sys, c: nat, call: CallLabel)
    requires IdleInv(s) && SealInv(s) && s.adm.gate.perCall > 0 && CallEnabled(s, c, call)
    ensures IdleInv(CallNext(s, c, call))
  {
    CallerFrames(s, c, call);
    if call.PassGate? && (s.pc.Away? || s.pc.Before?) {
      assert MayPass(s.callers[c]);
    }
    if !call.PassGate? || A.Closing(s.adm.gate) {
      CallerKeepsLists(s, c, call);
    }
  }

  lemma IdleOthers(s: Sys, l: Label)
    requires IdleInv(s) && Enabled(s, l) && (l.ByStarter? || l.ByWorld? || l.ByThread?)
    ensures IdleInv(Next(s, l))
  {
    OthersKeepCalls(s, l);
    match l
    case ByStarter(start) => StartersKeepCalls(s, start);
    case ByThread(thread) => ThreadKeepsCalls(s, thread);
    case _ =>
  }

  lemma IdleClose(s: Sys, close: CloseLabel)
    requires PendingInv(s) && CloseEnabled(s, close)
    ensures IdleInv(CloseNext(s, close))
  {
    if s.pc == Tail(CloseFinish) {
      assert CloseNext(s, close).calls == s.calls;
    } else {
      CloseStaysAwake(s, close);
    }
  }

  lemma CloseStaysAwake(s: Sys, close: CloseLabel)
    requires CloseEnabled(s, close) && s.pc != Tail(CloseFinish)
    ensures !CloseNext(s, close).pc.Away? && !CloseNext(s, close).pc.Before?
  {
  }

  lemma IdleStep(s: Sys, l: Label)
    requires IdleInv(s) && SealInv(s) && PendingInv(s) && Enabled(s, l)
    ensures IdleInv(Next(s, l))
  {
    match l
    case ByCaller(c, call) => IdleCaller(s, c, call);
    case InLoop(loop) => LoopStays(s, loop);
    case ByLibrary(library) => LibraryStays(s, library);
    case InClose(close) => IdleClose(s, close);
    case _ => IdleOthers(s, l);
  }

  // ---------------------------------------------------------------------------
  // The ceiling a run is given
  // ---------------------------------------------------------------------------

  /** A run has been given its ceiling: from the budget's approval until it is over. */
  predicate Budgeted(s: Sys) {
    !s.pc.Away? || s.starter.Launching? || s.starter.Posting? || s.hs.runRequested
  }

  ghost predicate BudgetInv(s: Sys) {
    s.cfg.maxInFlight > 0 && (Budgeted(s) ==> 1 <= s.adm.gate.effective <= s.cfg.maxInFlight)
  }

  lemma BudgetCaller(s: Sys, c: nat, call: CallLabel)
    requires BudgetInv(s) && s.adm.gate.perCall > 0 && CallEnabled(s, c, call)
    ensures BudgetInv(CallNext(s, c, call))
  {
    CallerFrames(s, c, call);
    CallerKeepsFlags(s, c, call);
  }

  lemma BudgetStart(s: Sys, start: StartLabel)
    requires BudgetInv(s) && HandshakeInv(s) && StartEnabled(s, start)
    ensures BudgetInv(StartNext(s, start))
  {
    if start.Budget? {
      BudgetIsSafe(s.cfg, start.live);
    }
  }

  lemma BudgetLoop(s: Sys, loop: LoopLabel)
    requires BudgetInv(s) && s.adm.gate.perCall > 0 && LoopEnabled(s, loop)
    ensures BudgetInv(LoopNext(s, loop))
  {
    LoopKeepsFlags(s, loop);
    LoopKeepsConfig(s, loop);
  }

  lemma LoopKeepsConfig(s: Sys, loop: LoopLabel)
    requires s.adm.gate.perCall > 0 && LoopEnabled(s, loop)
    ensures LoopNext(s, loop).cfg == s.cfg && !s.pc.Away?
  {
  }

  lemma BudgetLibrary(s: Sys, library: LibraryLabel)
    requires BudgetInv(s) && LibraryEnabled(s, library)
    ensures BudgetInv(LibraryNext(s, library))
  {
  }

  lemma BudgetStep(s: Sys, l: Label)
    requires BudgetInv(s) && HandshakeInv(s) && Enabled(s, l)
    ensures BudgetInv(Next(s, l))
  {
    match l
    case ByCaller(c, call) => BudgetCaller(s, c, call);
    case ByStarter(start) => BudgetStart(s, start);
    case InLoop(loop) => BudgetLoop(s, loop);
    case ByLibrary(library) => BudgetLibrary(s, library);
    case InClose(close) => BudgetClose(s, close);
    case _ =>
  }

  lemma BudgetClose(s: Sys, close: CloseLabel)
    requires BudgetInv(s) && CloseEnabled(s, close)
    ensures BudgetInv(CloseNext(s, close))
  {
  }
}
