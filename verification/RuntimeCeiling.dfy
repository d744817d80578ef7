/** The ceiling on reservations, over every run: which steps keep it, the two that may not, and what a
    start() must find for them to. */
module RuntimeCeiling {
  import opened ResourceBudget
  import opened Runtime
  import opened RuntimeSteps
  import opened RuntimeSync
  import opened RuntimeHistory
  import opened RuntimeRuns
  import opened RuntimeReservations
  import opened RuntimeStraddle
  import opened RuntimeTheorems
  import A = Admission

  ghost predicate Within(a: A.State) {
    0 <= a.gate.admitted <= a.gate.effective
  }

  /** A start() gives its run a ceiling below what has been admitted since it was entered. */
  predicate Undercuts(s: Sys, l: Label) {
    l.ByStarter? && match l.start
                    case Size => s.adm.gate.admitted > s.cfg.maxInFlight
                    case Budget(live) => s.adm.gate.admitted > EffectiveMax(s.cfg, live)
                    case _ => false
  }

  lemma GateStaysWithin(a: A.State, l: A.Label)
    requires Within(a) && A.Enabled(a, l) && !l.Configure?
    ensures Within(A.Next(a, l))
  {
    match l
    case Arrive(caller, live, now, queueTimeoutMs) => EntryCounts(a, caller, live, now, queueTimeoutMs);
    case Retry(caller, live, now) => TurnCounts(a, caller, live, now);
    case _ =>
  }

  /** In any state, a step keeps the ceiling if and only if it does not undercut it. */
  lemma OnlyTheBudgetBreaksTheCeiling(s: Sys, l: Label)
    requires Within(s.adm) && Enabled(s, l)
    ensures Within(Next(s, l).adm) <==> !Undercuts(s, l)
  {
    RuntimeDrivesTheGate(s, l);
    var al := AdmissionLabel(s, l);
    if al.Some? && !al.value.Configure? {
      GateStaysWithin(s.adm, al.value);
    }
  }

  /** A legal run in which no start() undercuts what has been admitted. */
  ghost predicate NeverUndercut(s: Sys, ls: seq<Label>)
    requires Legal(s, ls)
    decreases |ls|
  {
    ls == [] || (!Undercuts(s, ls[0]) && NeverUndercut(Next(s, ls[0]), ls[1..]))
  }

  ghost predicate WithinThroughout(s: Sys, ls: seq<Label>)
    requires Legal(s, ls)
    decreases |ls|
  {
    Within(s.adm) && (ls == [] || WithinThroughout(Next(s, ls[0]), ls[1..]))
  }

  lemma {:induction false} WithinIffNeverUndercut(s: Sys, ls: seq<Label>)
    requires Within(s.adm) && Legal(s, ls)
    ensures WithinThroughout(s, ls) <==> NeverUndercut(s, ls)
    ensures NeverUndercut(s, ls) ==> Within(Exec(s, ls).adm)
    decreases |ls|
  {
    if ls != [] {
      OnlyTheBudgetBreaksTheCeiling(s, ls[0]);
      if !Undercuts(s, ls[0]) {
        WithinIffNeverUndercut(Next(s, ls[0]), ls[1..]);
      } else {
        assert !WithinThroughout(Next(s, ls[0]), ls[1..]);
      }
    }
  }

  /** Over a whole run, no more is ever reserved than the ceiling if and only if no start() undercuts what
      has been admitted since it was entered. */
  lemma CeilingIffNeverUndercut(ls: seq<Label>)
    requires Legal(INITIAL, ls)
    ensures WithinThroughout(INITIAL, ls) <==> NeverUndercut(INITIAL, ls)
  {
    WithinIffNeverUndercut(INITIAL, ls);
  }

  /** And then, if besides every restart is settled, what is in flight is within the ceiling too, but for
      the one sync that needs no admission. */
  lemma InFlightIsWithinTheCeiling(ls: seq<Label>)
    requires Legal(INITIAL, ls) && SettledRun(INITIAL, ls) && NeverUndercut(INITIAL, ls)
    ensures var s := Exec(INITIAL, ls); 0 <= s.calls.inFlight <= s.adm.gate.effective + 1
  {
    WithinIffNeverUndercut(INITIAL, ls);
    InFlightIsAdmitted(Exec(INITIAL, ls));
  }

  // ---------------------------------------------------------------------------
  // What a start() must find
  // ---------------------------------------------------------------------------

  /** Whatever happens before another start() is entered, nothing undercuts the ceiling. */
  ghost predicate CannotUndercut(s: Sys) {
    forall ls :: Legal(s, ls) && NoRestart(ls) ==> NeverUndercut(s, ls)
  }

  lemma NothingToUndercut(s: Sys, l: Label)
    requires PrologueInv(s) && s.cfg.maxInFlight > 0 && Enabled(s, l)
    ensures !Undercuts(s, l)
  {
    if l.ByStarter? && l.start.Budget? {
      BudgetIsSafe(s.cfg, l.start.live);
    }
  }

  lemma {:induction false} UncheckedNeverUndercuts(s: Sys, ls: seq<Label>)
    requires LifeInv(s) && PrologueInv(s) && s.cfg.maxInFlight > 0 && Legal(s, ls) && UncheckedRun(s, ls)
    ensures NeverUndercut(s, ls)
    decreases |ls|
  {
    if ls != [] {
      NothingToUndercut(s, ls[0]);
      LifeStep(s, ls[0]);
      PrologueStep(s, ls[0]);
      ConfigStep(s, ls[0]);
      UncheckedNeverUndercuts(Next(s, ls[0]), ls[1..]);
    }
  }

  lemma ConfigStep(s: Sys, l: Label)
    requires s.cfg.maxInFlight > 0 && Enabled(s, l)
    ensures Next(s, l).cfg.maxInFlight > 0
  {
    match l
    case ByCaller(c, call) => CallerFrames(s, c, call);
    case InLoop(loop) => LoopKeepsConfig(s, loop);
    case ByLibrary(library) => LibraryKeepsConfig(s, library);
    case InClose(close) => CloseLeavesHistory(s, close);
    case _ =>
  }

  lemma LibraryKeepsConfig(s: Sys, library: LibraryLabel)
    requires LibraryEnabled(s, library)
    ensures LibraryNext(s, library).cfg == s.cfg
  {
  }

  /** A run in which every start() finds the gate unentered, or shut down. */
  ghost predicate UncheckedRun(s: Sys, ls: seq<Label>)
    requires Legal(s, ls)
    decreases |ls|
  {
    ls == [] || (Unchecked(s, ls[0]) && UncheckedRun(Next(s, ls[0]), ls[1..]))
  }

  lemma {:induction false} NoRestartIsUnchecked(s: Sys, ls: seq<Label>)
    requires Legal(s, ls) && NoRestart(ls)
    ensures UncheckedRun(s, ls)
    decreases |ls|
  {
    if ls != [] {
      RestOfNoRestart(ls);
      NoRestartIsUnchecked(Next(s, ls[0]), ls[1..]);
    }
  }

  lemma PrologueCannotUndercut(s: Sys)
    requires LifeInv(s) && PrologueInv(s) && s.cfg.maxInFlight > 0
    ensures CannotUndercut(s)
  {
    forall ls | Legal(s, ls) && NoRestart(ls) ensures NeverUndercut(s, ls) {
      NoRestartIsUnchecked(s, ls);
      UncheckedNeverUndercuts(s, ls);
    }
  }

  /** Nothing is open, and nothing may be. */
  const NO_ROOM: Snapshot := Snapshot(0, 0)

  /** A caller between its state check and the admission gate comes in under the configured maximum, and
      the budget then finds no room. */
  lemma CheckedCallerUndercuts(t: Sys, c: nat)
    requires JustEntered(t) && IsCaller(t, c, Checked) && c !in t.adm.waiters
    ensures !CannotUndercut(t)
  {
    var size, enter, budget := ByStarter(Size), ByCaller(c, Enter(UNKNOWN)), ByStarter(Budget(NO_ROOM));
    var u := SizedThenEntered(t, c);
    BudgetUndercuts(u);
    RunsCompose(t, [size, enter], [budget]);
    UndercutAtTheEnd(t, [size, enter], budget);
    assert NoRestart([size, enter] + [budget]);
  }

  lemma BudgetUndercuts(u: Sys)
    requires u.starter == Budgeting && u.adm.gate.admitted == 1 && u.adm.gate.perCall > 0 && u.cfg.maxInFlight > 0
    ensures Undercuts(u, ByStarter(Budget(NO_ROOM))) && Legal(u, [ByStarter(Budget(NO_ROOM))])
  {
    assert EffectiveMax(u.cfg, NO_ROOM) == 0;
    One(u, ByStarter(Budget(NO_ROOM)));
  }

  lemma {:induction false} UndercutAtTheEnd(s: Sys, ls: seq<Label>, l: Label)
    requires Legal(s, ls) && Legal(s, ls + [l]) && Undercuts(Exec(s, ls), l)
    ensures !NeverUndercut(s, ls + [l])
    decreases |ls|
  {
    if ls == [] {
      assert (ls + [l])[0] == l;
    } else {
      assert (ls + [l])[0] == ls[0] && (ls + [l])[1..] == ls[1..] + [l];
      UndercutAtTheEnd(Next(s, ls[0]), ls[1..], l);
    }
  }

  /** From any reachable state, a start() is safe against undercutting, whatever happens before the next
      one, if and only if it finds no caller between its state check and the admission gate, or shutdown
      requested. */
  lemma RestartKeepsTheCeiling(s: Sys, cfg: Config)
    requires Reached(s) && StartEnabled(s, EnterStart(cfg))
    ensures CannotUndercut(StartEnter(s, cfg)) <==> s.adm.gate.shutdown || NoneChecked(s.callers)
  {
    ReachedIsKept(s);
    RestartKeepsTheCeilingFrom(s, cfg);
  }

  lemma RestartKeepsTheCeilingFrom(s: Sys, cfg: Config)
    requires LifeInv(s) && StartEnabled(s, EnterStart(cfg))
    ensures CannotUndercut(StartEnter(s, cfg)) <==> s.adm.gate.shutdown || NoneChecked(s.callers)
  {
    var t := StartEnter(s, cfg);
    LifeStep(s, ByStarter(EnterStart(cfg)));
    if s.adm.gate.shutdown || NoneChecked(s.callers) {
      RestartAgesTickets(s.adm);
      PrologueCannotUndercut(t);
    } else {
      var c :| c in s.callers && s.callers[c].Checked?;
      CheckedCallerUndercuts(t, c);
    }
  }

  /** In no state of the run can anything undercut the ceiling before another start() is entered. */
  ghost predicate SafeThroughout(s: Sys, ls: seq<Label>)
    requires Legal(s, ls)
    decreases |ls|
  {
    CannotUndercut(s) && (ls == [] || SafeThroughout(Next(s, ls[0]), ls[1..]))
  }

  lemma {:induction false} SafeIffUncheckedFrom(s: Sys, ls: seq<Label>)
    requires LifeInv(s) && PrologueInv(s) && s.cfg.maxInFlight > 0 && Legal(s, ls)
    ensures SafeThroughout(s, ls) <==> UncheckedRun(s, ls)
    decreases |ls|
  {
    PrologueCannotUndercut(s);
    if ls != [] {
      LifeStep(s, ls[0]);
      ConfigStep(s, ls[0]);
      if Unchecked(s, ls[0]) {
        PrologueStep(s, ls[0]);
        SafeIffUncheckedFrom(Next(s, ls[0]), ls[1..]);
      } else {
        RestartKeepsTheCeilingFrom(s, ls[0].start.cfg);
        assert !SafeThroughout(Next(s, ls[0]), ls[1..]);
      }
    }
  }

  /** Over a whole run, the ceiling is never at risk if and only if every start() found no caller between
      its state check and the admission gate, or shutdown requested. */
  lemma SafeIffUnchecked(ls: seq<Label>)
    requires Legal(INITIAL, ls)
    ensures SafeThroughout(INITIAL, ls) <==> UncheckedRun(INITIAL, ls)
  {
    LifeInitial();
    SafeIffUncheckedFrom(INITIAL, ls);
  }

  // ---------------------------------------------------------------------------
  // In flight
  // ---------------------------------------------------------------------------

  lemma {:induction false} BudgetRun(s: Sys, ls: seq<Label>)
    requires LifeInv(s) && BudgetInv(s) && Legal(s, ls)
    ensures BudgetInv(Exec(s, ls))
    decreases |ls|
  {
    if ls != [] {
      LifeStep(s, ls[0]);
      BudgetStep(s, ls[0]);
      BudgetRun(Next(s, ls[0]), ls[1..]);
    }
  }

  /** In every reachable state of a run its ceiling is between one and the configured maximum. */
  lemma CeilingIsBudgeted(s: Sys)
    requires Reached(s) && !s.pc.Away?
    ensures 1 <= s.adm.gate.effective <= s.cfg.maxInFlight
  {
    var ls :| Legal(INITIAL, ls) && Exec(INITIAL, ls) == s;
    LifeInitial();
    BudgetRun(INITIAL, ls);
  }

  /** If every start() finds nobody with a reservation, nothing queued, and nobody between the state check
      and the admission gate, then in every state what is in flight is at most what is admitted plus the
      one sync that needs no admission, and at most the ceiling plus one. */
  lemma InFlightIsBounded(ls: seq<Label>)
    requires Legal(INITIAL, ls) && SettledRun(INITIAL, ls) && UncheckedRun(INITIAL, ls)
    ensures var s := Exec(INITIAL, ls);
            0 <= s.calls.inFlight <= s.adm.gate.admitted + 1 <= s.adm.gate.effective + 1
  {
    LifeInitial();
    UncheckedNeverUndercuts(INITIAL, ls);
    WithinIffNeverUndercut(INITIAL, ls);
    InFlightIsAdmitted(Exec(INITIAL, ls));
  }
}
