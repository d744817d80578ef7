/** Between runs: what a start() must find for nobody to be left waiting until the next run's loop. */
module RuntimeRestarts {
  import opened Runtime
  import opened RuntimeSteps
  import opened RuntimeLife
  import opened RuntimeRuns
  import opened RuntimeStraddle
  import opened RuntimeTheorems
  import A = Admission

  /** Between runs, and until the library has answered, nobody is left behind. */
  ghost predicate Quiet(s: Sys) {
    s.pc.Away? || s.pc.Before? ==> NobodyLeft(s)
  }

  /** Whatever happens before another start() is entered, nobody is left behind. */
  ghost predicate NeverLeaves(s: Sys) {
    forall ls :: Legal(s, ls) && NoRestart(ls) ==> Quiet(Exec(s, ls))
  }

  /** A run in which every start() finds nobody who can still pass the enqueue gate, or shutdown requested. */
  ghost predicate SealedRun(s: Sys, ls: seq<Label>)
    requires Legal(s, ls)
    decreases |ls|
  {
    ls == [] || (Sealed(s, ls[0]) && SealedRun(Next(s, ls[0]), ls[1..]))
  }

  ghost predicate RestInv(s: Sys) {
    LifeInv(s) && WiresInv(s) && SealInv(s) && IdleInv(s)
  }

  lemma RestStep(s: Sys, l: Label)
    requires RestInv(s) && Enabled(s, l) && Sealed(s, l)
    ensures RestInv(Next(s, l))
  {
    LifeStep(s, l);
    WiresStep(s, l);
    SealStep(s, l);
    IdleStep(s, l);
  }

  lemma {:induction false} RestRun(s: Sys, ls: seq<Label>)
    requires RestInv(s) && Legal(s, ls) && SealedRun(s, ls)
    ensures RestInv(Exec(s, ls))
    decreases |ls|
  {
    if ls != [] {
      RestStep(s, ls[0]);
      RestRun(Next(s, ls[0]), ls[1..]);
    }
  }

  lemma {:induction false} NoRestartIsSealed(s: Sys, ls: seq<Label>)
    requires Legal(s, ls) && NoRestart(ls)
    ensures SealedRun(s, ls)
    decreases |ls|
  {
    if ls != [] {
      RestOfNoRestart(ls);
      NoRestartIsSealed(Next(s, ls[0]), ls[1..]);
    }
  }

  lemma RestIsQuiet(s: Sys)
    requires RestInv(s)
    ensures Quiet(s)
  {
    if s.pc.Away? || s.pc.Before? {
      StillNobody(s);
    }
  }

  lemma RestNeverLeaves(s: Sys)
    requires RestInv(s)
    ensures NeverLeaves(s)
  {
    forall ls | Legal(s, ls) && NoRestart(ls) ensures Quiet(Exec(s, ls)) {
      NoRestartIsSealed(s, ls);
      RestRun(s, ls);
      RestIsQuiet(Exec(s, ls));
    }
  }

  // ---------------------------------------------------------------------------
  // Necessity
  // ---------------------------------------------------------------------------

  lemma GateEnqueues(u: Sys, c: nat)
    requires u.pc.Away? && IsCaller(u, c, Holding) && !A.Closing(u.adm.gate)
    ensures !Quiet(CallGate(u, c))
  {
    assert CallGate(u, c).calls.queue == u.calls.queue + [u.calls.nextId];
  }

  /** A caller with a reservation passes the gate the start() has just opened. */
  lemma HolderSlipsIn(t: Sys, c: nat)
    requires JustEntered(t) && IsCaller(t, c, Holding)
    ensures !NeverLeaves(t)
  {
    var ls := [ByCaller(c, PassGate)];
    One(t, ByCaller(c, PassGate));
    GateEnqueues(t, c);
    assert NoRestart(ls);
  }

  /** A caller that has only seen the last run serve passes both. */
  lemma CheckedSlipsIn(t: Sys, c: nat)
    requires JustEntered(t) && IsCaller(t, c, Checked) && c !in t.adm.waiters
    ensures !NeverLeaves(t)
  {
    var entering := [ByStarter(Size), ByCaller(c, Enter(UNKNOWN))];
    var u := SizedThenEntered(t, c);
    One(u, ByCaller(c, PassGate));
    RunsCompose(t, entering, [ByCaller(c, PassGate)]);
    GateEnqueues(u, c);
    assert NoRestart(entering + [ByCaller(c, PassGate)]);
  }

  // ---------------------------------------------------------------------------
  // Exactly when
  // ---------------------------------------------------------------------------

  lemma RestartLeavesNobodyFrom(s: Sys, cfg: Config)
    requires LifeInv(s) && WiresInv(s) && StartEnabled(s, EnterStart(cfg))
    ensures NeverLeaves(StartEnter(s, cfg)) <==> NobodyLeft(s) && (s.adm.gate.shutdown || NoneMayPass(s.callers))
  {
    var t := StartEnter(s, cfg);
    RestartKeepsNobody(s, cfg);
    if !NobodyLeft(s) {
      assert Exec(t, []) == t;
    } else if s.adm.gate.shutdown || NoneMayPass(s.callers) {
      RestBegins(s, cfg);
      RestNeverLeaves(t);
    } else {
      var c :| c in s.callers && MayPass(s.callers[c]);
      SomebodySlipsIn(t, c);
    }
  }

  lemma RestBegins(s: Sys, cfg: Config)
    requires LifeInv(s) && WiresInv(s) && NobodyLeft(s) && StartEnabled(s, EnterStart(cfg))
    requires s.adm.gate.shutdown || NoneMayPass(s.callers)
    ensures RestInv(StartEnter(s, cfg))
  {
    LifeStep(s, ByStarter(EnterStart(cfg)));
    WiresStep(s, ByStarter(EnterStart(cfg)));
    RestartAgesTickets(s.adm);
  }

  lemma SomebodySlipsIn(t: Sys, c: nat)
    requires JustEntered(t) && c in t.callers && MayPass(t.callers[c]) && QueuedInv(t)
    ensures !NeverLeaves(t)
  {
    if t.callers[c].Holding? {
      HolderSlipsIn(t, c);
    } else {
      CheckedSlipsIn(t, c);
    }
  }

  lemma RestartKeepsNobody(s: Sys, cfg: Config)
    requires HandshakeInv(s) && StartEnabled(s, EnterStart(cfg))
    ensures s.pc.Away? && StartEnter(s, cfg).pc.Away? && (NobodyLeft(StartEnter(s, cfg)) <==> NobodyLeft(s))
  {
    assert Owned(StartEnter(s, cfg)) == Owned(s);
  }

  /** From any reachable state, a start() leaves nobody behind, whatever happens before the next one, if
      and only if nobody is left already and it finds no caller between its state check and the admission
      gate, nor one with a reservation that has not come to the enqueue gate, or shutdown requested. A
      caller on an old ticket, or one already refused, does no harm. */
  lemma RestartLeavesNobody(s: Sys, cfg: Config)
    requires Reached(s) && StartEnabled(s, EnterStart(cfg))
    ensures NeverLeaves(StartEnter(s, cfg)) <==> NobodyLeft(s) && (s.adm.gate.shutdown || NoneMayPass(s.callers))
  {
    ReachedIsKept(s);
    RestartLeavesNobodyFrom(s, cfg);
  }

  /** In no state of the run can anybody be left behind before another start() is entered. */
  ghost predicate NobodyLeftThroughout(s: Sys, ls: seq<Label>)
    requires Legal(s, ls)
    decreases |ls|
  {
    NeverLeaves(s) && (ls == [] || NobodyLeftThroughout(Next(s, ls[0]), ls[1..]))
  }

  lemma {:induction false} NobodyLeftIffSealedFrom(s: Sys, ls: seq<Label>)
    requires RestInv(s) && Legal(s, ls)
    ensures NobodyLeftThroughout(s, ls) <==> SealedRun(s, ls)
    decreases |ls|
  {
    RestNeverLeaves(s);
    if ls != [] {
      if Sealed(s, ls[0]) {
        RestStep(s, ls[0]);
        NobodyLeftIffSealedFrom(Next(s, ls[0]), ls[1..]);
      } else {
        RestartLeavesNobodyFrom(s, ls[0].start.cfg);
        assert !NobodyLeftThroughout(Next(s, ls[0]), ls[1..]);
      }
    }
  }

  /** Over a whole run, nobody is ever left behind between runs, nor can be before another start() is
      entered, if and only if every start() found nobody who could still pass the enqueue gate, or
      shutdown requested. */
  lemma NobodyLeftIffSealed(ls: seq<Label>)
    requires Legal(INITIAL, ls)
    ensures NobodyLeftThroughout(INITIAL, ls) <==> SealedRun(INITIAL, ls)
  {
    RestInitial();
    NobodyLeftIffSealedFrom(INITIAL, ls);
  }

  lemma RestInitial()
    ensures RestInv(INITIAL)
  {
    LifeInitial();
    WiresInitial();
  }

  // ---------------------------------------------------------------------------
  // What callers see of it
  // ---------------------------------------------------------------------------

  ghost predicate SealedReached(s: Sys) {
    exists ls :: Legal(INITIAL, ls) && SealedRun(INITIAL, ls) && Exec(INITIAL, ls) == s
  }

  lemma SealedReachedIsKept(s: Sys)
    requires SealedReached(s)
    ensures RestInv(s)
  {
    var ls :| Legal(INITIAL, ls) && SealedRun(INITIAL, ls) && Exec(INITIAL, ls) == s;
    RestInitial();
    RestRun(INITIAL, ls);
  }

  /** From the end of a run until the next one's loop nobody is left behind, and whoever waits can return. */
  lemma NoWaiterLeftBetweenRuns(s: Sys)
    requires SealedReached(s) && (s.pc.Away? || s.pc.Before?)
    ensures NobodyLeft(s)
    ensures forall c :: c in s.callers && s.callers[c].Waiting? ==> Enabled(s, ByCaller(c, Wake))
  {
    SealedReachedIsKept(s);
    RestIsQuiet(s);
    WaitersCanReturn(s);
  }

  /** And a caller that still comes to the enqueue gate is turned away. */
  lemma NothingEnqueuedBetweenRuns(s: Sys, c: nat)
    requires SealedReached(s) && CallEnabled(s, c, PassGate)
    requires s.pc.Away? || s.pc.Before?
    ensures TurnedAway(s, CallGate(s, c), c)
  {
    SealedReachedIsKept(s);
    assert MayPass(s.callers[c]);
  }
}
