/** The parked proxy thread and whoever wakes it: m_startMu and m_startCv at the grain of single
    lock, test, sleep, write and notify actions. A broadcast reaches only who already sleeps, so a
    predicate written without the lock can slip between the sleeper's test and its sleep. */
module ParkHandshake {

  /** The proxy thread in threadMain's wait. */
  datatype Parker =
    | Outside     // running, or about to take the lock
    | Testing     // holds the lock, about to look at the predicate
    | Deciding    // holds the lock, found the predicate false, not yet in the wait set
    | Sleeping    // in the wait set, lock released
    | Woken       // out of the wait set, about to take the lock again
    | Leaving     // holds the lock, saw the predicate true
    | Gone        // saw shutdown

  /** A start() posting a run, or the destructor requesting shutdown. */
  datatype Setter = Ready | Holding | Written | Pending | Finished

  datatype Holder = Nobody | TheParker | ASetter(id: nat)

  datatype State = State(
    lock: Holder,
    requested: bool,
    shutdown: bool,
    parker: Parker,
    setters: map<nat, Setter>)

  const INITIAL: State := State(Nobody, false, false, Outside, map[])

  datatype Label =
    | Lock | Test | Sleep | Spurious | Leave
    | Come(id: nat)
    | SetterLocks(id: nat)
    | Write(id: nat, stopping: bool)
    | SetterUnlocks(id: nat)
    | Notify(id: nat)

  predicate Flagged(s: State) {
    s.requested || s.shutdown
  }

  predicate At(s: State, id: nat, where: Setter) {
    id in s.setters && s.setters[id] == where
  }

  /** Whether writers take the lock is what is in question; everything else is as it is. */
  predicate Enabled(guarded: bool, s: State, l: Label) {
    match l
    case Lock => (s.parker.Outside? || s.parker.Woken?) && s.lock.Nobody?
    case Test => s.parker.Testing?
    case Sleep => s.parker.Deciding?
    case Spurious => s.parker.Sleeping?
    case Leave => s.parker.Leaving?
    case Come(id) => id !in s.setters
    case SetterLocks(id) => guarded && At(s, id, Ready) && s.lock.Nobody?
    case Write(id, _) => At(s, id, if guarded then Holding else Ready)
    case SetterUnlocks(id) => At(s, id, Written)
    case Notify(id) => At(s, id, Pending)
  }

  function Move(s: State, id: nat, where: Setter): State {
    s.(setters := s.setters[id := where])
  }

  function Next(s: State, l: Label): State {
    match l
    case Lock => s.(lock := TheParker, parker := Testing)
    case Test => s.(parker := if Flagged(s) then Leaving else Deciding)
    case Sleep => s.(lock := Nobody, parker := Sleeping)
    case Spurious => s.(parker := Woken)
    case Leave =>
      if s.shutdown then s.(lock := Nobody, parker := Gone)
      else s.(lock := Nobody, parker := Outside, requested := false)
    case Come(id) => Move(s, id, Ready)
    case SetterLocks(id) => Move(s, id, Holding).(lock := ASetter(id))
    case Write(id, stopping) =>
      Move(s, id, Written).(requested := s.requested || !stopping, shutdown := s.shutdown || stopping)
    case SetterUnlocks(id) => Move(s, id, Pending).(lock := if s.lock == ASetter(id) then Nobody else s.lock)
    case Notify(id) => Move(s, id, Finished).(parker := if s.parker.Sleeping? then Woken else s.parker)
  }

  predicate Legal(guarded: bool, s: State, ls: seq<Label>)
    decreases |ls|
  {
    ls == [] || (Enabled(guarded, s, ls[0]) && Legal(guarded, Next(s, ls[0]), ls[1..]))
  }

  function Exec(s: State, ls: seq<Label>): State
    decreases |ls|
  {
    if ls == [] then s else Exec(Next(s, ls[0]), ls[1..])
  }

  // ---------------------------------------------------------------------------
  // No lost wake-up
  // ---------------------------------------------------------------------------

  predicate NotifyOwed(setter: Setter) {
    setter.Written? || setter.Pending?
  }

  /** The thread sleeps though there is something to do, and nobody is going to wake it. */
  ghost predicate Lost(s: State) {
    s.parker.Sleeping? && Flagged(s) && forall id :: id in s.setters ==> !NotifyOwed(s.setters[id])
  }

  ghost predicate LockInv(s: State) {
    && (s.lock.TheParker? <==> s.parker.Testing? || s.parker.Deciding? || s.parker.Leaving?)
    && (forall id :: At(s, id, Holding) || At(s, id, Written) ==> s.lock == ASetter(id))
  }

  /** What guarding buys: while the thread is deciding to sleep the predicate cannot become true, and
      once it sleeps whoever makes it true still owes a notify. */
  ghost predicate WakeInv(s: State) {
    && LockInv(s)
    && (s.parker.Deciding? ==> !Flagged(s))
    && (s.parker.Sleeping? && Flagged(s) ==> exists id :: id in s.setters && NotifyOwed(s.setters[id]))
  }

  lemma WakeStep(s: State, l: Label)
    requires WakeInv(s) && Enabled(true, s, l)
    ensures WakeInv(Next(s, l))
  {
    var s' := Next(s, l);
    if s'.parker.Sleeping? && Flagged(s') {
      if l.Write? {
        assert s'.setters[l.id] == Written;
      } else if l.SetterUnlocks? {
        assert s'.setters[l.id] == Pending;
      } else if s.parker.Sleeping? && Flagged(s) {
        var id :| id in s.setters && NotifyOwed(s.setters[id]);
        assert id in s'.setters && s'.setters[id] == s.setters[id];
      }
    }
  }

  lemma {:induction false} WakeRun(s: State, ls: seq<Label>)
    requires WakeInv(s) && Legal(true, s, ls)
    ensures WakeInv(Exec(s, ls))
    decreases |ls|
  {
    if ls != [] {
      WakeStep(s, ls[0]);
      WakeRun(Next(s, ls[0]), ls[1..]);
    }
  }

  ghost predicate NeverLost(guarded: bool) {
    forall ls :: Legal(guarded, INITIAL, ls) ==> !Lost(Exec(INITIAL, ls))
  }

  /** A run and where it leads; runs are built up one action at a time. */
  ghost predicate Leads(guarded: bool, ls: seq<Label>, s: State) {
    Legal(guarded, INITIAL, ls) && Exec(INITIAL, ls) == s
  }

  lemma {:induction false} LegalSnoc(guarded: bool, s: State, ls: seq<Label>, l: Label)
    requires Legal(guarded, s, ls) && Enabled(guarded, Exec(s, ls), l)
    ensures Legal(guarded, s, ls + [l]) && Exec(s, ls + [l]) == Next(Exec(s, ls), l)
    decreases |ls|
  {
    if ls == [] {
      assert ls + [l] == [l] && [l][1..] == [];
    } else {
      assert (ls + [l])[0] == ls[0] && (ls + [l])[1..] == ls[1..] + [l];
      LegalSnoc(guarded, Next(s, ls[0]), ls[1..], l);
    }
  }

  lemma Then(guarded: bool, ls: seq<Label>, s: State, l: Label)
    requires Leads(guarded, ls, s) && Enabled(guarded, s, l)
    ensures Leads(guarded, ls + [l], Next(s, l))
  {
    LegalSnoc(guarded, INITIAL, ls, l);
  }

  /** The thread takes the lock, finds nothing to do and decides to sleep. */
  lemma Decides(guarded: bool) returns (ls: seq<Label>)
    ensures Leads(guarded, ls, State(TheParker, false, false, Deciding, map[]))
  {
    Then(guarded, [], INITIAL, Lock);
    Then(guarded, [] + [Lock], Next(INITIAL, Lock), Test);
    ls := [] + [Lock] + [Test];
  }

  /** Written without the lock, between the test and the sleep, shutdown is announced to nobody: the
      thread then sleeps with nobody left to wake it. */
  lemma UnluckyRun() returns (ls: seq<Label>)
    ensures Legal(false, INITIAL, ls) && Lost(Exec(INITIAL, ls))
  {
    ls := Decides(false);
    var s := State(TheParker, false, false, Deciding, map[]);
    Then(false, ls, s, Come(0));
    ls, s := ls + [Come(0)], Next(s, Come(0));
    Then(false, ls, s, Write(0, true));
    ls, s := ls + [Write(0, true)], Next(s, Write(0, true));
    Then(false, ls, s, SetterUnlocks(0));
    ls, s := ls + [SetterUnlocks(0)], Next(s, SetterUnlocks(0));
    Then(false, ls, s, Notify(0));
    ls, s := ls + [Notify(0)], Next(s, Notify(0));
    Then(false, ls, s, Sleep);
    ls, s := ls + [Sleep], Next(s, Sleep);
    assert s == State(Nobody, false, true, Sleeping, map[0 := Finished]);
  }

  /** No interleaving loses a wake-up, if and only if every writer of the predicate holds the lock. */
  lemma NoWakeUpIsLostIffGuarded(guarded: bool)
    ensures NeverLost(guarded) <==> guarded
  {
    if guarded {
      forall ls | Legal(true, INITIAL, ls) ensures !Lost(Exec(INITIAL, ls)) {
        WakeRun(INITIAL, ls);
      }
    } else {
      var ls := UnluckyRun();
    }
  }
}
