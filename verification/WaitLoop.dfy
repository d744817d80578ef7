/** The wait loop of one caller as a whole: its passes, and between them whatever the others do. */
module WaitLoop {
  import opened ResourceBudget
  import opened Admission

  /** One pass of the loop, and what the other threads do while the caller sleeps after it. */
  datatype Nap = Nap(live: Snapshot, now: int, meanwhile: seq<Label>)

  /** A step some thread takes if it can. */
  function Apply(s: State, l: Label): (s': State)
    ensures s.gate.perCall > 0 ==> s'.gate.perCall > 0
  {
    if Enabled(s, l) then Next(s, l) else s
  }

  function ApplyAll(s: State, ls: seq<Label>): (s': State)
    ensures s.gate.perCall > 0 ==> s'.gate.perCall > 0
    decreases |ls|
  {
    if ls == [] then s else ApplyAll(Apply(s, ls[0]), ls[1..])
  }

  /** The gate after the caller's wait. */
  function WaitOut(s: State, caller: nat, naps: seq<Nap>): State
    requires s.gate.perCall > 0
    decreases |naps|
  {
    if naps == [] || caller !in s.waiters then s
    else
      var t := Turn(s, caller, naps[0].live, naps[0].now);
      if caller !in t.waiters then t else WaitOut(ApplyAll(t, naps[0].meanwhile), caller, naps[1..])
  }

  /** No other thread does what is this caller's to do. */
  ghost predicate LeavesAlone(naps: seq<Nap>, caller: nat) {
    forall i, l :: 0 <= i < |naps| && l in naps[i].meanwhile ==> !IsBy(l, caller)
  }

  predicate IsBy(l: Label, caller: nat) {
    (l.Arrive? || l.Retry?) && l.caller == caller
  }

  predicate SameWait(w: Waiter, w': Waiter) {
    w'.ticket == w.ticket && w'.epoch == w.epoch && w'.deadline == w.deadline
  }

  lemma {:induction false} OthersLeaveAlone(s: State, ls: seq<Label>, caller: nat)
    requires caller in s.waiters && forall l :: l in ls ==> !IsBy(l, caller)
    ensures caller in ApplyAll(s, ls).waiters && ApplyAll(s, ls).waiters[caller] == s.waiters[caller]
    decreases |ls|
  {
    if ls != [] {
      var s' := Apply(s, ls[0]);
      assert ls[0] in ls;
      OthersLeaveAlone(s', ls[1..], caller);
    }
  }

  /** A wait whose last pass comes at or after its deadline is over after it, its ticket ended. */
  lemma {:induction false} WaitOutEnds(s: State, caller: nat, naps: seq<Nap>)
    requires s.gate.perCall > 0 && caller in s.waiters && LeavesAlone(naps, caller)
    requires naps != [] && naps[|naps| - 1].now >= s.waiters[caller].deadline
    ensures caller !in WaitOut(s, caller, naps).waiters
    ensures s.waiters[caller].ticket in WaitOut(s, caller, naps).ended
    decreases |naps|
  {
    var t := Turn(s, caller, naps[0].live, naps[0].now);
    if caller in t.waiters {
      OthersLeaveAlone(t, naps[0].meanwhile, caller);
      assert LeavesAlone(naps[1..], caller);
      WaitOutEnds(ApplyAll(t, naps[0].meanwhile), caller, naps[1..]);
    }
  }

  /** The steps of a list that were taken. */
  function Taken(s: State, ls: seq<Label>): seq<Label>
    decreases |ls|
  {
    if ls == [] then []
    else (if Enabled(s, ls[0]) then [ls[0]] else []) + Taken(Apply(s, ls[0]), ls[1..])
  }

  lemma {:induction false} TakenIsARun(s: State, ls: seq<Label>)
    ensures Legal(s, Taken(s, ls)) && Exec(s, Taken(s, ls)) == ApplyAll(s, ls)
    decreases |ls|
  {
    if ls != [] {
      var rest := Taken(Apply(s, ls[0]), ls[1..]);
      TakenIsARun(Apply(s, ls[0]), ls[1..]);
      if Enabled(s, ls[0]) {
        assert Taken(s, ls)[0] == ls[0] && Taken(s, ls)[1..] == rest;
      } else {
        assert Taken(s, ls) == rest;
      }
    }
  }

  lemma {:induction false} RunsCompose(s: State, ls: seq<Label>, ms: seq<Label>)
    requires Legal(s, ls) && Legal(Exec(s, ls), ms)
    ensures Legal(s, ls + ms) && Exec(s, ls + ms) == Exec(Exec(s, ls), ms)
    decreases |ls|
  {
    if ls == [] {
      assert ls + ms == ms;
    } else {
      assert (ls + ms)[0] == ls[0] && (ls + ms)[1..] == ls[1..] + ms;
      RunsCompose(Next(s, ls[0]), ls[1..], ms);
    }
  }

  /** However long it takes and whatever happens meanwhile, a wait is a run of the gate, so all that
      is proved of the gate's runs holds of it. */
  lemma {:induction false} WaitIsARun(s: State, caller: nat, naps: seq<Nap>) returns (ls: seq<Label>)
    requires s.gate.perCall > 0
    ensures Legal(s, ls) && Exec(s, ls) == WaitOut(s, caller, naps)
    decreases |naps|
  {
    if naps == [] || caller !in s.waiters {
      ls := [];
    } else {
      var pass := [Retry(caller, naps[0].live, naps[0].now)];
      var t := Turn(s, caller, naps[0].live, naps[0].now);
      assert Legal(s, pass) && Exec(s, pass) == t by {
        assert pass[1..] == [];
        assert Legal(t, pass[1..]) && Exec(t, pass[1..]) == t;
      }
      if caller !in t.waiters {
        ls := pass;
      } else {
        var others := Taken(t, naps[0].meanwhile);
        TakenIsARun(t, naps[0].meanwhile);
        RunsCompose(s, pass, others);
        var rest := WaitIsARun(ApplyAll(t, naps[0].meanwhile), caller, naps[1..]);
        RunsCompose(s, pass + others, rest);
        ls := pass + others + rest;
      }
    }
  }
}
