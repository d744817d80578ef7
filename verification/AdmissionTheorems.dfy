/** What the admission gate promises over every run. */
module AdmissionTheorems {
  import opened ResourceBudget
  import opened Admission
  import F = FifoSemaphore

  /** Everything reachable from the initial gate, by any interleaving, is well kept. */
  lemma ReachableIsKept(ls: seq<Label>)
    requires Legal(INITIAL, ls)
    ensures Inv(Exec(INITIAL, ls))
  {
    InvInitial();
    InvRun(INITIAL, ls);
  }

  // --- FIFO ------------------------------------------------------------------

  /** While a ticket is queued, the only reservations handed out go to tickets before it, or to it:
      none on arrival, none to a heartbeat. */
  lemma NoOvertaking(s: State, l: Label, t: nat)
    requires Inv(s) && Enabled(s, l) && t in s.gate.queue
    ensures var granted := Next(s, l).grants;
            granted == s.grants
            || (exists u: nat :: u <= t && granted == s.grants + [ToTicket(u)] && u !in Next(s, l).gate.queue)
  {
    if l.Retry? {
      FrontIsOldest(s.gate.queue);
      TurnQueue(s, l.caller, l.live, l.now);
      var u := s.waiters[l.caller].ticket;
      if Next(s, l).grants != s.grants {
        assert Next(s, l).grants == s.grants + [ToTicket(u)];
      }
    }
  }

  /** The ticket stays queued in every state of the run. */
  ghost predicate QueuedThroughout(s: State, ls: seq<Label>, t: nat)
    requires Legal(s, ls)
    decreases |ls|
  {
    t in s.gate.queue && (ls != [] ==> QueuedThroughout(Next(s, ls[0]), ls[1..], t))
  }

  /** The grants only grew, by grants to tickets before t. */
  ghost predicate GrantedBefore(grants: seq<Grant>, grants': seq<Grant>, t: nat) {
    && grants <= grants'
    && (forall i :: |grants| <= i < |grants'| ==> grants'[i].ToTicket? && grants'[i].ticket < t)
  }

  lemma StepGrantsBefore(s: State, l: Label, t: nat)
    requires Inv(s) && Enabled(s, l) && t in s.gate.queue && t in Next(s, l).gate.queue
    ensures GrantedBefore(s.grants, Next(s, l).grants, t)
  {
    NoOvertaking(s, l, t);
  }

  lemma GrantedBeforeTransitive(g0: seq<Grant>, g1: seq<Grant>, g2: seq<Grant>, t: nat)
    requires GrantedBefore(g0, g1, t) && GrantedBefore(g1, g2, t)
    ensures GrantedBefore(g0, g2, t)
  {
    forall i | |g0| <= i < |g2| ensures g2[i].ToTicket? && g2[i].ticket < t {
      if i < |g1| {
        assert g2[i] == g1[i];
      }
    }
  }

  /** However long a ticket waits, everything granted meanwhile went to a ticket before it. */
  lemma {:induction false} NoOvertakingRun(s: State, ls: seq<Label>, t: nat)
    requires Inv(s) && Legal(s, ls) && QueuedThroughout(s, ls, t)
    ensures GrantedBefore(s.grants, Exec(s, ls).grants, t)
    decreases |ls|
  {
    if ls != [] {
      var s' := Next(s, ls[0]);
      StepGrantsBefore(s, ls[0], t);
      InvStep(s, ls[0]);
      NoOvertakingRun(s', ls[1..], t);
      GrantedBeforeTransitive(s.grants, s'.grants, Exec(s, ls).grants, t);
    }
  }

  /** The callers still in the race: those whose ticket belongs to the current epoch. */
  ghost predicate Contends(s: State, caller: nat) {
    caller in s.waiters && s.waiters[caller].epoch == s.gate.epoch
  }

  /** A grant goes to the contender that has waited longest; a grant on arrival or to a heartbeat
      finds no contender at all. */
  lemma GrantGoesToLongestWaiting(s: State, l: Label)
    requires Inv(s) && Enabled(s, l) && Next(s, l).grants != s.grants
    ensures match l
            case Retry(caller, _, _) =>
              Contends(s, caller)
              && forall d :: Contends(s, d) && d != caller ==> s.waiters[caller].ticket < s.waiters[d].ticket
            case _ => forall d :: !Contends(s, d)
  {
    if l.Retry? {
      FrontIsOldest(s.gate.queue);
    }
  }

  // --- refinement of a FIFO semaphore ----------------------------------------

  function AsSemaphore(s: State): F.Semaphore {
    F.Semaphore(s.gate.queue, s.gate.admitted)
  }

  /** The semaphore step each transition of the gate performs. */
  function StepOf(s: State, l: Label): F.Step
    requires Enabled(s, l)
  {
    match l
    case Arrive(_, live, _, _) =>
      (match EntryOf(s.gate, live)
       case Refused => F.Idle
       case Admit => F.Take
       case Join(_) => F.Queue(s.gate.nextTicket))
    case Retry(caller, live, now) =>
      var w := s.waiters[caller];
      (match VerdictOf(s.gate, w, live, now)
       case Stay(_) => F.Idle
       case End(Admitted(_)) => F.Serve
       case End(_) => if w.ticket in s.gate.queue then F.GiveUp(w.ticket) else F.Idle)
    case Beat(live) => if HeartbeatAdmitted(s.gate, live) then F.Take else F.Idle
    case Release => if s.gate.admitted > 0 then F.Return else F.Idle
    case Restart => F.Reset(true)
    case Clear => F.Reset(false)
    case _ => F.Idle
  }

  lemma {:induction false} WithoutIsWithout(queue: seq<nat>, t: nat)
    requires t in queue
    ensures F.Without(queue, Without(queue, t), t)
  {
    if queue[0] == t {
      assert Without(queue, t) == queue[..0] + queue[1..];
    } else {
      var rest := queue[1..];
      assert t in rest;
      WithoutIsWithout(rest, t);
      var i :| 0 <= i < |rest| && rest[i] == t && Without(rest, t) == rest[..i] + rest[i + 1..];
      DeeperIn(queue, i);
      assert queue[i + 1] == t && Without(queue, t) == [queue[0]] + (rest[..i] + rest[i + 1..]);
    }
  }

  lemma DeeperIn(queue: seq<nat>, i: nat)
    requires i + 1 < |queue|
    ensures [queue[0]] + (queue[1..][..i] + queue[1..][i + 1..]) == queue[..i + 1] + queue[i + 2..]
  {
  }

  lemma TurnRefinesFifoSemaphore(s: State, l: Label)
    requires Enabled(s, l) && l.Retry?
    requires s.waiters[l.caller].epoch == s.gate.epoch ==> s.waiters[l.caller].ticket in s.gate.queue
    ensures F.Allowed(AsSemaphore(s), StepOf(s, l), AsSemaphore(Turn(s, l.caller, l.live, l.now)))
  {
    var w := s.waiters[l.caller];
    if w.ticket in s.gate.queue {
      WithoutIsWithout(s.gate.queue, w.ticket);
    }
  }

  /** Every transition of the gate is a step of the FIFO semaphore. */
  lemma RefinesFifoSemaphore(s: State, l: Label)
    requires Inv(s) && Enabled(s, l)
    ensures F.Allowed(AsSemaphore(s), StepOf(s, l), AsSemaphore(Next(s, l)))
  {
    if l.Retry? {
      TurnRefinesFifoSemaphore(s, l);
    }
  }

  /** The gate hands out a reservation exactly when the semaphore does, to the waiter it serves. */
  lemma GrantsAreSemaphoreGrants(s: State, l: Label)
    requires Inv(s) && Enabled(s, l)
    ensures Next(s, l).grants == match StepOf(s, l)
                                 case Take => s.grants + [if l.Beat? then ToHeartbeat else OnArrival]
                                 case Serve => s.grants + [ToTicket(AsSemaphore(s).waiting[0])]
                                 case _ => s.grants
  {
  }

  // --- the waiters' accounts ---------------------------------------------------

  function AdmittedTickets(ended: map<nat, Ending>): set<nat> {
    set t | t in ended && ended[t].Admitted?
  }

  function ShutDownTickets(ended: map<nat, Ending>): set<nat> {
    set t | t in ended && ended[t].ShutDown?
  }

  lemma EndingsAreThree(ended: map<nat, Ending>)
    ensures |ended| == |AdmittedTickets(ended)| + |TimedOutTickets(ended)| + |ShutDownTickets(ended)|
  {
    assert ended.Keys == AdmittedTickets(ended) + TimedOutTickets(ended) + ShutDownTickets(ended);
  }

  lemma RejectedAreTimedOut(ended: map<nat, Ending>)
    ensures |RejectedTickets(ended)| <= |TimedOutTickets(ended)|
  {
    var timedOut, rejected := TimedOutTickets(ended), RejectedTickets(ended);
    assert timedOut == rejected + (timedOut - rejected);
  }

  /** callsQueued counts every caller that ever queued: still waiting, admitted, timed out or shut
      down; the reported timeouts and rejections are exactly the endings of those kinds; and the
      reported queue length is the number of contenders in the queue. */
  lemma WaitersAreAccountedFor(s: State)
    requires Inv(s)
    ensures s.gate.callsQueued == |s.waiters| + |AdmittedTickets(s.ended)| + |TimedOutTickets(s.ended)| + |ShutDownTickets(s.ended)|
    ensures s.gate.callsQueued == s.gate.nextTicket - 1
    ensures s.gate.queueTimeouts == |TimedOutTickets(s.ended)|
    ensures s.gate.resourceRejections == |RejectedTickets(s.ended)| <= s.gate.queueTimeouts
    ensures s.gate.queuedNow == |s.gate.queue|
    ensures forall t :: t in s.gate.queue ==> t !in s.ended
  {
    EndingsAreThree(s.ended);
    RejectedAreTimedOut(s.ended);
    TicketRange(s.issued.Keys, s.gate.nextTicket);
  }

  lemma {:induction false} TicketRange(issued: set<nat>, next: nat)
    requires next >= 1 && forall t: nat :: t in issued <==> 1 <= t < next
    ensures |issued| == next - 1
    decreases next
  {
    if next == 1 {
      assert issued == {};
    } else {
      TicketRange(issued - {next - 1}, next - 1);
    }
  }

  /** An ending is final: no later step changes it or brings the ticket back. */
  lemma {:induction false} EndingsAreFinal(s: State, ls: seq<Label>, t: nat)
    requires Inv(s) && Legal(s, ls) && t in s.ended
    ensures t in Exec(s, ls).ended && Exec(s, ls).ended[t] == s.ended[t]
    ensures t !in Exec(s, ls).gate.queue
    ensures forall c :: c in Exec(s, ls).waiters ==> Exec(s, ls).waiters[c].ticket != t
    decreases |ls|
  {
    if ls != [] {
      InvStep(s, ls[0]);
      EndingsAreFinal(Next(s, ls[0]), ls[1..], t);
    }
  }

  /** No ticket is ever admitted in another epoch than the one it was issued in. */
  lemma AdmittedInOwnEpoch(s: State, t: nat)
    requires Inv(s) && t in s.ended && s.ended[t].Admitted?
    ensures t in s.issued && s.ended[t] == Admitted(s.issued[t])
  {
  }

  /** Once the clock has reached the deadline, or the run is over, the next turn ends the wait. */
  lemma WaitEndsAtDeadline(s: State, caller: nat, live: Snapshot, now: int)
    requires Inv(s) && caller in s.waiters
    ensures caller in Turn(s, caller, live, now).waiters
            <==> && !Closing(s.gate)
                 && s.waiters[caller].epoch == s.gate.epoch
                 && now < s.waiters[caller].deadline
                 && (s.waiters[caller].ticket == s.gate.queue[0] ==> BlockOf(s.gate, live) != NoBlock)
  {
  }

  // --- the budget ---------------------------------------------------------------

  /** The gate's own arithmetic agrees with the budget's capacity. */
  lemma GateAgreesWithCapacity(g: Gate, live: Snapshot)
    requires g.perCall > 0
    ensures BlockOf(g, live) == NoBlock
            <==> g.admitted < g.effective
                 && (Known(live) ==> g.admitted < DescriptorOperationCapacity(live, g.perCall))
    ensures BlockOf(g, live) == Descriptors
            <==> g.admitted < g.effective && Known(live) && g.admitted >= DescriptorOperationCapacity(live, g.perCall)
  {
  }

  /** At every admission the ceiling holds, and with a known snapshot every reservation, the new
      one included, fits beside what the process already has open and the host's reserve. */
  lemma AdmissionIsWithinBudget(s: State, l: Label)
    requires Inv(s) && Enabled(s, l) && Next(s, l).grants != s.grants
    ensures var g' := Next(s, l).gate;
            && g'.admitted == s.gate.admitted + 1 <= g'.effective
            && (Known(l.live) ==> Fits(l.live, g'.perCall, g'.admitted))
  {
    GateAgreesWithCapacity(s.gate, l.live);
    if Known(l.live) {
      CapacityIsLargestThatFits(l.live, s.gate.perCall, s.gate.admitted + 1);
    }
  }
}
