/** The admission gate as the object the callers share: what m_admissionMu guards, with one method
    per critical section, each proved to be the gate machine's step. */
module AdmissionGate {
  import opened ResourceBudget
  import opened WaitLoop
  import A = Admission

  class AdmissionGate {
    var admissionQueue: seq<nat>
    var nextAdmissionTicket: nat
    var admissionEpoch: nat
    var admitted: int
    var effectiveMaxInFlight: int
    var descriptorsPerCall: int
    var queuedNow: int
    var callsQueued: int
    var queueTimeouts: int
    var resourceRejections: int
    var stopRequested: bool
    var shutdown: bool
    var waiting: map<nat, A.Waiter>     // the locals of each caller parked in the wait loop
    ghost var issued: map<nat, nat>
    ghost var ended: map<nat, A.Ending>
    ghost var grants: seq<A.Grant>

    function Gate(): A.Gate
      reads this
    {
      A.Gate(admissionQueue, nextAdmissionTicket, admissionEpoch, admitted, effectiveMaxInFlight, descriptorsPerCall,
             queuedNow, callsQueued, queueTimeouts, resourceRejections, stopRequested, shutdown)
    }

    ghost function Admissions(): A.State
      reads this
    {
      A.State(Gate(), waiting, issued, ended, grants)
    }

    constructor ()
      ensures Admissions() == A.INITIAL
    {
      admissionQueue, nextAdmissionTicket, admissionEpoch, admitted := [], 1, 0, 0;
      effectiveMaxInFlight, descriptorsPerCall := 64, 12;
      queuedNow, callsQueued, queueTimeouts, resourceRejections := 0, 0, 0, 0;
      stopRequested, shutdown, waiting := false, false, map[];
      issued, ended, grants := map[], map[], [];
    }

    method AdmissionBlockLocked(live: Snapshot) returns (block: A.Block)
      requires descriptorsPerCall > 0
      ensures block == A.BlockOf(Gate(), live)
    {
      if admitted >= effectiveMaxInFlight {
        return A.Concurrency;
      }
      if live.softLimit >= 0 && live.openCount >= 0 {
        var available := live.softLimit - DescriptorReserve(live.softLimit) - live.openCount;
        var reservableCalls := 0;
        if available > 0 {
          reservableCalls := available / descriptorsPerCall;
        }
        if admitted >= reservableCalls {
          return A.Descriptors;
        }
      }
      return A.NoBlock;
    }

    method RemoveAdmissionTicketLocked(ticket: nat) returns (removed: bool)
      modifies this
      ensures removed == (ticket in old(admissionQueue))
      ensures Admissions() == old(Admissions()).(gate := A.RemoveTicket(old(Gate()), ticket))
    {
      var i := 0;
      while i < |admissionQueue| && admissionQueue[i] != ticket
        invariant 0 <= i <= |admissionQueue|
        invariant ticket !in admissionQueue[..i]
        invariant A.Without(admissionQueue, ticket) == admissionQueue[..i] + A.Without(admissionQueue[i..], ticket)
      {
        assert admissionQueue[i..][1..] == admissionQueue[i + 1..];
        assert admissionQueue[..i] + [admissionQueue[i]] == admissionQueue[..i + 1];
        i := i + 1;
      }
      if i == |admissionQueue| {
        assert admissionQueue[..i] == admissionQueue;
        return false;
      }
      assert admissionQueue[i..][1..] == admissionQueue[i + 1..];
      admissionQueue := admissionQueue[..i] + admissionQueue[i + 1..];
      queuedNow := queuedNow - 1;
      return true;
    }

    /** Take the next ticket and stand at the end of the queue. */
    method JoinQueueLocked() returns (ticket: nat)
      modifies this
      ensures var g := old(Gate());
              && ticket == g.nextTicket
              && Admissions() == old(Admissions()).(gate := g.(queue := g.queue + [ticket], nextTicket := ticket + 1,
                                                               queuedNow := g.queuedNow + 1, callsQueued := g.callsQueued + 1))
    {
      ticket := nextAdmissionTicket;
      nextAdmissionTicket := nextAdmissionTicket + 1;
      admissionQueue := admissionQueue + [ticket];
      queuedNow := queuedNow + 1;
      callsQueued := callsQueued + 1;
    }

    /** The head of the wait, up to the first pass of its loop. */
    method EnterAdmission(caller: nat, live: Snapshot, now: int, queueTimeoutMs: int) returns (entry: A.Entry)
      requires descriptorsPerCall > 0
      modifies this
      ensures entry == A.EntryOf(old(Gate()), live)
      ensures Admissions() == A.Enter(old(Admissions()), caller, live, now, queueTimeoutMs)
    {
      if stopRequested || shutdown {
        return A.Refused;
      }
      var blockedBy := A.NoBlock;
      if admissionQueue == [] {
        blockedBy := AdmissionBlockLocked(live);
        if blockedBy == A.NoBlock {
          admitted := admitted + 1;
          grants := grants + [A.OnArrival];
          return A.Admit;
        }
      } else {
        blockedBy := A.Concurrency;
      }
      var ticket := JoinQueueLocked();
      waiting := waiting[caller := A.Waiter(ticket, admissionEpoch, now + queueTimeoutMs, blockedBy)];
      issued := issued[ticket := admissionEpoch];
      return A.Join(blockedBy);
    }

    /** The front ticket goes through. */
    method AdmitFrontLocked()
      requires admissionQueue != []
      modifies this
      ensures var g := old(Gate());
              Admissions() == old(Admissions()).(
                gate := g.(queue := g.queue[1..], queuedNow := g.queuedNow - 1, admitted := g.admitted + 1))
    {
      admissionQueue := admissionQueue[1..];
      queuedNow := queuedNow - 1;
      admitted := admitted + 1;
    }

    /** The deadline has passed: give the ticket up and count why. */
    method TimeOutLocked(ticket: nat, blockedBy: A.Block)
      modifies this
      ensures var dropped := A.RemoveTicket(old(Gate()), ticket);
              Admissions() == old(Admissions()).(gate := dropped.(
                queueTimeouts := dropped.queueTimeouts + 1,
                resourceRejections := dropped.resourceRejections + if blockedBy == A.Descriptors then 1 else 0))
    {
      var _ := RemoveAdmissionTicketLocked(ticket);
      queueTimeouts := queueTimeouts + 1;
      if blockedBy == A.Descriptors {
        resourceRejections := resourceRejections + 1;
      }
    }

    /** The pass itself, on the gate's own fields. */
    method AdmissionPassLocked(w: A.Waiter, live: Snapshot, now: int) returns (verdict: A.Verdict)
      requires descriptorsPerCall > 0
      modifies this
      ensures verdict == A.VerdictOf(old(Gate()), w, live, now)
      ensures Admissions() == old(Admissions()).(gate := A.TurnGate(old(Gate()), w, live, now))
    {
      if shutdown || stopRequested || w.epoch != admissionEpoch {
        var _ := RemoveAdmissionTicketLocked(w.ticket);
        return A.End(A.ShutDown);
      }
      var blockedBy := w.blockedBy;
      if admissionQueue != [] && admissionQueue[0] == w.ticket {
        blockedBy := AdmissionBlockLocked(live);
        if blockedBy == A.NoBlock {
          AdmitFrontLocked();
          return A.End(A.Admitted(admissionEpoch));
        }
      }
      if now >= w.deadline {
        TimeOutLocked(w.ticket, blockedBy);
        return A.End(A.TimedOut(blockedBy == A.Descriptors));
      }
      return A.Stay(blockedBy);
    }

    /** One pass of the wait loop, from waking with the lock to releasing it again. */
    method AdmissionTurn(caller: nat, live: Snapshot, now: int) returns (verdict: A.Verdict)
      requires descriptorsPerCall > 0 && caller in waiting
      modifies this
      ensures verdict == A.VerdictOf(old(Gate()), old(waiting)[caller], live, now)
      ensures Admissions() == A.Turn(old(Admissions()), caller, live, now)
    {
      var w := waiting[caller];
      verdict := AdmissionPassLocked(w, live, now);
      ghost var gate := Gate();
      if verdict.Stay? {
        waiting := waiting[caller := w.(blockedBy := verdict.blockedBy)];
      } else {
        waiting := waiting - {caller};
        ended := ended[w.ticket := verdict.ending];
        grants := if verdict.ending.Admitted? then grants + [A.ToTicket(w.ticket)] else grants;
      }
      assert Gate() == gate;
    }

    /** The ceiling and the cost per call, as start() settles them for a run. */
    method Configure(perCall: int, effective: int)
      modifies this`descriptorsPerCall, this`effectiveMaxInFlight
      ensures Admissions() == old(Admissions()).(gate := old(Gate()).(perCall := perCall, effective := effective))
    {
      descriptorsPerCall, effectiveMaxInFlight := perCall, effective;
    }

    /** Teardown writes off every reservation. */
    method ForgetReservations()
      modifies this`admitted
      ensures Admissions() == old(Admissions()).(gate := old(Gate()).(admitted := 0))
    {
      admitted := 0;
    }

    /** What some other thread does to the gate, if it can. */
    method Perform(l: A.Label)
      modifies this
      ensures Admissions() == Apply(old(Admissions()), l)
    {
      if descriptorsPerCall <= 0 {
        return;
      }
      match l
      case Arrive(caller, live, now, queueTimeoutMs) =>
        if caller !in waiting {
          var _ := EnterAdmission(caller, live, now, queueTimeoutMs);
        }
      case Retry(caller, live, now) =>
        if caller in waiting {
          var _ := AdmissionTurn(caller, live, now);
        }
      case Beat(live) => var _ := TryAdmit(live);
      case Release => ReleaseAdmission();
      case Restart => RestartAdmission();
      case Configure(perCall, effective) =>
        if perCall > 0 {
          Configure(perCall, effective);
        }
      case Clear => ForgetReservations();
      case SetStop => stopRequested := true;
      case SetShutdown => shutdown := true;
    }

    /** The whole wait of one caller, whatever the others do between its passes: it comes out
        admitted or not, its ticket gone, and the gate where the passes and the others left it. */
    method WaitForAdmission(caller: nat, live: Snapshot, now: int, queueTimeoutMs: int, naps: seq<Nap>) returns (ok: bool)
      requires descriptorsPerCall > 0 && caller !in waiting
      requires LeavesAlone(naps, caller) && naps != [] && naps[|naps| - 1].now >= now + queueTimeoutMs
      modifies this
      ensures Admissions() == WaitOut(A.Enter(old(Admissions()), caller, live, now, queueTimeoutMs), caller, naps)
      ensures caller !in waiting
      ensures match A.EntryOf(old(Gate()), live)
              case Refused => !ok
              case Admit => ok
              case Join(_) => old(nextAdmissionTicket) in ended && ok == ended[old(nextAdmissionTicket)].Admitted?
    {
      var entry := EnterAdmission(caller, live, now, queueTimeoutMs);
      if !entry.Join? {
        return entry.Admit?;
      }
      ghost var joined := Admissions();
      ghost var w := waiting[caller];
      var k := 0;
      WaitOutEnds(joined, caller, naps);
      while true
        invariant 0 <= k < |naps|
        invariant descriptorsPerCall > 0 && caller in waiting && SameWait(waiting[caller], w)
        invariant WaitOut(joined, caller, naps) == WaitOut(Admissions(), caller, naps[k..])
        decreases |naps| - k
      {
        var verdict := AdmissionTurn(caller, naps[k].live, naps[k].now);
        if verdict.End? {
          return verdict.ending.Admitted?;
        }
        OthersLeaveAlone(Admissions(), naps[k].meanwhile, caller);
        WaitOthers(naps[k].meanwhile);
        assert naps[k..][1..] == naps[k + 1..];
        k := k + 1;
      }
    }

    /** Asleep without the lock. */
    method WaitOthers(meanwhile: seq<A.Label>)
      modifies this
      ensures Admissions() == ApplyAll(old(Admissions()), meanwhile)
    {
      ghost var s := Admissions();
      for i := 0 to |meanwhile|
        invariant ApplyAll(s, meanwhile) == ApplyAll(Admissions(), meanwhile[i..])
      {
        assert meanwhile[i..][1..] == meanwhile[i + 1..];
        Perform(meanwhile[i]);
      }
    }

    method TryAdmit(live: Snapshot) returns (ok: bool)
      requires descriptorsPerCall > 0
      modifies this
      ensures ok == A.HeartbeatAdmitted(old(Gate()), live)
      ensures Admissions() == A.TryAdmit(old(Admissions()), live)
    {
      if admissionQueue != [] {
        return false;
      }
      var block := AdmissionBlockLocked(live);
      if block != A.NoBlock {
        return false;
      }
      admitted := admitted + 1;
      grants := grants + [A.ToHeartbeat];
      return true;
    }

    method ReleaseAdmission()
      modifies this
      ensures Admissions() == old(Admissions()).(gate := A.ReleaseGate(old(Gate())))
    {
      if admitted > 0 {
        admitted := admitted - 1;
      }
    }

    /** The locked section at the head of start(). */
    method RestartAdmission()
      modifies this
      ensures Admissions() == old(Admissions()).(gate := A.RestartGate(old(Gate())))
    {
      admissionEpoch := admissionEpoch + 1;
      admissionQueue := [];
      queuedNow := 0;
      admitted := 0;
      stopRequested := false;
    }
  }
}
