/** The runtime object: its state grouped by the lock that guards it, and the methods that reach
    across the groups, each proved to do what the step relation says. What the environment answers
    (descriptor snapshots, the clock, which slots are still owned, what the library completes) comes
    in as parameters. */
module ProxyRuntime {
  import opened ResourceBudget
  import opened Slots
  import opened SyncHealth
  import opened Runs
  import opened AdmissionGate
  import opened CallTable
  import opened RunHealth
  import A = Admission
  import Rt = Runtime

  /** One completion the library delivers while it is entered. */
  datatype Completion = Completion(slot: nat, status: int, result: string)

  class ProxyRuntime {
    const gate: AdmissionGate
    const calls: CallTable
    const health: RunHealth
    ghost var trace: seq<LibCall>
    var cfg: Rt.Config
    var runRequested: bool
    var runFinished: bool
    var runActive: bool
    var callsTotal: nat
    var callsFailed: nat

    constructor ()
      ensures gate.Admissions() == A.INITIAL && health.View() == FRESH
      ensures calls.Valid() && calls.Counted() && calls.Views() == map[] && calls.Held() == Lists(1, [], [], 0, {}, {})
      ensures trace == [] && runFinished && !runRequested && !runActive
      ensures fresh(gate) && fresh(calls) && fresh(health)
    {
      gate := new AdmissionGate();
      calls := new CallTable();
      health := new RunHealth();
      trace, cfg := [], Rt.INITIAL.cfg;
      runRequested, runFinished, runActive, callsTotal, callsFailed := false, true, false, 0, 0;
    }

    // -------------------------------------------------------------------------
    // start()
    // -------------------------------------------------------------------------

    /** start() up to its wait: a fresh epoch, the budget, and the run posted to the proxy thread. */
    method StartPrologue(cfg: Rt.Config, initial: Snapshot) returns (ok: bool)
      modifies this`cfg, this`runRequested, this`runFinished, gate, health, calls`inFlight
      ensures old(runActive) ==>
                !ok && gate.Admissions() == old(gate.Admissions()) && health.View() == old(health.View()) && this.cfg == old(this.cfg)
      ensures !old(runActive) ==>
                && ok == !Rt.NoRoomToStart(cfg, initial) && this.cfg == cfg && calls.inFlight == 0
                && gate.Admissions() == old(gate.Admissions()).(gate := A.RestartGate(old(gate.Gate())).(
                     perCall := Rt.PerCall(cfg.parallelBlockDownloads), effective := Rt.EffectiveMax(cfg, initial)))
                && health.View() == SyncHealth.SetState(old(health.View()), if ok then Starting else RunState.Failed)
      ensures ok ==> runRequested && !runFinished && !health.startDone && !health.startOk
      ensures !ok ==> runRequested == old(runRequested) && runFinished == old(runFinished)
                      && health.startDone == old(health.startDone) && health.startOk == old(health.startOk)
    {
      if runActive {
        return false;
      }
      gate.RestartAdmission();
      this.cfg := cfg;
      calls.inFlight := 0;
      var perCall := CostPerCall(cfg.parallelBlockDownloads);
      gate.Configure(perCall, cfg.maxInFlight);
      var effective, room := Budget(cfg, perCall, initial);
      gate.Configure(perCall, effective);
      if !room {
        health.SetState(RunState.Failed);
        return false;
      }
      health.SetState(Starting);
      health.OweAnswer();
      runFinished := false;
      runRequested := true;
      ok := true;
    }

    /** Descriptors one call may need: two more than it fans out to, exactly when that is at least four and
        a 64-bit number; else more only to make four, and fewer only because 64 bits hold no more. */
    static method CostPerCall(parallelBlockDownloads: int) returns (perCall: int)
      ensures 4 <= perCall <= INT64_MAX
      ensures perCall == parallelBlockDownloads + 2 <==> 4 <= parallelBlockDownloads + 2 <= INT64_MAX
      ensures perCall > parallelBlockDownloads + 2 ==> perCall == 4
      ensures perCall < parallelBlockDownloads + 2 ==> perCall == INT64_MAX
      ensures perCall == Rt.PerCall(parallelBlockDownloads)
    {
      var fanOut := INT64_MAX;
      if parallelBlockDownloads <= INT64_MAX - 2 {
        fanOut := parallelBlockDownloads + 2;
      }
      perCall := Max(4, fanOut);
    }

    /** What the descriptor limit leaves of the configured maximum, and whether one call fits. */
    static method Budget(cfg: Rt.Config, perCall: int, initial: Snapshot) returns (effective: int, room: bool)
      requires perCall == Rt.PerCall(cfg.parallelBlockDownloads)
      ensures effective == Rt.EffectiveMax(cfg, initial)
      ensures room == !Rt.NoRoomToStart(cfg, initial)
    {
      effective, room := cfg.maxInFlight, true;
      var capacity := DescriptorOperationCapacity(initial, perCall);
      if capacity >= 0 {
        effective := Min(cfg.maxInFlight, capacity);
        room := capacity != 0;
      }
    }

    // -------------------------------------------------------------------------
    // Calls
    // -------------------------------------------------------------------------

    /** The enqueue gate of call(): refuse once stopping and give the reservation back, else register
        the slot for shutdown and queue its command. */
    method EnqueueCall(owned: set<nat>) returns (queued: bool, id: nat)
      requires calls.Valid()
      modifies gate, calls
      ensures calls.Valid() && id == old(calls.nextId) && calls.Views() == old(calls.Views())[id := NewSlot(User)]
      ensures queued == !A.Closing(old(gate.Gate()))
      ensures calls.Held() == var held := old(calls.Held());
                              if queued then held.(nextId := id + 1, pending := Prune(held.pending, owned) + [id], queue := held.queue + [id])
                              else held.(nextId := id + 1)
      ensures gate.Admissions() == if queued then old(gate.Admissions())
                                   else old(gate.Admissions()).(gate := A.ReleaseGate(old(gate.Gate())))
    {
      id := calls.MakeSlot(User);
      if gate.stopRequested || gate.shutdown {
        gate.ReleaseAdmission();
        return false, id;
      }
      calls.Register(id, owned);
      calls.QueueCommand(id);
      queued := true;
    }

    /** Every queued command goes to the library, oldest first. */
    method DrainCommands()
      requires calls.Valid()
      modifies calls, this`trace, this`callsTotal
      ensures calls.Valid() && calls.Views() == old(calls.Views())
      ensures var held := old(calls.Held());
              && calls.Held() == held.(queue := [], callBoxes := held.callBoxes + Elements(held.queue),
                                       inFlight := held.inFlight + |held.queue|)
              && trace == old(trace) + seq(|held.queue|, _ => ProxyCall)
              && callsTotal == old(callsTotal) + |held.queue|
    {
      var dispatched := calls.DrainCommands();
      callsTotal := callsTotal + |dispatched|;
      trace := trace + seq(|dispatched|, _ => ProxyCall);
    }

    // -------------------------------------------------------------------------
    // The sync cycle and the heartbeat
    // -------------------------------------------------------------------------

    /** What the cycle reads and writes. */
    ghost function Synced(): SyncView
      reads this, calls, calls.slots.Values, health
    {
      SyncView(health.View(), health.startDone, health.startOk, calls.Views(), calls.Held(), trace)
    }

    /** Register the sync for shutdown, then hand it to the library; the phase says so before it is
        handed over, since the library may complete it on the spot. */
    method IssueSync(op: bool, owned: set<nat>)
      requires calls.Valid()
      modifies calls, health`syncPhase, health`ethOutcome, health`opOutcome, this`trace
      ensures calls.Valid() && Synced() == SyncIssued(old(Synced()), op, owned)
      ensures (old(health.Valid()) ==> health.Valid()) && (old(health.Going()) ==> health.Going())
    {
      var id := calls.MakeRegistered(SyncKind(op), owned);
      ghost var registered := Synced();
      health.PhaseIssued(op);
      assert Synced() == registered.(health := SyncHealth.IssueSync(registered.health, op));
      HandSync(id, op);
    }

    method HandSync(id: nat, op: bool)
      requires calls.Valid() && id in calls.slots
      modifies calls`inFlight, calls`callBoxes, calls`syncBoxes, this`trace
      ensures var v := old(Synced());
              && calls.Valid()
              && Synced() == v.(held := v.held.(syncBoxes := v.held.syncBoxes + {id}, inFlight := v.held.inFlight + 1),
                                trace := v.trace + [SyncCall(op)])
    {
      calls.Hand(id, true);
      trace := trace + [SyncCall(op)];
    }

    /** Stamp the cycle, then issue its first sync. */
    method BeginSyncCycle(stamp: int, owned: set<nat>)
      requires calls.Valid()
      modifies calls, health`syncCycleStart, health`syncPhase, health`ethOutcome, health`opOutcome, this`trace
      ensures calls.Valid() && Synced() == SyncIssued(CycleBegun(old(Synced()), stamp), false, owned)
      ensures (old(health.Valid()) ==> health.Valid()) && (old(health.Going()) ==> health.Going())
    {
      SoundFrame(health.View(), health.View().(cycleStart := stamp));
      ghost var before := Synced();
      health.syncCycleStart := stamp;
      assert Synced() == CycleBegun(before, stamp);
      IssueSync(false, owned);
    }

    method EndSyncCycle()
      modifies health
      ensures Synced() == CycleEnded(old(Synced()))
      ensures (old(health.Valid()) ==> health.Valid()) && (old(health.Going()) ==> health.Going())
    {
      ghost var views := calls.Views();
      health.FinishSyncCycle();
      assert calls.Views() == views;
    }

    /** One step of the cycle per pump turn. */
    method AdvanceSync(now: int, stamp: int, owned: set<nat>)
      requires calls.Valid()
      modifies calls, health, this`trace
      ensures calls.Valid()
      ensures Synced() == SyncAdvanced(old(Synced()), SyncAction(old(health.View()), cfg.op, now), stamp, owned)
      ensures (old(health.Valid()) ==> health.Valid()) && (old(health.Going()) ==> health.Going())
    {
      match health.syncPhase
      case NoSync =>
        if now >= health.nextSync {
          BeginSyncCycle(stamp, owned);
        }
      case EthDone =>
        if health.syncOk && cfg.op {
          IssueSync(true, owned);
        } else {
          EndSyncCycle();
        }
      case OpDone => EndSyncCycle();
      case Eth =>
      case Op =>
    }

    /** A heartbeat, if the gate lets it through at once: handed to the library first, registered after. */
    method IssueKeepAlive(live: Snapshot, owned: set<nat>)
      requires calls.Valid() && gate.descriptorsPerCall > 0
      modifies gate, calls, health`heartbeatInFlight, this`trace
      ensures calls.Valid() && gate.Admissions() == A.TryAdmit(old(gate.Admissions()), live)
      ensures if A.HeartbeatAdmitted(old(gate.Gate()), live)
              then BeatIssued(old(calls.Held()), calls.Held(), owned) && trace == old(trace) + [ProxyCall] && health.heartbeatInFlight
              else calls.Held() == old(calls.Held()) && trace == old(trace) && health.View() == old(health.View())
      ensures calls.Views() == if A.HeartbeatAdmitted(old(gate.Gate()), live)
                               then old(calls.Views())[old(calls.nextId) := NewSlot(Heartbeat)] else old(calls.Views())
    {
      ghost var views := calls.Views();
      var ok := gate.TryAdmit(live);
      assert calls.Views() == views;
      if !ok {
        return;
      }
      LaunchKeepAlive(owned);
    }

    method LaunchKeepAlive(owned: set<nat>)
      requires calls.Valid()
      modifies calls, health`heartbeatInFlight, this`trace
      ensures calls.Valid() && calls.Views() == old(calls.Views())[old(calls.nextId) := NewSlot(Heartbeat)]
      ensures BeatIssued(old(calls.Held()), calls.Held(), owned) && trace == old(trace) + [ProxyCall] && health.heartbeatInFlight
    {
      var id := calls.MakeSlot(Heartbeat);
      ghost var views := calls.Views();
      health.heartbeatInFlight := true;
      assert calls.Views() == views;
      HandBeat(id, owned);
      assert calls.Views() == views;
    }

    /** The slot is registered only after the library has its box. */
    method HandBeat(id: nat, owned: set<nat>)
      requires calls.Valid() && id in calls.slots
      modifies calls`inFlight, calls`callBoxes, calls`syncBoxes, calls`pending, this`trace
      ensures calls.Valid() && trace == old(trace) + [ProxyCall]
      ensures var held := old(calls.Held());
              calls.Held() == held.(callBoxes := held.callBoxes + {id}, inFlight := held.inFlight + 1,
                                    pending := Prune(held.pending, owned) + [id])
    {
      calls.Hand(id, false);
      trace := trace + [ProxyCall];
      calls.Register(id, owned);
    }

    /** The heartbeat part of a turn of the loop: when one is due it is issued, if the gate lets it, and
        the next is timed either way. */
    method KeepAlive(now: int, later: int, live: Snapshot, owned: set<nat>)
      requires calls.Valid() && gate.descriptorsPerCall > 0
      modifies gate, calls, health`heartbeatInFlight, health`nextKeepAlive, this`trace
      ensures var due := old(health.startReleased && cfg.keepAlive && !health.heartbeatInFlight && now >= health.nextKeepAlive);
              var issued := due && A.HeartbeatAdmitted(old(gate.Gate()), live);
              && calls.Valid()
              && gate.Admissions() == (if due then A.TryAdmit(old(gate.Admissions()), live) else old(gate.Admissions()))
              && health.View() == old(health.View()).(heartbeatInFlight := old(health.heartbeatInFlight) || issued,
                                                      nextBeat := if due then later + cfg.keepAliveIntervalMs else old(health.nextKeepAlive))
              && (if issued
                  then BeatIssued(old(calls.Held()), calls.Held(), owned) && trace == old(trace) + [ProxyCall]
                       && calls.Views() == old(calls.Views())[old(calls.nextId) := NewSlot(Heartbeat)]
                  else calls.Held() == old(calls.Held()) && trace == old(trace) && calls.Views() == old(calls.Views()))
    {
      if health.startReleased && cfg.keepAlive && !health.heartbeatInFlight && now >= health.nextKeepAlive {
        IssueKeepAlive(live, owned);
        ghost var views := calls.Views();
        health.nextKeepAlive := later + cfg.keepAliveIntervalMs;
        assert calls.Views() == views;
      }
    }

    // -------------------------------------------------------------------------
    // Completions
    // -------------------------------------------------------------------------

    /** A call is over: its reservation goes back, and a failure is counted. */
    method NoteFinished(ok: bool)
      modifies gate, this`callsFailed
      ensures gate.Admissions() == old(gate.Admissions()).(gate := A.ReleaseGate(old(gate.Gate())))
      ensures callsFailed == old(callsFailed) + if ok then 0 else 1
    {
      gate.ReleaseAdmission();
      if !ok {
        callsFailed := callsFailed + 1;
      }
    }

    /** A box completes: its slot takes the outcome unless shutdown was first, the outcome the slot
        ended with is noted by kind, and a call's reservation is given back. A sync never held one. */
    method CallbackTrampoline(id: nat, status: int, result: string)
      requires calls.Valid() && calls.Counted() && calls.Outstanding(id)
      modifies calls.slots[id], calls`callBoxes, calls`syncBoxes, calls`inFlight, gate, health, this`callsFailed
      ensures calls.Valid() && calls.Counted()
      ensures calls.slots[id].View() == Slots.Complete(old(calls.slots[id].View()), status, result)
      ensures calls.Views() == old(calls.Views())[id := calls.slots[id].View()]
      ensures calls.Held() == var held := old(calls.Held());
                              held.(callBoxes := held.callBoxes - {id}, syncBoxes := held.syncBoxes - {id}, inFlight := held.inFlight - 1)
      ensures health.startDone == old(health.startDone) && health.startOk == old(health.startOk)
      ensures health.View() == Noted(old(health.View()), calls.slots[id].kind, calls.slots[id].status)
      ensures gate.Admissions() == if IsSync(calls.slots[id].kind) then old(gate.Admissions())
                                   else old(gate.Admissions()).(gate := A.ReleaseGate(old(gate.Gate())))
      ensures health.startReleased ==> old(health.Valid()) ==> health.Valid()
    {
      var slot := LandCompletion(id, status, result);
      if !IsSync(slot.kind) {
        ghost var views := calls.Views();
        NoteFinished(status == RET_SUCCESS);
        assert calls.Views() == views;
      }
    }

    /** The outcome reaches its slot and is noted, and the library holds one box fewer. */
    method LandCompletion(id: nat, status: int, result: string) returns (slot: CallSlot)
      requires calls.Valid() && calls.Counted() && calls.Outstanding(id)
      modifies calls.slots[id], calls`callBoxes, calls`syncBoxes, calls`inFlight, health
      ensures calls.Valid() && calls.Counted() && slot == calls.slots[id]
      ensures slot.View() == Slots.Complete(old(calls.slots[id].View()), status, result)
      ensures calls.Views() == old(calls.Views())[id := slot.View()]
      ensures calls.Held() == var held := old(calls.Held());
                              held.(callBoxes := held.callBoxes - {id}, syncBoxes := held.syncBoxes - {id}, inFlight := held.inFlight - 1)
      ensures health.startDone == old(health.startDone) && health.startOk == old(health.startOk)
      ensures health.View() == Noted(old(health.View()), slot.kind, slot.status)
      ensures health.startReleased ==> old(health.Valid()) ==> health.Valid()
    {
      slot := calls.CompleteBox(id, status, result);
      ghost var views, held := calls.Views(), calls.Held();
      assert health.View() == old(health.View());
      health.NoteCompletion(slot.kind, slot.status);
      assert calls.Views() == views && calls.Held() == held;
      calls.Landed();
      assert calls.Views() == views;
    }

    /** One completion, if the library still holds that box. */
    method Deliver(c: Completion)
      requires calls.Valid() && calls.Counted()
      modifies calls.slots.Values, calls`callBoxes, calls`syncBoxes, calls`inFlight, gate, health, this`callsFailed
      ensures calls.Valid() && calls.Counted()
      ensures OnlyLanded(old(calls.Held()), calls.Held()) && DoneKept(old(calls.Views()), calls.Views())
      ensures Quiet(old(gate.Admissions()), gate.Admissions())
      ensures HandledOnly(old(health.View()), health.View()) && health.startDone == old(health.startDone)
      ensures old(health.Valid() && health.startReleased) ==> health.Valid()
    {
      if calls.Outstanding(c.slot) {
        HandlerMoves(health.View(), calls.slots[c.slot].kind);
        CallbackTrampoline(c.slot, c.status, c.result);
      }
    }

    /** One entry into the pump: whatever is completed meanwhile is completed here. */
    method Pump(completions: seq<Completion>)
      requires calls.Valid() && calls.Counted()
      modifies calls.slots.Values, calls`callBoxes, calls`syncBoxes, calls`inFlight, gate, health, this`callsFailed, this`trace
      ensures calls.Valid() && calls.Counted() && trace == old(trace) + [LibCall.Pump]
      ensures OnlyLanded(old(calls.Held()), calls.Held()) && DoneKept(old(calls.Views()), calls.Views())
      ensures Quiet(old(gate.Admissions()), gate.Admissions())
      ensures HandledOnly(old(health.View()), health.View()) && health.startDone == old(health.startDone)
      ensures old(health.Valid() && health.startReleased) ==> health.Valid()
    {
      trace := trace + [LibCall.Pump];
      for i := 0 to |completions|
        invariant calls.Valid() && calls.Counted() && trace == old(trace) + [LibCall.Pump]
        invariant OnlyLanded(old(calls.Held()), calls.Held()) && DoneKept(old(calls.Views()), calls.Views())
        invariant Quiet(old(gate.Admissions()), gate.Admissions())
        invariant HandledOnly(old(health.View()), health.View()) && health.startDone == old(health.startDone)
        invariant old(health.Valid() && health.startReleased) ==> health.Valid()
      {
        Deliver(completions[i]);
      }
    }

    // -------------------------------------------------------------------------
    // Teardown
    // -------------------------------------------------------------------------

    /** Pump until nothing is in flight or the deadline has passed, one turn per entry of the
        schedule that still lies before it. */
    method DrainLibrary(turns: seq<seq<Completion>>) returns (pumps: nat)
      requires calls.Valid() && calls.Counted()
      modifies calls.slots.Values, calls`callBoxes, calls`syncBoxes, calls`inFlight, gate, health, this`callsFailed, this`trace
      ensures calls.Valid() && calls.Counted() && pumps <= |turns| && (calls.inFlight <= 0 || pumps == |turns|)
      ensures trace == old(trace) + PumpEntries(pumps)
      ensures OnlyLanded(old(calls.Held()), calls.Held()) && DoneKept(old(calls.Views()), calls.Views())
      ensures Quiet(old(gate.Admissions()), gate.Admissions())
      ensures HandledOnly(old(health.View()), health.View()) && health.startDone == old(health.startDone)
      ensures old(health.Valid() && health.startReleased) ==> health.Valid()
    {
      pumps := 0;
      while pumps < |turns| && calls.inFlight > 0
        invariant calls.Valid() && calls.Counted() && pumps <= |turns|
        invariant trace == old(trace) + PumpEntries(pumps)
        invariant OnlyLanded(old(calls.Held()), calls.Held()) && DoneKept(old(calls.Views()), calls.Views())
        invariant Quiet(old(gate.Admissions()), gate.Admissions())
        invariant HandledOnly(old(health.View()), health.View()) && health.startDone == old(health.startDone)
        invariant old(health.Valid() && health.startReleased) ==> health.Valid()
        decreases |turns| - pumps
      {
        assert PumpEntries(pumps + 1) == PumpEntries(pumps) + [LibCall.Pump];
        Pump(turns[pumps]);
        pumps := pumps + 1;
      }
    }

    /** Nobody is left waiting in start(), and the state says the run is closing. */
    method BeginClosing()
      modifies health, this`trace
      ensures health.View() == SyncHealth.SetState(Answered(old(health.View())), RunState.Draining)
      ensures trace == old(trace) + [DrainBegins] && (!old(health.startReleased) ==> health.startDone)
      ensures health.startReleased && (old(health.Valid()) ==> health.Valid())
    {
      health.ReleaseStart(false);
      health.SetState(RunState.Draining);
      trace := trace + [DrainBegins];
    }

    /** After the drain: no waiter and no reservation is left behind, and the library is freed. */
    method CloseLibrary(owned: set<nat>)
      requires calls.Valid()
      modifies calls, calls.slots.Values, gate`admitted, health`state, health`events, this`trace, this`runActive, this`runFinished
      ensures calls.Valid() && calls.Counted() && calls.Held() == Lists(old(calls.nextId), [], [], 0, {}, {})
      ensures WalkedOver(old(calls.Views()), calls.Views(), old(calls.pending), owned, SHUTTING_DOWN)
      ensures trace == old(trace) + [Stop, Free] && runFinished && !runActive
      ensures gate.Admissions() == old(gate.Admissions()).(gate := old(gate.Gate()).(admitted := 0))
      ensures health.View() == Emit(SyncHealth.SetState(old(health.View()), Stopped), ProxyStopped)
      ensures old(health.Valid()) ==> health.Valid()
    {
      LeaveLibrary(owned);
      ReleaseStop();
    }

    /** The library is gone: every reservation is written off, and stop() may return. */
    method ReleaseStop()
      modifies gate`admitted, health`state, health`events, this`runFinished
      ensures gate.Admissions() == old(gate.Admissions()).(gate := old(gate.Gate()).(admitted := 0))
      ensures health.View() == Emit(SyncHealth.SetState(old(health.View()), Stopped), ProxyStopped) && runFinished
      ensures old(health.Valid()) ==> health.Valid()
    {
      gate.ForgetReservations();
      health.SayGoodbye();
      runFinished := true;
    }

    /** Every waiter is released before the library is stopped, and the boxes go with it. */
    method LeaveLibrary(owned: set<nat>)
      requires calls.Valid()
      modifies calls, calls.slots.Values, this`trace, this`runActive
      ensures calls.Valid() && calls.Held() == Lists(old(calls.nextId), [], [], 0, {}, {})
      ensures WalkedOver(old(calls.Views()), calls.Views(), old(calls.pending), owned, SHUTTING_DOWN)
      ensures trace == old(trace) + [Stop, Free] && !runActive
    {
      calls.FailAllPending(owned, SHUTTING_DOWN);
      trace := trace + [Stop, Free];
      runActive := false;
      calls.Abandon();
    }

    /** Release start(), drain, fail what is left, stop and free the library, write off every
        reservation, say goodbye and release stop(). */
    method Teardown(turns: seq<seq<Completion>>, owned: set<nat>) returns (pumps: nat)
      requires calls.Valid() && calls.Counted()
      modifies calls, calls.slots.Values, gate, health, this`callsFailed, this`trace, this`runActive, this`runFinished
      ensures calls.Valid() && calls.Counted() && calls.Held() == Lists(old(calls.nextId), [], [], 0, {}, {})
      ensures trace == old(trace) + [DrainBegins] + PumpEntries(pumps) + [Stop, Free] && pumps <= |turns|
      ensures gate.Admissions() == old(gate.Admissions()).(gate := old(gate.Gate()).(admitted := 0))
      ensures SameAnnouncements(Farewell(old(health.View())), health.View()) && (old(health.Valid()) ==> health.Valid())
      ensures !old(health.startReleased) ==> health.startDone
      ensures DoneKept(old(calls.Views()), calls.Views())
      ensures forall id :: id in old(calls.pending) && id in owned ==> calls.Views()[id].done
      ensures runFinished && !runActive
    {
      ghost var views, h := calls.Views(), health.View();
      BeginClosing();
      ghost var closing := health.View();
      assert calls.Views() == views;
      pumps := DrainLibrary(turns);
      ghost var drained, pending := calls.Views(), calls.pending;
      FarewellSays(h, closing, health.View());
      CloseLibrary(owned);
      WalkKeepsDone(views, drained, calls.Views(), pending, owned);
    }
  }

  function SyncKind(op: bool): Kind {
    if op then Kind.OpSync else Kind.Sync
  }

  function SyncCall(op: bool): LibCall {
    if op then LibCall.OpSync else EthSync
  }

  /** What the cycle reads and writes: the record of the run, the answer owed to start(), the slots, the
      lists, and the calls into the library. */
  datatype SyncView = SyncView(
    health: Health, startDone: bool, startOk: bool, slots: map<nat, Slot>, held: Lists, trace: seq<LibCall>)

  /** The cycle starts now. */
  function CycleBegun(v: SyncView, stamp: int): SyncView {
    v.(health := BeginCycle(v.health, stamp))
  }

  /** A sync was registered and handed to the library. */
  function SyncIssued(v: SyncView, op: bool, owned: set<nat>): SyncView {
    var id := v.held.nextId;
    v.(health := SyncHealth.IssueSync(v.health, op), slots := v.slots[id := NewSlot(SyncKind(op))],
       held := v.held.(nextId := id + 1, pending := Prune(v.held.pending, owned) + [id],
                       syncBoxes := v.held.syncBoxes + {id}, inFlight := v.held.inFlight + 1),
       trace := v.trace + [SyncCall(op)])
  }

  /** The verdict is in; the first good one answers start(). */
  function CycleEnded(v: SyncView): SyncView {
    var released := ReleasesStart(v.health);
    v.(health := Finished(v.health), startDone := v.startDone || released, startOk := v.startOk || released)
  }

  function SyncAdvanced(v: SyncView, action: Action, stamp: int, owned: set<nat>): SyncView {
    match action
    case Nothing => v
    case IssueEth => SyncIssued(CycleBegun(v, stamp), false, owned)
    case IssueOp => SyncIssued(v, true, owned)
    case Finish => CycleEnded(v)
  }

  /** A heartbeat was handed to the library and registered. */
  ghost predicate BeatIssued(held: Lists, held': Lists, owned: set<nat>) {
    held' == held.(nextId := held.nextId + 1, pending := Prune(held.pending, owned) + [held.nextId],
                   callBoxes := held.callBoxes + {held.nextId}, inFlight := held.inFlight + 1)
  }

  /** The lists have changed only by boxes leaving the library. */
  ghost predicate OnlyLanded(held: Lists, held': Lists) {
    && held' == held.(callBoxes := held'.callBoxes, syncBoxes := held'.syncBoxes, inFlight := held'.inFlight)
    && held'.callBoxes <= held.callBoxes && held'.syncBoxes <= held.syncBoxes
  }

  /** Nothing at the gate has moved but the count of reservations, and that only down. */
  ghost predicate Quiet(before: A.State, after: A.State) {
    after == before.(gate := before.gate.(admitted := after.gate.admitted)) && after.gate.admitted <= before.gate.admitted
  }

  /** The state has moved between the serving states at most, and no cycle was begun or ended. */
  ghost predicate HandledOnly(before: Health, after: Health) {
    && after.cycles == before.cycles && after.startReleased == before.startReleased
    && (after.state == before.state
        || ((before.state == Running || before.state == Degraded) && (after.state == Running || after.state == Degraded)))
    && (before.state != Running && before.state != Degraded ==> after.events == before.events)
  }

  function PumpEntries(n: nat): seq<LibCall> {
    seq(n, _ => LibCall.Pump)
  }

  /** What a run says while it closes, whatever completes meanwhile. */
  function Farewell(h: Health): Health {
    Emit(SetState(SetState(Answered(h), RunState.Draining), Stopped), ProxyStopped)
  }

  /** Whoever waits in start() has been answered, with a failure if nothing came before. */
  function Answered(h: Health): Health {
    if h.startReleased then h else StartAnswered(h, false)
  }

  lemma FarewellSays(h: Health, closing: Health, drained: Health)
    requires closing == SetState(Answered(h), RunState.Draining) && HandledOnly(closing, drained)
    ensures SameAnnouncements(Farewell(h), Emit(SetState(drained, Stopped), ProxyStopped))
  {
    assert closing.state == RunState.Draining;
  }

  lemma WalkKeepsDone(before: map<nat, Slot>, drained: map<nat, Slot>, after: map<nat, Slot>, pending: seq<nat>, owned: set<nat>)
    requires DoneKept(before, drained) && WalkedOver(drained, after, pending, owned, SHUTTING_DOWN)
    requires forall id :: id in pending ==> id in before
    ensures DoneKept(before, after) && forall id :: id in pending && id in owned ==> after[id].done
  {
  }

  ghost predicate SameAnnouncements(h: Health, h': Health) {
    h'.state == h.state && h'.events == h.events
  }

  lemma HandlerMoves(h: Health, kind: Kind)
    ensures forall status :: HandledOnly(h, Noted(h, kind, status))
  {
  }
}
