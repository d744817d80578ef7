/** The proxy thread's record of the run, with the answer it owes a blocked start(), as an object
    whose methods make the health transitions and keep its state and streaks equal to its history. */
module RunHealth {
  import opened Slots
  import opened SyncHealth

  class RunHealth {
    var state: RunState
    var syncPhase: Phase
    var syncOk: bool
    var syncCycleStart: int
    var nextSync: int
    var syncIntervalMs: int
    var startReleased: bool
    var syncStreak: int
    var syncFailures: int
    var heartbeatStreak: int
    var heartbeatFailures: int
    var heartbeatInFlight: bool
    var nextKeepAlive: int
    var events: seq<Event>
    ghost var beats: seq<bool>
    ghost var cycles: seq<Cycle>
    ghost var ethOutcome: Option<bool>
    ghost var opOutcome: Option<bool>
    var startDone: bool
    var startOk: bool

    ghost function View(): Health
      reads this
    {
      Health(state, events, syncPhase, syncOk, syncCycleStart, nextSync, syncIntervalMs, startReleased,
             syncStreak, syncFailures, heartbeatStreak, heartbeatFailures, heartbeatInFlight, nextKeepAlive,
             beats, cycles, ethOutcome, opOutcome)
    }

    /** The streaks and the state are what the outcomes recorded so far say. */
    ghost predicate Valid()
      reads this
    {
      Sound(View())
    }

    /** And, while the run is not closing, it serves exactly from its first good cycle on, which is
        also what released start(). */
    ghost predicate Going()
      reads this
    {
      SyncHealth.Going(View())
    }

    /** So that whoever reads the state of a run that is going reads its last outcomes. */
    lemma GoingSaysHealth()
      requires Going() && startReleased
      ensures state == if LastThreeFailed(beats) || LastThreeFailed(Verdicts(cycles)) then Degraded else Running
    {
      SyncHealth.GoingSaysHealth(View());
    }

    constructor ()
      ensures View() == FRESH && !startDone && Going()
    {
      state, events, syncPhase, syncOk, syncCycleStart, nextSync, syncIntervalMs := Idle, [], NoSync, false, 0, 0, 0;
      startReleased, syncStreak, syncFailures := false, 0, 0;
      heartbeatStreak, heartbeatFailures, heartbeatInFlight, nextKeepAlive := 0, 0, false, 0;
      beats, cycles, ethOutcome, opOutcome, startDone, startOk := [], [], None, None, false, false;
    }

    method SetState(next: RunState)
      modifies this`state, this`events
      ensures View() == SyncHealth.SetState(old(View()), next)
      ensures old(Valid()) && !Serving(next) ==> Valid()
    {
      var previous := state;
      state := next;
      if previous == next {
        return;
      }
      events := events + [StateChanged(next, previous)];
    }

    /** The head of a run, before the library is entered. */
    method ForgetBeats()
      modifies this`heartbeatStreak, this`heartbeatInFlight
      ensures View() == SyncHealth.ForgetBeats(old(View()))
    {
      heartbeatStreak := 0;
      heartbeatInFlight := false;
    }

    /** The library has a context: a new record begins, and the first cycle is due at once. */
    method BeginSyncing(intervalMs: int, now: int)
      modifies this`syncIntervalMs, this`syncPhase, this`syncStreak, this`startReleased, this`nextSync, this`nextKeepAlive
      modifies this`beats, this`cycles, this`ethOutcome, this`opOutcome
      ensures View() == SyncHealth.BeginSyncing(old(View()), intervalMs, now)
      ensures old(heartbeatStreak) == 0 && !Serving(state) ==> Going()
    {
      ghost var h := View();
      if h.heartbeatStreak == 0 && !Serving(h.state) {
        BeginsGoing(h, intervalMs, now);
      }
      SetClocks(intervalMs, now);
      syncPhase, syncStreak, startReleased := NoSync, 0, false;
      ForgetOutcomes();
    }

    method SetClocks(intervalMs: int, now: int)
      modifies this`syncIntervalMs, this`nextSync, this`nextKeepAlive
      ensures View() == old(View()).(intervalMs := intervalMs, nextSync := now, nextBeat := now)
    {
      syncIntervalMs, nextSync, nextKeepAlive := intervalMs, now, now;
    }

    ghost method ForgetOutcomes()
      modifies this`beats, this`cycles, this`ethOutcome, this`opOutcome
      ensures View() == old(View()).(beats := [], cycles := [], ethOutcome := None, opOutcome := None)
    {
      beats, cycles, ethOutcome, opOutcome := [], [], None, None;
    }

    method NoteHeartbeat(status: int)
      modifies this`heartbeatStreak, this`heartbeatFailures, this`beats, this`state, this`events
      ensures View() == SyncHealth.NoteHeartbeat(old(View()), status == RET_SUCCESS)
      ensures startReleased ==> (old(Valid()) ==> Valid()) && (old(Going()) ==> Going())
    {
      ghost var h := View();
      if Sound(h) && h.startReleased {
        BeatKeepsSound(h, status == RET_SUCCESS);
      }
      CountBeat(status);
    }

    method CountBeat(status: int)
      modifies this`heartbeatStreak, this`heartbeatFailures, this`beats, this`state, this`events
      ensures View() == SyncHealth.NoteHeartbeat(old(View()), status == RET_SUCCESS)
    {
      beats := beats + [status == RET_SUCCESS];
      if status == RET_SUCCESS {
        heartbeatStreak := 0;
        if state == Degraded && syncStreak < DEGRADE_AFTER {
          SetState(Running);
        }
        return;
      }
      heartbeatFailures := heartbeatFailures + 1;
      heartbeatStreak := heartbeatStreak + 1;
      if heartbeatStreak >= DEGRADE_AFTER && state == Running {
        SetState(Degraded);
      }
    }

    /** The beat is back, whatever it said. */
    method NoteBeatDone(status: int)
      modifies this`heartbeatInFlight, this`heartbeatStreak, this`heartbeatFailures, this`beats, this`state, this`events
      ensures View() == SyncHealth.NoteHeartbeat(old(View()).(heartbeatInFlight := false), status == RET_SUCCESS)
      ensures startReleased ==> (old(Valid()) ==> Valid()) && (old(Going()) ==> Going())
    {
      SoundFrame(View(), View().(heartbeatInFlight := false));
      heartbeatInFlight := false;
      NoteHeartbeat(status);
    }

    /** The completion side of a sync records its outcome and nothing more. */
    method NoteSync(op: bool, status: int)
      modifies this`syncOk, this`syncPhase, this`ethOutcome, this`opOutcome
      ensures View() == SyncHealth.NoteSync(old(View()), op, status == RET_SUCCESS)
      ensures (old(Valid()) ==> Valid()) && (old(Going()) ==> Going())
    {
      syncOk := status == RET_SUCCESS;
      if op {
        syncPhase := OpDone;
        opOutcome := Some(syncOk);
      } else {
        syncPhase := EthDone;
        ethOutcome := Some(syncOk);
      }
    }

    /** The phase says a sync is out before the library is entered for it. */
    method PhaseIssued(op: bool)
      modifies this`syncPhase, this`ethOutcome, this`opOutcome
      ensures View() == IssueSync(old(View()), op)
      ensures (old(Valid()) ==> Valid()) && (old(Going()) ==> Going())
    {
      if op {
        syncPhase := Op;
      } else {
        syncPhase, ethOutcome, opOutcome := Eth, None, None;
      }
    }

    /** A fresh answer is owed. */
    method OweAnswer()
      modifies this`startDone, this`startOk
      ensures !startDone && !startOk && View() == old(View())
    {
      startDone, startOk := false, false;
    }

    /** What a completion means, by the kind of slot it completes. */
    method NoteCompletion(kind: Kind, status: int)
      modifies this
      ensures View() == Noted(old(View()), kind, status) && startDone == old(startDone) && startOk == old(startOk)
      ensures kind == Heartbeat ==> startReleased ==> (old(Valid()) ==> Valid()) && (old(Going()) ==> Going())
      ensures kind != Heartbeat ==> (old(Valid()) ==> Valid()) && (old(Going()) ==> Going())
    {
      match kind
      case Heartbeat => NoteBeatDone(status);
      case User =>
      case Sync => NoteSync(false, status);
      case OpSync => NoteSync(true, status);
    }

    method SayGoodbye()
      modifies this`state, this`events
      ensures View() == Emit(SyncHealth.SetState(old(View()), Stopped), ProxyStopped)
      ensures old(Valid()) ==> Valid()
    {
      SetState(Stopped);
      events := events + [ProxyStopped];
    }

    /** Only the first call of a run counts. The state is Running before anybody is released. */
    method ReleaseStart(ok: bool)
      modifies this`startReleased, this`state, this`events, this`startDone, this`startOk
      ensures old(startReleased) ==> View() == old(View()) && startDone == old(startDone) && startOk == old(startOk)
      ensures !old(startReleased) ==> startDone && startOk == ok && View() == StartAnswered(old(View()), ok)
      ensures !ok ==> old(Valid()) ==> Valid()
      ensures ok && old(startReleased) ==> (old(Valid()) ==> Valid()) && (old(Going()) ==> Going())
    {
      if startReleased {
        return;
      }
      startReleased := true;
      if ok {
        SetState(Running);
      }
      startDone, startOk := true, ok;
      events := events + [ProxyStarted(ok)];
    }

    method CountFailedCycle()
      modifies this`syncStreak, this`syncFailures, this`nextSync, this`state, this`events
      ensures View() == CountFailed(old(View()))
    {
      syncFailures := syncFailures + 1;
      syncStreak := syncStreak + 1;
      nextSync := syncCycleStart + if startReleased then syncIntervalMs else FIRST_SYNC_RETRY_MS;
      if syncStreak >= DEGRADE_AFTER && state == Running {
        SetState(Degraded);
      }
    }

    method CountGoodCycle()
      modifies this`syncStreak, this`nextSync, this`startReleased, this`state, this`events, this`startDone, this`startOk
      ensures View() == if old(startReleased) then CountGood(old(View())) else Emit(CountGood(old(View())), ProxyStarted(true))
      ensures startDone == (!old(startReleased) || old(startDone))
      ensures startOk == (!old(startReleased) || old(startOk))
    {
      syncStreak := 0;
      nextSync := syncCycleStart + syncIntervalMs;
      if !startReleased {
        ReleaseStart(true);
      } else if state == Degraded && heartbeatStreak < DEGRADE_AFTER {
        SetState(Running);
      }
    }

    ghost method LogCycle()
      modifies this`cycles
      ensures View() == old(View()).(cycles := SyncHealth.LogCycle(old(View())).cycles)
    {
      cycles := cycles + [Cycle(syncCycleStart, ethOutcome == Some(true), opOutcome, syncOk)];
    }

    /** The cycle's verdict, and on the first good one the release of start(). */
    method FinishSyncCycle()
      modifies this`syncPhase, this`syncStreak, this`syncFailures, this`nextSync, this`cycles
      modifies this`startReleased, this`state, this`events, this`startDone, this`startOk
      ensures View() == Finished(old(View()))
      ensures startDone == (ReleasesStart(old(View())) || old(startDone))
      ensures startOk == (ReleasesStart(old(View())) || old(startOk))
      ensures (old(Valid()) ==> Valid()) && (old(Going()) ==> Going())
    {
      ghost var h := View();
      if Sound(h) {
        FinishKeepsSound(h);
        SoundFrame(FinishCycle(h), Emit(FinishCycle(h), ProxyStarted(true)));
      }
      CountCycle();
    }

    method CountCycle()
      modifies this`syncPhase, this`syncStreak, this`syncFailures, this`nextSync, this`cycles
      modifies this`startReleased, this`state, this`events, this`startDone, this`startOk
      ensures View() == Finished(old(View()))
      ensures startDone == (ReleasesStart(old(View())) || old(startDone))
      ensures startOk == (ReleasesStart(old(View())) || old(startOk))
    {
      LogCycle();
      syncPhase := NoSync;
      if syncOk {
        CountGoodCycle();
      } else {
        CountFailedCycle();
      }
    }
  }

  /** start() released with this answer. */
  function StartAnswered(h: Health, ok: bool): Health {
    var released := h.(startReleased := true);
    Emit(if ok then SetState(released, Running) else released, ProxyStarted(ok))
  }

  /** A finished cycle, with the announcement the first good one makes. */
  function Finished(h: Health): Health {
    if ReleasesStart(h) then Emit(FinishCycle(h), ProxyStarted(true)) else FinishCycle(h)
  }

  /** What a completion of this kind and status means to the run's health. */
  function Noted(h: Health, kind: Kind, status: int): Health {
    var ok := status == RET_SUCCESS;
    match kind
    case User => h
    case Heartbeat => NoteHeartbeat(h.(heartbeatInFlight := false), ok)
    case _ => NoteSync(h, kind.OpSync?, ok)
  }
}
