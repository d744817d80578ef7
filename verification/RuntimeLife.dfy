/** The life of a run: the start/stop handshake, the reported state and its events, the sync cycle
    and the health it yields. None of it depends on what callers of call() do. */
module RuntimeLife {
  import opened Slots
  import opened SyncHealth
  import opened Runs
  import opened Runtime

  // ---------------------------------------------------------------------------
  // The handshake
  // ---------------------------------------------------------------------------

  /** A run is under way: no start() is in its prologue and none can be entered. */
  ghost predicate Busy(s: Sys, active: bool, context: bool) {
    && !s.hs.runFinished && !s.hs.runRequested && s.starter.NoStart?
    && s.hs.runActive == active && s.hs.haveContext == context
  }

  /** The answer there is, is about the run last requested; and that is the run under way, if one is. */
  ghost predicate AnswerInv(s: Sys) {
    && (s.hs.startDone ==> s.hs.answerRun == s.hs.run)
    && (!s.pc.Away? ==> s.hs.current == s.hs.run)
  }

  ghost predicate HandshakeInv(s: Sys) {
    match s.pc
    case Away(away) =>
      && s.hs.runFinished == !s.hs.runRequested
      && (s.hs.runRequested ==> s.starter.NoStart? && !s.hs.startDone)
      && !s.hs.runActive && !s.hs.haveContext
      && (away.Unborn? ==> !s.starter.Posting? && !s.hs.runRequested)
    case Before(before) =>
      && Busy(s, false, before.Setup?)
      && (before.Opening? || before.NullHandshake? || before.Setup? ==> !s.hs.startDone)
      && (s.hs.startDone ==> !s.hs.startOk)
    case Loop(_) => Busy(s, true, true) && s.hs.syncedRun == s.hs.run && s.hs.startDone == s.health.startReleased
    case Announce(ok, released) =>
      && Busy(s, true, true) && s.hs.syncedRun == s.hs.run && s.health.startReleased
      && s.hs.startDone == released && (released ==> s.hs.startOk == ok)
    case Leaving => Busy(s, true, true) && s.hs.syncedRun == s.hs.run
    case Drains(_) => Busy(s, true, true) && s.hs.syncedRun == s.hs.run
    case Tail(tail) => Busy(s, tail.FreeLib? || tail.Deactivate?, tail.FreeLib?) && s.hs.syncedRun == s.hs.run
  }

  lemma HandshakeStart(s: Sys, start: StartLabel)
    requires HandshakeInv(s) && StartEnabled(s, start)
    ensures HandshakeInv(StartNext(s, start))
  {
  }

  lemma AnswerStart(s: Sys, start: StartLabel)
    requires AnswerInv(s) && HandshakeInv(s) && StartEnabled(s, start)
    ensures AnswerInv(StartNext(s, start))
  {
  }

  lemma AnswerThread(s: Sys, thread: ThreadLabel)
    requires AnswerInv(s) && ThreadEnabled(s, thread)
    ensures AnswerInv(ThreadNext(s, thread))
  {
  }

  lemma AnswerLoop(s: Sys, loop: LoopLabel)
    requires AnswerInv(s) && s.adm.gate.perCall > 0 && LoopEnabled(s, loop)
    ensures AnswerInv(LoopNext(s, loop))
  {
  }

  lemma AnswerFrame(s: Sys, s': Sys)
    requires AnswerInv(s) && s'.hs.run == s.hs.run && s'.hs.answerRun == s.hs.answerRun && s'.hs.current == s.hs.current
    requires s'.hs.startDone == s.hs.startDone && (s.pc.Away? ==> s'.pc.Away?)
    ensures AnswerInv(s')
  {
  }

  lemma HandshakeThread(s: Sys, thread: ThreadLabel)
    requires HandshakeInv(s) && AnswerInv(s) && ThreadEnabled(s, thread)
    ensures HandshakeInv(ThreadNext(s, thread))
  {
  }

  lemma HandshakeLoop(s: Sys, loop: LoopLabel)
    requires HandshakeInv(s) && s.adm.gate.perCall > 0 && LoopEnabled(s, loop)
    ensures HandshakeInv(LoopNext(s, loop))
  {
  }

  lemma HandshakeLibrary(s: Sys, library: LibraryLabel)
    requires HandshakeInv(s) && LibraryEnabled(s, library)
    ensures HandshakeInv(LibraryNext(s, library))
  {
  }

  lemma HandshakeClose(s: Sys, close: CloseLabel)
    requires HandshakeInv(s) && CloseEnabled(s, close)
    ensures HandshakeInv(CloseNext(s, close))
  {
  }

  // ---------------------------------------------------------------------------
  // The events
  // ---------------------------------------------------------------------------

  /** What the events emitted so far and the reported state must be, by where the run is. */
  ghost predicate EventFits(s: Sys, q: EventState) {
    var state := s.health.state;
    match s.pc
    case Away(_) =>
      if s.starter.Posting? || s.hs.runRequested then q.Launched? && state == Starting
      else q == AtRest(state) && (state == Idle || state == Stopped || state == Failed)
    case Before(NullEvent) => q.Nulled? && state == Failed
    case Before(NullFinish) => q == AtRest(Failed) && state == Failed
    case Before(_) => q.Launched? && state == Starting
    case Loop(_) => if s.health.startReleased then UpFits(q, state, true) else q.Launched? && state == Starting
    case Announce(ok, _) => if ok then UpFits(q, state, false) && state == Running else q.Launched? && state == Starting
    case Leaving => UpFits(q, state, true) || (q.Unlaunched? && state == Starting)
    case Drains(_) => q.Down? && state == RunState.Draining
    case Tail(CloseEvent) => q.Gone? && state == Stopped
    case Tail(CloseFinish) => q == AtRest(Stopped) && state == Stopped
    case Tail(_) => q.Down? && state == RunState.Draining
  }

  ghost predicate UpFits(q: EventState, state: RunState, announced: bool) {
    q.Up? && q.announced == announced && (state == Running || state == Degraded) && q.low == (state == Degraded)
  }

  ghost predicate EventInv(s: Sys) {
    EventRun(s.health.events).Some? && EventFits(s, EventRun(s.health.events).value)
  }

  /** The log grew by nothing, or by one event allowed at q, and fits where the run now is. */
  ghost predicate EventMoves(s: Sys, q: EventState, s': Sys) {
    if s'.health.events == s.health.events then EventFits(s', q)
    else exists e ::
      s'.health.events == s.health.events + [e] && EventStep(q, e).Some? && EventFits(s', EventStep(q, e).value)
  }

  lemma EventMovesKeeps(s: Sys, s': Sys)
    requires EventInv(s) && EventMoves(s, EventRun(s.health.events).value, s')
    ensures EventInv(s')
  {
    if s'.health.events != s.health.events {
      var q := EventRun(s.health.events).value;
      var e :| s'.health.events == s.health.events + [e] && EventStep(q, e).Some? && EventFits(s', EventStep(q, e).value);
      EventRunSnoc(s.health.events, e);
    }
  }

  lemma EventStart(s: Sys, start: StartLabel, q: EventState)
    requires HandshakeInv(s) && EventFits(s, q) && StartEnabled(s, start)
    ensures EventMoves(s, q, StartNext(s, start))
  {
    var s' := StartNext(s, start);
    match start
    case Budget(live) =>
      if NoRoomToStart(s.cfg, live) && s.health.state != Failed {
        assert s'.health.events == s.health.events + [StateChanged(Failed, s.health.state)];
      }
    case Launch => assert s'.health.events == s.health.events + [StateChanged(Starting, s.health.state)];
    case _ => assert s'.health == s.health;
  }

  lemma EventThread(s: Sys, thread: ThreadLabel, q: EventState)
    requires HandshakeInv(s) && EventFits(s, q) && ThreadEnabled(s, thread)
    ensures EventMoves(s, q, ThreadNext(s, thread))
  {
    var s' := ThreadNext(s, thread);
    if s.pc == Before(NullState) {
      assert s'.health.events == s.health.events + [StateChanged(Failed, Starting)];
    } else if s.pc == Before(NullEvent) {
      assert s'.health.events == s.health.events + [ProxyStarted(false)];
    } else {
      assert s'.health.events == s.health.events;
    }
  }

  ghost predicate Swung(before: RunState, after: RunState) {
    (before == Running && after == Degraded) || (before == Degraded && after == Running)
  }

  ghost predicate Unmoved(h: Health, h': Health) {
    h'.events == h.events && h'.state == h.state
  }

  ghost predicate MovedTo(h: Health, h': Health) {
    h'.events == h.events + [StateChanged(h'.state, h.state)]
  }

  /** What finishing a cycle or noting a beat may emit. */
  lemma HandlerEvents(h: Health, ok: bool)
    ensures var b := NoteHeartbeat(h, ok); Unmoved(h, b) || (MovedTo(h, b) && Swung(h.state, b.state))
    ensures var f := FinishCycle(h);
            Unmoved(h, f) || (MovedTo(h, f) && (Swung(h.state, f.state) || (ReleasesStart(h) && f.state == Running)))
    ensures ReleasesStart(h) ==> FinishCycle(h).state == Running
  {
  }

  lemma EventSync(s: Sys, elapsed: nat, q: EventState)
    requires EventFits(s, q) && s.pc == Loop(StepSync)
    ensures EventMoves(s, q, SyncStep(s, elapsed))
  {
    var s' := SyncStep(s, elapsed);
    if SyncAction(s.health, s.cfg.op, s.clock) == Finish {
      HandlerEvents(s.health, true);
      if s'.health.events != s.health.events {
        assert s'.health.events == s.health.events + [StateChanged(s'.health.state, s.health.state)];
      }
    } else {
      assert s'.health.events == s.health.events;
    }
  }

  lemma EventLoop(s: Sys, loop: LoopLabel, q: EventState)
    requires HandshakeInv(s) && EventFits(s, q) && s.adm.gate.perCall > 0 && LoopEnabled(s, loop)
    ensures EventMoves(s, q, LoopNext(s, loop))
  {
    var s' := LoopNext(s, loop);
    match loop
    case AdvanceSync(elapsed) => EventSync(s, elapsed, q);
    case AnnounceStart =>
      if s.pc.released {
        assert s'.health.events == s.health.events + [ProxyStarted(s.pc.ok)];
      }
    case _ => assert s'.health.events == s.health.events;
  }

  lemma EventLibrary(s: Sys, library: LibraryLabel, q: EventState)
    requires EventFits(s, q) && LibraryEnabled(s, library)
    ensures EventMoves(s, q, LibraryNext(s, library))
  {
    if library.Note? {
      EventNote(s, CallOf(s.pc).value.slot, CallOf(s.pc).value.status, q);
    } else {
      assert LibraryNext(s, library).health == s.health;
    }
  }

  /** A completion handler moves the run nowhere, and the state at most between the two serving ones. */
  lemma NoteStays(s: Sys, id: nat, status: int)
    requires id in s.calls.slots && CallOf(s.pc).Some?
    ensures var s' := NoteStep(s, id, status);
            && s'.pc == WithCall(s.pc, CallOf(s'.pc).value) && CallOf(s'.pc).Some?
            && s'.health.startReleased == s.health.startReleased
  {
  }

  lemma NoteEvents(s: Sys, id: nat, status: int)
    requires id in s.calls.slots
    ensures var h, h' := s.health, NoteStep(s, id, status).health;
            Unmoved(h, h') || (MovedTo(h, h') && Swung(h.state, h'.state))
  {
    HandlerEvents(s.health.(heartbeatInFlight := false), s.calls.slots[id].status == RET_SUCCESS);
  }

  lemma EventNote(s: Sys, id: nat, status: int, q: EventState)
    requires EventFits(s, q) && id in s.calls.slots && CallOf(s.pc).Some?
    ensures EventMoves(s, q, NoteStep(s, id, status))
  {
    var s' := NoteStep(s, id, status);
    NoteStays(s, id, status);
    NoteEvents(s, id, status);
    if s'.health.events != s.health.events {
      assert s'.health.events == s.health.events + [StateChanged(s'.health.state, s.health.state)];
    }
  }

  lemma EventClose(s: Sys, close: CloseLabel, q: EventState)
    requires HandshakeInv(s) && EventFits(s, q) && CloseEnabled(s, close)
    ensures EventMoves(s, q, CloseNext(s, close))
  {
    var s' := CloseNext(s, close);
    match close
    case EnterDraining =>
      assert s'.health.events == s.health.events + [StateChanged(RunState.Draining, s.health.state)];
    case FinishTail =>
      if s.pc.tail.CloseStopped? {
        assert s'.health.events == s.health.events + [StateChanged(Stopped, RunState.Draining)];
      } else if s.pc.tail.CloseEvent? {
        assert s'.health.events == s.health.events + [ProxyStopped];
      }
    case _ => assert s'.health.events == s.health.events;
  }

  lemma EventCaller(s: Sys, c: nat, call: CallLabel, q: EventState)
    requires EventFits(s, q) && s.adm.gate.perCall > 0 && CallEnabled(s, c, call)
    ensures EventMoves(s, q, CallNext(s, c, call))
  {
    var s' := CallNext(s, c, call);
    assert s'.health == s.health && s'.pc == s.pc && s'.hs == s.hs && s'.starter == s.starter;
  }

  lemma EventStepMoves(s: Sys, l: Label, q: EventState)
    requires HandshakeInv(s) && EventFits(s, q) && Enabled(s, l)
    ensures EventMoves(s, q, Next(s, l))
  {
    match l
    case ByCaller(c, call) => EventCaller(s, c, call, q);
    case ByStarter(start) => EventStart(s, start, q);
    case ByWorld(_) =>
    case ByThread(thread) => EventThread(s, thread, q);
    case InLoop(loop) => EventLoop(s, loop, q);
    case ByLibrary(library) => EventLibrary(s, library, q);
    case InClose(close) => EventClose(s, close, q);
  }
}
