/** What the runtime promises over every run, with no assumption on the callers of call(). */
module RuntimePromises {
  import opened Slots
  import opened SyncHealth
  import opened Runs
  import opened Runtime
  import opened RuntimeLogs
  import opened RuntimeLife
  import opened RuntimeSync
  import opened RuntimeHistory
  import opened RuntimeRuns
  import opened RuntimeTheorems
  import A = Admission

  // ---------------------------------------------------------------------------
  // The two logs
  // ---------------------------------------------------------------------------

  /** Over any number of runs, the calls into the library are NimMain, then complete runs, each a
      lone failed start or start, interval, work, pumps, stop and free in that order, then what the
      run in progress has done so far. */
  lemma LibraryIsUsedAsItMustBe(s: Sys)
    requires Reached(s)
    ensures s.trace == [] || exists runs, partial :: LibParsed(s.trace, runs, partial, LibAt(s.pc))
  {
    ReachedIsKept(s);
    if s.trace != [] {
      var runs, partial := LibraryTraceIsRuns(s.trace);
    }
  }

  /** The events emitted are complete attempts, each resting where the next begins, then the attempt
      in progress. */
  lemma EventsTellTheStory(s: Sys)
    requires Reached(s)
    ensures exists runs, rests, partial ::
              EventRun(s.health.events).Some?
              && EventsParsed(s.health.events, runs, rests, partial, EventRun(s.health.events).value)
  {
    ReachedIsKept(s);
    var runs, rests, partial := EventLogIsRuns(s.health.events);
  }

  /** The last state announced is the state reported. */
  lemma LastAnnouncedIsReported(s: Sys)
    requires Reached(s)
    ensures LastState(s.health.events) == s.health.state
  {
    ReachedIsKept(s);
    EventStateIsLast(s.health.events);
    FitsState(s, EventRun(s.health.events).value);
  }

  lemma FitsState(s: Sys, q: EventState)
    requires EventFits(s, q)
    ensures StateAt(q) == s.health.state
  {
  }

  /** The state in the latest state change, if there was one. */
  function LastState(events: seq<Event>): RunState {
    if events == [] then Idle
    else match events[|events| - 1]
         case StateChanged(state, _) => state
         case _ => LastState(events[..|events| - 1])
  }

  /** The state an event log has reached, as its place in a run says. */
  function StateAt(q: EventState): RunState {
    match q
    case AtRest(state) => state
    case Launched(_) => Starting
    case Up(_, low, _) => ServingState(low)
    case Unlaunched(_) => Starting
    case Down => RunState.Draining
    case Gone => Stopped
    case Nulled(_) => Failed
  }

  lemma {:induction false} EventStateIsLast(events: seq<Event>)
    requires EventRun(events).Some?
    ensures LastState(events) == StateAt(EventRun(events).value)
  {
    if events != [] {
      EventStateIsLast(events[..|events| - 1]);
    }
  }

  // ---------------------------------------------------------------------------
  // Health
  // ---------------------------------------------------------------------------

  /** From the first good cycle until teardown, a run is Degraded exactly when its last three beats or
      its last three sync cycles all failed, and Running otherwise; the streak counters are the
      lengths of those tails. */
  lemma HealthIsHistory(s: Sys)
    requires Reached(s) && (s.pc.Loop? || s.pc.Announce? || s.pc.Leaving?) && SomeCycleSucceeded(s.health)
    ensures s.health.state == if Unhealthy(s.health) then Degraded else Running
    ensures s.health.heartbeatStreak == TrailingFailures(s.health.beats)
    ensures s.health.syncStreak == TrailingFailures(Verdicts(s.health.cycles))
  {
    ReachedIsKept(s);
  }

  /** The other way round: whenever the runtime reports that it serves, a cycle of the run in progress
      has succeeded, and teardown has not begun. */
  lemma ServingMeansServed(s: Sys)
    requires Reached(s) && IsServing(s)
    ensures SomeCycleSucceeded(s.health) && (s.pc.Loop? || s.pc.Announce? || s.pc.Leaving?)
  {
    ReachedIsKept(s);
  }

  /** From Draining only to Stopped, and from Stopped nowhere, but for a new start(). */
  ghost predicate Stands(before: RunState, after: RunState, starting: bool) {
    && (before == RunState.Draining ==> after == RunState.Draining || after == Stopped)
    && (before == Stopped && after != Stopped ==> starting && (after == Starting || after == Failed))
  }

  /** Once a run is draining its state only goes on to Stopped, and from Stopped only a new start()
      leads away: no completion that still arrives overwrites either. */
  lemma ClosingStatesStand(s: Sys, l: Label)
    requires Reached(s) && Enabled(s, l)
    ensures Stands(s.health.state, Next(s, l).health.state, l.ByStarter?)
  {
    ReachedIsKept(s);
    ClosingStatesStep(s, l);
  }

  lemma ClosingStatesStep(s: Sys, l: Label)
    requires EventInv(s) && HandshakeInv(s) && Enabled(s, l)
    ensures Stands(s.health.state, Next(s, l).health.state, l.ByStarter?)
  {
    match l
    case ByCaller(c, call) => CallerFrames(s, c, call);
    case ByStarter(start) => StartKeepsClosingStates(s, start);
    case ByWorld(_) =>
    case ByThread(thread) => ThreadKeepsClosingStates(s, thread);
    case InLoop(_) => FitsNotClosing(s);
    case ByLibrary(library) => LibraryKeepsClosingStates(s, library);
    case InClose(close) => CloseKeepsClosingStates(s, close);
  }

  lemma FitsNotClosing(s: Sys)
    requires EventInv(s) && (s.pc.Loop? || s.pc.Announce?)
    ensures s.health.state != RunState.Draining && s.health.state != Stopped
  {
  }

  lemma StartKeepsClosingStates(s: Sys, start: StartLabel)
    requires EventInv(s) && HandshakeInv(s) && StartEnabled(s, start)
    ensures Stands(s.health.state, StartNext(s, start).health.state, true)
  {
  }

  lemma ThreadKeepsClosingStates(s: Sys, thread: ThreadLabel)
    requires EventInv(s) && HandshakeInv(s) && ThreadEnabled(s, thread)
    ensures Stands(s.health.state, ThreadNext(s, thread).health.state, false)
  {
  }

  lemma LibraryKeepsClosingStates(s: Sys, library: LibraryLabel)
    requires LibraryEnabled(s, library)
    ensures Stands(s.health.state, LibraryNext(s, library).health.state, false)
  {
    if library.Note? {
      NoteEvents(s, CallOf(s.pc).value.slot, CallOf(s.pc).value.status);
    }
  }

  lemma CloseKeepsClosingStates(s: Sys, close: CloseLabel)
    requires EventInv(s) && CloseEnabled(s, close)
    ensures Stands(s.health.state, CloseNext(s, close).health.state, false)
  {
    match close
    case FailOne => FailLeavesHistory(s, s.pc.drain.rest);
    case FinishTail => TailLeavesHistory(s);
    case _ =>
  }

  /** However many cycles fail, a run that has not had a good one is Starting, still owes start() its
      answer, and has sent no heartbeat. */
  lemma NotServingBeforeFirstGoodCycle(s: Sys)
    requires Reached(s) && s.pc.Loop? && !SomeCycleSucceeded(s.health)
    ensures s.health.state == Starting && !s.hs.startDone && s.health.beats == []
  {
    ReachedIsKept(s);
  }

  /** Every finished cycle issued OP exactly when it should and was judged by all its syncs; cycles,
      the one in progress included, are spaced by the interval, or by the retry delay before the first
      success; and the library holds exactly the sync the phase names. */
  lemma SyncCyclesAreDisciplined(s: Sys)
    requires Reached(s) && HoldsBoxes(s.pc)
    ensures forall i :: 0 <= i < |s.health.cycles| ==> CycleSound(s.health.cycles[i], s.cfg.op)
    ensures CyclesSpaced(s.health.cycles, s.health.intervalMs)
    ensures s.health.cycles != [] && s.health.phase != NoSync ==>
              s.health.cycleStart >= s.health.cycles[|s.health.cycles| - 1].start + Gap(s.health.cycles, s.health.intervalMs)
    ensures |s.calls.syncBoxes| <= 1
    ensures s.calls.syncBoxes != {} ==> s.health.phase == Eth || s.health.phase == Op
    ensures s.health.phase == Eth || s.health.phase == Op
            ==> s.calls.syncBoxes != {} || Delivering(s, Kind.Sync) || Delivering(s, Kind.OpSync)
    ensures s.health.phase == Op ==> s.health.ethOutcome == Some(true) && s.cfg.op
  {
    ReachedIsDisciplined(s);
    SyncBoxIsThePhases(s);
    CyclesAreDisciplined(s.health, s.cfg.op);
  }

  lemma ReachedIsDisciplined(s: Sys)
    requires Reached(s) && HoldsBoxes(s.pc)
    ensures SyncDiscipline(s.health, s.cfg.op) && SyncBoxInv(s)
  {
    ReachedIsKept(s);
    assert HistoryKept(s);
  }

  lemma CyclesAreDisciplined(h: Health, op: bool)
    requires SyncDiscipline(h, op)
    ensures forall i :: 0 <= i < |h.cycles| ==> CycleSound(h.cycles[i], op)
    ensures CyclesSpaced(h.cycles, h.intervalMs)
    ensures h.cycles != [] && h.phase != NoSync ==> h.cycleStart >= h.cycles[|h.cycles| - 1].start + Gap(h.cycles, h.intervalMs)
    ensures h.phase == Op ==> h.ethOutcome == Some(true) && op
  {
  }

  lemma SyncBoxIsThePhases(s: Sys)
    requires SyncBoxInv(s) && HoldsBoxes(s.pc)
    ensures |s.calls.syncBoxes| <= 1
    ensures s.calls.syncBoxes != {} ==> s.health.phase == Eth || s.health.phase == Op
    ensures s.health.phase == Eth || s.health.phase == Op
            ==> s.calls.syncBoxes != {} || Delivering(s, Kind.Sync) || Delivering(s, Kind.OpSync)
  {
  }

  /** At most one heartbeat is outstanding, and only after the first good cycle. */
  lemma OneHeartbeatAtMost(s: Sys)
    requires Reached(s)
    ensures |HeartbeatBoxes(s.calls)| <= 1
    ensures HeartbeatBoxes(s.calls) != {} ==> s.health.heartbeatInFlight && s.health.startReleased
  {
    ReachedIsKept(s);
    if !HoldsBoxes(s.pc) {
      assert HeartbeatBoxes(s.calls) == {};
    }
  }

  // ---------------------------------------------------------------------------
  // start()
  // ---------------------------------------------------------------------------

  /** Whoever is told that a start succeeded is told so after a wholly successful sync cycle of the
      run last requested, whose state had become Running. */
  lemma StartSucceedsOnlyWhenServed(s: Sys, id: nat)
    requires Reached(s) && Enabled(s, ByStarter(WakeStart(id))) && s.hs.startOk
    ensures SomeCycleWhollyGood(s.health) && s.hs.syncedRun == s.hs.run && s.hs.servedRun == s.hs.run
  {
    ReachedIsKept(s);
  }

  ghost predicate NoPost(ls: seq<Label>) {
    forall i :: 0 <= i < |ls| ==> !(ls[i].ByStarter? && ls[i].start.Post?)
  }

  /** Neither the run last requested nor what each blocked start() waits for has changed. */
  ghost predicate SameRuns(hs: Handshake, hs': Handshake) {
    hs'.run == hs.run && hs'.blocked == hs.blocked
  }

  lemma CallersKeepRuns(s: Sys, c: nat, call: CallLabel)
    requires s.adm.gate.perCall > 0 && CallEnabled(s, c, call)
    ensures SameRuns(s.hs, CallNext(s, c, call).hs)
  {
  }

  lemma LoopKeepsRuns(s: Sys, loop: LoopLabel)
    requires s.adm.gate.perCall > 0 && LoopEnabled(s, loop)
    ensures SameRuns(s.hs, LoopNext(s, loop).hs)
  {
  }

  lemma ThreadKeepsRuns(s: Sys, thread: ThreadLabel)
    requires ThreadEnabled(s, thread)
    ensures SameRuns(s.hs, ThreadNext(s, thread).hs)
  {
  }

  lemma StartNumbersRuns(s: Sys, start: StartLabel)
    requires StartEnabled(s, start)
    ensures var hs' := StartNext(s, start).hs;
            && hs'.run == s.hs.run + (if start.Post? then 1 else 0)
            && (forall id :: id in s.hs.blocked && id in hs'.blocked ==> hs'.blocked[id] == s.hs.blocked[id])
  {
  }

  lemma RunNumberStep(s: Sys, l: Label)
    requires Enabled(s, l)
    ensures Next(s, l).hs.run == s.hs.run + if l.ByStarter? && l.start.Post? then 1 else 0
    ensures forall id :: id in s.hs.blocked && id in Next(s, l).hs.blocked ==> Next(s, l).hs.blocked[id] == s.hs.blocked[id]
  {
    match l
    case ByCaller(c, call) => CallersKeepRuns(s, c, call);
    case ByStarter(start) => StartNumbersRuns(s, start);
    case ByWorld(_) =>
    case ByThread(thread) => ThreadKeepsRuns(s, thread);
    case InLoop(loop) => LoopKeepsRuns(s, loop);
    case ByLibrary(library) => LibraryKeepsCycles(s, library);
    case InClose(close) => CloseKeepsStart(s, close);
  }

  /** The same start() is blocked in every state of the run. */
  ghost predicate BlockedThroughout(s: Sys, ls: seq<Label>, id: nat)
    requires Legal(s, ls)
    decreases |ls|
  {
    id in s.hs.blocked && (ls != [] ==> BlockedThroughout(Next(s, ls[0]), ls[1..], id))
  }

  lemma {:induction false} RunNumberRun(s: Sys, ls: seq<Label>, id: nat)
    requires Legal(s, ls) && BlockedThroughout(s, ls, id)
    ensures id in Exec(s, ls).hs.blocked && Exec(s, ls).hs.blocked[id] == s.hs.blocked[id]
    ensures Exec(s, ls).hs.run >= s.hs.run && (Exec(s, ls).hs.run == s.hs.run <==> NoPost(ls))
    decreases |ls|
  {
    if ls != [] {
      var s' := Next(s, ls[0]);
      RunNumberStep(s, ls[0]);
      RunNumberRun(s', ls[1..], id);
      assert NoPost(ls) <==> !(ls[0].ByStarter? && ls[0].start.Post?) && NoPost(ls[1..]) by {
        assert forall i :: 0 <= i < |ls| - 1 ==> ls[1..][i] == ls[i + 1];
        if NoPost(ls) { assert NoPost(ls[1..]); }
        if NoPost(ls[1..]) && !(ls[0].ByStarter? && ls[0].start.Post?) {
          forall i | 0 <= i < |ls| ensures !(ls[i].ByStarter? && ls[i].start.Post?) {
            assert i > 0 ==> ls[1..][i - 1] == ls[i];
          }
        }
      }
    }
  }

  /** The answer there is, is the outcome of the run last requested; a good one is told after a wholly
      good cycle of that run, whose state had become Running. */
  lemma AnswerIsOfTheLastRun(s: Sys)
    requires Reached(s) && s.hs.startDone
    ensures s.hs.answerRun == s.hs.run
    ensures s.hs.startOk ==> SomeCycleWhollyGood(s.health) && s.hs.syncedRun == s.hs.servedRun == s.hs.answerRun
  {
    ReachedIsKept(s);
  }

  /** When a blocked start() can return, the outcome it is told is its own run's if and only if no
      other start() has been posted since it posted its own; and if it is told of success, the good
      cycle and the Running state were those of the run the answer is about. */
  lemma AnswerIsForOwnRun(s: Sys, id: nat, ls: seq<Label>)
    requires Reached(s) && Enabled(s, ByStarter(Post(id)))
    requires var s1 := Next(s, ByStarter(Post(id))); Legal(s1, ls) && BlockedThroughout(s1, ls, id)
    requires Enabled(Exec(Next(s, ByStarter(Post(id))), ls), ByStarter(WakeStart(id)))
    ensures var posted, s2 := s.hs.run + 1, Exec(Next(s, ByStarter(Post(id))), ls);
            && (s2.hs.answerRun == posted <==> NoPost(ls))
            && (s2.hs.startOk ==> SomeCycleWhollyGood(s2.health) && s2.hs.syncedRun == s2.hs.servedRun == s2.hs.answerRun)
  {
    var s1 := Next(s, ByStarter(Post(id)));
    RunNumberRun(s1, ls, id);
    ReachedNext(s, ByStarter(Post(id)));
    ReachedOn(s1, ls);
    AnswerIsOfTheLastRun(Exec(s1, ls));
  }

  // ---------------------------------------------------------------------------
  // The gate's own theorems hold inside the runtime
  // ---------------------------------------------------------------------------

  /** What a run of the runtime is to the admission gate. */
  function GateRun(s: Sys, ls: seq<Label>): seq<A.Label>
    requires Legal(s, ls)
    decreases |ls|
  {
    if ls == [] then []
    else
      var al := AdmissionLabel(s, ls[0]);
      (if al.None? then [] else [al.value]) + GateRun(Next(s, ls[0]), ls[1..])
  }

  /** Every run of the runtime, straddling callers or not, is a legal run of the gate, so that
      nobody overtakes, every wait is accounted for and every admission is within budget. */
  lemma {:induction false} RunsProjectToTheGate(s: Sys, ls: seq<Label>)
    requires Legal(s, ls)
    ensures A.Legal(s.adm, GateRun(s, ls)) && A.Exec(s.adm, GateRun(s, ls)) == Exec(s, ls).adm
    decreases |ls|
  {
    if ls != [] {
      RuntimeDrivesTheGate(s, ls[0]);
      var s' := Next(s, ls[0]);
      RunsProjectToTheGate(s', ls[1..]);
      var al := AdmissionLabel(s, ls[0]);
      if al.Some? {
        assert GateRun(s, ls)[0] == al.value && GateRun(s, ls)[1..] == GateRun(s', ls[1..]);
      } else {
        assert GateRun(s, ls) == GateRun(s', ls[1..]);
      }
    }
  }
}
