/** The promises that hold only as long as callers keep to what the code leaves unchecked, and for
    each a run in which it fails. */
module RuntimeGaps {
  import opened ResourceBudget
  import opened Slots
  import opened SyncHealth
  import opened Runs
  import opened Runtime
  import opened RuntimeReservations
  import opened RuntimeStraddle
  import opened RuntimeTheorems
  import A = Admission

  // ---------------------------------------------------------------------------
  // Runs, one step at a time
  // ---------------------------------------------------------------------------

  lemma Then(s: Sys, l: Label, s': Sys)
    requires Reached(s) && Enabled(s, l) && Next(s, l) == s'
    ensures Reached(s')
  {
    ReachedNext(s, l);
  }

  // ---------------------------------------------------------------------------
  // A run from its start() to its first good cycle
  // ---------------------------------------------------------------------------

  const PLAIN: Config := Config(1, 10, 30000, false, 12000, false)
  const RESTED: A.State := A.INITIAL.(gate := A.INITIAL_GATE.(epoch := 1, effective := 1))

  /** The first start() has posted its run, and the proxy thread is parked. */
  function Posted(): Sys {
    INITIAL.(
      adm := RESTED, cfg := PLAIN, pc := Away(Parked), trace := [NimMain],
      health := FRESH.(state := Starting, events := [StateChanged(Starting, Idle)]),
      hs := INITIAL.hs.(runRequested := true, runFinished := false, run := 1, blocked := map[1 := 1]))
  }

  lemma FirstStartPosts()
    ensures Reached(Posted())
  {
    assert Legal(INITIAL, []) && Exec(INITIAL, []) == INITIAL;
    var s1 := StartEnter(INITIAL, PLAIN);
    Then(INITIAL, ByStarter(EnterStart(PLAIN)), s1);
    var s2 := StartSize(s1);
    Then(s1, ByStarter(Size), s2);
    var s3 := StartBudget(s2, UNKNOWN);
    Then(s2, ByStarter(Budget(UNKNOWN)), s3);
    FirstThreadParks(s3);
  }

  lemma FirstThreadParks(s: Sys)
    requires Reached(s) && s == INITIAL.(adm := RESTED, cfg := PLAIN, starter := Launching)
    ensures Reached(Posted())
  {
    var s1 := INITIAL.(adm := RESTED, cfg := PLAIN, starter := Posting, pc := Away(Born), health := Posted().health);
    Then(s, ByStarter(Launch), s1);
    var s2 := Posted().(pc := Away(Born), trace := []);
    Then(s1, ByStarter(Post(1)), s2);
    assert [] + [NimMain] == [NimMain];
    Then(s2, ByThread(Boot), Posted());
  }

  /** A run has been posted to the parked thread, and nothing is left of earlier ones but the logs. */
  ghost predicate Startable(b: Sys) {
    && b.pc == Away(Parked) && b.hs.runRequested && b.cfg == PLAIN && b.clock == 0 && b.starter.NoStart?
    && b.adm.gate.perCall > 0 && !A.Closing(b.adm.gate)
    && b.calls == INITIAL.calls
    && b.health == FRESH.(state := Starting, events := b.health.events)
  }

  /** A posted run's loop has begun. */
  function LoopBegun(s: Sys): Sys {
    s.(pc := Loop(DrainQueue), trace := s.trace + [StartOk] + [SyncInterval],
       health := BeginSyncing(ForgetBeats(s.health), DEFAULT_SYNC_INTERVAL_MS, s.clock),
       hs := s.hs.(runRequested := false, haveContext := true, runActive := true, current := s.hs.run, syncedRun := s.hs.run))
  }

  lemma LoopBegins(s: Sys)
    requires Reached(s) && s.pc == Away(Parked) && s.hs.runRequested && !s.adm.gate.shutdown && s.adm.gate.perCall > 0
    ensures Reached(LoopBegun(s))
  {
    var s1 := PickUp(s);
    Then(s, ByThread(PickUpRun), s1);
    var s2 := Open(s1, true);
    Then(s1, ByThread(OpenLibrary(true)), s2);
    Then(s2, ByThread(EnterLoop(0)), LoopBegun(s));
  }

  function Looping(b: Sys): Sys {
    LoopBegun(b).(health := FRESH.(state := Starting, events := b.health.events, intervalMs := DEFAULT_SYNC_INTERVAL_MS))
  }

  lemma RunLoops(b: Sys)
    requires Reached(b) && Startable(b)
    ensures Reached(Looping(b))
  {
    LoopBegins(b);
    assert LoopBegun(b) == Looping(b);
  }

  const SYNC_SLOT: Slot := Slot(Kind.Sync, true, RET_SUCCESS, "")

  function SyncReady(b: Sys): Sys {
    Looping(b).(pc := Loop(LaunchSync(1, false)),
                calls := INITIAL.calls.(slots := map[1 := NewSlot(Kind.Sync)], nextId := 2, pending := [1]))
  }

  lemma SyncIsLaunched(b: Sys)
    requires Reached(b) && Startable(b)
    ensures Reached(SyncReady(b))
  {
    RunLoops(b);
    var s1 := Go(Looping(b), CheckStop);
    Then(Looping(b), InLoop(DrainOne), s1);
    var s2 := Go(s1, StepSync);
    Then(s1, InLoop(CheckStopping), s2);
    Then(s2, InLoop(AdvanceSync(0)), SyncReady(b));
  }

  function SyncOut(b: Sys): Sys {
    SyncReady(b).(
      pc := Loop(LoopCall(Inside, ToBeat)), trace := Looping(b).trace + [EthSync],
      calls := SyncReady(b).calls.(syncBoxes := {1}, inFlight := 1),
      health := Looping(b).health.(phase := Eth))
  }

  lemma SyncIsOut(b: Sys)
    requires Reached(b) && Startable(b)
    ensures Reached(SyncOut(b))
  {
    SyncIsLaunched(b);
    Then(SyncReady(b), InLoop(IssueSyncCall), SyncOut(b));
  }

  /** Its first L1 sync has come back. */
  function Synced(b: Sys): Sys {
    SyncOut(b).(
      pc := Loop(Beat),
      calls := INITIAL.calls.(slots := map[1 := SYNC_SLOT], nextId := 2, pending := [1]),
      health := Looping(b).health.(phase := EthDone, syncOk := true, ethOutcome := Some(true)))
  }

  lemma SyncComesBack(b: Sys)
    requires Reached(b) && Startable(b)
    ensures Reached(Synced(b))
  {
    SyncIsOut(b);
    var s := SyncOut(b);
    var s1 := s.(pc := Loop(LoopCall(Delivered(1, RET_SUCCESS), ToBeat)),
                 calls := s.calls.(slots := map[1 := SYNC_SLOT], syncBoxes := {}));
    Then(s, ByLibrary(Complete(1, RET_SUCCESS, "")), s1);
    SyncIsNoted(s1);
    assert s1.(pc := Loop(Beat), calls := s1.calls.(inFlight := 0), health := NoteSync(s1.health, false, true)) == Synced(b);
  }

  lemma SyncIsNoted(s: Sys)
    requires Reached(s) && s.pc == Loop(LoopCall(Delivered(1, RET_SUCCESS), ToBeat)) && s.adm.gate.perCall > 0
    requires s.calls.slots == map[1 := SYNC_SLOT] && s.calls.inFlight == 1
    ensures Reached(s.(pc := Loop(Beat), calls := s.calls.(inFlight := 0), health := NoteSync(s.health, false, true)))
  {
    var s1 := NoteStep(s, 1, RET_SUCCESS);
    Then(s, ByLibrary(Note), s1);
    Then(s1, ByLibrary(Return), s1.(pc := Loop(Beat)));
  }

  function Pumped(b: Sys): Sys {
    Synced(b).(pc := Loop(DrainQueue), trace := Synced(b).trace + [LibCall.Pump])
  }

  lemma PumpIsEntered(b: Sys)
    requires Reached(b) && Startable(b)
    ensures Reached(Pumped(b))
  {
    SyncComesBack(b);
    var s1 := Go(Synced(b), Pumping);
    Then(Synced(b), InLoop(TryBeat(UNKNOWN)), s1);
    PumpReturns(s1);
  }

  lemma PumpReturns(s: Sys)
    requires Reached(s) && s.pc == Loop(Pumping) && s.adm.gate.perCall > 0
    ensures Reached(s.(pc := Loop(DrainQueue), trace := s.trace + [LibCall.Pump]))
  {
    var s1 := EnterLib(s, LibCall.Pump, ToTop);
    Then(s, InLoop(PumpOnce), s1);
    Then(s1, ByLibrary(Return), s1.(pc := Loop(DrainQueue)));
  }

  const GOOD_CYCLE: Cycle := Cycle(0, true, None, true)

  /** The first cycle is good: the run is Running, and start() is about to be told. */
  function Served(b: Sys): Sys {
    Pumped(b).(
      pc := Announce(true, false),
      health := Synced(b).health.(
        phase := NoSync, startReleased := true, state := Running, nextSync := DEFAULT_SYNC_INTERVAL_MS,
        events := b.health.events + [StateChanged(Running, Starting)], cycles := [GOOD_CYCLE]),
      hs := Looping(b).hs.(servedRun := b.hs.run))
  }

  lemma RunServes(b: Sys)
    requires Reached(b) && Startable(b)
    ensures Reached(Served(b))
  {
    PumpIsEntered(b);
    var s1 := Go(Pumped(b), CheckStop);
    Then(Pumped(b), InLoop(DrainOne), s1);
    var s2 := Go(s1, StepSync);
    Then(s1, InLoop(CheckStopping), s2);
    Then(s2, InLoop(AdvanceSync(0)), Served(b));
  }

  // ---------------------------------------------------------------------------
  // Stretches every run may contain
  // ---------------------------------------------------------------------------

  /** A start() that nothing stands in the way of, from its entry to its post. */
  function StartPosted(s: Sys, id: nat): Sys {
    s.(adm := s.adm.(gate := A.RestartGate(s.adm.gate).(perCall := PerCall(10), effective := 1)), cfg := PLAIN,
       calls := s.calls.(inFlight := 0), health := SetState(s.health, Starting),
       hs := s.hs.(startDone := false, startOk := false, runFinished := false, runRequested := true,
                   run := s.hs.run + 1, blocked := s.hs.blocked[id := s.hs.run + 1]))
  }

  lemma StartPosts(s: Sys, id: nat)
    requires Reached(s) && s.pc == Away(Parked) && s.adm.gate.perCall > 0 && id !in s.hs.blocked
    requires StartEnabled(s, EnterStart(PLAIN))
    ensures Reached(StartPosted(s, id))
  {
    var s1 := StartEnter(s, PLAIN);
    Then(s, ByStarter(EnterStart(PLAIN)), s1);
    PrologueEnds(s1, id);
  }

  lemma PrologueEnds(s: Sys, id: nat)
    requires Reached(s) && s.pc == Away(Parked) && s.adm.gate.perCall > 0 && id !in s.hs.blocked
    requires s.starter == Sizing && s.cfg == PLAIN
    ensures Reached(s.(adm := s.adm.(gate := s.adm.gate.(perCall := PerCall(10), effective := 1)),
                       calls := s.calls.(inFlight := 0), health := SetState(s.health, Starting), starter := NoStart,
                       hs := s.hs.(startDone := false, startOk := false, runFinished := false, runRequested := true,
                                   run := s.hs.run + 1, blocked := s.hs.blocked[id := s.hs.run + 1])))
  {
    BudgetPasses(s);
    RunIsPosted(StartSize(s).(starter := Launching), id);
  }

  lemma BudgetPasses(s: Sys)
    requires Reached(s) && s.adm.gate.perCall > 0 && s.starter == Sizing && s.cfg == PLAIN
    ensures Reached(StartSize(s).(starter := Launching))
  {
    var s1 := StartSize(s);
    Then(s, ByStarter(Size), s1);
    Then(s1, ByStarter(Budget(UNKNOWN)), s1.(starter := Launching));
  }

  lemma RunIsPosted(s: Sys, id: nat)
    requires Reached(s) && s.pc == Away(Parked) && s.adm.gate.perCall > 0 && id !in s.hs.blocked && s.starter == Launching
    ensures Reached(s.(health := SetState(s.health, Starting), starter := NoStart,
                       hs := s.hs.(startDone := false, startOk := false, runFinished := false, runRequested := true,
                                   run := s.hs.run + 1, blocked := s.hs.blocked[id := s.hs.run + 1])))
  {
    var s1 := StartLaunch(s);
    Then(s, ByStarter(Launch), s1);
    Then(s1, ByStarter(Post(id)), StartPost(s1, id));
  }

  /** The library answers a posted run with NULL, and the run is over. */
  function Nulled(s: Sys): Sys {
    s.(trace := s.trace + [StartNull],
       health := ForgetBeats(s.health).(
         state := RunState.Failed, events := s.health.events + [StateChanged(RunState.Failed, Starting), ProxyStarted(false)]),
       hs := s.hs.(runRequested := false, current := s.hs.run, startDone := true, startOk := false,
                   answerRun := s.hs.run, runFinished := true))
  }

  lemma NullAnswered(s: Sys)
    requires Reached(s) && s.pc == Away(Parked) && s.hs.runRequested && !s.adm.gate.shutdown && s.adm.gate.perCall > 0
    requires s.health.state == Starting
    ensures Reached(Nulled(s))
  {
    var s1 := PickUp(s);
    Then(s, ByThread(PickUpRun), s1);
    var s2 := Open(s1, false);
    Then(s1, ByThread(OpenLibrary(false)), s2);
    NullPosted(s2);
    assert Nulled(s).health.events == s.health.events + [StateChanged(RunState.Failed, Starting)] + [ProxyStarted(false)];
  }

  lemma NullPosted(s: Sys)
    requires Reached(s) && s.pc == Before(NullHandshake) && s.adm.gate.perCall > 0 && s.health.state == Starting
    ensures Reached(s.(
              pc := Away(Parked),
              health := s.health.(
                state := RunState.Failed,
                events := s.health.events + [StateChanged(RunState.Failed, Starting)] + [ProxyStarted(false)]),
              hs := s.hs.(startDone := true, startOk := false, answerRun := s.hs.current, runFinished := true)))
  {
    var s1 := s.(pc := Before(NullState), hs := s.hs.(startDone := true, startOk := false, answerRun := s.hs.current));
    Then(s, ByThread(NullReply), s1);
    var s2 := s1.(pc := Before(NullEvent), health := SetState(s.health, RunState.Failed));
    Then(s1, ByThread(NullReply), s2);
    NullReported(s2);
  }

  lemma NullReported(s: Sys)
    requires Reached(s) && s.pc == Before(NullEvent) && s.adm.gate.perCall > 0
    ensures Reached(s.(pc := Away(Parked), health := Emit(s.health, ProxyStarted(false)), hs := s.hs.(runFinished := true)))
  {
    var s1 := NullStep(s);
    Then(s, ByThread(NullReply), s1);
    Then(s1, ByThread(NullReply), FinishRun(s1));
  }

  /** A loop told to stop, with nothing queued, pumps once more and leaves. */
  lemma LoopEnds(s: Sys)
    requires Reached(s) && s.pc == Loop(Pumping) && s.adm.gate.perCall > 0 && A.Closing(s.adm.gate)
    requires s.calls.queue == [] && s.health.startReleased
    ensures Reached(s.(pc := Leaving, trace := s.trace + [LibCall.Pump]))
  {
    var s1 := EnterLib(s, LibCall.Pump, ToTop);
    Then(s, InLoop(PumpOnce), s1);
    var s2 := Go(s1, DrainQueue);
    Then(s1, ByLibrary(Return), s2);
    var s3 := Go(s2, CheckStop);
    Then(s2, InLoop(DrainOne), s3);
    Then(s3, InLoop(CheckStopping), s3.(pc := Leaving));
  }

  /** Teardown of a run that has nothing left but one expired registration. */
  lemma Drained(s: Sys)
    requires Reached(s) && s.pc.Leaving? && s.adm.gate.perCall > 0
    requires s.calls.queue == [] && s.calls.pending == [1] && 1 !in Owned(s)
    ensures Reached(s.(pc := Drains(StopLib), trace := s.trace + [DrainBegins],
                       calls := s.calls.(pending := [], writtenOff := 0), health := SetState(s.health, RunState.Draining)))
  {
    var s1 := LeaveStep(s);
    Then(s, InClose(EnterDraining), s1);
    var s2 := s1.(pc := Drains(Swap));
    Then(s1, InClose(EndDrain), s2);
    var s3 := SwapStep(s2);
    Then(s2, InClose(SwapPending), s3);
    var s4 := s3.(pc := Drains(Fail([])));
    assert Owned(s3) == Owned(s) && [1][1..] == [];
    Then(s3, InClose(FailOne), s4);
    Then(s4, InClose(FailOne), s4.(pc := Drains(StopLib)));
  }

  lemma Freed(s: Sys)
    requires Reached(s) && s.pc == Drains(StopLib) && s.adm.gate.perCall > 0
    ensures Reached(s.(pc := Tail(ClearFlight), trace := s.trace + [Stop] + [Free],
                       hs := s.hs.(haveContext := false, runActive := false)))
  {
    var s1 := s.(trace := s.trace + [Stop], pc := Tail(FreeLib));
    Then(s, InClose(StopLibrary), s1);
    var s2 := FreeStep(s1);
    Then(s1, InClose(FinishTail), s2);
    Then(s2, InClose(FinishTail), DeactivateStep(s2));
  }

  lemma Finished(s: Sys)
    requires Reached(s) && s.pc == Tail(ClearFlight) && s.adm.gate.perCall > 0 && s.health.state == RunState.Draining
    requires s.calls.callBoxes == {} && s.calls.syncBoxes == {} && s.calls.inFlight == 0
    ensures Reached(s.(
              pc := Away(Parked), adm := s.adm.(gate := s.adm.gate.(admitted := 0)),
              health := s.health.(state := RunState.Stopped,
                                  events := s.health.events + [StateChanged(RunState.Stopped, RunState.Draining)] + [ProxyStopped]),
              hs := s.hs.(runFinished := true)))
  {
    var s1 := AbandonBoxes(s);
    assert s1 == s.(pc := Tail(ClearAdmitted));
    Then(s, InClose(FinishTail), s1);
    var s2 := ClearStep(s1);
    Then(s1, InClose(FinishTail), s2);
    SaysGoodbye(s2);
  }

  lemma SaysGoodbye(s: Sys)
    requires Reached(s) && s.pc == Tail(CloseStopped) && s.adm.gate.perCall > 0 && s.health.state == RunState.Draining
    ensures Reached(s.(
              pc := Away(Parked),
              health := s.health.(state := RunState.Stopped,
                                  events := s.health.events + [StateChanged(RunState.Stopped, RunState.Draining)] + [ProxyStopped]),
              hs := s.hs.(runFinished := true)))
  {
    var s1 := StoppedStep(s);
    Then(s, InClose(FinishTail), s1);
    var s2 := FarewellStep(s1);
    Then(s1, InClose(FinishTail), s2);
    Then(s2, InClose(FinishTail), FinishRun(s2));
  }

  // ---------------------------------------------------------------------------
  // A start() told of another one's run
  // ---------------------------------------------------------------------------

  /** The library has answered the first run with NULL, and a second start() is posted before the
      first one has read that. */
  function TakenOver(): Sys {
    StartPosted(Nulled(Posted()), 2)
  }

  lemma SecondStartPosts()
    ensures Reached(TakenOver()) && Startable(TakenOver())
    ensures TakenOver().hs.run == 2 && TakenOver().hs.blocked == map[1 := 1, 2 := 2]
    ensures TakenOver().trace == [NimMain, StartNull]
  {
    FirstStartPosts();
    NullAnswered(Posted());
    StartPosts(Nulled(Posted()), 2);
  }

  /** The second run serves, and the answer is out. */
  function Told(): Sys {
    AnnounceStep(Served(TakenOver()))
  }

  /** The first start(), whose own run ended with the library's NULL, can now return, and is told of
      success: the second run's. */
  lemma AnswerIsTakenOver()
    ensures Reached(Told()) && Enabled(Told(), ByStarter(WakeStart(1))) && Told().hs.startOk
    ensures Told().hs.blocked[1] == 1 && Told().hs.answerRun == Told().hs.run == 2
    ensures [NimMain, StartNull] <= Told().trace
  {
    SecondStartPosts();
    RunServes(TakenOver());
    Then(Served(TakenOver()), InLoop(AnnounceStart), Told());
  }

  // ---------------------------------------------------------------------------
  // Callers that straddle a restart
  // ---------------------------------------------------------------------------

  /** Across a restart the count stays exact if and only if nobody holds a reservation and no command
      is queued when start() is entered, whatever came before. */
  lemma ConservedAcrossRestart(s: Sys, cfg: Config)
    requires Reached(s) && StartEnabled(s, EnterStart(cfg))
    ensures var s' := StartEnter(s, cfg);
            s'.adm.gate.admitted == Tokens(s') <==> Holders(s.callers) == {} && s.calls.queue == []
  {
    ReachedIsKept(s);
    var s' := StartEnter(s, cfg);
    assert s'.callers == s.callers && s'.calls == s.calls && s'.pc == s.pc && s.pc.Away?;
    assert TokenInHand(s') == 0 && s.calls.callBoxes == {};
  }

  /** The first run serves and has answered its start(); a caller has passed the state check, and if
      held has been admitted besides. */
  function Straddling(held: bool): Sys {
    var served := Served(Posted());
    served.(
      adm := RESTED.(gate := RESTED.gate.(admitted := if held then 1 else 0), grants := if held then [A.OnArrival] else []),
      callers := map[7 := if held then Holding else Checked])
  }

  lemma CallerIsInTheWay(held: bool)
    ensures Reached(Straddling(held))
  {
    FirstStartPosts();
    RunServes(Posted());
    var s1 := Straddling(false);
    Then(Served(Posted()), ByCaller(7, Check), s1);
    if held {
      Then(s1, ByCaller(7, Enter(UNKNOWN)), Straddling(true));
    }
  }

  /** Announced, beating, and told to stop. */
  lemma StopIsRequested(s: Sys)
    requires Reached(s) && s.pc == Announce(true, false) && !s.cfg.keepAlive && s.adm.gate.perCall > 0
    ensures Reached(s.(
              pc := Loop(Pumping), adm := s.adm.(gate := s.adm.gate.(stopRequested := true)),
              health := Emit(s.health, ProxyStarted(true)),
              hs := s.hs.(startDone := true, startOk := true, answerRun := s.hs.current)))
  {
    var s1 := AnnounceStep(s);
    Then(s, InLoop(AnnounceStart), s1);
    var s2 := AnnounceStep(s1);
    Then(s1, InLoop(AnnounceStart), s2);
    var s3 := Go(s2, Pumping);
    Then(s2, InLoop(TryBeat(UNKNOWN)), s3);
    Then(s3, ByWorld(RequestStop), WorldNext(s3, RequestStop));
  }

  /** The whole of a run's end. */
  function RunEnded(s: Sys): Sys {
    s.(pc := Away(Parked), trace := s.trace + [LibCall.Pump] + [DrainBegins] + [Stop] + [Free],
       adm := s.adm.(gate := s.adm.gate.(admitted := 0, stopRequested := true)),
       calls := s.calls.(pending := [], writtenOff := 0),
       health := s.health.(
         state := RunState.Stopped,
         events := s.health.events + [ProxyStarted(true)] + [StateChanged(RunState.Draining, Running)]
                   + [StateChanged(RunState.Stopped, RunState.Draining)] + [ProxyStopped]),
       hs := s.hs.(startDone := true, startOk := true, answerRun := s.hs.current,
                   haveContext := false, runActive := false, runFinished := true))
  }

  lemma RunEnds(s: Sys)
    requires Reached(s) && s.pc == Announce(true, false) && !s.cfg.keepAlive && s.adm.gate.perCall > 0
    requires s.health.startReleased && s.health.state == Running
    requires s.calls.queue == [] && s.calls.pending == [1] && 1 !in Owned(s)
    requires s.calls.callBoxes == {} && s.calls.syncBoxes == {} && s.calls.inFlight == 0
    ensures Reached(RunEnded(s))
  {
    StopIsRequested(s);
    var s1 := s.(pc := Loop(Pumping), adm := s.adm.(gate := s.adm.gate.(stopRequested := true)),
                 health := Emit(s.health, ProxyStarted(true)),
                 hs := s.hs.(startDone := true, startOk := true, answerRun := s.hs.current));
    LoopEnds(s1);
    var s2 := s1.(pc := Leaving, trace := s1.trace + [LibCall.Pump]);
    assert Owned(s2) == Owned(s);
    Drained(s2);
    var s3 := s2.(pc := Drains(StopLib), trace := s2.trace + [DrainBegins],
                  calls := s2.calls.(pending := [], writtenOff := 0), health := SetState(s2.health, RunState.Draining));
    Freed(s3);
    Finished(s3.(pc := Tail(ClearFlight), trace := s3.trace + [Stop] + [Free],
                 hs := s3.hs.(haveContext := false, runActive := false)));
  }

  lemma StraddledRunEnds(held: bool)
    ensures Reached(RunEnded(Straddling(held)))
  {
    CallerIsInTheWay(held);
    assert WaitedSlots(Straddling(held).callers) == {};
    assert 1 !in Owned(Straddling(held));
    RunEnds(Straddling(held));
  }

  /** In the next run's loop the caller's reservation exists and is counted by nobody. */
  lemma StraddlerIsNotCounted() returns (s: Sys)
    ensures Reached(s) && s.pc.Loop? && s.adm.gate.admitted == 0 && Tokens(s) == 1
  {
    StraddledRunEnds(true);
    var s0 := RunEnded(Straddling(true));
    StartPosts(s0, 2);
    LoopBegins(StartPosted(s0, 2));
    s := LoopBegun(StartPosted(s0, 2));
    assert s.callers == map[7 := Holding];
    assert Holders(s.callers) == {7};
  }

  // ---------------------------------------------------------------------------
  // A waiter nobody releases
  // ---------------------------------------------------------------------------

  /** The caller that had only been checked passes both gates in the next start()'s prologue. */
  lemma CallerSlipsIn() returns (s: Sys)
    ensures Reached(s) && s.pc == Away(Parked) && s.starter == Sizing && s.cfg == PLAIN && s.hs.runFinished
    ensures s.callers == map[7 := Waiting(2)] && s.calls.queue == [2] && s.calls.callBoxes == {}
    ensures 2 in s.calls.slots && !s.calls.slots[2].done
    ensures s.adm.gate.perCall > 0 && !A.Closing(s.adm.gate) && 2 !in s.hs.blocked && !s.hs.runActive
  {
    var s0 := CallerIsEarly();
    var s1 := CallEnter(s0, 7, UNKNOWN);
    Then(s0, ByCaller(7, Enter(UNKNOWN)), s1);
    s := CallGate(s1, 7);
    Then(s1, ByCaller(7, PassGate), s);
  }

  lemma CallerIsEarly() returns (s: Sys)
    ensures Reached(s) && s.pc == Away(Parked) && s.starter == Sizing && s.cfg == PLAIN && s.hs.runFinished
    ensures s.callers == map[7 := Checked] && s.calls.queue == [] && s.calls.callBoxes == {} && s.calls.nextId == 2
    ensures s.adm.gate.perCall > 0 && !A.Closing(s.adm.gate) && 2 !in s.hs.blocked && !s.hs.runActive
    ensures 7 !in s.adm.waiters && s.adm.gate.queue == [] && s.adm.gate.admitted < s.adm.gate.effective
  {
    StraddledRunEnds(false);
    var s0 := RunEnded(Straddling(false));
    s := StartEnter(s0, PLAIN);
    Then(s0, ByStarter(EnterStart(PLAIN)), s);
  }

  /** The library then answers that run with NULL. Between runs the caller waits on an undone slot, and
      neither the proxy thread nor the library can take a step: only its own time-out, or another
      start(), can end that. */
  lemma WaiterIsStranded() returns (s: Sys)
    ensures Reached(s) && s.pc == Away(Parked) && IsWaiting(s, 7, false) && !NobodyLeft(s)
    ensures forall l :: Enabled(s, l) ==> l.ByCaller? || l.ByStarter? || l.ByWorld?
    ensures StartEnabled(s, EnterStart(PLAIN)) && Holders(s.callers) == {} && s.calls.queue != []
  {
    var s0 := CallerSlipsIn();
    PrologueEnds(s0, 2);
    var s1 := s0.(adm := s0.adm.(gate := s0.adm.gate.(perCall := PerCall(10), effective := 1)),
                  calls := s0.calls.(inFlight := 0), health := SetState(s0.health, Starting), starter := NoStart,
                  hs := s0.hs.(startDone := false, startOk := false, runFinished := false, runRequested := true,
                               run := s0.hs.run + 1, blocked := s0.hs.blocked[2 := s0.hs.run + 1]));
    NullAnswered(s1);
    s := Nulled(s1);
    assert Holders(s.callers) == {};
    OnlyOutsidersCanMove(s);
  }

  lemma OnlyOutsidersCanMove(s: Sys)
    requires s.pc == Away(Parked) && !s.hs.runRequested && !s.adm.gate.shutdown
    ensures forall l :: Enabled(s, l) ==> l.ByCaller? || l.ByStarter? || l.ByWorld?
  {
  }

  /** When that other start() is entered nobody holds a reservation, and yet the count is wrong from
      then on: the command is still queued. */
  lemma QueuedCommandIsNotCounted() returns (s: Sys)
    ensures Reached(s) && StartEnabled(s, EnterStart(PLAIN)) && Holders(s.callers) == {}
    ensures StartEnter(s, PLAIN).adm.gate.admitted == 0 && Tokens(StartEnter(s, PLAIN)) > 0
  {
    s := WaiterIsStranded();
    ConservedAcrossRestart(s, PLAIN);
  }

  // ---------------------------------------------------------------------------
  // More reserved than the ceiling
  // ---------------------------------------------------------------------------

  const PAIR: Config := PLAIN.(maxInFlight := 2)

  /** Room for one call of twelve descriptors beside the reserve. */
  const TIGHT: Snapshot := Snapshot(64, 36)

  /** Two callers that saw the first run serving have reached the next start()'s prologue. */
  lemma TwoAreEarly() returns (s: Sys)
    ensures Reached(s) && s.starter == Budgeting && s.cfg == PAIR && s.callers == map[7 := Checked, 8 := Checked]
    ensures s.adm.waiters == map[] && s.adm.gate.queue == [] && !A.Closing(s.adm.gate)
    ensures s.adm.gate.admitted == 0 && s.adm.gate.effective == 2 && s.adm.gate.perCall == 12
  {
    CallerIsInTheWay(false);
    var s0 := Straddling(false);
    var s1 := s0.(callers := map[7 := Checked, 8 := Checked]);
    Then(s0, ByCaller(8, Check), s1);
    assert WaitedSlots(s1.callers) == {};
    assert 1 !in Owned(s1);
    RunEnds(s1);
    s := SizesUp(RunEnded(s1));
  }

  lemma SizesUp(s0: Sys) returns (s: Sys)
    requires Reached(s0) && s0.adm.gate.perCall > 0 && StartEnabled(s0, EnterStart(PAIR)) && !s0.adm.gate.shutdown
    ensures Reached(s) && s.starter == Budgeting && s.cfg == PAIR && s.callers == s0.callers
    ensures s.adm.waiters == s0.adm.waiters && s.adm.gate.queue == [] && !A.Closing(s.adm.gate)
    ensures s.adm.gate.admitted == 0 && s.adm.gate.effective == 2 && s.adm.gate.perCall == 12
  {
    var s1 := StartEnter(s0, PAIR);
    Then(s0, ByStarter(EnterStart(PAIR)), s1);
    s := StartSize(s1);
    Then(s1, ByStarter(Size), s);
  }

  /** Both are admitted under the configured maximum of two before the budget lowers the ceiling to one,
      and the run goes on to start. */
  lemma CeilingIsExceeded() returns (s: Sys)
    ensures Reached(s) && s.starter == Launching && s.adm.gate.admitted == 2 && s.adm.gate.effective == 1
  {
    var s0 := TwoAreEarly();
    var s1 := CallEnter(s0, 7, UNKNOWN);
    Then(s0, ByCaller(7, Enter(UNKNOWN)), s1);
    var s2 := CallEnter(s1, 8, UNKNOWN);
    Then(s1, ByCaller(8, Enter(UNKNOWN)), s2);
    s := StartBudget(s2, TIGHT);
    Then(s2, ByStarter(Budget(TIGHT)), s);
  }
}
