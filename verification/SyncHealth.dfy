/** The run's health: the sync cycle, the heartbeat, the reported state and the events emitted.
    All of it is written by the proxy thread while a run is up. */
module SyncHealth {

  datatype Option<T> = None | Some(value: T)

  const FIRST_SYNC_RETRY_MS: int := 2000
  const DEGRADE_AFTER: int := 3

  datatype RunState = Idle | Starting | Running | Degraded | Draining | Stopped | Failed

  datatype Event =
    | StateChanged(state: RunState, previous: RunState)
    | ProxyStarted(success: bool)
    | ProxyStopped

  datatype Phase = NoSync | Eth | EthDone | Op | OpDone

  /** A finished sync cycle: when it began, its L1 and (if issued) OP outcome, and its verdict. */
  datatype Cycle = Cycle(start: int, eth: bool, op: Option<bool>, ok: bool)

  datatype Health = Health(
    state: RunState,
    events: seq<Event>,
    phase: Phase,
    syncOk: bool,
    cycleStart: int,
    nextSync: int,
    intervalMs: int,
    startReleased: bool,
    syncStreak: int,
    syncFailures: int,
    heartbeatStreak: int,
    heartbeatFailures: int,
    heartbeatInFlight: bool,
    nextBeat: int,
    // what happened in this run
    beats: seq<bool>,
    cycles: seq<Cycle>,
    ethOutcome: Option<bool>,
    opOutcome: Option<bool>)

  const FRESH: Health :=
    Health(Idle, [], NoSync, false, 0, 0, 0, false, 0, 0, 0, 0, false, 0, [], [], None, None)

  // ---------------------------------------------------------------------------
  // Transitions
  // ---------------------------------------------------------------------------

  function SetState(h: Health, state: RunState): Health {
    if h.state == state then h
    else h.(state := state, events := h.events + [StateChanged(state, h.state)])
  }

  function Emit(h: Health, e: Event): Health {
    h.(events := h.events + [e])
  }

  /** The head of a run, before the library is entered. */
  function ForgetBeats(h: Health): Health {
    h.(heartbeatStreak := 0, heartbeatInFlight := false)
  }

  /** The library has a context: the first cycle is due at once. */
  function BeginSyncing(h: Health, intervalMs: int, now: int): Health {
    h.(intervalMs := intervalMs, phase := NoSync, syncStreak := 0, startReleased := false,
       nextSync := now, nextBeat := now, beats := [], cycles := [], ethOutcome := None, opOutcome := None)
  }

  datatype Action = Nothing | IssueEth | IssueOp | Finish

  /** One step of the cycle per pump turn. */
  function SyncAction(h: Health, op: bool, now: int): Action {
    match h.phase
    case NoSync => if now < h.nextSync then Nothing else IssueEth
    case EthDone => if h.syncOk && op then IssueOp else Finish
    case OpDone => Finish
    case Eth => Nothing
    case Op => Nothing
  }

  function BeginCycle(h: Health, now: int): Health {
    h.(cycleStart := now)
  }

  function IssueSync(h: Health, op: bool): Health {
    if op then h.(phase := Op) else h.(phase := Eth, ethOutcome := None, opOutcome := None)
  }

  function NoteSync(h: Health, op: bool, ok: bool): Health {
    if op then h.(syncOk := ok, phase := OpDone, opOutcome := Some(ok))
    else h.(syncOk := ok, phase := EthDone, ethOutcome := Some(ok))
  }

  function LogCycle(h: Health): Health {
    h.(phase := NoSync, cycles := h.cycles + [Cycle(h.cycleStart, h.ethOutcome == Some(true), h.opOutcome, h.syncOk)])
  }

  /** A good cycle clears the streak. The first one releases start(), a later one may recover the run. */
  function CountGood(h: Health): Health {
    var counted := h.(syncStreak := 0, nextSync := h.cycleStart + h.intervalMs);
    if !h.startReleased then SetState(counted.(startReleased := true), Running)
    else if h.state == Degraded && h.heartbeatStreak < DEGRADE_AFTER then SetState(counted, Running)
    else counted
  }

  /** A failed cycle counts, and the next try waits for the interval, or less before the first success. */
  function CountFailed(h: Health): Health {
    var counted := h.(
      syncFailures := h.syncFailures + 1, syncStreak := h.syncStreak + 1,
      nextSync := h.cycleStart + if h.startReleased then h.intervalMs else FIRST_SYNC_RETRY_MS);
    if h.syncStreak + 1 >= DEGRADE_AFTER && h.state == Running then SetState(counted, Degraded) else counted
  }

  /** The cycle's verdict is in. */
  function FinishCycle(h: Health): Health {
    if h.syncOk then CountGood(LogCycle(h)) else CountFailed(LogCycle(h))
  }

  /** Whether finishing this cycle is what releases a waiting start(). */
  predicate ReleasesStart(h: Health) {
    h.syncOk && !h.startReleased
  }

  function NoteHeartbeat(h: Health, ok: bool): Health {
    var logged := h.(beats := h.beats + [ok]);
    if ok then
      var counted := logged.(heartbeatStreak := 0);
      if h.state == Degraded && h.syncStreak < DEGRADE_AFTER then SetState(counted, Running) else counted
    else
      var counted := logged.(heartbeatFailures := h.heartbeatFailures + 1, heartbeatStreak := h.heartbeatStreak + 1);
      if h.heartbeatStreak + 1 >= DEGRADE_AFTER && h.state == Running then SetState(counted, Degraded) else counted
  }

  // ---------------------------------------------------------------------------
  // Health is exactly history
  // ---------------------------------------------------------------------------

  /** How many of the latest outcomes failed in a row. */
  function TrailingFailures(log: seq<bool>): nat {
    if log == [] || log[|log| - 1] then 0 else 1 + TrailingFailures(log[..|log| - 1])
  }

  function Verdicts(cycles: seq<Cycle>): (verdicts: seq<bool>)
    ensures |verdicts| == |cycles|
    ensures forall i :: 0 <= i < |cycles| ==> verdicts[i] == cycles[i].ok
  {
    seq(|cycles|, i requires 0 <= i < |cycles| => cycles[i].ok)
  }

  ghost predicate LastThreeFailed(log: seq<bool>) {
    |log| >= 3 && !log[|log| - 1] && !log[|log| - 2] && !log[|log| - 3]
  }

  lemma {:induction false} ThreeTrailing(log: seq<bool>)
    ensures TrailingFailures(log) >= 3 <==> LastThreeFailed(log)
  {
    if |log| >= 1 && !log[|log| - 1] {
      var l1 := log[..|log| - 1];
      if |l1| >= 1 && !l1[|l1| - 1] {
        var l2 := l1[..|l1| - 1];
        assert |l2| >= 1 && !l2[|l2| - 1] ==> TrailingFailures(l2) >= 1;
      }
    }
  }

  lemma TrailingGrows(log: seq<bool>, ok: bool)
    ensures TrailingFailures(log + [ok]) == if ok then 0 else TrailingFailures(log) + 1
  {
    assert (log + [ok])[..|log|] == log;
  }

  ghost predicate SomeCycleSucceeded(h: Health) {
    exists i :: 0 <= i < |h.cycles| && h.cycles[i].ok
  }

  ghost predicate StreaksAreHistory(h: Health) {
    && h.heartbeatStreak == TrailingFailures(h.beats)
    && h.syncStreak == TrailingFailures(Verdicts(h.cycles))
  }

  ghost predicate Unhealthy(h: Health) {
    LastThreeFailed(h.beats) || LastThreeFailed(Verdicts(h.cycles))
  }

  predicate Serving(state: RunState) {
    state == Running || state == Degraded
  }

  /** A serving run is Degraded exactly when its last three beats or its last three cycles failed. */
  ghost predicate StateIsHistory(h: Health) {
    && (Serving(h.state) ==> SomeCycleSucceeded(h))
    && (h.state == Degraded ==> Unhealthy(h))
    && (h.state == Running ==> !Unhealthy(h))
  }

  lemma CyclesGrow(cycles: seq<Cycle>, c: Cycle)
    ensures Verdicts(cycles + [c]) == Verdicts(cycles) + [c.ok]
  {
  }

  lemma BeatCounts(h: Health, ok: bool)
    ensures var h' := NoteHeartbeat(h, ok);
            && h'.beats == h.beats + [ok] && h'.heartbeatStreak == (if ok then 0 else h.heartbeatStreak + 1)
            && h'.cycles == h.cycles && h'.syncStreak == h.syncStreak
            && h'.heartbeatFailures == h.heartbeatFailures + (if ok then 0 else 1) && h'.syncFailures == h.syncFailures
  {
  }

  lemma FinishCounts(h: Health)
    ensures var h' := FinishCycle(h);
            && h'.cycles == h.cycles + [Cycle(h.cycleStart, h.ethOutcome == Some(true), h.opOutcome, h.syncOk)]
            && h'.syncStreak == (if h.syncOk then 0 else h.syncStreak + 1)
            && h'.beats == h.beats && h'.heartbeatStreak == h.heartbeatStreak
            && h'.syncFailures == h.syncFailures + (if h.syncOk then 0 else 1) && h'.heartbeatFailures == h.heartbeatFailures
            && h'.intervalMs == h.intervalMs && h'.phase == NoSync
            && h'.startReleased == (h.startReleased || h.syncOk)
            && h'.nextSync == h.cycleStart + if h.syncOk || h.startReleased then h.intervalMs else FIRST_SYNC_RETRY_MS
  {
  }

  lemma BeatKeepsStreaks(h: Health, ok: bool)
    requires StreaksAreHistory(h)
    ensures StreaksAreHistory(NoteHeartbeat(h, ok))
  {
    var h' := NoteHeartbeat(h, ok);
    BeatCounts(h, ok);
    TrailingGrows(h.beats, ok);
    assert TrailingFailures(h'.beats) == if ok then 0 else TrailingFailures(h.beats) + 1;
  }

  lemma FinishKeepsStreaks(h: Health)
    requires StreaksAreHistory(h)
    ensures StreaksAreHistory(FinishCycle(h))
  {
    var h' := FinishCycle(h);
    FinishCounts(h);
    var before := Verdicts(h.cycles);
    CyclesGrow(h.cycles, Cycle(h.cycleStart, h.ethOutcome == Some(true), h.opOutcome, h.syncOk));
    assert Verdicts(h'.cycles) == before + [h.syncOk];
    TrailingGrows(before, h.syncOk);
  }

  /** A beat keeps the state equal to what the history says, whatever the state was. */
  lemma BeatKeepsStateIsHistory(h: Health, ok: bool)
    requires StreaksAreHistory(h) && StateIsHistory(h)
    ensures StateIsHistory(NoteHeartbeat(h, ok))
  {
    var h' := NoteHeartbeat(h, ok);
    BeatKeepsStreaks(h, ok);
    ThreeTrailing(h.beats);
    ThreeTrailing(h'.beats);
    ThreeTrailing(Verdicts(h.cycles));
    assert h'.cycles == h.cycles;
  }

  /** So does a finished cycle, once the first good one has been seen or while none has. */
  lemma FinishKeepsStateIsHistory(h: Health)
    requires StreaksAreHistory(h) && StateIsHistory(h)
    requires !h.startReleased ==> !Serving(h.state) && h.beats == [] && !SomeCycleSucceeded(h)
    ensures StateIsHistory(FinishCycle(h))
  {
    var h' := FinishCycle(h);
    FinishKeepsStreaks(h);
    ThreeTrailing(h.beats);
    ThreeTrailing(Verdicts(h.cycles));
    ThreeTrailing(Verdicts(h'.cycles));
    assert h'.beats == h.beats;
    assert h'.cycles[|h.cycles|].ok == h.syncOk;
    assert forall i :: 0 <= i < |h.cycles| ==> h'.cycles[i] == h.cycles[i];
  }

  /** The record of a run: the streaks and the state are what the outcomes say, and start() is
      released by the first good cycle if by nothing sooner. */
  ghost predicate Sound(h: Health) {
    && StreaksAreHistory(h) && StateIsHistory(h)
    && (SomeCycleSucceeded(h) ==> h.startReleased)
    && (!h.startReleased ==> h.beats == [] && !Serving(h.state))
  }

  /** While the run is not closing: start() is released by the first good cycle only, and from then
      on the run serves. */
  ghost predicate Going(h: Health) {
    Sound(h) && (h.startReleased <==> SomeCycleSucceeded(h)) && (h.startReleased ==> Serving(h.state))
  }

  lemma GoingSaysHealth(h: Health)
    requires Going(h) && SomeCycleSucceeded(h)
    ensures h.state == if Unhealthy(h) then Degraded else Running
  {
  }

  lemma BeginsGoing(h: Health, intervalMs: int, now: int)
    requires h.heartbeatStreak == 0 && !Serving(h.state)
    ensures Going(BeginSyncing(h, intervalMs, now))
  {
  }

  lemma BeatKeepsSound(h: Health, ok: bool)
    requires Sound(h) && h.startReleased
    ensures Sound(NoteHeartbeat(h, ok)) && (Going(h) ==> Going(NoteHeartbeat(h, ok)))
  {
    BeatKeepsStreaks(h, ok);
    BeatKeepsStateIsHistory(h, ok);
    assert NoteHeartbeat(h, ok).cycles == h.cycles;
  }

  lemma FinishKeepsSound(h: Health)
    requires Sound(h)
    ensures Sound(FinishCycle(h)) && (Going(h) ==> Going(FinishCycle(h)))
  {
    FinishKeepsStreaks(h);
    FinishKeepsStateIsHistory(h);
    FinishCounts(h);
    FinishReleases(h);
    FinishMoves(h);
  }

  lemma FinishReleases(h: Health)
    ensures SomeCycleSucceeded(FinishCycle(h)) <==> SomeCycleSucceeded(h) || h.syncOk
  {
    FinishCounts(h);
    var h' := FinishCycle(h);
    assert h'.cycles[|h.cycles|].ok == h.syncOk;
    assert forall i :: 0 <= i < |h.cycles| ==> h'.cycles[i] == h.cycles[i];
  }

  lemma FinishMoves(h: Health)
    ensures Serving(h.state) || ReleasesStart(h) ==> Serving(FinishCycle(h).state)
    ensures !Serving(h.state) && !ReleasesStart(h) ==> FinishCycle(h).state == h.state
  {
  }

  /** What is not about outcomes or the state keeps both. */
  lemma SoundFrame(h: Health, h': Health)
    requires h'.beats == h.beats && h'.cycles == h.cycles && h'.state == h.state && h'.startReleased == h.startReleased
    requires h'.heartbeatStreak == h.heartbeatStreak && h'.syncStreak == h.syncStreak
    ensures (Sound(h) ==> Sound(h')) && (Going(h) ==> Going(h'))
  {
  }

  // ---------------------------------------------------------------------------
  // The discipline of the sync cycle
  // ---------------------------------------------------------------------------

  /** An OP sync was issued exactly after a good L1 sync with OP configured, and the verdict is
      good exactly when every sync issued was. */
  ghost predicate CycleSound(c: Cycle, op: bool) {
    && (c.op.Some? <==> c.eth && op)
    && (c.ok <==> c.eth && (c.op.Some? ==> c.op.value))
  }

  /** The least distance to the next cycle's start. */
  function Gap(cycles: seq<Cycle>, intervalMs: int): int {
    if exists i :: 0 <= i < |cycles| && cycles[i].ok then intervalMs else FIRST_SYNC_RETRY_MS
  }

  ghost predicate CyclesSpaced(cycles: seq<Cycle>, intervalMs: int) {
    forall i :: 0 <= i < |cycles| - 1
      ==> cycles[i + 1].start >= cycles[i].start + Gap(cycles[..i + 1], intervalMs)
  }

  ghost predicate NextCycleSpaced(h: Health) {
    h.cycles != [] ==>
      var due := h.cycles[|h.cycles| - 1].start + Gap(h.cycles, h.intervalMs);
      if h.phase == NoSync then h.nextSync == due else h.cycleStart >= due
  }

  /** The outcomes recorded so far are those the phase says are in. */
  ghost predicate PhaseIsProgress(h: Health, op: bool) {
    match h.phase
    case NoSync => true
    case Eth => h.ethOutcome == None && h.opOutcome == None
    case EthDone => h.ethOutcome == Some(h.syncOk) && h.opOutcome == None
    case Op => op && h.ethOutcome == Some(true) && h.opOutcome == None
    case OpDone => op && h.ethOutcome == Some(true) && h.opOutcome == Some(h.syncOk)
  }

  ghost predicate SyncDiscipline(h: Health, op: bool) {
    && PhaseIsProgress(h, op)
    && (forall i :: 0 <= i < |h.cycles| ==> CycleSound(h.cycles[i], op))
    && CyclesSpaced(h.cycles, h.intervalMs)
    && NextCycleSpaced(h)
  }

  lemma NoteSyncKeepsDiscipline(h: Health, op: bool, ok: bool)
    requires SyncDiscipline(h, op)
    ensures h.phase == Eth ==> SyncDiscipline(NoteSync(h, false, ok), op)
    ensures h.phase == Op ==> SyncDiscipline(NoteSync(h, true, ok), op)
  {
  }

  lemma GapGrows(cycles: seq<Cycle>, c: Cycle, intervalMs: int)
    ensures Gap(cycles + [c], intervalMs) == if c.ok then intervalMs else Gap(cycles, intervalMs)
  {
    var grown := cycles + [c];
    assert grown[|cycles|] == c;
    if exists i :: 0 <= i < |cycles| && cycles[i].ok {
      var i :| 0 <= i < |cycles| && cycles[i].ok;
      assert grown[i].ok;
    }
  }

  lemma SpacingGrows(cycles: seq<Cycle>, c: Cycle, intervalMs: int)
    requires CyclesSpaced(cycles, intervalMs)
    requires cycles != [] ==> c.start >= cycles[|cycles| - 1].start + Gap(cycles, intervalMs)
    ensures CyclesSpaced(cycles + [c], intervalMs)
  {
    var grown := cycles + [c];
    forall i | 0 <= i < |grown| - 1
      ensures grown[i + 1].start >= grown[i].start + Gap(grown[..i + 1], intervalMs)
    {
      assert grown[..i + 1] == cycles[..i + 1];
      assert i == |cycles| - 1 ==> cycles[..i + 1] == cycles;
    }
  }

  lemma FinishKeepsDiscipline(h: Health, op: bool, now: int)
    requires SyncDiscipline(h, op) && SyncAction(h, op, now) == Finish
    requires h.startReleased <==> SomeCycleSucceeded(h)
    ensures SyncDiscipline(FinishCycle(h), op)
  {
    var c := Cycle(h.cycleStart, h.ethOutcome == Some(true), h.opOutcome, h.syncOk);
    FinishCounts(h);
    SpacingGrows(h.cycles, c, h.intervalMs);
    GapGrows(h.cycles, c, h.intervalMs);
  }

  lemma FinishKeepsReleased(h: Health)
    requires h.startReleased <==> SomeCycleSucceeded(h)
    ensures FinishCycle(h).startReleased <==> SomeCycleSucceeded(FinishCycle(h))
  {
    FinishCounts(h);
    FinishReleases(h);
  }
}
