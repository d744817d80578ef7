/** The admission gate: the state under m_admissionMu, one transition per critical section, and
    what every interleaving of callers, heartbeats, releases, restarts and shutdowns keeps. */
module Admission {
  import opened ResourceBudget

  datatype Block = NoBlock | Concurrency | Descriptors

  /** The fields read and written under the admission lock. */
  datatype Gate = Gate(
    queue: seq<nat>,
    nextTicket: nat,
    epoch: nat,
    admitted: int,
    effective: int,
    perCall: int,
    queuedNow: int,
    callsQueued: int,
    queueTimeouts: int,
    resourceRejections: int,
    stopRequested: bool,
    shutdown: bool)

  /** A caller parked in the wait loop, with the locals it carries from turn to turn. */
  datatype Waiter = Waiter(ticket: nat, epoch: nat, deadline: int, blockedBy: Block)

  /** How a wait ended. */
  datatype Ending = Admitted(epoch: nat) | TimedOut(onDescriptors: bool) | ShutDown

  /** A reservation that was handed out: on arrival, to a queued ticket, or to a heartbeat. */
  datatype Grant = OnArrival | ToTicket(ticket: nat) | ToHeartbeat

  /** The gate, its waiters by caller, and three histories: the epoch each ticket was issued in,
      how each ticket ended, and the grants in order. */
  datatype State = State(
    gate: Gate,
    waiters: map<nat, Waiter>,
    issued: map<nat, nat>,
    ended: map<nat, Ending>,
    grants: seq<Grant>)

  datatype Label =
    | Arrive(caller: nat, live: Snapshot, now: int, queueTimeoutMs: int)
    | Retry(caller: nat, live: Snapshot, now: int)
    | Beat(live: Snapshot)
    | Release
    | Restart
    | Configure(perCall: int, effective: int)
    | Clear
    | SetStop
    | SetShutdown

  const INITIAL_GATE: Gate := Gate([], 1, 0, 0, 64, 12, 0, 0, 0, 0, false, false)
  const INITIAL: State := State(INITIAL_GATE, map[], map[], map[], [])

  // ---------------------------------------------------------------------------
  // The critical sections
  // ---------------------------------------------------------------------------

  predicate Closing(g: Gate) {
    g.stopRequested || g.shutdown
  }

  /** Why one more reservation is refused, if it is. */
  function BlockOf(g: Gate, live: Snapshot): Block
    requires g.perCall > 0
  {
    if g.admitted >= g.effective then Concurrency
    else if Known(live) then
      var available := live.softLimit - DescriptorReserve(live.softLimit) - live.openCount;
      var reservable := if available > 0 then available / g.perCall else 0;
      if g.admitted >= reservable then Descriptors else NoBlock
    else NoBlock
  }

  function Without(queue: seq<nat>, ticket: nat): seq<nat> {
    if queue == [] then []
    else if queue[0] == ticket then queue[1..]
    else [queue[0]] + Without(queue[1..], ticket)
  }

  /** Take a ticket out of the queue; a ticket that is not there changes nothing. */
  function RemoveTicket(g: Gate, ticket: nat): Gate {
    if ticket in g.queue
    then g.(queue := Without(g.queue, ticket), queuedNow := g.queuedNow - 1)
    else g
  }

  datatype Entry = Refused | Admit | Join(blockedBy: Block)

  /** What a caller arriving at the gate meets. */
  function EntryOf(g: Gate, live: Snapshot): Entry
    requires g.perCall > 0
  {
    if Closing(g) then Refused
    else if g.queue != [] then Join(Concurrency)
    else
      var block := BlockOf(g, live);
      if block == NoBlock then Admit else Join(block)
  }

  function EnterGate(g: Gate, live: Snapshot): Gate
    requires g.perCall > 0
  {
    match EntryOf(g, live)
    case Refused => g
    case Admit => g.(admitted := g.admitted + 1)
    case Join(_) => g.(queue := g.queue + [g.nextTicket], nextTicket := g.nextTicket + 1,
                       queuedNow := g.queuedNow + 1, callsQueued := g.callsQueued + 1)
  }

  datatype Verdict = End(ending: Ending) | Stay(blockedBy: Block)

  /** The block recorded after this turn: only the front ticket looks at the gate again. */
  function BlockAfter(g: Gate, w: Waiter, live: Snapshot): Block
    requires g.perCall > 0
  {
    if g.queue != [] && g.queue[0] == w.ticket then BlockOf(g, live) else w.blockedBy
  }

  /** One pass of the wait loop. */
  function VerdictOf(g: Gate, w: Waiter, live: Snapshot, now: int): Verdict
    requires g.perCall > 0
  {
    if Closing(g) || w.epoch != g.epoch then End(ShutDown)
    else if g.queue != [] && g.queue[0] == w.ticket && BlockOf(g, live) == NoBlock then End(Admitted(g.epoch))
    else
      var block := BlockAfter(g, w, live);
      if now >= w.deadline then End(TimedOut(block == Descriptors)) else Stay(block)
  }

  function TurnGate(g: Gate, w: Waiter, live: Snapshot, now: int): Gate
    requires g.perCall > 0
  {
    match VerdictOf(g, w, live, now)
    case End(ShutDown) => RemoveTicket(g, w.ticket)
    case End(Admitted(_)) =>
      g.(queue := if g.queue == [] then [] else g.queue[1..],
         queuedNow := g.queuedNow - 1, admitted := g.admitted + 1)
    case End(TimedOut(onDescriptors)) =>
      var dropped := RemoveTicket(g, w.ticket);
      dropped.(queueTimeouts := g.queueTimeouts + 1,
               resourceRejections := g.resourceRejections + if onDescriptors then 1 else 0)
    case Stay(_) => g
  }

  /** A heartbeat is admitted only when nobody waits and nothing blocks. */
  predicate HeartbeatAdmitted(g: Gate, live: Snapshot)
    requires g.perCall > 0
  {
    g.queue == [] && BlockOf(g, live) == NoBlock
  }

  function TryAdmitGate(g: Gate, live: Snapshot): Gate
    requires g.perCall > 0
  {
    if HeartbeatAdmitted(g, live) then g.(admitted := g.admitted + 1) else g
  }

  function ReleaseGate(g: Gate): Gate {
    if g.admitted > 0 then g.(admitted := g.admitted - 1) else g
  }

  /** The locked section at the head of start(). */
  function RestartGate(g: Gate): Gate {
    g.(epoch := g.epoch + 1, queue := [], queuedNow := 0, admitted := 0, stopRequested := false)
  }

  // ---------------------------------------------------------------------------
  // The machine
  // ---------------------------------------------------------------------------

  /** Which transitions can be taken: a caller waits at most once at a time, only waiters take
      turns, and a run is configured with a positive per-call cost. */
  predicate Enabled(s: State, l: Label) {
    s.gate.perCall > 0 &&
    match l
    case Arrive(caller, _, _, _) => caller !in s.waiters
    case Retry(caller, _, _) => caller in s.waiters
    case Configure(perCall, _) => perCall > 0
    case _ => true
  }

  function Enter(s: State, caller: nat, live: Snapshot, now: int, queueTimeoutMs: int): State
    requires s.gate.perCall > 0
  {
    var g := s.gate;
    match EntryOf(g, live)
    case Refused => s
    case Admit => s.(gate := EnterGate(g, live), grants := s.grants + [OnArrival])
    case Join(block) =>
      s.(gate := EnterGate(g, live),
         waiters := s.waiters[caller := Waiter(g.nextTicket, g.epoch, now + queueTimeoutMs, block)],
         issued := s.issued[g.nextTicket := g.epoch])
  }

  function Turn(s: State, caller: nat, live: Snapshot, now: int): State
    requires s.gate.perCall > 0 && caller in s.waiters
  {
    var w := s.waiters[caller];
    var g' := TurnGate(s.gate, w, live, now);
    match VerdictOf(s.gate, w, live, now)
    case Stay(block) => s.(gate := g', waiters := s.waiters[caller := w.(blockedBy := block)])
    case End(ending) =>
      s.(gate := g', waiters := s.waiters - {caller}, ended := s.ended[w.ticket := ending],
         grants := if ending.Admitted? then s.grants + [ToTicket(w.ticket)] else s.grants)
  }

  function TryAdmit(s: State, live: Snapshot): State
    requires s.gate.perCall > 0
  {
    s.(gate := TryAdmitGate(s.gate, live),
       grants := if HeartbeatAdmitted(s.gate, live) then s.grants + [ToHeartbeat] else s.grants)
  }

  function Next(s: State, l: Label): State
    requires Enabled(s, l)
  {
    match l
    case Arrive(caller, live, now, queueTimeoutMs) => Enter(s, caller, live, now, queueTimeoutMs)
    case Retry(caller, live, now) => Turn(s, caller, live, now)
    case Beat(live) => TryAdmit(s, live)
    case Release => s.(gate := ReleaseGate(s.gate))
    case Restart => s.(gate := RestartGate(s.gate))
    case Configure(perCall, effective) => s.(gate := s.gate.(perCall := perCall, effective := effective))
    case Clear => s.(gate := s.gate.(admitted := 0))
    case SetStop => s.(gate := s.gate.(stopRequested := true))
    case SetShutdown => s.(gate := s.gate.(shutdown := true))
  }

  predicate Legal(s: State, ls: seq<Label>)
    decreases |ls|
  {
    ls == [] || (Enabled(s, ls[0]) && Legal(Next(s, ls[0]), ls[1..]))
  }

  function Exec(s: State, ls: seq<Label>): State
    requires Legal(s, ls)
    decreases |ls|
  {
    if ls == [] then s else Exec(Next(s, ls[0]), ls[1..])
  }

  // ---------------------------------------------------------------------------
  // What every run keeps
  // ---------------------------------------------------------------------------

  ghost predicate Increasing(queue: seq<nat>) {
    forall i, j :: 0 <= i < j < |queue| ==> queue[i] < queue[j]
  }

  /** The tickets queued are exactly those of this epoch's waiters. */
  ghost predicate QueueIsWaiters(s: State) {
    && (forall t :: t in s.gate.queue ==>
          exists c :: c in s.waiters && s.waiters[c].ticket == t && s.waiters[c].epoch == s.gate.epoch)
    && (forall c :: c in s.waiters && s.waiters[c].epoch == s.gate.epoch ==> s.waiters[c].ticket in s.gate.queue)
  }

  /** The tickets issued so far, each in an epoch no later than the current one. */
  ghost predicate IssuedOnce(issued: map<nat, nat>, nextTicket: nat, epoch: nat) {
    && nextTicket >= 1
    && (forall t: nat :: t in issued <==> 1 <= t < nextTicket)
    && (forall t :: t in issued ==> issued[t] <= epoch)
  }

  /** No two callers wait on one ticket. */
  ghost predicate OneCallerPerTicket(waiters: map<nat, Waiter>) {
    forall c, d :: c in waiters && d in waiters && waiters[c].ticket == waiters[d].ticket ==> c == d
  }

  /** Each ticket issued is either still waited on, under its own epoch, or ended, never both. */
  ghost predicate WaitingOrEnded(waiters: map<nat, Waiter>, issued: map<nat, nat>, ended: map<nat, Ending>) {
    && (forall c :: c in waiters ==> waiters[c].ticket in issued && waiters[c].ticket !in ended)
    && (forall c :: c in waiters ==> waiters[c].ticket in issued && waiters[c].epoch == issued[waiters[c].ticket])
    && ended.Keys <= issued.Keys
  }

  ghost predicate TicketsCounted(waiters: map<nat, Waiter>, issued: map<nat, nat>, ended: map<nat, Ending>) {
    |waiters| + |ended| == |issued|
  }

  ghost predicate TicketsPartition(s: State) {
    && IssuedOnce(s.issued, s.gate.nextTicket, s.gate.epoch)
    && OneCallerPerTicket(s.waiters)
    && WaitingOrEnded(s.waiters, s.issued, s.ended)
    && TicketsCounted(s.waiters, s.issued, s.ended)
  }

  function TimedOutTickets(ended: map<nat, Ending>): set<nat> {
    set t | t in ended && ended[t].TimedOut?
  }

  function RejectedTickets(ended: map<nat, Ending>): set<nat> {
    set t | t in ended && ended[t].TimedOut? && ended[t].onDescriptors
  }

  ghost predicate CountersAgree(s: State) {
    && s.gate.queuedNow == |s.gate.queue|
    && s.gate.callsQueued == |s.issued|
    && s.gate.queueTimeouts == |TimedOutTickets(s.ended)|
    && s.gate.resourceRejections == |RejectedTickets(s.ended)|
  }

  /** Queued grants went out in ticket order, and everything still queued is younger than all of them. */
  ghost predicate GrantsInOrder(grants: seq<Grant>, queue: seq<nat>) {
    && (forall i, j :: 0 <= i < j < |grants| && grants[i].ToTicket? && grants[j].ToTicket?
          ==> grants[i].ticket < grants[j].ticket)
    && (forall i, t :: 0 <= i < |grants| && grants[i].ToTicket? && t in queue ==> grants[i].ticket < t)
  }

  /** The tickets that ended admitted are those granted, each in the epoch it was issued in. */
  ghost predicate GrantsAreEndings(grants: seq<Grant>, issued: map<nat, nat>, ended: map<nat, Ending>) {
    && (forall i :: 0 <= i < |grants| && grants[i].ToTicket?
          ==> grants[i].ticket in ended && ended[grants[i].ticket].Admitted?)
    && (forall t :: t in ended && ended[t].Admitted?
          ==> ToTicket(t) in grants && t in issued && ended[t].epoch == issued[t])
  }

  /** The queue in arrival order, without duplicates, every ticket below the next one. */
  ghost predicate QueueInOrder(queue: seq<nat>, nextTicket: nat) {
    && Increasing(queue)
    && (forall t :: t in queue ==> 1 <= t < nextTicket)
  }

  ghost predicate Inv(s: State) {
    && s.gate.perCall > 0
    && s.gate.admitted >= 0
    && QueueInOrder(s.gate.queue, s.gate.nextTicket)
    && QueueIsWaiters(s)
    && TicketsPartition(s)
    && CountersAgree(s)
    && GrantsInOrder(s.grants, s.gate.queue)
    && GrantsAreEndings(s.grants, s.issued, s.ended)
  }

  /** The second queue is the first without the ticket. */
  ghost predicate WithoutTicket(queue: seq<nat>, queue': seq<nat>, ticket: nat) {
    && (forall t :: t in queue' <==> t in queue && t != ticket)
    && |queue'| == |queue| - if ticket in queue then 1 else 0
  }

  lemma {:induction false} WithoutRemovesOne(queue: seq<nat>, ticket: nat)
    requires Increasing(queue) && ticket in queue
    ensures Increasing(Without(queue, ticket))
    ensures WithoutTicket(queue, Without(queue, ticket), ticket)
  {
    var rest := queue[1..];
    if queue[0] != ticket {
      assert ticket in rest;
      WithoutRemovesOne(rest, ticket);
      var shorter := Without(rest, ticket);
      assert Without(queue, ticket) == [queue[0]] + shorter;
      HeadIsLeast(queue);
      IncreasingCons(queue[0], shorter);
    }
  }

  lemma HeadIsLeast(queue: seq<nat>)
    requires Increasing(queue) && queue != []
    ensures forall t :: t in queue[1..] ==> queue[0] < t
    ensures forall t :: t in queue <==> t == queue[0] || t in queue[1..]
    ensures Increasing(queue[1..])
  {
  }

  lemma IncreasingCons(t: nat, queue: seq<nat>)
    requires Increasing(queue) && forall u :: u in queue ==> t < u
    ensures Increasing([t] + queue)
  {
    var longer := [t] + queue;
    forall i, j | 0 <= i < j < |longer| ensures longer[i] < longer[j] {
      assert longer[j] == queue[j - 1] && longer[j] in queue;
    }
  }

  lemma IncreasingSnoc(queue: seq<nat>, t: nat)
    requires Increasing(queue) && forall u :: u in queue ==> 1 <= u < t
    ensures Increasing(queue + [t])
    ensures forall u :: u in queue + [t] <==> u in queue || u == t
  {
    var longer := queue + [t];
    forall i, j | 0 <= i < j < |longer| ensures longer[i] < longer[j] {
      assert longer[i] == queue[i] && longer[i] in queue;
    }
  }

  lemma TimedOutCounts(ended: map<nat, Ending>, t: nat, ending: Ending)
    requires t !in ended
    ensures |TimedOutTickets(ended[t := ending])| == |TimedOutTickets(ended)| + if ending.TimedOut? then 1 else 0
  {
    if ending.TimedOut? {
      assert TimedOutTickets(ended[t := ending]) == TimedOutTickets(ended) + {t};
    } else {
      assert TimedOutTickets(ended[t := ending]) == TimedOutTickets(ended);
    }
  }

  lemma RejectedCounts(ended: map<nat, Ending>, t: nat, ending: Ending)
    requires t !in ended
    ensures |RejectedTickets(ended[t := ending])|
            == |RejectedTickets(ended)| + if ending.TimedOut? && ending.onDescriptors then 1 else 0
  {
    if ending.TimedOut? && ending.onDescriptors {
      assert RejectedTickets(ended[t := ending]) == RejectedTickets(ended) + {t};
    } else {
      assert RejectedTickets(ended[t := ending]) == RejectedTickets(ended);
    }
  }

  lemma InvInitial()
    ensures Inv(INITIAL)
  {
  }

  // --- one transition at a time, one conjunct at a time ----------------------

  lemma EnterKeepsQueue(s: State, caller: nat, live: Snapshot, now: int, queueTimeoutMs: int)
    requires QueueInOrder(s.gate.queue, s.gate.nextTicket) && s.gate.nextTicket >= 1 && s.gate.perCall > 0 && caller !in s.waiters
    ensures QueueInOrder(Enter(s, caller, live, now, queueTimeoutMs).gate.queue, Enter(s, caller, live, now, queueTimeoutMs).gate.nextTicket)
  {
    if EntryOf(s.gate, live).Join? {
      IncreasingSnoc(s.gate.queue, s.gate.nextTicket);
    }
  }

  lemma EnterKeepsQueueIsWaiters(s: State, caller: nat, live: Snapshot, now: int, queueTimeoutMs: int)
    requires QueueIsWaiters(s) && s.gate.perCall > 0 && caller !in s.waiters
    ensures QueueIsWaiters(Enter(s, caller, live, now, queueTimeoutMs))
  {
    var s' := Enter(s, caller, live, now, queueTimeoutMs);
    if EntryOf(s.gate, live).Join? {
      forall t | t in s'.gate.queue
        ensures exists c :: c in s'.waiters && s'.waiters[c].ticket == t && s'.waiters[c].epoch == s'.gate.epoch
      {
        if t == s.gate.nextTicket {
          assert s'.waiters[caller].ticket == t;
        } else {
          var c :| c in s.waiters && s.waiters[c].ticket == t && s.waiters[c].epoch == s.gate.epoch;
          assert s'.waiters[c].ticket == t;
        }
      }
    }
  }

  lemma JoinKeepsOneCaller(waiters: map<nat, Waiter>, c: nat, w: Waiter)
    requires OneCallerPerTicket(waiters)
    requires forall d :: d in waiters ==> waiters[d].ticket != w.ticket
    ensures OneCallerPerTicket(waiters[c := w])
  {
  }

  lemma JoinKeepsWaiting(waiters: map<nat, Waiter>, issued: map<nat, nat>, ended: map<nat, Ending>, c: nat, w: Waiter)
    requires WaitingOrEnded(waiters, issued, ended)
    requires w.ticket !in issued
    ensures WaitingOrEnded(waiters[c := w], issued[w.ticket := w.epoch], ended)
  {
  }

  lemma JoinKeepsCount(waiters: map<nat, Waiter>, issued: map<nat, nat>, ended: map<nat, Ending>, c: nat, w: Waiter)
    requires TicketsCounted(waiters, issued, ended)
    requires c !in waiters && w.ticket !in issued
    ensures TicketsCounted(waiters[c := w], issued[w.ticket := w.epoch], ended)
  {
  }

  lemma EnterKeepsPartition(s: State, caller: nat, live: Snapshot, now: int, queueTimeoutMs: int)
    requires TicketsPartition(s) && s.gate.perCall > 0 && caller !in s.waiters
    ensures TicketsPartition(Enter(s, caller, live, now, queueTimeoutMs))
  {
    match EntryOf(s.gate, live)
    case Join(block) =>
      var w := Waiter(s.gate.nextTicket, s.gate.epoch, now + queueTimeoutMs, block);
      JoinKeepsOneCaller(s.waiters, caller, w);
      JoinKeepsWaiting(s.waiters, s.issued, s.ended, caller, w);
      JoinKeepsCount(s.waiters, s.issued, s.ended, caller, w);
    case _ =>
  }

  lemma EnterKeepsCounters(s: State, caller: nat, live: Snapshot, now: int, queueTimeoutMs: int)
    requires CountersAgree(s) && s.gate.nextTicket !in s.issued && s.gate.perCall > 0
    ensures CountersAgree(Enter(s, caller, live, now, queueTimeoutMs))
  {
    var grown := s.issued[s.gate.nextTicket := s.gate.epoch];
    assert grown.Keys == s.issued.Keys + {s.gate.nextTicket};
    assert |grown| == |s.issued| + 1;
  }

  lemma EnterKeepsGrants(s: State, caller: nat, live: Snapshot, now: int, queueTimeoutMs: int)
    requires GrantsInOrder(s.grants, s.gate.queue) && GrantsAreEndings(s.grants, s.issued, s.ended)
    requires IssuedOnce(s.issued, s.gate.nextTicket, s.gate.epoch) && WaitingOrEnded(s.waiters, s.issued, s.ended)
    requires s.gate.perCall > 0 && caller !in s.waiters
    ensures GrantsInOrder(Enter(s, caller, live, now, queueTimeoutMs).grants, Enter(s, caller, live, now, queueTimeoutMs).gate.queue)
  {
    var s' := Enter(s, caller, live, now, queueTimeoutMs);
    if EntryOf(s.gate, live).Join? {
      forall i, t | 0 <= i < |s.grants| && s.grants[i].ToTicket? && t in s'.gate.queue
        ensures s.grants[i].ticket < t
      {
        assert t in s.gate.queue || t == s.gate.nextTicket;
        assert s.grants[i].ticket in s.issued;
      }
    }
  }

  lemma GrantsGrow(grants: seq<Grant>, grant: Grant, issued: map<nat, nat>, ended: map<nat, Ending>)
    requires GrantsAreEndings(grants, issued, ended) && !grant.ToTicket?
    ensures GrantsAreEndings(grants + [grant], issued, ended)
  {
    forall t | t in ended && ended[t].Admitted? ensures ToTicket(t) in grants + [grant] {
      assert ToTicket(t) in grants;
    }
  }

  lemma EnterKeepsEndings(s: State, caller: nat, live: Snapshot, now: int, queueTimeoutMs: int)
    requires GrantsAreEndings(s.grants, s.issued, s.ended) && IssuedOnce(s.issued, s.gate.nextTicket, s.gate.epoch)
    requires s.gate.perCall > 0 && caller !in s.waiters
    ensures GrantsAreEndings(Enter(s, caller, live, now, queueTimeoutMs).grants, Enter(s, caller, live, now, queueTimeoutMs).issued, s.ended)
  {
    match EntryOf(s.gate, live)
    case Admit => GrantsGrow(s.grants, OnArrival, s.issued, s.ended);
    case _ =>
  }

  lemma LeaveKeepsPartition(waiters: map<nat, Waiter>, issued: map<nat, nat>, ended: map<nat, Ending>, c: nat, ending: Ending)
    requires WaitingOrEnded(waiters, issued, ended) && OneCallerPerTicket(waiters)
    requires c in waiters
    ensures OneCallerPerTicket(waiters - {c})
    ensures WaitingOrEnded(waiters - {c}, issued, ended[waiters[c].ticket := ending])
  {
  }

  lemma LeaveKeepsCount(waiters: map<nat, Waiter>, issued: map<nat, nat>, ended: map<nat, Ending>, c: nat, ending: Ending)
    requires TicketsCounted(waiters, issued, ended)
    requires c in waiters && waiters[c].ticket !in ended
    ensures TicketsCounted(waiters - {c}, issued, ended[waiters[c].ticket := ending])
  {
    assert (waiters - {c}).Keys == waiters.Keys - {c};
  }

  lemma StayKeepsPartition(waiters: map<nat, Waiter>, issued: map<nat, nat>, ended: map<nat, Ending>, c: nat, block: Block)
    requires WaitingOrEnded(waiters, issued, ended) && OneCallerPerTicket(waiters)
    requires c in waiters
    ensures var waiters' := waiters[c := waiters[c].(blockedBy := block)];
            OneCallerPerTicket(waiters') && WaitingOrEnded(waiters', issued, ended) && |waiters'| == |waiters|
  {
    assert waiters[c := waiters[c].(blockedBy := block)].Keys == waiters.Keys;
  }

  lemma TurnKeepsEpoch(s: State, caller: nat, live: Snapshot, now: int)
    requires s.gate.perCall > 0 && caller in s.waiters
    ensures var s' := Turn(s, caller, live, now);
            s'.issued == s.issued && s'.gate.nextTicket == s.gate.nextTicket && s'.gate.epoch == s.gate.epoch
  {
  }

  lemma TurnKeepsPartition(s: State, caller: nat, live: Snapshot, now: int)
    requires TicketsPartition(s) && s.gate.perCall > 0 && caller in s.waiters
    ensures TicketsPartition(Turn(s, caller, live, now))
  {
    TurnKeepsEpoch(s, caller, live, now);
    match VerdictOf(s.gate, s.waiters[caller], live, now)
    case Stay(block) => StayKeepsPartition(s.waiters, s.issued, s.ended, caller, block);
    case End(ending) =>
      LeaveKeepsPartition(s.waiters, s.issued, s.ended, caller, ending);
      LeaveKeepsCount(s.waiters, s.issued, s.ended, caller, ending);
  }

  /** However a wait ends, exactly its own ticket leaves the queue. */
  lemma TurnQueue(s: State, caller: nat, live: Snapshot, now: int)
    requires QueueInOrder(s.gate.queue, s.gate.nextTicket)
    requires s.gate.perCall > 0 && caller in s.waiters
    ensures QueueInOrder(Turn(s, caller, live, now).gate.queue, s.gate.nextTicket)
    ensures var w := s.waiters[caller]; var queue := Turn(s, caller, live, now).gate.queue;
            if VerdictOf(s.gate, w, live, now).Stay? then queue == s.gate.queue
            else WithoutTicket(s.gate.queue, queue, w.ticket)
  {
    var w := s.waiters[caller];
    if w.ticket in s.gate.queue {
      WithoutRemovesOne(s.gate.queue, w.ticket);
    }
  }

  lemma TurnKeepsQueueIsWaiters(s: State, caller: nat, live: Snapshot, now: int)
    requires QueueInOrder(s.gate.queue, s.gate.nextTicket) && QueueIsWaiters(s) && OneCallerPerTicket(s.waiters)
    requires s.gate.perCall > 0 && caller in s.waiters
    ensures QueueIsWaiters(Turn(s, caller, live, now))
  {
    TurnQueue(s, caller, live, now);
    var s' := Turn(s, caller, live, now);
    var w := s.waiters[caller];
    forall t | t in s'.gate.queue
      ensures exists c :: c in s'.waiters && s'.waiters[c].ticket == t && s'.waiters[c].epoch == s'.gate.epoch
    {
      var c :| c in s.waiters && s.waiters[c].ticket == t && s.waiters[c].epoch == s.gate.epoch;
      assert c in s'.waiters && s'.waiters[c].ticket == t;
    }
  }

  lemma TurnKeepsCounters(s: State, caller: nat, live: Snapshot, now: int)
    requires QueueInOrder(s.gate.queue, s.gate.nextTicket) && QueueIsWaiters(s) && CountersAgree(s)
    requires WaitingOrEnded(s.waiters, s.issued, s.ended)
    requires s.gate.perCall > 0 && caller in s.waiters
    ensures CountersAgree(Turn(s, caller, live, now))
  {
    TurnQueue(s, caller, live, now);
    var w := s.waiters[caller];
    match VerdictOf(s.gate, w, live, now)
    case Stay(_) =>
    case End(ending) =>
      TimedOutCounts(s.ended, w.ticket, ending);
      RejectedCounts(s.ended, w.ticket, ending);
  }

  lemma FrontIsOldest(queue: seq<nat>)
    requires Increasing(queue) && queue != []
    ensures forall t :: t in queue && t != queue[0] ==> queue[0] < t
  {
  }

  lemma GrantKeepsOrder(grants: seq<Grant>, queue: seq<nat>)
    requires GrantsInOrder(grants, queue) && Increasing(queue) && queue != []
    ensures GrantsInOrder(grants + [ToTicket(queue[0])], queue[1..])
  {
    var grants', rest := grants + [ToTicket(queue[0])], queue[1..];
    FrontIsOldest(queue);
    assert forall t :: t in rest ==> t in queue && queue[0] < t;
    assert queue[0] in queue;
    forall i, j | 0 <= i < j < |grants'| && grants'[i].ToTicket? && grants'[j].ToTicket?
      ensures grants'[i].ticket < grants'[j].ticket
    {
      assert grants'[i] == grants[i];
    }
  }

  lemma TurnKeepsGrants(s: State, caller: nat, live: Snapshot, now: int)
    requires QueueInOrder(s.gate.queue, s.gate.nextTicket) && QueueIsWaiters(s) && GrantsInOrder(s.grants, s.gate.queue)
    requires s.gate.perCall > 0 && caller in s.waiters
    ensures GrantsInOrder(Turn(s, caller, live, now).grants, Turn(s, caller, live, now).gate.queue)
  {
    var w := s.waiters[caller];
    match VerdictOf(s.gate, w, live, now)
    case End(Admitted(_)) => GrantKeepsOrder(s.grants, s.gate.queue);
    case _ => TurnQueue(s, caller, live, now);
  }

  lemma TurnKeepsEndings(s: State, caller: nat, live: Snapshot, now: int)
    requires GrantsAreEndings(s.grants, s.issued, s.ended) && WaitingOrEnded(s.waiters, s.issued, s.ended)
    requires s.gate.perCall > 0 && caller in s.waiters
    ensures GrantsAreEndings(Turn(s, caller, live, now).grants, s.issued, Turn(s, caller, live, now).ended)
  {
    var w := s.waiters[caller];
    match VerdictOf(s.gate, w, live, now)
    case Stay(_) =>
    case End(ending) => EndingKeepsEndings(s.grants, s.issued, s.ended, w, ending);
  }

  lemma EndingKeepsEndings(grants: seq<Grant>, issued: map<nat, nat>, ended: map<nat, Ending>, w: Waiter, ending: Ending)
    requires GrantsAreEndings(grants, issued, ended)
    requires w.ticket !in ended && w.ticket in issued && (ending.Admitted? ==> ending.epoch == issued[w.ticket])
    ensures GrantsAreEndings(if ending.Admitted? then grants + [ToTicket(w.ticket)] else grants,
                             issued, ended[w.ticket := ending])
  {
    var grants' := if ending.Admitted? then grants + [ToTicket(w.ticket)] else grants;
    forall t | t in ended[w.ticket := ending] && ended[w.ticket := ending][t].Admitted? ensures ToTicket(t) in grants' {
      if t == w.ticket {
        assert grants'[|grants|] == ToTicket(t);
      } else {
        assert t in ended && ToTicket(t) in grants;
      }
    }
  }

  lemma OtherKeepsInv(s: State, l: Label)
    requires Inv(s) && !l.Arrive? && !l.Retry? && Enabled(s, l)
    ensures Inv(Next(s, l))
  {
    if l.Beat? && HeartbeatAdmitted(s.gate, l.live) {
      GrantsGrow(s.grants, ToHeartbeat, s.issued, s.ended);
    }
  }

  lemma EnterKeepsInv(s: State, caller: nat, live: Snapshot, now: int, queueTimeoutMs: int)
    requires Inv(s) && s.gate.perCall > 0 && caller !in s.waiters
    ensures Inv(Enter(s, caller, live, now, queueTimeoutMs))
  {
    EnterKeepsQueue(s, caller, live, now, queueTimeoutMs);
    EnterKeepsQueueIsWaiters(s, caller, live, now, queueTimeoutMs);
    EnterKeepsPartition(s, caller, live, now, queueTimeoutMs);
    EnterKeepsCounters(s, caller, live, now, queueTimeoutMs);
    EnterKeepsGrants(s, caller, live, now, queueTimeoutMs);
    EnterKeepsEndings(s, caller, live, now, queueTimeoutMs);
  }

  lemma TurnKeepsInv(s: State, caller: nat, live: Snapshot, now: int)
    requires Inv(s) && s.gate.perCall > 0 && caller in s.waiters
    ensures Inv(Turn(s, caller, live, now))
  {
    TurnQueue(s, caller, live, now);
    TurnKeepsQueueIsWaiters(s, caller, live, now);
    TurnKeepsPartition(s, caller, live, now);
    TurnKeepsCounters(s, caller, live, now);
    TurnKeepsGrants(s, caller, live, now);
    TurnKeepsEndings(s, caller, live, now);
  }

  lemma InvStep(s: State, l: Label)
    requires Inv(s) && Enabled(s, l)
    ensures Inv(Next(s, l))
  {
    if l.Arrive? {
      EnterKeepsInv(s, l.caller, l.live, l.now, l.queueTimeoutMs);
    } else if l.Retry? {
      TurnKeepsInv(s, l.caller, l.live, l.now);
    } else {
      OtherKeepsInv(s, l);
    }
  }

  lemma {:induction false} InvRun(s: State, ls: seq<Label>)
    requires Inv(s) && Legal(s, ls)
    ensures Inv(Exec(s, ls))
    decreases |ls|
  {
    if ls != [] {
      InvStep(s, ls[0]);
      InvRun(Next(s, ls[0]), ls[1..]);
    }
  }
}
