/** The two logs of a runtime, as languages: the calls into the library and the events emitted. */
module Runs {
  import opened SyncHealth

  function Flatten<T>(segments: seq<seq<T>>): seq<T> {
    if segments == [] then [] else Flatten(segments[..|segments| - 1]) + segments[|segments| - 1]
  }

  lemma FlattenSnoc<T>(segments: seq<seq<T>>, segment: seq<T>)
    ensures Flatten(segments + [segment]) == Flatten(segments) + segment
  {
    assert (segments + [segment])[..|segments|] == segments;
  }

  // ---------------------------------------------------------------------------
  // The library
  // ---------------------------------------------------------------------------

  /** The entries into the library, all made by the proxy thread; DrainBegins is not an entry but
      marks the point where teardown stops issuing work. */
  datatype LibCall =
    | NimMain | StartNull | StartOk | SyncInterval
    | ProxyCall | EthSync | OpSync | Pump
    | DrainBegins | Stop | Free

  predicate IsWork(c: LibCall) {
    c.ProxyCall? || c.EthSync? || c.OpSync? || c.Pump?
  }

  /** One complete run, as the library sees it. */
  ghost predicate LibraryRun(run: seq<LibCall>) {
    run == [StartNull]
    || exists work: seq<LibCall>, pumps: seq<LibCall> ::
         && (forall i :: 0 <= i < |work| ==> IsWork(work[i]))
         && (forall i :: 0 <= i < |pumps| ==> pumps[i] == Pump)
         && run == [StartOk, SyncInterval] + work + [DrainBegins] + pumps + [Stop, Free]
  }

  datatype LibState = Unloaded | Resting | Opened | Serving | Drained | StoppedLib

  function LibStep(q: LibState, c: LibCall): Option<LibState> {
    match q
    case Unloaded => if c.NimMain? then Some(Resting) else None
    case Resting => if c.StartNull? then Some(Resting) else if c.StartOk? then Some(Opened) else None
    case Opened => if c.SyncInterval? then Some(Serving) else None
    case Serving => if IsWork(c) then Some(Serving) else if c.DrainBegins? then Some(Drained) else None
    case Drained => if c.Pump? then Some(Drained) else if c.Stop? then Some(StoppedLib) else None
    case StoppedLib => if c.Free? then Some(Resting) else None
  }

  /** The typestate a trace of library calls has reached, if every call in it was allowed. */
  function LibRun(trace: seq<LibCall>): Option<LibState> {
    if trace == [] then Some(Unloaded)
    else match LibRun(trace[..|trace| - 1])
         case None => None
         case Some(q) => LibStep(q, trace[|trace| - 1])
  }

  lemma LibRunSnoc(trace: seq<LibCall>, c: LibCall)
    ensures LibRun(trace + [c]) == match LibRun(trace) case None => None case Some(q) => LibStep(q, c)
  {
    assert (trace + [c])[..|trace|] == trace;
  }

  ghost predicate Work(calls: seq<LibCall>) {
    forall i :: 0 <= i < |calls| ==> IsWork(calls[i])
  }

  ghost predicate Pumps(calls: seq<LibCall>) {
    forall i :: 0 <= i < |calls| ==> calls[i] == Pump
  }

  /** What has been seen of the run in progress. */
  ghost predicate LibPartial(q: LibState, partial: seq<LibCall>) {
    match q
    case Unloaded => false
    case Resting => partial == []
    case Opened => partial == [StartOk]
    case Serving => exists work :: Work(work) && partial == [StartOk, SyncInterval] + work
    case Drained => exists work, pumps :: Work(work) && Pumps(pumps)
                      && partial == [StartOk, SyncInterval] + work + [DrainBegins] + pumps
    case StoppedLib => exists work, pumps :: Work(work) && Pumps(pumps)
                         && partial == [StartOk, SyncInterval] + work + [DrainBegins] + pumps + [Stop]
  }

  ghost predicate LibParsed(trace: seq<LibCall>, runs: seq<seq<LibCall>>, partial: seq<LibCall>, q: LibState) {
    && (forall i :: 0 <= i < |runs| ==> LibraryRun(runs[i]))
    && LibPartial(q, partial)
    && trace == [NimMain] + Flatten(runs) + partial
  }

  lemma LibPartialGrows(q: LibState, partial: seq<LibCall>, c: LibCall)
    requires LibPartial(q, partial) && LibStep(q, c).Some? && !LibStep(q, c).value.Resting?
    ensures LibPartial(LibStep(q, c).value, partial + [c])
  {
    match q
    case Resting =>
    case Opened =>
      assert Work([]);
      assert partial + [c] == [StartOk, SyncInterval] + [];
    case Serving =>
      var work :| Work(work) && partial == [StartOk, SyncInterval] + work;
      if IsWork(c) {
        assert Work(work + [c]);
        assert partial + [c] == [StartOk, SyncInterval] + (work + [c]);
      } else {
        assert Pumps([]);
        assert partial + [c] == [StartOk, SyncInterval] + work + [DrainBegins] + [];
      }
    case Drained =>
      var work, pumps :| Work(work) && Pumps(pumps)
        && partial == [StartOk, SyncInterval] + work + [DrainBegins] + pumps;
      if c.Pump? {
        assert Pumps(pumps + [c]);
        assert partial + [c] == [StartOk, SyncInterval] + work + [DrainBegins] + (pumps + [c]);
      }
  }

  lemma LibRunCloses(q: LibState, partial: seq<LibCall>, c: LibCall)
    requires LibPartial(q, partial) && LibStep(q, c) == Some(Resting)
    ensures LibraryRun(partial + [c])
  {
    if q.StoppedLib? {
      var work, pumps :| Work(work) && Pumps(pumps)
        && partial == [StartOk, SyncInterval] + work + [DrainBegins] + pumps + [Stop];
      assert partial + [c] == [StartOk, SyncInterval] + work + [DrainBegins] + pumps + [Stop, Free];
    }
  }

  /** Every allowed trace is NimMain, then complete runs, then the run in progress. */
  lemma {:induction false} LibraryTraceIsRuns(trace: seq<LibCall>) returns (runs: seq<seq<LibCall>>, partial: seq<LibCall>)
    requires LibRun(trace).Some? && trace != []
    ensures LibParsed(trace, runs, partial, LibRun(trace).value)
  {
    var before, c := trace[..|trace| - 1], trace[|trace| - 1];
    assert trace == before + [c];
    if before == [] {
      runs, partial := [], [];
    } else {
      var q := LibRun(before).value;
      var runs0, partial0 := LibraryTraceIsRuns(before);
      if LibStep(q, c) == Some(Resting) {
        LibParsedCloses(before, runs0, partial0, q, c);
        runs, partial := runs0 + [partial0 + [c]], [];
      } else {
        LibPartialGrows(q, partial0, c);
        runs, partial := runs0, partial0 + [c];
      }
    }
  }

  lemma LibParsedCloses(trace: seq<LibCall>, runs: seq<seq<LibCall>>, partial: seq<LibCall>, q: LibState, c: LibCall)
    requires LibParsed(trace, runs, partial, q) && LibStep(q, c) == Some(Resting)
    ensures LibParsed(trace + [c], runs + [partial + [c]], [], Resting)
  {
    var whole := partial + [c];
    LibRunCloses(q, partial, c);
    FlattenSnoc(runs, whole);
    Regroup([NimMain], Flatten(runs), partial, c);
    assert forall i :: 0 <= i <= |runs| ==> (runs + [whole])[i] == if i < |runs| then runs[i] else whole;
  }

  lemma Regroup<T>(a: seq<T>, b: seq<T>, p: seq<T>, c: T)
    ensures a + b + p + [c] == a + (b + (p + [c])) + []
  {
  }

  // ---------------------------------------------------------------------------
  // The events
  // ---------------------------------------------------------------------------

  /** An alternation of Degraded and Running, from a running start; low says where it ended. */
  ghost predicate Swings(swings: seq<Event>, low: bool) {
    && (forall i :: 0 <= i < |swings| ==>
          swings[i] == if i % 2 == 0 then StateChanged(Degraded, Running) else StateChanged(Running, Degraded))
    && (low <==> |swings| % 2 == 1)
  }

  function ServingState(low: bool): RunState {
    if low then Degraded else Running
  }

  /** One complete attempt to run, from one resting state to the next: refused for want of
      descriptors, refused by the library, stopped before the first good sync, or served. */
  ghost predicate RunEvents(events: seq<Event>, from: RunState, to: RunState) {
    || (to == Failed && events == [StateChanged(Failed, from)])
    || (to == Failed && events == [StateChanged(Starting, from), StateChanged(Failed, Starting), ProxyStarted(false)])
    || (to == Stopped && events == [StateChanged(Starting, from), ProxyStarted(false),
                                    StateChanged(Draining, Starting), StateChanged(Stopped, Draining), ProxyStopped])
    || (to == Stopped && ServedEvents(events, from))
  }

  ghost predicate ServedEvents(events: seq<Event>, from: RunState) {
    exists swings, low ::
      Swings(swings, low)
      && events == [StateChanged(Starting, from), StateChanged(Running, Starting), ProxyStarted(true)] + swings
                   + [StateChanged(Draining, ServingState(low)), StateChanged(Stopped, Draining), ProxyStopped]
  }

  datatype EventState =
    | AtRest(state: RunState)
    | Launched(from: RunState)
    | Up(from: RunState, low: bool, announced: bool)
    | Unlaunched(from: RunState)
    | Down
    | Gone
    | Nulled(from: RunState)

  function EventStep(q: EventState, e: Event): Option<EventState> {
    match q
    case AtRest(state) =>
      if e == StateChanged(Starting, state) then Some(Launched(state))
      else if e == StateChanged(Failed, state) then Some(AtRest(Failed)) else None
    case Launched(from) =>
      if e == StateChanged(Running, Starting) then Some(Up(from, false, false))
      else if e == StateChanged(Failed, Starting) then Some(Nulled(from))
      else if e == ProxyStarted(false) then Some(Unlaunched(from)) else None
    case Up(from, low, announced) =>
      if !announced then (if e == ProxyStarted(true) then Some(Up(from, low, true)) else None)
      else if e == StateChanged(ServingState(!low), ServingState(low)) then Some(Up(from, !low, true))
      else if e == StateChanged(Draining, ServingState(low)) then Some(Down) else None
    case Unlaunched(from) => if e == StateChanged(Draining, Starting) then Some(Down) else None
    case Down => if e == StateChanged(Stopped, Draining) then Some(Gone) else None
    case Gone => if e == ProxyStopped then Some(AtRest(Stopped)) else None
    case Nulled(_) => if e == ProxyStarted(false) then Some(AtRest(Failed)) else None
  }

  /** Where a log of events has got to, if each event was allowed after the ones before it. */
  function EventRun(events: seq<Event>): Option<EventState> {
    if events == [] then Some(AtRest(Idle))
    else match EventRun(events[..|events| - 1])
         case None => None
         case Some(q) => EventStep(q, events[|events| - 1])
  }

  lemma EventRunSnoc(events: seq<Event>, e: Event)
    ensures EventRun(events + [e]) == match EventRun(events) case None => None case Some(q) => EventStep(q, e)
  {
    assert (events + [e])[..|events|] == events;
  }

  ghost predicate EventPartial(q: EventState, partial: seq<Event>, from: RunState) {
    match q
    case AtRest(state) => partial == [] && state == from
    case Launched(f) => f == from && partial == [StateChanged(Starting, from)]
    case Up(f, low, announced) =>
      f == from &&
      if announced
      then exists swings :: Swings(swings, low)
             && partial == [StateChanged(Starting, from), StateChanged(Running, Starting), ProxyStarted(true)] + swings
      else !low && partial == [StateChanged(Starting, from), StateChanged(Running, Starting)]
    case Unlaunched(f) => f == from && partial == [StateChanged(Starting, from), ProxyStarted(false)]
    case Down => Descending(partial, from, [])
    case Gone => Descending(partial, from, [StateChanged(Stopped, Draining)])
    case Nulled(f) => f == from && partial == [StateChanged(Starting, from), StateChanged(Failed, Starting)]
  }

  ghost predicate Descending(partial: seq<Event>, from: RunState, tail: seq<Event>) {
    || partial == [StateChanged(Starting, from), ProxyStarted(false), StateChanged(Draining, Starting)] + tail
    || exists swings, low :: Swings(swings, low)
         && partial == [StateChanged(Starting, from), StateChanged(Running, Starting), ProxyStarted(true)] + swings
                       + [StateChanged(Draining, ServingState(low))] + tail
  }

  /** Complete attempts, each resting where the next one starts. */
  ghost predicate Chain(runs: seq<seq<Event>>, rests: seq<RunState>) {
    && |rests| == |runs| + 1 && rests[0] == Idle
    && (forall i :: 0 <= i < |runs| ==> RunEvents(runs[i], rests[i], rests[i + 1]))
  }

  ghost predicate EventsParsed(events: seq<Event>, runs: seq<seq<Event>>, rests: seq<RunState>, partial: seq<Event>,
                               q: EventState)
  {
    && Chain(runs, rests)
    && EventPartial(q, partial, rests[|runs|])
    && events == Flatten(runs) + partial
  }

  lemma UpGrows(q: EventState, partial: seq<Event>, from: RunState, e: Event)
    requires q.Up? && q.announced && EventPartial(q, partial, from) && EventStep(q, e).Some?
    ensures EventPartial(EventStep(q, e).value, partial + [e], from)
  {
    var head := [StateChanged(Starting, from), StateChanged(Running, Starting), ProxyStarted(true)];
    var swings :| Swings(swings, q.low) && partial == head + swings;
    if e == StateChanged(ServingState(!q.low), ServingState(q.low)) {
      assert Swings(swings + [e], !q.low);
      assert partial + [e] == head + (swings + [e]);
    } else {
      assert partial + [e] == head + swings + [e] + [];
      assert Descending(partial + [e], from, []);
    }
  }

  lemma DownGrows(partial: seq<Event>, from: RunState, e: Event)
    requires Descending(partial, from, []) && e == StateChanged(Stopped, Draining)
    ensures Descending(partial + [e], from, [e])
  {
    if partial != [StateChanged(Starting, from), ProxyStarted(false), StateChanged(Draining, Starting)] {
      var swings, low :| Swings(swings, low)
        && partial == [StateChanged(Starting, from), StateChanged(Running, Starting), ProxyStarted(true)] + swings
                      + [StateChanged(Draining, ServingState(low))] + [];
      assert partial + [e] == [StateChanged(Starting, from), StateChanged(Running, Starting), ProxyStarted(true)] + swings
                              + [StateChanged(Draining, ServingState(low))] + [e];
    }
  }

  lemma GoneCloses(partial: seq<Event>, from: RunState)
    requires Descending(partial, from, [StateChanged(Stopped, Draining)])
    ensures RunEvents(partial + [ProxyStopped], from, Stopped)
  {
    var stopped := StateChanged(Stopped, Draining);
    if partial != [StateChanged(Starting, from), ProxyStarted(false), StateChanged(Draining, Starting)] + [stopped] {
      var swings, low :| Swings(swings, low)
        && partial == [StateChanged(Starting, from), StateChanged(Running, Starting), ProxyStarted(true)] + swings
                      + [StateChanged(Draining, ServingState(low))] + [stopped];
      assert partial + [ProxyStopped]
          == [StateChanged(Starting, from), StateChanged(Running, Starting), ProxyStarted(true)] + swings
             + [StateChanged(Draining, ServingState(low)), stopped, ProxyStopped];
    }
  }

  lemma EventPartialGrows(q: EventState, partial: seq<Event>, from: RunState, e: Event)
    requires EventPartial(q, partial, from) && EventStep(q, e).Some? && !EventStep(q, e).value.AtRest?
    ensures EventPartial(EventStep(q, e).value, partial + [e], from)
  {
    match q
    case Up(_, _, true) => UpGrows(q, partial, from, e);
    case Up(_, _, false) => assert Swings([], false);
    case Down => DownGrows(partial, from, e);
    case _ =>
  }

  lemma EventPartialCloses(q: EventState, partial: seq<Event>, from: RunState, e: Event)
    requires EventPartial(q, partial, from) && EventStep(q, e).Some? && EventStep(q, e).value.AtRest?
    ensures RunEvents(partial + [e], from, EventStep(q, e).value.state)
  {
    if q.Gone? {
      GoneCloses(partial, from);
    }
  }

  /** Every allowed log is a chain of complete attempts, then the attempt in progress. */
  lemma {:induction false} EventLogIsRuns(events: seq<Event>)
    returns (runs: seq<seq<Event>>, rests: seq<RunState>, partial: seq<Event>)
    requires EventRun(events).Some?
    ensures EventsParsed(events, runs, rests, partial, EventRun(events).value)
  {
    if events == [] {
      runs, rests, partial := [], [Idle], [];
    } else {
      var before, e := events[..|events| - 1], events[|events| - 1];
      assert events == before + [e];
      var q := EventRun(before).value;
      var runs0, rests0, partial0 := EventLogIsRuns(before);
      var from := rests0[|runs0|];
      var q' := EventStep(q, e).value;
      if q'.AtRest? {
        EventPartialCloses(q, partial0, from, e);
        runs, rests, partial := runs0 + [partial0 + [e]], rests0 + [q'.state], [];
        FlattenSnoc(runs0, partial0 + [e]);
      } else {
        EventPartialGrows(q, partial0, from, e);
        runs, rests, partial := runs0, rests0, partial0 + [e];
      }
    }
  }
}
