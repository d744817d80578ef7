/** In every run, the library is entered in the order its contract demands, and the emitted events
    follow the life of the runtime. Nothing here needs to know what callers do. */
module RuntimeLogs {
  import opened SyncHealth
  import opened Runs
  import opened Runtime

  // ---------------------------------------------------------------------------
  // The library's typestate
  // ---------------------------------------------------------------------------

  function LibAt(pc: Pc): LibState {
    match pc
    case Away(away) => if away.Unborn? || away.Born? then Unloaded else Resting
    case Before(before) => if before.Setup? then Opened else Resting
    case Loop(_) => LibState.Serving
    case Announce(_, _) => LibState.Serving
    case Leaving => LibState.Serving
    case Drains(_) => Drained
    case Tail(tail) => if tail.FreeLib? then StoppedLib else Resting
  }

  ghost predicate TraceInv(s: Sys) {
    LibRun(s.trace) == Some(LibAt(s.pc))
  }

  /** The typestate at the proxy thread moves by one allowed call, or not at all. */
  ghost predicate LibMoves(s: Sys, s': Sys) {
    if s'.trace == s.trace then LibAt(s'.pc) == LibAt(s.pc)
    else exists c :: s'.trace == s.trace + [c] && LibStep(LibAt(s.pc), c) == Some(LibAt(s'.pc))
  }

  lemma ThreadMovesLib(s: Sys, thread: ThreadLabel)
    requires ThreadEnabled(s, thread)
    ensures LibMoves(s, ThreadNext(s, thread))
  {
    match thread
    case Boot => assert ThreadNext(s, thread).trace == s.trace + [NimMain];
    case OpenLibrary(ok) => assert ThreadNext(s, thread).trace == s.trace + [if ok then StartOk else StartNull];
    case EnterLoop(_) => assert ThreadNext(s, thread).trace == s.trace + [SyncInterval];
    case _ =>
  }

  lemma LoopMovesLib(s: Sys, loop: LoopLabel)
    requires s.adm.gate.perCall > 0 && LoopEnabled(s, loop)
    ensures LibMoves(s, LoopNext(s, loop))
  {
    var s' := LoopNext(s, loop);
    match loop
    case DispatchOne => assert s'.trace == s.trace + [ProxyCall];
    case IssueBeat => assert s'.trace == s.trace + [ProxyCall];
    case PumpOnce => assert s'.trace == s.trace + [Pump];
    case IssueSyncCall => assert s'.trace == s.trace + [if s.pc.loop.op then LibCall.OpSync else EthSync];
    case _ => assert s'.trace == s.trace;
  }

  lemma CloseMovesLib(s: Sys, close: CloseLabel)
    requires CloseEnabled(s, close)
    ensures LibMoves(s, CloseNext(s, close))
  {
    var s' := CloseNext(s, close);
    match close
    case EnterDraining => assert s'.trace == s.trace + [DrainBegins];
    case DrainPump => assert s'.trace == s.trace + [Pump];
    case StopLibrary => assert s'.trace == s.trace + [Stop];
    case FinishTail =>
      if s.pc.tail.FreeLib? {
        assert s'.trace == s.trace + [Free];
      }
    case _ =>
  }

  /** No caller, no start() or stop(), and no completion handler ever enters the library. */
  lemma OnlyTheLoopEntersTheLibrary(s: Sys, l: Label)
    requires Enabled(s, l) && (l.ByCaller? || l.ByStarter? || l.ByWorld? || l.ByLibrary?)
    ensures Next(s, l).trace == s.trace
  {
  }

  /** The library is never re-entered: it is called only by the proxy thread's own steps, and only when
      the thread is neither inside a call already nor in a completion handler. */
  lemma NoReentry(s: Sys, l: Label)
    requires Enabled(s, l) && Next(s, l).trace != s.trace
    ensures (l.ByThread? || l.InLoop? || l.InClose?) && CallOf(s.pc) == None
  {
    if l.ByCaller? || l.ByStarter? || l.ByWorld? || l.ByLibrary? {
      OnlyTheLoopEntersTheLibrary(s, l);
    }
  }

  lemma OthersKeepLib(s: Sys, l: Label)
    requires Enabled(s, l) && (l.ByCaller? || l.ByStarter? || l.ByWorld? || l.ByLibrary?)
    ensures LibAt(Next(s, l).pc) == LibAt(s.pc)
  {
    match l
    case ByCaller(c, call) => assert CallNext(s, c, call).pc == s.pc;
    case ByStarter(start) => StartersKeepLib(s, start);
    case ByLibrary(library) => LibraryKeepsLib(s, library);
    case _ =>
  }

  lemma StartersKeepLib(s: Sys, start: StartLabel)
    requires StartEnabled(s, start)
    ensures LibAt(StartNext(s, start).pc) == LibAt(s.pc)
  {
  }

  lemma LibraryKeepsLib(s: Sys, library: LibraryLabel)
    requires LibraryEnabled(s, library)
    ensures LibAt(LibraryNext(s, library).pc) == LibAt(s.pc)
  {
  }

  lemma TraceMoves(s: Sys, s': Sys)
    requires TraceInv(s) && LibMoves(s, s')
    ensures TraceInv(s')
  {
    if s'.trace != s.trace {
      var c :| s'.trace == s.trace + [c] && LibStep(LibAt(s.pc), c) == Some(LibAt(s'.pc));
      LibRunSnoc(s.trace, c);
    }
  }

  lemma StepMovesLib(s: Sys, l: Label)
    requires Enabled(s, l)
    ensures LibMoves(s, Next(s, l))
  {
    match l
    case ByThread(thread) => ThreadMovesLib(s, thread);
    case InLoop(loop) => LoopMovesLib(s, loop);
    case InClose(close) => CloseMovesLib(s, close);
    case _ =>
      OnlyTheLoopEntersTheLibrary(s, l);
      OthersKeepLib(s, l);
  }

  lemma TraceStep(s: Sys, l: Label)
    requires TraceInv(s) && Enabled(s, l)
    ensures TraceInv(Next(s, l))
  {
    StepMovesLib(s, l);
    TraceMoves(s, Next(s, l));
  }
}
