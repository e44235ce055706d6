/** Where every log record is, how threads end, and what the exception counter admits. */
module PipelineLog {
  import opened QueueModel
  import opened Options
  import opened Pipeline
  import opened PipelinePhases
  import opened PipelineFlow

  // ---------------------------------------------------------------- the invariants

  /** Only the watchdog's records have ever been refused. */
  ghost predicate OutputQueue(q: Queue<Record>) {
    && Valid(q) && q.policy == DropOldest
    && forall i :: 0 <= i < |q.refused| ==> q.refused[i].StallRecord?
  }

  predicate LoggerCrashed(pc: LoggerPc) {
    pc.LCrashing? || pc == LExited(true)
  }

  /** Everything popped has been written in order, is in the logger's hands, or was lost when it threw. */
  ghost predicate LogInv(s: State) {
    && OutputQueue(s.output)
    && PoppedItems(s.output.removed) == s.books.written + s.books.lostRecords + HeldRecord(s.logger)
    && (s.books.lostRecords != [] ==> LoggerCrashed(s.logger))
    && s.books.logDrops <= s.output.dropped
  }

  ghost predicate Drained<T>(q: Queue<T>) {
    q.closed && q.buffer == []
  }

  /** A worker leaves normally only at end of stream, carries an honest drop count, and has been counted if it
      died by an exception. */
  ghost predicate WorkerOk(s: State, pc: WorkerPc) {
    && (pc == WExited(false) ==> Drained(s.input))
    && (pc.WStoreDrops? ==> pc.drops <= s.output.dropped)
    && (pc == WCrashing(SetFlag) || pc == WCrashing(NotifyWaiters) || pc == WExited(true) ==> s.books.exceptions > 0)
  }

  ghost predicate WorkersOk(s: State) {
    forall i :: 0 <= i < |s.workers| ==> WorkerOk(s, s.workers[i])
  }

  ghost predicate OthersOk(s: State) {
    && (s.logger.LFlush? || s.logger == LExited(false) ==> Drained(s.output))
    && (s.logger == LCrashing(SetFlag) || s.logger == LCrashing(NotifyWaiters) || s.logger == LExited(true)
        ==> s.books.exceptions > 0)
    && (s.producer == PCrashing(SetFlag) || s.producer == PCrashing(NotifyWaiters) || s.producer == PExited(true)
        ==> s.books.exceptions > 0)
    && (s.watchdog == DCrashing(SetFlag) || s.watchdog == DCrashing(NotifyWaiters) || s.watchdog == DExited(true)
        ==> s.books.exceptions > 0)
  }

  predicate WorkerCrashed(pc: WorkerPc) {
    pc.WCrashing? || pc == WExited(true)
  }

  predicate NothingLost(b: Ledger) {
    b.lost == [] && b.unlogged == []
  }

  /** Signals and results are lost only with a worker that threw. */
  ghost predicate LostInv(s: State) {
    !NothingLost(s.books) ==> exists i :: 0 <= i < |s.workers| && WorkerCrashed(s.workers[i])
  }

  // ---------------------------------------------------------------- pushes on the output queue

  lemma OutputPush(q: Queue<Record>, r: Record)
    requires OutputQueue(q) && (q.closed ==> r.StallRecord?)
    ensures OutputQueue(Enqueue(q, r).0)
    ensures PoppedItems(Enqueue(q, r).0.removed) == PoppedItems(q.removed)
    ensures Enqueue(q, r).0.dropped >= q.dropped
    ensures Enqueue(q, r).1 == !q.closed
  {
    PushRefines(q, r);
  }

  /** Nothing a step does makes a worker's promises false. */
  ghost predicate Favors(s: State, t: State) {
    && (Drained(s.input) ==> Drained(t.input))
    && s.output.dropped <= t.output.dropped
    && s.books.exceptions <= t.books.exceptions
  }

  lemma WorkersFavored(s: State, t: State)
    requires WorkersOk(s) && Favors(s, t) && t.workers == s.workers
    ensures WorkersOk(t)
  {
  }

  // ---------------------------------------------------------------- the producer

  lemma ProducerEffectFavors(s: State, t: State)
    requires ProducerEffect(s, t)
    ensures Favors(s, t)
  {
  }

  lemma ProducerFavors(s: State, act: Act)
    requires ProducerStep(s, act).Some?
    ensures var t := ProducerStep(s, act).value;
            && Favors(s, t) && t.output == s.output && t.logger == s.logger
            && t.books.(produced := 0, inputDrops := 0, exceptions := 0)
               == s.books.(produced := 0, inputDrops := 0, exceptions := 0)
  {
    ProducerDoes(s, act);
    ProducerEffectFavors(s, ProducerStep(s, act).value);
  }

  lemma ProducerSpares(s: State, act: Act)
    requires ProducerStep(s, act).Some?
    ensures var t := ProducerStep(s, act).value;
            t.watchdog == s.watchdog || t.watchdog.DWait?
  {
    ProducerDoes(s, act);
  }

  lemma ProducerCrash(s: State, act: Act)
    requires ProducerStep(s, act).Some?
    ensures var t := ProducerStep(s, act).value;
            && (t.producer == PCrashing(SetFlag) ==> t.books.exceptions > 0)
            && (t.producer == PCrashing(NotifyWaiters) ==> s.producer == PCrashing(SetFlag))
            && (t.producer == PExited(true) ==> s.producer == PCrashing(NotifyWaiters))
  {
  }

  lemma ProducerOthers(s: State, act: Act)
    requires OthersOk(s) && ProducerStep(s, act).Some?
    ensures OthersOk(ProducerStep(s, act).value)
  {
    ProducerFavors(s, act);
    ProducerSpares(s, act);
    ProducerCrash(s, act);
  }

  lemma ProducerLog(s: State, act: Act)
    requires LogInv(s) && WorkersOk(s) && LostInv(s) && ProducerStep(s, act).Some?
    ensures var t := ProducerStep(s, act).value; LogInv(t) && WorkersOk(t) && LostInv(t)
  {
    var t := ProducerStep(s, act).value;
    ProducerFavors(s, act);
    ProducerWakes(s, act);
    WorkersFavored(s, t.(workers := s.workers));
    if !NothingLost(s.books) {
      var i :| 0 <= i < |s.workers| && WorkerCrashed(s.workers[i]);
      assert WorkerCrashed(t.workers[i]);
    }
  }

  // ---------------------------------------------------------------- the workers

  lemma WorkerLog(s: State, pc: WorkerPc, act: Act)
    requires LogInv(s) && WorkerOk(s, pc) && WorkerAct(s, pc, act).Moves?
    requires pc.WPush? ==> !s.output.closed
    ensures LogInv(WorkerAct(s, pc, act).rest)
  {
    if pc.WPush? && act.Go? {
      OutputPush(s.output, DspRecord(pc.id));
    }
  }

  lemma WorkerFavors(s: State, pc: WorkerPc, act: Act)
    requires LogInv(s) && WorkerOk(s, pc) && WorkerAct(s, pc, act).Moves?
    ensures Favors(s, WorkerAct(s, pc, act).rest)
    ensures WorkerOk(WorkerAct(s, pc, act).rest, WorkerAct(s, pc, act).pc)
  {
  }

  lemma WorkerOthers(s: State, pc: WorkerPc, act: Act)
    requires OthersOk(s) && WorkerAct(s, pc, act).Moves?
    requires pc.WPush? ==> !s.output.closed
    ensures OthersOk(WorkerAct(s, pc, act).rest)
  {
  }

  lemma WorkerLosses(s: State, pc: WorkerPc, act: Act)
    requires WorkerAct(s, pc, act).Moves?
    ensures WorkerAct(s, pc, act).rest.books.lost != s.books.lost
            || WorkerAct(s, pc, act).rest.books.unlogged != s.books.unlogged
            ==> WorkerCrashed(WorkerAct(s, pc, act).pc)
    ensures WorkerCrashed(pc) ==> WorkerCrashed(WorkerAct(s, pc, act).pc)
  {
  }

  lemma WorkerKeepsLog(s: State, i: nat, act: Act)
    requires PhaseInv(s) && LogInv(s) && WorkersOk(s) && OthersOk(s) && LostInv(s)
    requires i < |s.workers| && WorkerStep(s, i, act).Some?
    ensures var t := WorkerStep(s, i, act).value; LogInv(t) && WorkersOk(t) && OthersOk(t) && LostInv(t)
  {
    var pc := s.workers[i];
    var m := WorkerAct(s, pc, act);
    WorkerCalm(s, pc, act);
    WorkerLog(s, pc, act);
    WorkerFavors(s, pc, act);
    WorkerOthers(s, pc, act);
    WorkersFavored(s, m.rest);
    WorkerLosses(s, pc, act);
    LostOneWorker(s, m.rest, i, m.pc);
  }

  lemma LostOneWorker(s: State, t: State, i: nat, pc: WorkerPc)
    requires LostInv(s) && i < |s.workers| && t.workers == s.workers
    requires t.books.lost != s.books.lost || t.books.unlogged != s.books.unlogged ==> WorkerCrashed(pc)
    requires WorkerCrashed(s.workers[i]) ==> WorkerCrashed(pc)
    ensures LostInv(SetWorker(t, i, pc))
  {
    var ws := t.workers[i := pc];
    assert ws[i] == pc;
    if !NothingLost(s.books) {
      var j :| 0 <= j < |s.workers| && WorkerCrashed(s.workers[j]);
      assert WorkerCrashed(ws[j]);
    }
  }

  // ---------------------------------------------------------------- the logger

  lemma LoggerPops(s: State, pick: nat)
    requires LogInv(s) && s.logger.LPop?
    ensures LogInv(LoggerGo(s, pick).value)
  {
    var ws := s.books.written;
    assert s.books.lostRecords == [] && ws + [] == ws;
    if s.output.buffer != [] {
      DequeueValid(s.output);
    }
  }

  lemma LoggerWrites(s: State, pick: nat)
    requires LogInv(s) && s.logger.LWrite?
    ensures LogInv(LoggerGo(s, pick).value)
  {
    var ws := s.books.written + [s.logger.record];
    assert s.books.lostRecords == [] && s.books.written + [] == s.books.written;
    assert ws + [] + [] == ws;
  }

  lemma LoggerGoLog(s: State, pick: nat)
    requires LogInv(s) && LoggerGo(s, pick).Some?
    ensures LogInv(LoggerGo(s, pick).value)
  {
    if s.logger.LPop? {
      LoggerPops(s, pick);
    } else if s.logger.LWrite? {
      LoggerWrites(s, pick);
    }
  }

  lemma LoggerThrows(s: State)
    requires LogInv(s) && LoggerStep(s, Throw).Some?
    ensures LogInv(LoggerStep(s, Throw).value)
  {
    assert s.books.lostRecords == [];
  }

  lemma LoggerFavors(s: State, act: Act)
    requires LoggerStep(s, act).Some?
    ensures var t := LoggerStep(s, act).value;
            && Favors(s, t) && t.workers == s.workers
            && t.books.lost == s.books.lost && t.books.unlogged == s.books.unlogged
  {
  }

  lemma LoggerOthers(s: State, act: Act)
    requires OthersOk(s) && LoggerStep(s, act).Some?
    ensures OthersOk(LoggerStep(s, act).value)
  {
  }

  lemma LoggerKeepsLog(s: State, act: Act)
    requires LogInv(s) && WorkersOk(s) && LostInv(s) && LoggerStep(s, act).Some?
    ensures var t := LoggerStep(s, act).value; LogInv(t) && WorkersOk(t) && LostInv(t)
  {
    LoggerFavors(s, act);
    WorkersFavored(s, LoggerStep(s, act).value);
    match act
    case Go(pick) => LoggerGoLog(s, pick);
    case Throw => LoggerThrows(s);
    case _ =>
  }

  // ---------------------------------------------------------------- the watchdog

  lemma WatchdogEffectOutput(s: State, t: State)
    requires OutputQueue(s.output) && WatchdogEffect(s, t)
    ensures OutputQueue(t.output) && PoppedItems(t.output.removed) == PoppedItems(s.output.removed)
    ensures t.output.dropped >= s.output.dropped
  {
    if s.watchdog.DStallPush? {
      OutputPush(s.output, StallRecord(Visited(s, s.watchdog.left + 1)));
    }
  }

  lemma WatchdogOutput(s: State, act: Act)
    requires OutputQueue(s.output) && WatchdogStep(s, act).Some?
    ensures var t := WatchdogStep(s, act).value;
            && OutputQueue(t.output) && PoppedItems(t.output.removed) == PoppedItems(s.output.removed)
            && t.output.dropped >= s.output.dropped
            && (t.logger == s.logger || (s.logger.LPopAsleep? && t.logger.LPop?))
  {
    WatchdogDoes(s, act);
    WatchdogEffectOutput(s, WatchdogStep(s, act).value);
  }

  lemma WatchdogBooks(s: State, act: Act)
    requires WatchdogStep(s, act).Some?
    ensures var b := WatchdogStep(s, act).value.books;
            && b.written == s.books.written && b.lostRecords == s.books.lostRecords && b.logDrops == s.books.logDrops
  {
    WatchdogDoes(s, act);
  }

  lemma WatchdogLog(s: State, act: Act)
    requires LogInv(s) && WatchdogStep(s, act).Some?
    ensures LogInv(WatchdogStep(s, act).value)
  {
    WatchdogOutput(s, act);
    WatchdogBooks(s, act);
  }

  lemma WatchdogFavors(s: State, act: Act)
    requires LogInv(s) && WatchdogStep(s, act).Some?
    ensures var t := WatchdogStep(s, act).value;
            && Favors(s, t) && t.workers == s.workers
            && t.books.lost == s.books.lost && t.books.unlogged == s.books.unlogged
  {
    WatchdogLeavesInput(s, act);
    WatchdogOutput(s, act);
    WatchdogCounts(s, act);
  }

  lemma WatchdogCounts(s: State, act: Act)
    requires WatchdogStep(s, act).Some?
    ensures var b := WatchdogStep(s, act).value.books;
            b.exceptions >= s.books.exceptions && b.unlogged == s.books.unlogged
  {
    WatchdogDoes(s, act);
  }

  lemma WatchdogEffectSpares(s: State, t: State)
    requires WatchdogEffect(s, t)
    ensures s.output.closed ==> t.output.closed && t.output.buffer == s.output.buffer
  {
  }

  lemma WatchdogSpares(s: State, act: Act)
    requires WatchdogStep(s, act).Some?
    ensures var t := WatchdogStep(s, act).value;
            && (t.producer == s.producer || t.producer.PWait?)
            && (t.logger == s.logger || t.logger.LPop?)
            && (s.output.closed ==> t.output.closed && t.output.buffer == s.output.buffer)
  {
    WatchdogDoes(s, act);
    WatchdogEffectSpares(s, WatchdogStep(s, act).value);
  }

  lemma WatchdogCrash(s: State, act: Act)
    requires WatchdogStep(s, act).Some?
    ensures var t := WatchdogStep(s, act).value;
            && (t.watchdog == DCrashing(SetFlag) ==> t.books.exceptions > 0)
            && (t.watchdog == DCrashing(NotifyWaiters) ==> s.watchdog == DCrashing(SetFlag))
            && (t.watchdog == DExited(true) ==> s.watchdog == DCrashing(NotifyWaiters))
  {
  }

  lemma WatchdogOthers(s: State, act: Act)
    requires LogInv(s) && OthersOk(s) && WatchdogStep(s, act).Some?
    ensures OthersOk(WatchdogStep(s, act).value)
  {
    WatchdogFavors(s, act);
    WatchdogSpares(s, act);
    WatchdogCrash(s, act);
  }

  // ---------------------------------------------------------------- the main thread

  /** The main thread closes the output queue, starts or wakes the logger, and ends nobody. */
  lemma MainOutput(s: State, pick: nat)
    requires StartInv(s) && MainGo(s, pick).Some?
    ensures var t := MainGo(s, pick).value;
            && t.books == s.books
            && (t.output == s.output || t.output == Close(s.output))
            && (t.input == s.input || t.input == Close(s.input))
            && (t.logger == s.logger || (t.logger == LPop && (s.logger.LPopAsleep? || s.logger.LNotStarted?)))
  {
  }

  lemma MainSparesWatchdog(s: State, pick: nat)
    requires StartInv(s) && MainGo(s, pick).Some?
    ensures var t := MainGo(s, pick).value;
            (t.watchdog.DCrashing? || t.watchdog.DExited? ==> t.watchdog == s.watchdog)
  {
  }

  lemma MainLog(s: State, pick: nat)
    requires StartInv(s) && LogInv(s) && OthersOk(s) && MainGo(s, pick).Some?
    ensures LogInv(MainGo(s, pick).value) && OthersOk(MainGo(s, pick).value)
    ensures Favors(s, MainGo(s, pick).value)
  {
    MainOutput(s, pick);
    MainEffects(s, pick);
    MainSparesWatchdog(s, pick);
  }

  lemma MainKeepsWorkers(s: State, pick: nat)
    requires StartInv(s) && WorkersOk(s) && LostInv(s) && MainGo(s, pick).Some?
    ensures WorkersOk(MainGo(s, pick).value) && LostInv(MainGo(s, pick).value)
  {
    var t := MainGo(s, pick).value;
    MainOutput(s, pick);
    MainWorkers(s, pick);
    WorkersFavored(s, t.(workers := s.workers));
    if !NothingLost(s.books) {
      var i :| 0 <= i < |s.workers| && WorkerCrashed(s.workers[i]);
      assert WorkerCrashed(t.workers[i]);
    }
  }

  // ---------------------------------------------------------------- every step

  ghost predicate LogsInv(s: State) {
    LogInv(s) && WorkersOk(s) && OthersOk(s) && LostInv(s)
  }

  lemma LogsKept(s: State, e: Event)
    requires PhaseInv(s) && StartInv(s) && LogsInv(s) && Step(s, e).Some?
    ensures LogsInv(Step(s, e).value)
  {
    match e.thread
    case Main =>
      MainLog(s, e.act.pick);
      MainKeepsWorkers(s, e.act.pick);
    case Producer =>
      ProducerLog(s, e.act);
      ProducerOthers(s, e.act);
    case Worker(i) =>
      WorkerKeepsLog(s, i, e.act);
    case Logger =>
      LoggerKeepsLog(s, e.act);
      LoggerOthers(s, e.act);
    case Watchdog =>
      WatchdogLog(s, e.act);
      WatchdogFavors(s, e.act);
      WatchdogOthers(s, e.act);
      WorkersFavored(s, Step(s, e).value);
    case Clock =>
      WorkersFavored(s, Step(s, e).value);
  }
}
