/** The whole application as interleaved steps: one producer, any number of DSP workers, the logger, the
    watchdog and the main thread of Application::run, joined only by two queues and the shutdown token.
    One step is one lock section, one notification, or one atomic load or store of a shared counter or heartbeat;
    in between, the clock may advance by any amount. */
module Pipeline {
  import opened Options
  import opened QueueModel

  /** A log record: the result for one signal, or a stall report of the watchdog. */
  datatype Record = DspRecord(id: nat) | StallRecord(heartbeat: nat)

  /** The catch (...) block every thread ends in: count the exception, set the token, notify. */
  datatype Handler = Count | SetFlag | NotifyWaiters

  datatype ProducerPc =
    | PNotStarted
    | PCheck                       // while (!shutdownRequested())
    | PSample(since: int)          // reads the clock and calls markRunning; here since the given time
    | PPush(id: nat)               // about to lock in inputQueue_.push
    | PPushAsleep(id: nat)
    | PPushNotify
    | PCountProduced
    | PReadDrops
    | PStoreDrops(drops: nat)
    | PDeadline
    | PWait(timedOut: bool)        // about to evaluate the predicate of waitFor
    | PWaitAsleep
    | PCrashing(handler: Handler)
    | PExited(crashed: bool)

  datatype WorkerPc =
    | WNotStarted
    | WPop                         // about to lock in inputQueue_.waitAndPop
    | WPopAsleep
    | WPopNotify(id: nat)
    | WMark(id: nat, since: int)   // reads the clock and calls markRunning
    | WProcess(id: nat)
    | WPush(id: nat)               // about to lock in outputQueue_.push
    | WPushNotify
    | WReadDrops
    | WStoreDrops(drops: nat)
    | WMarkWaiting
    | WCrashing(handler: Handler)
    | WExited(crashed: bool)

  datatype LoggerPc =
    | LNotStarted
    | LPop
    | LPopAsleep
    | LPopNotify(record: Record, since: int)  // notifies nobody, reads the clock and calls markRunning
    | LWrite(record: Record)
    | LFlush
    | LCrashing(handler: Handler)
    | LExited(crashed: bool)

  datatype WatchdogPc =
    | DNotStarted
    | DWait(timedOut: bool)
    | DWaitAsleep
    | DBegin(left: nat)                      // about to read the clock for a scan
    | DScan(left: nat, stall: bool, now: int)
    | DStallPush(left: nat, now: int)
    | DStallNotify(left: nat, now: int)
    | DEscalate
    | DEscalateNotify
    | DCrashing(handler: Handler)
    | DExited(crashed: bool)

  datatype MainPc =
    | Start(next: nat)             // startThreads: logger, watchdog, workers, producer
    | Waiting                      // SignalHandler::waitForShutdown
    | SignalSet
    | SignalNotify
    | SetToken                     // Application::shutdown from here on
    | NotifyToken
    | CloseInput
    | NotifyInEmpty
    | NotifyInFull
    | JoinProducer
    | JoinWorker(index: nat)
    | CloseOutput
    | NotifyOutEmpty
    | NotifyOutFull
    | JoinLogger
    | JoinWatchdog
    | Finished

  /** Counters and gauges of Metrics, and a record of what became of every value. */
  datatype Ledger = Ledger(
    produced: nat,
    processed: seq<nat>,
    lost: seq<nat>,                // signals held by a worker that threw
    unlogged: seq<nat>,            // signals processed by a worker that threw before its push
    inputDrops: nat,
    logDrops: nat,
    written: seq<Record>,
    lostRecords: seq<Record>,      // records held by a logger that threw
    exceptions: nat,
    scans: nat,
    stalls: nat,                   // calls of reportStall
    flushed: bool)                 // the sinks have been flushed

  /** The two words of a heartbeat. */
  datatype Beat = Beat(running: bool, stamp: int)

  /** The clock, the liveness timeout and the heartbeats in the order of their registration: the producer's, one
      for each worker, the logger's (src/application.cpp:24-30). */
  datatype Timing = Timing(clock: int, timeout: int, beats: seq<Beat>)

  datatype State = State(
    main: MainPc,
    producer: ProducerPc,
    workers: seq<WorkerPc>,
    logger: LoggerPc,
    watchdog: WatchdogPc,
    escalate: bool,
    input: Queue<nat>,
    output: Queue<Record>,
    token: bool,
    books: Ledger,
    time: Timing)

  datatype Thread = Main | Producer | Worker(index: nat) | Logger | Watchdog | Clock

  /** `pick` resolves what the environment decides: which waiter is woken, whether a deadline was missed, when
      between two steps a thread reads the clock, whether a thread can be started, how far the clock advances. */
  datatype Act = Go(pick: nat) | Throw | SpuriousWake | Timeout

  datatype Event = Event(thread: Thread, act: Act)

  function Init(workers: nat, inputCapacity: nat, outputCapacity: nat, escalate: bool, timeout: int): State {
    State(Start(0), PNotStarted, seq(workers, _ => WNotStarted), LNotStarted, DNotStarted, escalate,
          Empty(inputCapacity, Block), Empty(outputCapacity, DropOldest), false,
          Ledger(0, [], [], [], 0, 0, [], [], 0, 0, 0, false),
          Timing(0, timeout, seq(workers + 2, _ => Beat(false, 0))))
  }

  // ---------------------------------------------------------------- heartbeats

  /** What a clock reading between `since` and the present can have returned. */
  function Reading(since: int, pick: nat, clock: int): int {
    if since + pick <= clock then since + pick else clock
  }

  function MarkRunning(time: Timing, k: nat, stamp: int): Timing {
    if k < |time.beats| then time.(beats := time.beats[k := Beat(true, stamp)]) else time
  }

  function MarkWaiting(time: Timing, k: nat): Timing {
    if k < |time.beats| then time.(beats := time.beats[k := time.beats[k].(running := false)]) else time
  }

  /** The test of scanOnce: Running, and the timestamp older than the timeout at the scan's time. */
  predicate Flagged(time: Timing, k: nat, now: int) {
    k < |time.beats| && time.beats[k].running && now - time.beats[k].stamp > time.timeout
  }

  // ---------------------------------------------------------------- notifications

  /** ShutdownToken's notify_all. */
  function WakeToken(s: State): State {
    s.(producer := if s.producer.PWaitAsleep? then PWait(false) else s.producer,
       watchdog := if s.watchdog.DWaitAsleep? then DWait(false) else s.watchdog)
  }

  /** inputQueue_.not_full_: only the producer waits there. */
  function WakeProducer(s: State): State {
    s.(producer := if s.producer.PPushAsleep? then PPush(s.producer.id) else s.producer)
  }

  /** outputQueue_.not_empty_: only the logger waits there. */
  function WakeLogger(s: State): State {
    s.(logger := if s.logger.LPopAsleep? then LPop else s.logger)
  }

  function Woken(pc: WorkerPc): WorkerPc {
    if pc.WPopAsleep? then WPop else pc
  }

  function WakeWorkers(ws: seq<WorkerPc>): (r: seq<WorkerPc>)
    ensures |r| == |ws|
  {
    seq(|ws|, i requires 0 <= i < |ws| => Woken(ws[i]))
  }

  function SetFlagStep(s: State): State {
    s.(token := true)
  }

  // ---------------------------------------------------------------- RadarProducer

  /** Where an exception can arise: not asleep, and not in a notification, which is noexcept. */
  predicate ProducerInTry(pc: ProducerPc) {
    !(pc.PNotStarted? || pc.PPushAsleep? || pc.PPushNotify? || pc.PWaitAsleep? || pc.PCrashing? || pc.PExited?)
  }

  function ProducerGo(s: State, pick: nat): Option<State> {
    match s.producer
    case PCheck =>
      Some(s.(producer := if s.token then PExited(false) else PSample(s.time.clock)))
    case PSample(since) =>
      Some(s.(time := MarkRunning(s.time, 0, Reading(since, pick, s.time.clock)), producer := PPush(|s.input.accepted|)))
    case PPush(id) =>
      if Full(s.input) && !s.input.closed then Some(s.(producer := PPushAsleep(id)))
      else
        var (q, stored) := Enqueue(s.input, id);
        Some(s.(input := q, producer := if stored then PPushNotify else PExited(false)))
    case PPushNotify =>
      if pick < |s.workers| && s.workers[pick].WPopAsleep? then
        Some(s.(workers := s.workers[pick := WPop], producer := PCountProduced))
      else if exists i :: 0 <= i < |s.workers| && s.workers[i].WPopAsleep? then None
      else Some(s.(producer := PCountProduced))
    case PCountProduced => Some(s.(books := s.books.(produced := s.books.produced + 1), producer := PReadDrops))
    case PReadDrops => Some(s.(producer := PStoreDrops(s.input.dropped)))
    case PStoreDrops(drops) => Some(s.(books := s.books.(inputDrops := drops), producer := PDeadline))
    case PDeadline =>
      if pick == 0 then Some(s.(producer := PCheck))
      else Some(s.(time := MarkWaiting(s.time, 0), producer := PWait(false)))
    case PWait(timedOut) =>
      Some(s.(producer := if s.token then PExited(false) else if timedOut then PCheck else PWaitAsleep))
    case PCrashing(Count) =>
      Some(s.(books := s.books.(exceptions := s.books.exceptions + 1), producer := PCrashing(SetFlag)))
    case PCrashing(SetFlag) => Some(SetFlagStep(s).(producer := PCrashing(NotifyWaiters)))
    case PCrashing(NotifyWaiters) => Some(WakeToken(s).(producer := PExited(true)))
    case _ => None
  }

  function ProducerStep(s: State, act: Act): Option<State> {
    match act
    case Go(pick) => ProducerGo(s, pick)
    case Throw => if ProducerInTry(s.producer) then Some(s.(producer := PCrashing(Count))) else None
    case SpuriousWake =>
      if s.producer.PPushAsleep? then Some(s.(producer := PPush(s.producer.id)))
      else if s.producer.PWaitAsleep? then Some(s.(producer := PWait(false)))
      else None
    case Timeout => if s.producer.PWaitAsleep? then Some(s.(producer := PWait(true))) else None
  }

  // ---------------------------------------------------------------- ThreadPool::workerLoop

  predicate WorkerInTry(pc: WorkerPc) {
    !(pc.WNotStarted? || pc.WPopAsleep? || pc.WPopNotify? || pc.WPushNotify? || pc.WCrashing? || pc.WExited?)
  }

  /** The signal a worker has taken from the queue and not yet counted as processed. */
  function Held(pc: WorkerPc): seq<nat> {
    match pc
    case WPopNotify(id) => [id]
    case WMark(id, _) => [id]
    case WProcess(id) => [id]
    case _ => []
  }

  /** The signal a worker has counted as processed and not yet pushed as a record. */
  function Unpushed(pc: WorkerPc): seq<nat> {
    match pc
    case WPush(id) => [id]
    case _ => []
  }

  function SetWorker(s: State, i: nat, pc: WorkerPc): State
    requires i < |s.workers|
  {
    s.(workers := s.workers[i := pc])
  }

  /** The effect of a worker's step on everything but its own position, and that position. */
  datatype WorkerMove = Blocked | Moves(rest: State, pc: WorkerPc)

  function WorkerGo(s: State, pc: WorkerPc): WorkerMove {
    match pc
    case WPop =>
      if s.input.buffer != [] then Moves(s.(input := Dequeue(s.input)), WPopNotify(s.input.buffer[0]))
      else Moves(s, if s.input.closed then WExited(false) else WPopAsleep)
    case WPopNotify(id) => Moves(WakeProducer(s), WMark(id, s.time.clock))
    case WMark(id, _) => Moves(s, WProcess(id))
    case WProcess(id) => Moves(s.(books := s.books.(processed := s.books.processed + [id])), WPush(id))
    case WPush(id) =>
      var (q, stored) := Enqueue(s.output, DspRecord(id));
      Moves(s.(output := q), if stored then WPushNotify else WReadDrops)
    case WPushNotify => Moves(WakeLogger(s), WReadDrops)
    case WReadDrops => Moves(s, WStoreDrops(s.output.dropped))
    case WStoreDrops(drops) => Moves(s.(books := s.books.(logDrops := drops)), WMarkWaiting)
    case WMarkWaiting => Moves(s, WPop)
    case WCrashing(Count) => Moves(s.(books := s.books.(exceptions := s.books.exceptions + 1)), WCrashing(SetFlag))
    case WCrashing(SetFlag) => Moves(SetFlagStep(s), WCrashing(NotifyWaiters))
    case WCrashing(NotifyWaiters) => Moves(WakeToken(s), WExited(true))
    case _ => Blocked
  }

  /** What dies with a worker that throws. */
  function Losses(b: Ledger, pc: WorkerPc): Ledger {
    b.(lost := b.lost + Held(pc), unlogged := b.unlogged + Unpushed(pc))
  }

  function WorkerAct(s: State, pc: WorkerPc, act: Act): WorkerMove {
    match act
    case Go(_) => WorkerGo(s, pc)
    case Throw =>
      if WorkerInTry(pc) then Moves(s.(books := Losses(s.books, pc)), WCrashing(Count)) else Blocked
    case SpuriousWake => if pc.WPopAsleep? then Moves(s, WPop) else Blocked
    case Timeout => Blocked
  }

  /** The effect of worker i's step on its heartbeat. */
  function WorkerBeat(time: Timing, i: nat, pc: WorkerPc, act: Act): Timing {
    if act.Go? && pc.WMark? then MarkRunning(time, i + 1, Reading(pc.since, act.pick, time.clock))
    else if act.Go? && pc.WMarkWaiting? then MarkWaiting(time, i + 1)
    else time
  }

  function WorkerStep(s: State, i: nat, act: Act): Option<State>
    requires i < |s.workers|
  {
    match WorkerAct(s, s.workers[i], act)
    case Moves(rest, pc) =>
      if i < |rest.workers| then Some(SetWorker(rest, i, pc).(time := WorkerBeat(s.time, i, s.workers[i], act)))
      else None
    case Blocked => None
  }

  // ---------------------------------------------------------------- Logger

  predicate LoggerInTry(pc: LoggerPc) {
    !(pc.LNotStarted? || pc.LPopAsleep? || pc.LCrashing? || pc.LExited?)
  }

  /** The record the logger has taken from the queue and not yet written. */
  function HeldRecord(pc: LoggerPc): seq<Record> {
    match pc
    case LPopNotify(r, _) => [r]
    case LWrite(r) => [r]
    case _ => []
  }

  function LoggerGo(s: State, pick: nat): Option<State> {
    match s.logger
    case LPop =>
      if s.output.buffer != [] then
        Some(s.(output := Dequeue(s.output), logger := LPopNotify(s.output.buffer[0], s.time.clock)))
      else Some(s.(logger := if s.output.closed then LFlush else LPopAsleep))
    case LPopNotify(r, since) =>
      Some(s.(time := MarkRunning(s.time, |s.workers| + 1, Reading(since, pick, s.time.clock)), logger := LWrite(r)))
    case LWrite(r) =>
      Some(s.(books := s.books.(written := s.books.written + [r]), time := MarkWaiting(s.time, |s.workers| + 1),
              logger := LPop))
    case LFlush => Some(s.(books := s.books.(flushed := true), logger := LExited(false)))
    case LCrashing(Count) =>
      Some(s.(books := s.books.(exceptions := s.books.exceptions + 1), logger := LCrashing(SetFlag)))
    case LCrashing(SetFlag) => Some(SetFlagStep(s).(logger := LCrashing(NotifyWaiters)))
    case LCrashing(NotifyWaiters) => Some(WakeToken(s).(logger := LExited(true)))
    case _ => None
  }

  function LoggerStep(s: State, act: Act): Option<State> {
    match act
    case Go(pick) => LoggerGo(s, pick)
    case Throw =>
      if LoggerInTry(s.logger) then
        Some(s.(books := s.books.(lostRecords := s.books.lostRecords + HeldRecord(s.logger)), logger := LCrashing(Count)))
      else None
    case SpuriousWake => if s.logger.LPopAsleep? then Some(s.(logger := LPop)) else None
    case Timeout => None
  }

  // ---------------------------------------------------------------- Watchdog

  predicate WatchdogInTry(pc: WatchdogPc) {
    !(pc.DNotStarted? || pc.DWaitAsleep? || pc.DStallNotify? || pc.DEscalate? || pc.DEscalateNotify? || pc.DCrashing?
      || pc.DExited?)
  }

  /** One heartbeat each for the producer, the logger and every worker. */
  function Heartbeats(s: State): nat {
    |s.workers| + 2
  }

  /** The heartbeat a scan comes to when `left` are left to visit. */
  function Visited(s: State, left: nat): nat {
    if left <= Heartbeats(s) then Heartbeats(s) - left else 0
  }

  function WatchdogGo(s: State): Option<State> {
    match s.watchdog
    case DWait(timedOut) =>
      if s.token then Some(s.(watchdog := DExited(false)))
      else if timedOut then
        Some(s.(watchdog := DBegin(Heartbeats(s)), books := s.books.(scans := s.books.scans + 1)))
      else Some(s.(watchdog := DWaitAsleep))
    case DBegin(left) => Some(s.(watchdog := DScan(left, false, s.time.clock)))
    case DScan(left, stall, now) =>
      if left == 0 then Some(s.(watchdog := if stall && s.escalate then DEscalate else DWait(false)))
      else if Flagged(s.time, Visited(s, left), now) then
        Some(s.(watchdog := DStallPush(left - 1, now), books := s.books.(stalls := s.books.stalls + 1)))
      else Some(s.(watchdog := DScan(left - 1, stall, now)))
    case DStallPush(left, now) =>
      var (q, stored) := Enqueue(s.output, StallRecord(Visited(s, left + 1)));
      Some(s.(output := q, watchdog := if stored then DStallNotify(left, now) else DScan(left, true, now)))
    case DStallNotify(left, now) => Some(WakeLogger(s).(watchdog := DScan(left, true, now)))
    case DEscalate => Some(SetFlagStep(s).(watchdog := DEscalateNotify))
    case DEscalateNotify => Some(WakeToken(s).(watchdog := DWait(false)))
    case DCrashing(Count) =>
      Some(s.(books := s.books.(exceptions := s.books.exceptions + 1), watchdog := DCrashing(SetFlag)))
    case DCrashing(SetFlag) => Some(SetFlagStep(s).(watchdog := DCrashing(NotifyWaiters)))
    case DCrashing(NotifyWaiters) => Some(WakeToken(s).(watchdog := DExited(true)))
    case _ => None
  }

  function WatchdogStep(s: State, act: Act): Option<State> {
    match act
    case Go(_) => WatchdogGo(s)
    case Throw => if WatchdogInTry(s.watchdog) then Some(s.(watchdog := DCrashing(Count))) else None
    case SpuriousWake => if s.watchdog.DWaitAsleep? then Some(s.(watchdog := DWait(false))) else None
    case Timeout => if s.watchdog.DWaitAsleep? then Some(s.(watchdog := DWait(true))) else None
  }

  // ---------------------------------------------------------------- Application::run and shutdown

  predicate ProducerGone(s: State) {
    s.producer.PNotStarted? || s.producer.PExited?
  }

  predicate WorkerGone(pc: WorkerPc) {
    pc.WNotStarted? || pc.WExited?
  }

  predicate LoggerGone(s: State) {
    s.logger.LNotStarted? || s.logger.LExited?
  }

  predicate WatchdogGone(s: State) {
    s.watchdog.DNotStarted? || s.watchdog.DExited?
  }

  /** One thread of startThreads; a start that throws goes straight to the rollback. */
  function StartStep(s: State, next: nat, pick: nat): State {
    var n := |s.workers|;
    if next > n + 2 then s.(main := Waiting)
    else if pick != 0 then s.(main := SetToken)
    else
      var s := s.(main := Start(next + 1));
      if next == 0 then s.(logger := LPop)
      else if next == 1 then s.(watchdog := DWait(false))
      else if next - 2 < n then SetWorker(s, next - 2, WPop)
      else s.(producer := PCheck)
  }

  function MainGo(s: State, pick: nat): Option<State> {
    match s.main
    case Start(next) => Some(StartStep(s, next, pick))
    case Waiting =>
      if pick == 0 then (if s.token then Some(s.(main := SetToken)) else None)
      else Some(s.(main := if pick == 1 then SignalSet else SetToken))
    case SignalSet => Some(SetFlagStep(s).(main := SignalNotify))
    case SignalNotify => Some(WakeToken(s).(main := SetToken))
    case SetToken => Some(SetFlagStep(s).(main := NotifyToken))
    case NotifyToken => Some(WakeToken(s).(main := CloseInput))
    case CloseInput => Some(s.(input := Close(s.input), main := NotifyInEmpty))
    case NotifyInEmpty => Some(s.(workers := WakeWorkers(s.workers), main := NotifyInFull))
    case NotifyInFull => Some(WakeProducer(s).(main := JoinProducer))
    case JoinProducer => if ProducerGone(s) then Some(s.(main := JoinWorker(0))) else None
    case JoinWorker(i) =>
      if i >= |s.workers| then Some(s.(main := CloseOutput))
      else if WorkerGone(s.workers[i]) then Some(s.(main := JoinWorker(i + 1)))
      else None
    case CloseOutput => Some(s.(output := Close(s.output), main := NotifyOutEmpty))
    case NotifyOutEmpty => Some(WakeLogger(s).(main := NotifyOutFull))
    case NotifyOutFull => Some(s.(main := JoinLogger))
    case JoinLogger => if LoggerGone(s) then Some(s.(main := JoinWatchdog)) else None
    case JoinWatchdog => if WatchdogGone(s) then Some(s.(main := Finished)) else None
    case Finished => None
  }

  function Step(s: State, e: Event): Option<State> {
    match e.thread
    case Main => if e.act.Go? then MainGo(s, e.act.pick) else None
    case Producer => ProducerStep(s, e.act)
    case Worker(i) => if i < |s.workers| then WorkerStep(s, i, e.act) else None
    case Logger => LoggerStep(s, e.act)
    case Watchdog => WatchdogStep(s, e.act)
    case Clock => if e.act.Go? then Some(s.(time := s.time.(clock := s.time.clock + e.act.pick))) else None
  }

  function Run(s: State, es: seq<Event>): Option<State> {
    if es == [] then Some(s)
    else
      match Run(s, es[..|es| - 1])
      case None => None
      case Some(s') => Step(s', es[|es| - 1])
  }
}
