/** One heartbeat, written by its worker and read by a watchdog scan without a lock (include/radar/heartbeat.hpp,
    src/watchdog.cpp:59-77).  One step is one clock reading, one atomic store or one atomic load. */
module Heartbeats {
  import opened Options

  datatype HeartbeatState = WaitingForInput | Running

  /** The worker: markRunning stores the timestamp and then the state; markWaiting stores the state. */
  datatype WorkerPc = Between | HasRead(now: int) | HasStamped(now: int)

  /** The scan: `now` once, then the two words, in either order. */
  datatype ScanPc =
    | NotScanning
    | AtFirst(now: int)
    | SawState(now: int, state: HeartbeatState)
    | SawTime(now: int, stamp: int)
    | Decided(now: int, flagged: bool)

  /** beat is the time of the latest completed markRunning (the initial stamp before any); atRead remembers what
      was true at the moment the scan loaded the state. */
  datatype State = State(
    clock: int,
    stamp: int,
    state: HeartbeatState,
    worker: WorkerPc,
    scan: ScanPc,
    beat: int,
    atRead: Moment)

  datatype Moment = Moment(state: HeartbeatState, beat: int)

  datatype Event =
    | Tick(elapsed: nat)
    | WorkerReadsClock
    | WorkerStampsTime
    | WorkerMarksRunning
    | WorkerMarksWaiting
    | ScanReadsClock
    | ScanLoadsFirst
    | ScanLoadsSecond

  /** Whether state() is loaded before timestamp(), as the source does. */
  datatype ReadOrder = StateFirst | TimeFirst

  function Init(clock: int, stamp: int): State {
    State(clock, stamp, WaitingForInput, Between, NotScanning, stamp, Moment(WaitingForInput, stamp))
  }

  predicate Flags(now: int, state: HeartbeatState, stamp: int, timeout: int) {
    state == Running && now - stamp > timeout
  }

  function WorkerStep(s: State, e: Event): Option<State> {
    match e
    case WorkerReadsClock => if s.worker.Between? then Some(s.(worker := HasRead(s.clock))) else None
    case WorkerStampsTime =>
      if s.worker.HasRead? then Some(s.(stamp := s.worker.now, worker := HasStamped(s.worker.now))) else None
    case WorkerMarksRunning =>
      if s.worker.HasStamped? then Some(s.(state := Running, beat := s.worker.now, worker := Between)) else None
    case WorkerMarksWaiting => if s.worker.Between? then Some(s.(state := WaitingForInput)) else None
    case _ => None
  }

  function ScanStep(s: State, e: Event, order: ReadOrder, timeout: int): Option<State> {
    match e
    case ScanReadsClock =>
      if s.scan.NotScanning? || s.scan.Decided? then Some(s.(scan := AtFirst(s.clock))) else None
    case ScanLoadsFirst =>
      if !s.scan.AtFirst? then None
      else if order == StateFirst then
        Some(s.(scan := SawState(s.scan.now, s.state), atRead := Moment(s.state, s.beat)))
      else Some(s.(scan := SawTime(s.scan.now, s.stamp)))
    case ScanLoadsSecond =>
      if s.scan.SawState? then
        Some(s.(scan := Decided(s.scan.now, Flags(s.scan.now, s.scan.state, s.stamp, timeout))))
      else if s.scan.SawTime? then
        Some(s.(scan := Decided(s.scan.now, Flags(s.scan.now, s.state, s.scan.stamp, timeout)),
                atRead := Moment(s.state, s.beat)))
      else None
    case _ => None
  }

  function Step(s: State, e: Event, order: ReadOrder, timeout: int): Option<State> {
    match e
    case Tick(elapsed) => Some(s.(clock := s.clock + elapsed))
    case ScanReadsClock => ScanStep(s, e, order, timeout)
    case ScanLoadsFirst => ScanStep(s, e, order, timeout)
    case ScanLoadsSecond => ScanStep(s, e, order, timeout)
    case _ => WorkerStep(s, e)
  }

  function Run(s: State, es: seq<Event>, order: ReadOrder, timeout: int): Option<State> {
    if es == [] then Some(s)
    else
      match Run(s, es[..|es| - 1], order, timeout)
      case None => None
      case Some(s') => Step(s', es[|es| - 1], order, timeout)
  }

  // ---------------------------------------------------------------- no false stall

  /** A stall is real: when its state was read the worker was Running and its latest completed beat was already
      older than the timeout at the scan's time. */
  predicate RealStall(s: State, timeout: int) {
    s.scan.Decided? && s.scan.flagged ==> s.atRead.state == Running && s.scan.now - s.atRead.beat > timeout
  }

  /** The stamp is the latest completed beat or a newer one still being published, and never from the future. */
  ghost predicate Inv(s: State, timeout: int) {
    && s.beat <= s.stamp <= s.clock
    && (s.worker.HasRead? ==> s.stamp <= s.worker.now <= s.clock)
    && s.stamp == (if s.worker.HasStamped? then s.worker.now else s.beat)
    && !s.scan.SawTime?
    && (s.scan.SawState? ==> s.atRead.state == s.scan.state && s.atRead.beat <= s.stamp)
    && RealStall(s, timeout)
  }

  lemma StepKeeps(s: State, e: Event, timeout: int)
    requires Inv(s, timeout) && Step(s, e, StateFirst, timeout).Some?
    ensures Inv(Step(s, e, StateFirst, timeout).value, timeout)
  {
  }

  ghost predicate Reaches(s: State, order: ReadOrder, timeout: int, t: State) {
    exists es :: Run(s, es, order, timeout) == Some(t)
  }

  lemma {:induction false} RunKeeps(s: State, es: seq<Event>, timeout: int)
    requires Inv(s, timeout) && Run(s, es, StateFirst, timeout).Some?
    ensures Inv(Run(s, es, StateFirst, timeout).value, timeout)
  {
    if es != [] {
      RunKeeps(s, es[..|es| - 1], timeout);
      StepKeeps(Run(s, es[..|es| - 1], StateFirst, timeout).value, es[|es| - 1], timeout);
    }
  }

  /** Reading the state first never reports a false stall, in any interleaving. */
  lemma NoFalseStall(clock: int, stamp: int, timeout: int, s: State)
    requires stamp <= clock && Reaches(Init(clock, stamp), StateFirst, timeout, s)
    ensures RealStall(s, timeout)
  {
    var es :| Run(Init(clock, stamp), es, StateFirst, timeout) == Some(s);
    RunKeeps(Init(clock, stamp), es, timeout);
  }

  // ---------------------------------------------------------------- a hung worker is found

  predicate NotByWorker(e: Event) {
    e.Tick? || e.ScanLoadsFirst? || e.ScanLoadsSecond?
  }

  /** A worker hung in Running since before the timeout, and a scan at or past its clock reading. */
  ghost predicate Hung(s: State, now: int, timeout: int) {
    && s.state == Running && now - s.stamp > timeout
    && (s.scan == AtFirst(now) || s.scan == SawState(now, Running) || s.scan == Decided(now, true))
  }

  /** If the worker makes no step, the scan that has begun can only end by flagging it. */
  lemma {:induction false} HungIsFlagged(s: State, es: seq<Event>, now: int, timeout: int)
    requires Hung(s, now, timeout) && Run(s, es, StateFirst, timeout).Some?
    requires forall i :: 0 <= i < |es| ==> NotByWorker(es[i])
    ensures Hung(Run(s, es, StateFirst, timeout).value, now, timeout)
  {
    if es != [] {
      HungIsFlagged(s, es[..|es| - 1], now, timeout);
      assert NotByWorker(es[|es| - 1]);
    }
  }

  /** A scan that begins when a worker has been hung for longer than the timeout can only end by flagging it. */
  lemma HungIsFound(s: State, es: seq<Event>, timeout: int)
    requires s.state == Running && s.clock - s.stamp > timeout && (s.scan.NotScanning? || s.scan.Decided?)
    requires Run(Step(s, ScanReadsClock, StateFirst, timeout).value, es, StateFirst, timeout).Some?
    requires forall i :: 0 <= i < |es| ==> NotByWorker(es[i])
    ensures Hung(Run(Step(s, ScanReadsClock, StateFirst, timeout).value, es, StateFirst, timeout).value, s.clock, timeout)
  {
    HungIsFlagged(Step(s, ScanReadsClock, StateFirst, timeout).value, es, s.clock, timeout);
  }

  // ---------------------------------------------------------------- a beat is as fresh as its clock reading

  predicate IsWorkerEvent(e: Event) {
    e.WorkerReadsClock? || e.WorkerStampsTime? || e.WorkerMarksRunning? || e.WorkerMarksWaiting?
  }

  /** While the worker makes no step, its heartbeat and its position stay as they are. */
  lemma {:induction false} WorkerUntouched(s: State, es: seq<Event>, timeout: int)
    requires Run(s, es, StateFirst, timeout).Some? && forall i :: 0 <= i < |es| ==> !IsWorkerEvent(es[i])
    ensures var t := Run(s, es, StateFirst, timeout).value;
            t.worker == s.worker && t.stamp == s.stamp && t.state == s.state && t.beat == s.beat
  {
    if es != [] {
      WorkerUntouched(s, es[..|es| - 1], timeout);
      assert !IsWorkerEvent(es[|es| - 1]);
    }
  }

  /** markRunning(clock.now()), with anything of the scan and of the clock in between, publishes the time that was
      read and Running. */
  lemma FreshBeat(s: State, es: seq<Event>, fs: seq<Event>, timeout: int)
    requires s.worker.Between?
    requires forall i :: 0 <= i < |es| ==> !IsWorkerEvent(es[i])
    requires forall i :: 0 <= i < |fs| ==> !IsWorkerEvent(fs[i])
    requires var a := Step(s, WorkerReadsClock, StateFirst, timeout).value;
             Run(a, es, StateFirst, timeout).Some? && Run(a, es, StateFirst, timeout).value.worker.HasRead?
    requires var a := Step(s, WorkerReadsClock, StateFirst, timeout).value;
             var b := Step(Run(a, es, StateFirst, timeout).value, WorkerStampsTime, StateFirst, timeout).value;
             Run(b, fs, StateFirst, timeout).Some? && Run(b, fs, StateFirst, timeout).value.worker.HasStamped?
    ensures var a := Step(s, WorkerReadsClock, StateFirst, timeout).value;
            var b := Step(Run(a, es, StateFirst, timeout).value, WorkerStampsTime, StateFirst, timeout).value;
            var c := Step(Run(b, fs, StateFirst, timeout).value, WorkerMarksRunning, StateFirst, timeout).value;
            c.state == Running && c.stamp == s.clock && c.beat == s.clock
  {
    var a := Step(s, WorkerReadsClock, StateFirst, timeout).value;
    WorkerUntouched(a, es, timeout);
    var b := Step(Run(a, es, StateFirst, timeout).value, WorkerStampsTime, StateFirst, timeout).value;
    WorkerUntouched(b, fs, timeout);
  }

  // ---------------------------------------------------------------- a waiting worker is left in peace

  /** Waiting, and no scan has seen anything else. */
  predicate Peaceful(s: State) {
    && s.state == WaitingForInput
    && (s.scan.NotScanning? || s.scan.AtFirst? || (s.scan.SawState? && s.scan.state == WaitingForInput)
        || (s.scan.Decided? && !s.scan.flagged))
  }

  /** A worker that has marked itself waiting is not flagged until it marks itself running again, however long it
      waits. */
  lemma {:induction false} WaitingNotFlagged(s: State, es: seq<Event>, timeout: int)
    requires s.worker.Between? && (s.scan.NotScanning? || s.scan.AtFirst?)
    requires Run(Step(s, WorkerMarksWaiting, StateFirst, timeout).value, es, StateFirst, timeout).Some?
    requires forall i :: 0 <= i < |es| ==> es[i] != WorkerMarksRunning
    ensures Peaceful(Run(Step(s, WorkerMarksWaiting, StateFirst, timeout).value, es, StateFirst, timeout).value)
  {
    if es != [] {
      WaitingNotFlagged(s, es[..|es| - 1], timeout);
      assert es[|es| - 1] != WorkerMarksRunning;
    }
  }

  // ---------------------------------------------------------------- the other order

  lemma Then(s: State, t: State, e: Event, timeout: int) returns (u: State)
    requires Reaches(s, TimeFirst, timeout, t) && Step(t, e, TimeFirst, timeout).Some?
    ensures Some(u) == Step(t, e, TimeFirst, timeout) && Reaches(s, TimeFirst, timeout, u)
  {
    var es :| Run(s, es, TimeFirst, timeout) == Some(t);
    assert (es + [e])[..|es|] == es;
    u := Step(t, e, TimeFirst, timeout).value;
    assert Run(s, es + [e], TimeFirst, timeout) == Some(u);
  }

  /** The scan loads an old timestamp, the worker beats, the scan loads the fresh Running. */
  lemma FalseStall(clock: int, timeout: int) returns (s: State)
    ensures Reaches(Init(clock, clock), TimeFirst, timeout, s) && !RealStall(s, timeout)
  {
    var init := Init(clock, clock);
    assert Run(init, [], TimeFirst, timeout) == Some(init);
    s := Then(init, init, Tick(if timeout < 0 then 0 else timeout + 1), timeout);
    s := Then(init, s, ScanReadsClock, timeout);
    s := Then(init, s, ScanLoadsFirst, timeout);
    s := Then(init, s, Tick(if timeout < 0 then -timeout else 0), timeout);
    s := Then(init, s, WorkerReadsClock, timeout);
    s := Then(init, s, WorkerStampsTime, timeout);
    s := Then(init, s, WorkerMarksRunning, timeout);
    s := Then(init, s, ScanLoadsSecond, timeout);
  }

  ghost predicate NeverFalse(order: ReadOrder, timeout: int) {
    forall clock: int, stamp: int, s ::
      stamp <= clock && Reaches(Init(clock, stamp), order, timeout, s) ==> RealStall(s, timeout)
  }

  /** The order of the two loads is what makes the lock-free read sound. */
  lemma ReadOrderIff(order: ReadOrder, timeout: int)
    ensures NeverFalse(order, timeout) <==> order == StateFirst
  {
    if order == StateFirst {
      forall clock: int, stamp: int, s | stamp <= clock && Reaches(Init(clock, stamp), order, timeout, s)
        ensures RealStall(s, timeout) {
        NoFalseStall(clock, stamp, timeout, s);
      }
    } else {
      var s := FalseStall(0, timeout);
    }
  }
}
