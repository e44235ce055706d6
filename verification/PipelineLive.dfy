/** While the queues are open nobody sleeps on work that is there to be done, whoever has thrown. */
module PipelineLive {
  import opened QueueModel
  import opened Options
  import opened Pipeline
  import opened PipelinePhases
  import opened PipelineFlow
  import opened PipelineLog
  import opened PipelineRuns

  function PopNotifying(): WorkerPc -> nat { (pc: WorkerPc) => if pc.WPopNotify? then 1 else 0 }

  function PushNotifying(): WorkerPc -> nat { (pc: WorkerPc) => if pc.WPushNotify? then 1 else 0 }

  function Awake(): WorkerPc -> nat { (pc: WorkerPc) => if pc.WPop? then 1 else 0 }

  function Dead(): WorkerPc -> nat { (pc: WorkerPc) => if WorkerCrashed(pc) then 1 else 0 }

  function Asleep(): WorkerPc -> nat { (pc: WorkerPc) => if pc.WPopAsleep? then 1 else 0 }

  /** A producer asleep in push: the queue is full, or a worker that made room has yet to notify. */
  ghost predicate PushLive(s: State) {
    s.producer.PPushAsleep? && !s.input.closed ==> Full(s.input) || SumOver(s.workers, PopNotifying()) > 0
  }

  /** A logger asleep: no record is waiting, or whoever stored one has yet to notify. */
  ghost predicate LogLive(s: State) {
    s.logger.LPopAsleep? && !s.output.closed ==>
      s.output.buffer == [] || SumOver(s.workers, PushNotifying()) > 0 || s.watchdog.DStallNotify?
  }

  function PendingPush(pc: ProducerPc): nat {
    if pc.PPushNotify? then 1 else 0
  }

  /** A worker asleep: for every buffered signal another worker is about to look, a push has yet to notify, or a
      worker that was woken for it has thrown. */
  ghost predicate PopLive(s: State) {
    SumOver(s.workers, Asleep()) > 0 && !s.input.closed ==>
      |s.input.buffer| <= SumOver(s.workers, Awake()) + SumOver(s.workers, Dead()) + PendingPush(s.producer)
  }

  ghost predicate Live(s: State) {
    PushLive(s) && LogLive(s) && PopLive(s)
  }

  // ---------------------------------------------------------------- the producer

  /** What a producer's step that wakes no worker may do. */
  lemma ProducerAlone(s: State, act: Act)
    requires ProducerStep(s, act).Some? && !s.producer.PPushNotify?
    ensures var t := ProducerStep(s, act).value;
            && t.workers == s.workers && t.output == s.output && t.logger == s.logger
            && (t.watchdog == s.watchdog || s.watchdog.DWaitAsleep?)
            && (t.input.closed == s.input.closed)
            && |t.input.buffer| + PendingPush(s.producer) <= |s.input.buffer| + PendingPush(t.producer)
            && (t.producer.PPushAsleep? ==> t.input == s.input && (Full(s.input) || s.producer.PPushAsleep?))
  {
  }

  lemma ProducerNotifies(s: State, pick: nat)
    requires Live(s) && s.producer.PPushNotify? && ProducerGo(s, pick).Some?
    ensures Live(ProducerGo(s, pick).value)
  {
    if pick < |s.workers| && s.workers[pick].WPopAsleep? {
      SumUpdate(s.workers, PopNotifying(), pick, WPop);
      SumUpdate(s.workers, PushNotifying(), pick, WPop);
      SumUpdate(s.workers, Awake(), pick, WPop);
      SumUpdate(s.workers, Dead(), pick, WPop);
      SumUpdate(s.workers, Asleep(), pick, WPop);
    } else {
      NoneAsleep(s.workers);
    }
  }

  lemma {:induction false} NoneAsleep(ws: seq<WorkerPc>)
    requires forall i :: 0 <= i < |ws| ==> !ws[i].WPopAsleep?
    ensures SumOver(ws, Asleep()) == 0
  {
    if ws != [] {
      NoneAsleep(ws[..|ws| - 1]);
    }
  }

  lemma ProducerLive(s: State, act: Act)
    requires Live(s) && ProducerStep(s, act).Some?
    ensures Live(ProducerStep(s, act).value)
  {
    if s.producer.PPushNotify? {
      ProducerNotifies(s, act.pick);
    } else {
      ProducerAlone(s, act);
    }
  }

  // ---------------------------------------------------------------- the workers

  lemma WorkerPushLive(s: State, pc: WorkerPc, act: Act)
    requires WorkerAct(s, pc, act).Moves?
    ensures var m := WorkerAct(s, pc, act);
            && m.rest.input.closed == s.input.closed
            && (m.rest.producer.PPushAsleep? ==> s.producer.PPushAsleep? && !pc.WPopNotify?)
            && (Full(s.input) ==> Full(m.rest.input) || m.pc.WPopNotify?)
  {
  }

  lemma WorkerLogLive(s: State, pc: WorkerPc, act: Act)
    requires WorkerAct(s, pc, act).Moves?
    ensures var m := WorkerAct(s, pc, act);
            && m.rest.output.closed == s.output.closed
            && (m.rest.logger.LPopAsleep? ==> s.logger.LPopAsleep? && !pc.WPushNotify?)
            && (s.output.buffer == [] ==> m.rest.output.buffer == [] || m.pc.WPushNotify?)
            && (s.watchdog.DStallNotify? ==> m.rest.watchdog.DStallNotify?)
  {
  }

  lemma WorkerPopLive(s: State, pc: WorkerPc, act: Act)
    requires WorkerAct(s, pc, act).Moves?
    ensures var m := WorkerAct(s, pc, act);
            && PendingPush(m.rest.producer) == PendingPush(s.producer)
            && (m.pc.WPopAsleep? ==> m.rest.input.buffer == [])
            && (pc.WPop? && !m.pc.WPopAsleep? && !s.input.closed ==>
                  |m.rest.input.buffer| < |s.input.buffer| || WorkerCrashed(m.pc))
            && (WorkerCrashed(pc) ==> WorkerCrashed(m.pc))
            && |m.rest.input.buffer| <= |s.input.buffer|
  {
  }

  lemma WorkerLive(s: State, i: nat, act: Act)
    requires Live(s) && i < |s.workers| && WorkerStep(s, i, act).Some?
    ensures Live(WorkerStep(s, i, act).value)
  {
    var pc := s.workers[i];
    var m := WorkerAct(s, pc, act);
    var t := WorkerStep(s, i, act).value;
    WorkerCalm(s, pc, act);
    assert PushLive(t) by {
      WorkerPushLive(s, pc, act);
      SumUpdate(s.workers, PopNotifying(), i, m.pc);
    }
    assert LogLive(t) by {
      WorkerLogLive(s, pc, act);
      SumUpdate(s.workers, PushNotifying(), i, m.pc);
    }
    assert PopLive(t) by {
      WorkerPopLive(s, pc, act);
      SumUpdate(s.workers, Awake(), i, m.pc);
      SumUpdate(s.workers, Dead(), i, m.pc);
      SumUpdate(s.workers, Asleep(), i, m.pc);
    }
  }

  // ---------------------------------------------------------------- the other threads

  lemma LoggerLive(s: State, act: Act)
    requires Live(s) && LoggerStep(s, act).Some?
    ensures Live(LoggerStep(s, act).value)
  {
    LoggerLeavesInput(s, act);
    LoggerSleeps(s, act);
  }

  lemma LoggerSleeps(s: State, act: Act)
    requires LoggerStep(s, act).Some?
    ensures var t := LoggerStep(s, act).value;
            && (t.logger.LPopAsleep? ==> t.output == s.output && s.output.buffer == [])
  {
  }

  lemma WatchdogOutputLive(s: State, act: Act)
    requires WatchdogStep(s, act).Some?
    ensures var t := WatchdogStep(s, act).value;
            && t.output.closed == s.output.closed
            && (t.logger.LPopAsleep? ==> s.logger.LPopAsleep? && !s.watchdog.DStallNotify?)
            && (s.output.buffer == [] ==> t.output.buffer == [] || t.watchdog.DStallNotify?)
  {
  }

  lemma WatchdogLive(s: State, act: Act)
    requires Live(s) && WatchdogStep(s, act).Some?
    ensures Live(WatchdogStep(s, act).value)
  {
    WatchdogLeavesInput(s, act);
    WatchdogOutputLive(s, act);
  }

  lemma MainSparesReport(s: State, pick: nat)
    requires StartInv(s) && MainGo(s, pick).Some?
    ensures s.watchdog.DStallNotify? ==> MainGo(s, pick).value.watchdog == s.watchdog
  {
  }

  lemma MainPushLive(s: State, pick: nat)
    requires StartInv(s) && PushLive(s) && LogLive(s) && MainGo(s, pick).Some?
    ensures PushLive(MainGo(s, pick).value) && LogLive(MainGo(s, pick).value)
  {
    MainSparesReport(s, pick);
    MainOutput(s, pick);
    MainEffects(s, pick);
    MainWorkers(s, pick);
    if s.main.NotifyInEmpty? {
      SumSame(s.workers, WakeWorkers(s.workers), PopNotifying());
      SumSame(s.workers, WakeWorkers(s.workers), PushNotifying());
    } else if s.main.Start? && 2 <= s.main.next < |s.workers| + 2 {
      SumUpdate(s.workers, PopNotifying(), s.main.next - 2, WPop);
      SumUpdate(s.workers, PushNotifying(), s.main.next - 2, WPop);
    }
  }

  lemma MainPopLive(s: State, pick: nat)
    requires PhaseInv(s) && StartInv(s) && PopLive(s) && MainGo(s, pick).Some?
    ensures PopLive(MainGo(s, pick).value)
  {
    MainEffects(s, pick);
    MainWorkers(s, pick);
    if s.main.Start? && 2 <= s.main.next < |s.workers| + 2 {
      SumUpdate(s.workers, Awake(), s.main.next - 2, WPop);
      SumUpdate(s.workers, Dead(), s.main.next - 2, WPop);
      SumUpdate(s.workers, Asleep(), s.main.next - 2, WPop);
    }
  }

  // ---------------------------------------------------------------- every run

  lemma LiveKept(s: State, e: Event)
    requires PhaseInv(s) && StartInv(s) && Live(s) && Step(s, e).Some?
    ensures Live(Step(s, e).value)
  {
    match e.thread
    case Main =>
      MainPushLive(s, e.act.pick);
      MainPopLive(s, e.act.pick);
    case Producer => ProducerLive(s, e.act);
    case Worker(i) => WorkerLive(s, i, e.act);
    case Logger => LoggerLive(s, e.act);
    case Watchdog => WatchdogLive(s, e.act);
    case Clock =>
  }

  lemma {:induction false} LiveRun(s: State, es: seq<Event>)
    requires Inv(s) && Live(s) && Run(s, es).Some?
    ensures Live(Run(s, es).value)
  {
    if es != [] {
      var before := es[..|es| - 1];
      LiveRun(s, before);
      RunKeeps(s, before);
      LiveKept(Run(s, before).value, es[|es| - 1]);
    }
  }

  lemma InitLive(n: nat, inCap: nat, outCap: nat, escalate: bool, timeout: int)
    ensures Live(Init(n, inCap, outCap, escalate, timeout))
  {
    NoneAsleep(Init(n, inCap, outCap, escalate, timeout).workers);
  }

  /** In every reachable state, throws, spurious wake-ups and failed starts included. */
  lemma NobodyForgotten(s: State)
    requires Reachable(s)
    ensures Live(s)
  {
    var n, inCap, outCap, escalate, timeout, es := Origin(s);
    InitLive(n, inCap, outCap, escalate, timeout);
    LiveRun(Init(n, inCap, outCap, escalate, timeout), es);
  }
}
