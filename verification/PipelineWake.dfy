/** No thread sleeps through the end: whoever is asleep on something that has already happened is owed a
    notification by a thread that is awake (src/shutdown_token.cpp:5-14, thread_safe_queue.hpp:105-112). */
module PipelineWake {
  import opened QueueModel
  import opened Options
  import opened Pipeline
  import opened PipelinePhases
  import opened PipelineFlow

  // ---------------------------------------------------------------- the invariants

  predicate TokenWaiter(s: State) {
    s.producer.PWaitAsleep? || s.watchdog.DWaitAsleep?
  }

  /** A worker whose handler has set the flag and not yet notified. */
  predicate WorkerOwes(pc: WorkerPc) {
    pc == WCrashing(NotifyWaiters)
  }

  ghost predicate SomeWorkerOwes(ws: seq<WorkerPc>) {
    exists i :: 0 <= i < |ws| && WorkerOwes(ws[i])
  }

  predicate OtherOwes(s: State) {
    || s.main.SignalNotify? || s.main.NotifyToken?
    || s.producer == PCrashing(NotifyWaiters) || s.logger == LCrashing(NotifyWaiters)
    || s.watchdog.DEscalateNotify? || s.watchdog == DCrashing(NotifyWaiters)
  }

  /** Asleep in waitFor with the flag set: some requestShutdown has yet to notify. */
  ghost predicate TokenInv(s: State) {
    s.token && TokenWaiter(s) ==> OtherOwes(s) || SomeWorkerOwes(s.workers)
  }

  /** Asleep on a closed queue: its close() has yet to notify. */
  ghost predicate QueueSleepers(s: State) {
    && (s.producer.PPushAsleep? && s.input.closed ==> Rank(s.main) <= 8)
    && (s.logger.LPopAsleep? && s.output.closed ==> Rank(s.main) <= 12)
  }

  ghost predicate WorkerSleepers(s: State) {
    s.input.closed && Rank(s.main) > 7 ==> forall i :: 0 <= i < |s.workers| ==> !s.workers[i].WPopAsleep?
  }

  ghost predicate WakeInv(s: State) {
    TokenInv(s) && QueueSleepers(s) && WorkerSleepers(s)
  }

  // ---------------------------------------------------------------- the token

  /** The flag goes up only in the hands of a thread that will notify, and nobody falls asleep once it is up. */
  ghost predicate TokenStep(s: State, t: State) {
    && (t.token && !s.token ==> OtherOwes(t))
    && (s.token && TokenWaiter(t) ==> TokenWaiter(s) && (OtherOwes(s) ==> OtherOwes(t)))
  }

  lemma ProducerGoToken(s: State, pick: nat)
    requires ProducerGo(s, pick).Some?
    ensures TokenStep(s, ProducerGo(s, pick).value)
  {
  }

  lemma ProducerToken(s: State, act: Act)
    requires ProducerStep(s, act).Some?
    ensures TokenStep(s, ProducerStep(s, act).value)
  {
    if act.Go? {
      ProducerGoToken(s, act.pick);
    }
  }

  lemma LoggerToken(s: State, act: Act)
    requires LoggerStep(s, act).Some?
    ensures TokenStep(s, LoggerStep(s, act).value)
  {
  }

  lemma WatchdogGoToken(s: State)
    requires WatchdogGo(s).Some?
    ensures TokenStep(s, WatchdogGo(s).value)
  {
  }

  lemma WatchdogToken(s: State, act: Act)
    requires WatchdogStep(s, act).Some?
    ensures TokenStep(s, WatchdogStep(s, act).value)
  {
    if act.Go? {
      WatchdogGoToken(s);
    }
  }

  lemma MainToken(s: State, pick: nat)
    requires StartInv(s) && MainGo(s, pick).Some?
    ensures TokenStep(s, MainGo(s, pick).value)
  {
  }

  /** The same for a worker, which may itself be the one that owes the notification. */
  lemma WorkerToken(s: State, pc: WorkerPc, act: Act)
    requires WorkerAct(s, pc, act).Moves?
    ensures var m := WorkerAct(s, pc, act);
            && (m.rest.token && !s.token ==> WorkerOwes(m.pc))
            && (TokenWaiter(m.rest) ==> TokenWaiter(s) && !WorkerOwes(pc) && (OtherOwes(s) ==> OtherOwes(m.rest)))
  {
  }

  lemma TokenOneWorker(s: State, i: nat, act: Act)
    requires TokenInv(s) && i < |s.workers| && WorkerStep(s, i, act).Some?
    ensures TokenInv(WorkerStep(s, i, act).value)
  {
    var m := WorkerAct(s, s.workers[i], act);
    WorkerToken(s, s.workers[i], act);
    WorkerCalm(s, s.workers[i], act);
    var ws := s.workers[i := m.pc];
    assert ws[i] == m.pc;
    if m.rest.token && TokenWaiter(m.rest) && s.token && !OtherOwes(s) {
      var j :| 0 <= j < |s.workers| && WorkerOwes(s.workers[j]);
      assert WorkerOwes(ws[j]);
    }
  }

  /** Whoever owes a notification is not asleep, so waking or starting others takes no debtor away. */
  lemma TokenOthers(s: State, t: State)
    requires TokenInv(s) && TokenStep(s, t) && |t.workers| == |s.workers|
    requires forall i :: 0 <= i < |s.workers| && WorkerOwes(s.workers[i]) ==> t.workers[i] == s.workers[i]
    ensures TokenInv(t)
  {
    if t.token && TokenWaiter(t) && s.token && !OtherOwes(s) {
      var j :| 0 <= j < |s.workers| && WorkerOwes(s.workers[j]);
      assert WorkerOwes(t.workers[j]);
    }
  }

  lemma TokenKept(s: State, e: Event)
    requires StartInv(s) && TokenInv(s) && Step(s, e).Some?
    ensures TokenInv(Step(s, e).value)
  {
    var t := Step(s, e).value;
    match e.thread
    case Main =>
      MainToken(s, e.act.pick);
      MainWorkers(s, e.act.pick);
      TokenOthers(s, t);
    case Producer =>
      ProducerToken(s, e.act);
      ProducerWakes(s, e.act);
      TokenOthers(s, t);
    case Worker(i) =>
      TokenOneWorker(s, i, e.act);
    case Logger =>
      LoggerToken(s, e.act);
      LoggerCalm(s, e.act);
      TokenOthers(s, t);
    case Watchdog =>
      WatchdogToken(s, e.act);
      WatchdogCalm(s, e.act);
      TokenOthers(s, t);
    case Clock =>
  }

  // ---------------------------------------------------------------- the queues

  /** Nobody falls asleep on a closed queue. */
  ghost predicate NoNewSleeper(s: State, t: State) {
    && (t.producer.PPushAsleep? ==> s.producer.PPushAsleep? || !s.input.closed)
    && (t.logger.LPopAsleep? ==> s.logger.LPopAsleep? || !s.output.closed)
  }

  lemma ProducerSleeps(s: State, act: Act)
    requires ProducerStep(s, act).Some?
    ensures NoNewSleeper(s, ProducerStep(s, act).value)
  {
  }

  lemma WorkerSleeps(s: State, pc: WorkerPc, act: Act)
    requires WorkerAct(s, pc, act).Moves?
    ensures NoNewSleeper(s, WorkerAct(s, pc, act).rest)
    ensures WorkerAct(s, pc, act).pc.WPopAsleep? ==> !s.input.closed
  {
  }

  lemma LoggerSleeps(s: State, act: Act)
    requires LoggerStep(s, act).Some?
    ensures NoNewSleeper(s, LoggerStep(s, act).value)
  {
  }

  lemma WatchdogSleeps(s: State, act: Act)
    requires WatchdogStep(s, act).Some?
    ensures NoNewSleeper(s, WatchdogStep(s, act).value)
  {
  }

  lemma MainQueueSleepers(s: State, pick: nat)
    requires PhaseInv(s) && QueueSleepers(s) && MainGo(s, pick).Some?
    ensures QueueSleepers(MainGo(s, pick).value)
  {
  }

  lemma MainWorkerSleepers(s: State, pick: nat)
    requires PhaseInv(s) && StartInv(s) && WorkerSleepers(s) && MainGo(s, pick).Some?
    ensures WorkerSleepers(MainGo(s, pick).value)
  {
    MainWorkers(s, pick);
    MainRank(s, pick);
  }

  lemma MainRank(s: State, pick: nat)
    requires MainGo(s, pick).Some?
    ensures var t := MainGo(s, pick).value;
            Rank(t.main) > 7 && Rank(s.main) <= 7 ==> s.main.NotifyInEmpty? && t.workers == WakeWorkers(s.workers)
  {
  }

  lemma WorkerWakeKept(s: State, i: nat, act: Act)
    requires QueueSleepers(s) && WorkerSleepers(s) && i < |s.workers| && WorkerStep(s, i, act).Some?
    ensures var t := WorkerStep(s, i, act).value; QueueSleepers(t) && WorkerSleepers(t)
  {
    WorkerCalm(s, s.workers[i], act);
    WorkerSleeps(s, s.workers[i], act);
  }

  lemma WakeKept(s: State, e: Event)
    requires PhaseInv(s) && StartInv(s) && WakeInv(s) && Step(s, e).Some?
    ensures WakeInv(Step(s, e).value)
  {
    TokenKept(s, e);
    match e.thread
    case Main =>
      MainQueueSleepers(s, e.act.pick);
      MainWorkerSleepers(s, e.act.pick);
    case Producer =>
      ProducerCalm(s, e.act);
      ProducerWakes(s, e.act);
      ProducerSleeps(s, e.act);
    case Worker(i) =>
      WorkerWakeKept(s, i, e.act);
    case Logger =>
      LoggerCalm(s, e.act);
      LoggerSleeps(s, e.act);
    case Watchdog =>
      WatchdogCalm(s, e.act);
      WatchdogSleeps(s, e.act);
    case Clock =>
  }
}
