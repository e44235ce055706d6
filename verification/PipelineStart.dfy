/** Application::startThreads starts everybody or rolls back (src/application.cpp:47-88). */
module PipelineStart {
  import opened QueueModel
  import opened Options
  import opened Pipeline
  import opened PipelinePhases
  import opened PipelineFlow
  import opened PipelineRuns

  ghost predicate WorkersStarted(s: State) {
    forall i :: 0 <= i < |s.workers| ==> !s.workers[i].WNotStarted?
  }

  /** Each start() that has been passed has started its thread, and the signal wait is reached only with every
      thread started. */
  ghost predicate StartedInv(s: State) {
    && (s.main.Start? ==>
         && (s.main.next > 0 ==> !s.logger.LNotStarted?)
         && (s.main.next > 1 ==> !s.watchdog.DNotStarted?)
         && (s.main.next > |s.workers| + 2 ==> !s.producer.PNotStarted?))
    && (s.main.Waiting? || s.main.SignalSet? || s.main.SignalNotify? ==>
         !s.logger.LNotStarted? && !s.watchdog.DNotStarted? && !s.producer.PNotStarted?)
  }

  lemma CalmStarted(s: State, t: State)
    requires StartedInv(s) && Calm(s, t) && |t.workers| == |s.workers|
    ensures StartedInv(t)
  {
  }

  lemma MainStarted(s: State, pick: nat)
    requires StartInv(s) && StartedInv(s) && MainGo(s, pick).Some?
    ensures StartedInv(MainGo(s, pick).value)
  {
  }

  lemma StartedKept(s: State, e: Event)
    requires StartInv(s) && StartedInv(s) && Step(s, e).Some?
    ensures StartedInv(Step(s, e).value)
  {
    var t := Step(s, e).value;
    PoolSize(s, e);
    match e.thread
    case Main => MainStarted(s, e.act.pick);
    case Producer =>
      ProducerCalm(s, e.act);
      CalmStarted(s, t);
    case Worker(i) =>
      WorkerCalm(s, s.workers[i], e.act);
      CalmStarted(s, t);
    case Logger =>
      LoggerCalm(s, e.act);
      CalmStarted(s, t);
    case Watchdog =>
      WatchdogCalm(s, e.act);
      CalmStarted(s, t);
    case Clock =>
  }

  lemma {:induction false} StartedRun(s: State, es: seq<Event>)
    requires Inv(s) && StartedInv(s) && Run(s, es).Some?
    ensures StartedInv(Run(s, es).value)
  {
    if es != [] {
      StartedRun(s, es[..|es| - 1]);
      RunKeeps(s, es[..|es| - 1]);
      StartedKept(Run(s, es[..|es| - 1]).value, es[|es| - 1]);
    }
  }

  /** While the main thread waits for a signal, every thread has been started. */
  lemma EverybodyStarted(s: State)
    requires Reachable(s) && (s.main.Waiting? || s.main.SignalSet? || s.main.SignalNotify?)
    ensures !s.logger.LNotStarted? && !s.watchdog.DNotStarted? && !s.producer.PNotStarted? && WorkersStarted(s)
  {
    var n, inCap, outCap, escalate, timeout, es := Origin(s);
    StartedRun(Init(n, inCap, outCap, escalate, timeout), es);
    assert StartInv(s) by {
      ReachableInv(s);
    }
  }
}
