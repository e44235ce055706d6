/** The gauge of log drops, which DSP workers copy from the output queue in two steps (src/thread_pool.cpp:82):
    when it is exact after a drain, and two ways in which it is not. */
module PipelineGauge {
  import opened QueueModel
  import opened Options
  import opened Pipeline
  import opened PipelinePhases
  import opened PipelineFlow
  import opened PipelineLog
  import opened PipelineRuns
  import opened PipelineDrain
  import opened PipelineWitness

  // ---------------------------------------------------------------- running, with nothing in progress

  ghost predicate Ready(t: State) {
    && t.main.Waiting? && t.producer.PCheck? && !t.token && t.logger.LPop? && t.watchdog == DWait(false)
    && (forall i :: 0 <= i < |t.workers| ==> t.workers[i] == WPop)
    && !t.input.closed && t.input.capacity >= 1 && t.input.buffer == []
    && !t.output.closed && t.output.policy == DropOldest && t.output.capacity >= 1
    && t.books.exceptions == 0 && t.books.stalls == 0 && |t.time.beats| == |t.workers| + 2
  }

  /** One signal from the producer through worker i into the output queue, and the gauge brought up to date. */
  lemma Cycle(s: State, t: State, i: nat) returns (u: State)
    requires Leads(s, t) && Ready(t) && i < |t.workers|
    ensures Leads(s, u) && Ready(u) && |u.workers| == |t.workers|
    ensures OneMoreRecord(t.output, u.output) && u.books.logDrops == u.output.dropped
    ensures u.time.clock == t.time.clock && u.time.timeout == t.time.timeout
    ensures u.time.beats[0] == Beat(true, t.time.clock)
  {
    u := Produce(s, t);
    u := Consume(s, u, i);
    u := StoreGauge(s, u, i);
  }

  /** The output queue filled to k records, nothing dropped. */
  lemma {:induction false} Fill(init: State, k: nat) returns (t: State)
    requires init == Init(|init.workers|, init.input.capacity, init.output.capacity, init.escalate, init.time.timeout)
    requires init.input.capacity >= 1 && k <= init.output.capacity && init.output.capacity >= 1 && |init.workers| >= 1
    ensures Leads(init, t) && Ready(t) && |t.workers| == |init.workers|
    ensures |t.output.buffer| == k && t.output.capacity == init.output.capacity
    ensures t.output.dropped == 0 == t.books.logDrops
    ensures t.time.clock == 0 && t.time.timeout == init.time.timeout
    ensures k > 0 ==> t.time.beats[0] == Beat(true, 0)
  {
    if k == 0 {
      StartAll(init);
      t := Started(init);
    } else {
      t := Fill(init, k - 1);
      t := Cycle(init, t, 0);
    }
  }

  // ---------------------------------------------------------------- a gauge that stays behind

  predicate IsIdle(pc: WorkerPc) {
    pc.WPop? || pc.WPopAsleep? || pc == WExited(false)
  }

  /** Shutting down, with no signal left to process, nobody throwing, and the gauge behind the queue's count. */
  ghost predicate Behind(s: State) {
    && Rank(s.main) >= 3 && s.token && s.producer == PExited(false) && s.input.buffer == []
    && (forall i :: 0 <= i < |s.workers| ==> IsIdle(s.workers[i]))
    && !s.logger.LCrashing? && !s.watchdog.DCrashing? && s.books.exceptions == 0
    && s.books.logDrops < s.output.dropped
  }

  lemma MainBehind(s: State, pick: nat)
    requires Behind(s) && MainGo(s, pick).Some?
    ensures Behind(MainGo(s, pick).value)
  {
  }

  lemma WorkerBehind(s: State, i: nat, pick: nat)
    requires Behind(s) && i < |s.workers| && WorkerStep(s, i, Go(pick)).Some?
    ensures Behind(WorkerStep(s, i, Go(pick)).value)
  {
    assert IsIdle(s.workers[i]);
  }

  lemma LoggerBehind(s: State, pick: nat)
    requires Behind(s) && LoggerGo(s, pick).Some?
    ensures Behind(LoggerGo(s, pick).value)
  {
  }

  lemma WatchdogBehind(s: State)
    requires Behind(s) && WatchdogGo(s).Some?
    ensures Behind(WatchdogGo(s).value)
  {
  }

  lemma BehindStep(s: State, e: Event)
    requires Behind(s) && IsOrdinary(e) && Step(s, e).Some?
    ensures Behind(Step(s, e).value)
  {
    match e.thread
    case Main => MainBehind(s, e.act.pick);
    case Worker(i) => WorkerBehind(s, i, e.act.pick);
    case Logger => LoggerBehind(s, e.act.pick);
    case Watchdog => WatchdogBehind(s);
  }

  /** Reports are not forgotten. */
  lemma StallsGrow(s: State, e: Event)
    requires Behind(s) && IsOrdinary(e) && Step(s, e).Some?
    ensures Step(s, e).value.books.stalls >= s.books.stalls
  {
    if e.thread.Worker? {
      assert IsIdle(s.workers[e.thread.index]);
    }
  }

  /** No report has been made, and none will be. */
  predicate Silent(s: State) {
    s.books.stalls == 0 && (s.watchdog.DWait? || s.watchdog.DWaitAsleep? || s.watchdog.DExited?)
  }

  lemma SilentStep(s: State, e: Event)
    requires Behind(s) && Silent(s) && IsOrdinary(e) && Step(s, e).Some?
    ensures Silent(Step(s, e).value)
  {
    if e.thread.Worker? {
      assert IsIdle(s.workers[e.thread.index]);
    }
  }

  lemma {:induction false} BehindRun(s: State, es: seq<Event>)
    requires Behind(s) && Run(s, es).Some? && forall i :: 0 <= i < |es| ==> IsOrdinary(es[i])
    ensures Behind(Run(s, es).value)
    ensures Silent(s) ==> Silent(Run(s, es).value)
    ensures Run(s, es).value.books.stalls >= s.books.stalls
  {
    if es != [] {
      BehindRun(s, es[..|es| - 1]);
      var mid := Run(s, es[..|es| - 1]).value;
      BehindStep(mid, es[|es| - 1]);
      StallsGrow(mid, es[|es| - 1]);
      if Silent(s) {
        SilentStep(mid, es[|es| - 1]);
      }
    }
  }

  /** The drain finishes, and the gauge is still behind. */
  lemma StaysBehind(init: State, s: State) returns (t: State)
    requires Inv(init) && Leads(init, s) && Behind(s)
    ensures Leads(init, t) && t.main.Finished? && t.books.exceptions == 0 && t.books.logDrops < t.output.dropped
    ensures Silent(s) ==> t.books.stalls == 0
    ensures t.books.stalls >= s.books.stalls
  {
    var es :| Run(init, es) == Some(s);
    RunKeeps(init, es);
    var fs := DrainFinishes(s);
    BehindRun(s, fs);
    t := Run(s, fs).value;
    RunConcat(init, es, s, fs, t);
    assert Run(init, es + fs) == Some(t);
  }

  // ---------------------------------------------------------------- two workers

  /** Worker 0 reads the count, worker 1 evicts once more and stores the newer count, worker 0 stores the older. */
  lemma Race(s: State, t: State) returns (u: State)
    requires Leads(s, t) && Ready(t) && |t.workers| >= 2 && Full(t.output)
    ensures Leads(s, u) && Ready(u) && u.books.logDrops < u.output.dropped
  {
    u := Produce(s, t);
    u := Consume(s, u, 0);
    u := Produce(s, u);
    u := Consume(s, u, 1);
    u := StoreGauge(s, u, 1);
    u := StoreGauge(s, u, 0);
  }

  lemma StaleStore(n: nat, inCap: nat, outCap: nat, escalate: bool, timeout: int) returns (s: State)
    requires n >= 2 && inCap >= 1 && outCap >= 1
    ensures Leads(Init(n, inCap, outCap, escalate, timeout), s)
    ensures s.main.Finished? && s.books.exceptions == 0 && s.books.stalls == 0
    ensures s.books.logDrops < s.output.dropped
  {
    var init := Init(n, inCap, outCap, escalate, timeout);
    InitInv(n, inCap, outCap, escalate, timeout);
    s := Fill(init, outCap);
    s := Race(init, s);
    s := Stop(init, s);
    s := StaysBehind(init, s);
  }

  // ---------------------------------------------------------------- at most one worker

  /** What the only worker knows about the gauge. */
  ghost predicate GaugeKnown(s: State, pc: WorkerPc) {
    match pc
    case WPushNotify => true
    case WReadDrops => true
    case WStoreDrops(drops) => drops == s.output.dropped
    case WCrashing(_) => true
    case WExited(crashed) => crashed || s.books.logDrops == s.output.dropped
    case _ => s.books.logDrops == s.output.dropped
  }

  ghost predicate GaugeInv(s: State) {
    && (s.books.stalls == 0 ==> !s.watchdog.DStallPush? && !s.watchdog.DStallNotify?)
    && (s.books.stalls == 0 ==>
          if |s.workers| == 0 then s.books.logDrops == s.output.dropped
          else |s.workers| == 1 ==> GaugeKnown(s, s.workers[0]))
  }

  lemma WatchdogGauge(s: State, act: Act)
    requires GaugeInv(s) && WatchdogStep(s, act).Some?
    ensures GaugeInv(WatchdogStep(s, act).value)
  {
  }

  lemma WorkerGauge(s: State, pc: WorkerPc, act: Act)
    requires GaugeKnown(s, pc) && WorkerAct(s, pc, act).Moves? && s.books.stalls == 0
    ensures GaugeKnown(WorkerAct(s, pc, act).rest, WorkerAct(s, pc, act).pc)
  {
  }

  lemma WorkerLeavesReports(s: State, pc: WorkerPc, act: Act)
    requires WorkerAct(s, pc, act).Moves?
    ensures var t := WorkerAct(s, pc, act).rest;
            t.books.stalls == s.books.stalls && (t.watchdog == s.watchdog || t.watchdog.DWait?)
  {
  }

  lemma OneWorkerGauge(s: State, i: nat, act: Act)
    requires GaugeInv(s) && i < |s.workers| && WorkerStep(s, i, act).Some?
    ensures GaugeInv(WorkerStep(s, i, act).value)
  {
    WorkerCalm(s, s.workers[i], act);
    WorkerLeavesReports(s, s.workers[i], act);
    if |s.workers| == 1 && s.books.stalls == 0 {
      WorkerGauge(s, s.workers[i], act);
    }
  }

  lemma ProducerGauge(s: State, act: Act)
    requires GaugeInv(s) && ProducerStep(s, act).Some?
    ensures GaugeInv(ProducerStep(s, act).value)
  {
    ProducerFavors(s, act);
    ProducerSpares(s, act);
    ProducerWakes(s, act);
  }

  lemma LoggerLeavesGauge(s: State, act: Act)
    requires LoggerStep(s, act).Some?
    ensures var t := LoggerStep(s, act).value;
            && t.output.dropped == s.output.dropped && t.books.logDrops == s.books.logDrops
            && t.books.stalls == s.books.stalls && (t.watchdog == s.watchdog || t.watchdog.DWait?)
  {
  }

  lemma LoggerGauge(s: State, act: Act)
    requires GaugeInv(s) && LoggerStep(s, act).Some?
    ensures GaugeInv(LoggerStep(s, act).value)
  {
    LoggerLeavesGauge(s, act);
    LoggerCalm(s, act);
  }

  lemma MainGauge(s: State, pick: nat)
    requires StartInv(s) && GaugeInv(s) && MainGo(s, pick).Some?
    ensures GaugeInv(MainGo(s, pick).value)
  {
    MainOutput(s, pick);
    MainWorkers(s, pick);
    MainSparesReports(s, pick);
  }

  lemma MainSparesReports(s: State, pick: nat)
    requires StartInv(s) && MainGo(s, pick).Some?
    ensures var t := MainGo(s, pick).value; t.watchdog == s.watchdog || t.watchdog.DWait?
  {
  }

  lemma GaugeKept(s: State, e: Event)
    requires StartInv(s) && GaugeInv(s) && Step(s, e).Some?
    ensures GaugeInv(Step(s, e).value)
  {
    match e.thread
    case Main => MainGauge(s, e.act.pick);
    case Producer => ProducerGauge(s, e.act);
    case Worker(i) => OneWorkerGauge(s, i, e.act);
    case Logger => LoggerGauge(s, e.act);
    case Watchdog => WatchdogGauge(s, e.act);
    case Clock =>
  }

  lemma {:induction false} GaugeRun(s: State, es: seq<Event>)
    requires Inv(s) && GaugeInv(s) && Run(s, es).Some?
    ensures GaugeInv(Run(s, es).value) && |Run(s, es).value.workers| == |s.workers|
  {
    if es != [] {
      var before := es[..|es| - 1];
      GaugeRun(s, before);
      RunKeeps(s, before);
      GaugeKept(Run(s, before).value, es[|es| - 1]);
      PoolSize(Run(s, before).value, es[|es| - 1]);
    }
  }

  lemma ExactAtEnd(s: State)
    requires Inv(s) && GaugeInv(s) && |s.workers| <= 1
    requires s.main.Finished? && s.books.exceptions == 0 && s.books.stalls == 0
    ensures s.books.logDrops == s.output.dropped
  {
    NoWorkerCrashed(s);
    if |s.workers| == 1 {
      WorkerAtEnd(s, 0);
    }
  }

  // ---------------------------------------------------------------- the exact condition

  /** After every completed drain without exceptions and without stall reports the gauge is the queue's count. */
  ghost predicate GaugeExact(n: nat, inCap: nat, outCap: nat, escalate: bool, timeout: int) {
    forall s | Leads(Init(n, inCap, outCap, escalate, timeout), s) ::
      s.main.Finished? && s.books.exceptions == 0 && s.books.stalls == 0 ==> s.books.logDrops == s.output.dropped
  }

  /** Reading the count and storing the gauge are two steps, so more than one worker spoils it. */
  lemma GaugeExactIff(n: nat, inCap: nat, outCap: nat, escalate: bool, timeout: int)
    requires inCap >= 1 && outCap >= 1
    ensures GaugeExact(n, inCap, outCap, escalate, timeout) <==> n <= 1
  {
    var init := Init(n, inCap, outCap, escalate, timeout);
    if n >= 2 {
      var s := StaleStore(n, inCap, outCap, escalate, timeout);
    } else {
      forall s | Leads(init, s) && s.main.Finished? && s.books.exceptions == 0 && s.books.stalls == 0
        ensures s.books.logDrops == s.output.dropped {
        var es :| Run(init, es) == Some(s);
        InitInv(n, inCap, outCap, escalate, timeout);
        GaugeRun(init, es);
        RunKeeps(init, es);
        ExactAtEnd(s);
      }
    }
  }

  // ---------------------------------------------------------------- a report that evicts

  lemma Evict(s: State, t: State) returns (u: State)
    requires Leads(s, t) && t.watchdog.DStallPush? && !t.output.closed && t.output.policy == DropOldest
    requires t.output.buffer != [] && Full(t.output)
    ensures Leads(s, u) && u.watchdog.DStallNotify?
    ensures u == t.(watchdog := u.watchdog, output := u.output) && u.output.dropped == t.output.dropped + 1
  {
    u := ByWatchdog(s, t);
  }

  /** With any pool: the last worker has stored its count, a report about the producer, which is Running, evicts a
      record, and nobody mirrors that before the drain is over. */
  lemma ReportNotMirrored(n: nat, inCap: nat, outCap: nat, escalate: bool, timeout: int) returns (s: State)
    requires n >= 1 && inCap >= 1 && outCap >= 1
    ensures Leads(Init(n, inCap, outCap, escalate, timeout), s)
    ensures s.main.Finished? && s.books.exceptions == 0 && s.books.stalls >= 1
    ensures s.books.logDrops < s.output.dropped
  {
    var init := Init(n, inCap, outCap, escalate, timeout);
    InitInv(n, inCap, outCap, escalate, timeout);
    s := Fill(init, outCap);
    s := FlagProducer(init, s);
    s := Evict(init, s);
    s := Stop(init, s);
    s := StaysBehind(init, s);
  }
}
