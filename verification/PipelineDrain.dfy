/** The ordered drain always finishes (src/application.cpp:90-109).  Once the flag is set every step except a
    spurious wake-up brings a weight down, and until every started thread is joined some thread can step. */
module PipelineDrain {
  import opened QueueModel
  import opened Options
  import opened Pipeline
  import opened PipelinePhases
  import opened PipelineFlow
  import opened PipelineLog
  import opened PipelineWake
  import opened PipelineRuns

  // ---------------------------------------------------------------- the weight of a state

  function HandlerWeight(h: Handler): nat {
    match h
    case Count => 3
    case SetFlag => 2
    case NotifyWaiters => 1
  }

  function MainWeight(m: MainPc, n: nat): nat {
    match m
    case Start(k) => 18 + 2 * n + (if k <= n + 2 then 6 * (n + 3 - k) else 0)
    case Waiting => 17 + 2 * n
    case SignalSet => 16 + 2 * n
    case SignalNotify => 15 + 2 * n
    case SetToken => 14 + 2 * n
    case NotifyToken => 13 + 2 * n
    case CloseInput => 12 + 2 * n
    case NotifyInEmpty => 11 + 2 * n
    case NotifyInFull => 10 + n
    case JoinProducer => 8 + n
    case JoinWorker(i) => 7 + (if i < n then n - i else 0)
    case CloseOutput => 6
    case NotifyOutEmpty => 5
    case NotifyOutFull => 3
    case JoinLogger => 2
    case JoinWatchdog => 1
    case Finished => 0
  }

  function ProducerWeight(pc: ProducerPc): nat {
    match pc
    case PNotStarted => 0
    case PCheck => 4
    case PSample(_) => 28
    case PPush(_) => 27
    case PPushAsleep(_) => 26
    case PPushNotify => 12
    case PCountProduced => 10
    case PReadDrops => 9
    case PStoreDrops(_) => 8
    case PDeadline => 7
    case PWait(_) => 5
    case PWaitAsleep => 6
    case PCrashing(h) => HandlerWeight(h)
    case PExited(_) => 0
  }

  function WorkerWeight(pc: WorkerPc): nat {
    match pc
    case WNotStarted => 0
    case WPop => 5
    case WPopAsleep => 4
    case WPopNotify(_) => 18
    case WMark(_, _) => 16
    case WProcess(_) => 15
    case WPush(_) => 14
    case WPushNotify => 10
    case WReadDrops => 8
    case WStoreDrops(_) => 7
    case WMarkWaiting => 6
    case WCrashing(h) => HandlerWeight(h)
    case WExited(_) => 0
  }

  function LoggerWeight(pc: LoggerPc): nat {
    match pc
    case LNotStarted => 0
    case LPop => 5
    case LPopAsleep => 4
    case LPopNotify(_, _) => 7
    case LWrite(_) => 6
    case LFlush => 4
    case LCrashing(h) => HandlerWeight(h)
    case LExited(_) => 0
  }

  function WatchdogWeight(pc: WatchdogPc): nat {
    match pc
    case DNotStarted => 0
    case DWait(_) => 5
    case DWaitAsleep => 6
    case DBegin(left) => 9 + 8 * left
    case DScan(left, _, _) => 8 + 8 * left
    case DStallPush(left, _) => 15 + 8 * left
    case DStallNotify(left, _) => 11 + 8 * left
    case DEscalate => 7
    case DEscalateNotify => 6
    case DCrashing(h) => HandlerWeight(h)
    case DExited(_) => 0
  }

  function Workers(): WorkerPc -> nat {
    pc => WorkerWeight(pc)
  }

  /** Everything but the workers: a buffered signal is worth 14, a buffered record 3. */
  function RestWeight(s: State): nat {
    MainWeight(s.main, |s.workers|) + ProducerWeight(s.producer) + LoggerWeight(s.logger)
    + WatchdogWeight(s.watchdog) + 14 * |s.input.buffer| + 3 * |s.output.buffer|
  }

  function Weight(s: State): nat {
    RestWeight(s) + SumOver(s.workers, Workers())
  }

  // ---------------------------------------------------------------- every step brings it down

  lemma PushLength<T>(q: Queue<T>, v: T)
    ensures |Enqueue(q, v).0.buffer| <= |q.buffer| + (if Enqueue(q, v).1 then 1 else 0)
  {
  }

  lemma ProducerPushWeight(s: State, pick: nat)
    requires s.producer.PPush?
    ensures RestWeight(ProducerGo(s, pick).value) < RestWeight(s)
  {
    PushLength(s.input, s.producer.id);
  }

  lemma ProducerPays(s: State, pick: nat)
    requires s.token && !s.producer.PPush? && ProducerGo(s, pick).Some?
    ensures ProducerWeight(ProducerGo(s, pick).value.producer) + (if s.producer.PPushNotify? then 2 else 1)
            <= ProducerWeight(s.producer)
  {
  }

  lemma ProducerLeaves(s: State, pick: nat)
    requires !s.producer.PPush? && ProducerGo(s, pick).Some?
    ensures var t := ProducerGo(s, pick).value;
            && t.main == s.main && t.logger == s.logger && t.input == s.input && t.output == s.output
            && |t.workers| == |s.workers|
            && (t.watchdog == s.watchdog || (s.watchdog.DWaitAsleep? && t.watchdog.DWait?))
  {
  }

  lemma ProducerGoWeight(s: State, pick: nat)
    requires s.token && ProducerGo(s, pick).Some?
    ensures RestWeight(ProducerGo(s, pick).value) + (if s.producer.PPushNotify? then 2 else 1) <= RestWeight(s)
  {
    if s.producer.PPush? {
      ProducerPushWeight(s, pick);
    } else {
      ProducerPays(s, pick);
      ProducerLeaves(s, pick);
    }
  }

  lemma ProducerDrains(s: State, act: Act)
    requires s.token && !act.SpuriousWake? && ProducerStep(s, act).Some?
    ensures Weight(ProducerStep(s, act).value) < Weight(s)
  {
    if act.Go? {
      ProducerGoWeight(s, act.pick);
      ProducerWakes(s, act);
      if ProducerStep(s, act).value.workers != s.workers {
        SumUpdate(s.workers, Workers(), act.pick, WPop);
      }
    }
  }

  lemma WorkerGoWeight(s: State, pc: WorkerPc)
    requires WorkerGo(s, pc).Moves?
    ensures RestWeight(WorkerGo(s, pc).rest) + WorkerWeight(WorkerGo(s, pc).pc) < RestWeight(s) + WorkerWeight(pc)
  {
    if pc.WPush? {
      PushLength(s.output, DspRecord(pc.id));
    }
  }

  lemma WorkerDrains(s: State, i: nat, act: Act)
    requires !act.SpuriousWake? && i < |s.workers| && WorkerStep(s, i, act).Some?
    ensures Weight(WorkerStep(s, i, act).value) < Weight(s)
  {
    var m := WorkerAct(s, s.workers[i], act);
    WorkerCalm(s, s.workers[i], act);
    if act.Go? {
      WorkerGoWeight(s, s.workers[i]);
    }
    SumUpdate(s.workers, Workers(), i, m.pc);
  }

  lemma LoggerPays(s: State, pick: nat)
    requires LoggerGo(s, pick).Some?
    ensures var t := LoggerGo(s, pick).value;
            LoggerWeight(t.logger) + 3 * |t.output.buffer| < LoggerWeight(s.logger) + 3 * |s.output.buffer|
  {
  }

  lemma LoggerLeaves(s: State, pick: nat)
    requires LoggerGo(s, pick).Some?
    ensures var t := LoggerGo(s, pick).value;
            && t.main == s.main && t.input == s.input && t.workers == s.workers
            && (t.producer == s.producer || (s.producer.PWaitAsleep? && t.producer.PWait?))
            && (t.watchdog == s.watchdog || (s.watchdog.DWaitAsleep? && t.watchdog.DWait?))
  {
  }

  lemma LoggerDrains(s: State, act: Act)
    requires !act.SpuriousWake? && LoggerStep(s, act).Some?
    ensures Weight(LoggerStep(s, act).value) < Weight(s)
  {
    LoggerCalm(s, act);
    if act.Go? {
      LoggerPays(s, act.pick);
      LoggerLeaves(s, act.pick);
    }
  }

  lemma ReportWeight(s: State)
    requires s.watchdog.DStallPush?
    ensures RestWeight(WatchdogGo(s).value) < RestWeight(s)
  {
    PushLength(s.output, StallRecord(Visited(s, s.watchdog.left + 1)));
  }

  lemma WatchdogGoWeight(s: State)
    requires s.token && WatchdogGo(s).Some?
    ensures RestWeight(WatchdogGo(s).value) < RestWeight(s)
  {
    if s.watchdog.DStallPush? {
      ReportWeight(s);
    } else {
      WatchdogPays(s);
      WatchdogLeaves(s);
    }
  }

  lemma WatchdogPays(s: State)
    requires s.token && !s.watchdog.DStallPush? && WatchdogGo(s).Some?
    ensures WatchdogWeight(WatchdogGo(s).value.watchdog) + (if s.watchdog.DStallNotify? then 2 else 1)
            <= WatchdogWeight(s.watchdog)
  {
  }

  lemma WatchdogLeaves(s: State)
    requires !s.watchdog.DStallPush? && WatchdogGo(s).Some?
    ensures var t := WatchdogGo(s).value;
            && t.main == s.main && t.workers == s.workers && t.input == s.input && t.output == s.output
            && (t.producer == s.producer || (s.producer.PWaitAsleep? && t.producer.PWait?))
            && (t.logger == s.logger || (s.watchdog.DStallNotify? && s.logger.LPopAsleep? && t.logger.LPop?))
  {
  }

  lemma WatchdogDrains(s: State, act: Act)
    requires s.token && !act.SpuriousWake? && WatchdogStep(s, act).Some?
    ensures Weight(WatchdogStep(s, act).value) < Weight(s)
  {
    WatchdogCalm(s, act);
    if act.Go? {
      WatchdogGoWeight(s);
    }
  }

  /** close()'s notify_all on the workers costs at most one unit per worker. */
  lemma {:induction false} WakeAllWeight(ws: seq<WorkerPc>)
    ensures SumOver(WakeWorkers(ws), Workers()) <= SumOver(ws, Workers()) + |ws|
  {
    if ws != [] {
      var n := |ws| - 1;
      assert WakeWorkers(ws)[..n] == WakeWorkers(ws[..n]);
      WakeAllWeight(ws[..n]);
    }
  }

  lemma StartDrains(s: State, pick: nat)
    requires StartInv(s) && s.main.Start?
    ensures Weight(MainGo(s, pick).value) < Weight(s)
  {
    if 2 <= s.main.next < |s.workers| + 2 && pick == 0 {
      SumUpdate(s.workers, Workers(), s.main.next - 2, WPop);
    }
  }

  lemma WakeAllDrains(s: State, pick: nat)
    requires s.main.NotifyInEmpty?
    ensures Weight(MainGo(s, pick).value) < Weight(s)
  {
    WakeAllWeight(s.workers);
  }

  predicate MainOrdinary(m: MainPc) {
    !m.Start? && !m.NotifyInEmpty?
  }

  /** What an ordinary step of the main thread gives up, and what its wake-ups cost. */
  lemma MainPays(s: State, pick: nat)
    requires MainOrdinary(s.main) && MainGo(s, pick).Some?
    ensures MainWeight(MainGo(s, pick).value.main, |s.workers|)
            + (if s.main.NotifyInFull? || s.main.NotifyOutEmpty? then 2 else 1) <= MainWeight(s.main, |s.workers|)
  {
    var m, n := MainGo(s, pick).value.main, |s.workers|;
    if s.main.JoinWorker? || s.main.JoinProducer? {
      assert MainWeight(m, n) < MainWeight(s.main, n);
    } else {
      assert Rank(m) > Rank(s.main);
    }
  }

  lemma MainKeepsBuffers(s: State, pick: nat)
    requires MainOrdinary(s.main) && MainGo(s, pick).Some?
    ensures var t := MainGo(s, pick).value;
            && (t.input == s.input || t.input == Close(s.input))
            && (t.output == s.output || t.output == Close(s.output))
  {
  }

  lemma MainKeepsWorkers(s: State, pick: nat)
    requires MainOrdinary(s.main) && MainGo(s, pick).Some?
    ensures MainGo(s, pick).value.workers == s.workers
  {
  }

  /** Whom an ordinary step of the main thread wakes. */
  lemma MainWakesProducer(s: State, pick: nat)
    requires MainOrdinary(s.main) && MainGo(s, pick).Some?
    ensures var p := MainGo(s, pick).value.producer;
            || p == s.producer
            || (s.producer.PWaitAsleep? && p.PWait?)
            || (s.main.NotifyInFull? && s.producer.PPushAsleep? && p.PPush?)
  {
  }

  lemma MainWakesOthers(s: State, pick: nat)
    requires MainOrdinary(s.main) && MainGo(s, pick).Some?
    ensures var t := MainGo(s, pick).value;
            && (t.watchdog == s.watchdog || (s.watchdog.DWaitAsleep? && t.watchdog.DWait?))
            && (t.logger == s.logger || (s.main.NotifyOutEmpty? && s.logger.LPopAsleep? && t.logger.LPop?))
  {
  }

  lemma OrdinaryDrains(s: State, pick: nat)
    requires MainOrdinary(s.main) && MainGo(s, pick).Some?
    ensures Weight(MainGo(s, pick).value) < Weight(s)
  {
    MainPays(s, pick);
    MainKeepsBuffers(s, pick);
    MainKeepsWorkers(s, pick);
    MainWakesProducer(s, pick);
    MainWakesOthers(s, pick);
  }

  lemma MainDrains(s: State, pick: nat)
    requires StartInv(s) && MainGo(s, pick).Some?
    ensures Weight(MainGo(s, pick).value) < Weight(s)
  {
    if s.main.Start? {
      StartDrains(s, pick);
    } else if s.main.NotifyInEmpty? {
      WakeAllDrains(s, pick);
    } else {
      OrdinaryDrains(s, pick);
    }
  }

  lemma StepDrains(s: State, e: Event)
    requires StartInv(s) && s.token && Step(s, e).Some? && !e.act.SpuriousWake? && !e.thread.Clock?
    ensures Weight(Step(s, e).value) < Weight(s)
  {
    match e.thread
    case Main => MainDrains(s, e.act.pick);
    case Producer => ProducerDrains(s, e.act);
    case Worker(i) => WorkerDrains(s, i, e.act);
    case Logger => LoggerDrains(s, e.act);
    case Watchdog => WatchdogDrains(s, e.act);
  }

  lemma SpuriousWorker(s: State, i: nat)
    requires i < |s.workers| && WorkerStep(s, i, SpuriousWake).Some?
    ensures Weight(WorkerStep(s, i, SpuriousWake).value) <= Weight(s) + 1
  {
    SumUpdate(s.workers, Workers(), i, WPop);
  }

  lemma SpuriousProducer(s: State)
    requires ProducerStep(s, SpuriousWake).Some?
    ensures Weight(ProducerStep(s, SpuriousWake).value) <= Weight(s) + 1
  {
  }

  /** A spurious wake-up costs at most one unit. */
  lemma SpuriousWeight(s: State, e: Event)
    requires Step(s, e).Some? && e.act.SpuriousWake?
    ensures Weight(Step(s, e).value) <= Weight(s) + 1
  {
    match e.thread
    case Producer => SpuriousProducer(s);
    case Worker(i) => SpuriousWorker(s, i);
    case _ =>
  }

  /** The steps an event allows beyond the weight: itself, and one further step after a spurious wake-up. */
  function Allowance(e: Event): nat {
    if e.act.SpuriousWake? then 2 else if e.thread.Clock? then 1 else 0
  }

  lemma StepBound(s: State, e: Event)
    requires StartInv(s) && s.token && Step(s, e).Some?
    ensures 1 + Weight(Step(s, e).value) <= Weight(s) + Allowance(e)
  {
    if e.act.SpuriousWake? {
      SpuriousWeight(s, e);
    } else if !e.thread.Clock? {
      StepDrains(s, e);
    }
  }

  function Allowances(es: seq<Event>): nat {
    if es == [] then 0 else Allowances(es[..|es| - 1]) + Allowance(es[|es| - 1])
  }

  /** Every run from the moment the flag is set: its length is bounded by the weight of the state it starts in,
      the advances of the clock, and two for every spurious wake-up. */
  lemma {:induction false} DrainBound(s: State, es: seq<Event>)
    requires Inv(s) && s.token && Run(s, es).Some?
    ensures |es| + Weight(Run(s, es).value) <= Weight(s) + Allowances(es)
  {
    if es != [] {
      var before := es[..|es| - 1];
      DrainBound(s, before);
      RunKeeps(s, before);
      QuietAfterShutdown(s, before);
      StepBound(Run(s, before).value, es[|es| - 1]);
    }
  }

  // ---------------------------------------------------------------- somebody can always step

  /** Some thread can take an ordinary step: not a throw, not a timeout, not a spurious wake-up, not the clock. */
  ghost predicate CanStep(s: State) {
    exists thread, pick: nat :: thread != Clock && Step(s, Event(thread, Go(pick))).Some?
  }

  lemma ProducerRuns(s: State)
    requires !ProducerGone(s) && !s.producer.PPushAsleep? && !s.producer.PWaitAsleep?
    ensures CanStep(s)
  {
    var pick := 0;
    if s.producer.PPushNotify? && exists i :: 0 <= i < |s.workers| && s.workers[i].WPopAsleep? {
      pick :| 0 <= pick < |s.workers| && s.workers[pick].WPopAsleep?;
    }
    assert ProducerGo(s, pick).Some?;
    assert Step(s, Event(Producer, Go(pick))).Some?;
  }

  lemma WorkerRuns(s: State, i: nat)
    requires i < |s.workers| && !WorkerGone(s.workers[i]) && !s.workers[i].WPopAsleep?
    ensures CanStep(s)
  {
    assert WorkerGo(s, s.workers[i]).Moves?;
    WorkerCalm(s, s.workers[i], Go(0));
    assert Step(s, Event(Worker(i), Go(0))).Some?;
  }

  lemma LoggerRuns(s: State)
    requires !LoggerGone(s) && !s.logger.LPopAsleep?
    ensures CanStep(s)
  {
    assert LoggerGo(s, 0).Some?;
    assert Step(s, Event(Logger, Go(0))).Some?;
  }

  lemma WatchdogRuns(s: State)
    requires !WatchdogGone(s) && !s.watchdog.DWaitAsleep?
    ensures CanStep(s)
  {
    assert WatchdogGo(s).Some?;
    assert Step(s, Event(Watchdog, Go(0))).Some?;
  }

  /** Whoever owes the token a notification can step. */
  lemma DebtorRuns(s: State)
    requires OtherOwes(s) || SomeWorkerOwes(s.workers)
    ensures CanStep(s)
  {
    if SomeWorkerOwes(s.workers) {
      var i :| 0 <= i < |s.workers| && WorkerOwes(s.workers[i]);
      WorkerRuns(s, i);
    } else if s.main.SignalNotify? || s.main.NotifyToken? {
      assert MainGo(s, 0).Some?;
      assert Step(s, Event(Main, Go(0))).Some?;
    } else if s.producer.PCrashing? {
      ProducerRuns(s);
    } else if s.logger.LCrashing? {
      LoggerRuns(s);
    } else {
      WatchdogRuns(s);
    }
  }

  predicate Joining(m: MainPc) {
    m.JoinProducer? || m.JoinWorker? || m.JoinLogger? || m.JoinWatchdog?
  }

  lemma MainRuns(s: State)
    requires s.token && !s.main.Finished? && !Joining(s.main)
    ensures CanStep(s)
  {
    assert MainGo(s, 0).Some?;
    assert Step(s, Event(Main, Go(0))).Some?;
  }

  lemma JoinRuns(s: State)
    requires Inv(s) && s.token && Joining(s.main)
    ensures CanStep(s)
  {
    if MainGo(s, 0).Some? {
      assert Step(s, Event(Main, Go(0))).Some?;
    } else if s.main.JoinProducer? {
      if s.producer.PWaitAsleep? {
        DebtorRuns(s);
      } else {
        ProducerRuns(s);
      }
    } else if s.main.JoinWorker? {
      WorkerRuns(s, s.main.index);
    } else if s.main.JoinLogger? {
      LoggerRuns(s);
    } else if s.watchdog.DWaitAsleep? {
      DebtorRuns(s);
    } else {
      WatchdogRuns(s);
    }
  }

  /** No deadlock: from any prefix of startup, with any threads dead. */
  lemma DrainProgress(s: State)
    requires Inv(s) && s.token && !s.main.Finished?
    ensures CanStep(s)
  {
    if Joining(s.main) {
      JoinRuns(s);
    } else {
      MainRuns(s);
    }
  }

  // ---------------------------------------------------------------- so the drain finishes

  /** Finished, and every thread that was started has been joined. */
  ghost predicate AllJoined(s: State) {
    && s.main.Finished? && ProducerGone(s) && LoggerGone(s) && WatchdogGone(s)
    && forall i :: 0 <= i < |s.workers| ==> WorkerGone(s.workers[i])
  }

  /** A run that cannot go on has finished the drain. */
  lemma MaximalRunFinishes(s: State, es: seq<Event>)
    requires Inv(s) && s.token && Run(s, es).Some? && !CanStep(Run(s, es).value)
    ensures AllJoined(Run(s, es).value)
  {
    RunKeeps(s, es);
    QuietAfterShutdown(s, es);
    if !Run(s, es).value.main.Finished? {
      DrainProgress(Run(s, es).value);
    }
  }

  predicate IsOrdinary(e: Event) {
    e.act.Go? && !e.thread.Clock?
  }

  ghost predicate Finishes(s: State, es: seq<Event>) {
    Run(s, es).Some? && AllJoined(Run(s, es).value)
  }

  lemma OneStepCloser(s: State) returns (e: Event)
    requires Inv(s) && s.token && !s.main.Finished?
    ensures Step(s, e).Some? && IsOrdinary(e)
    ensures var t := Step(s, e).value; Inv(t) && t.token && Weight(t) < Weight(s)
  {
    DrainProgress(s);
    var thread, pick: nat :| thread != Clock && Step(s, Event(thread, Go(pick))).Some?;
    e := Event(thread, Go(pick));
    StepKeeps(s, e);
    StepDrains(s, e);
    TokenStays(s, e);
  }

  lemma NothingLeft(s: State)
    requires Inv(s) && s.main.Finished?
    ensures Finishes(s, [])
  {
  }

  /** From every state with the flag set the drain can be driven to the end. */
  lemma {:induction false} DrainFinishes(s: State) returns (es: seq<Event>)
    requires Inv(s) && s.token
    ensures Finishes(s, es) && |es| <= Weight(s) && forall i :: 0 <= i < |es| ==> IsOrdinary(es[i])
    decreases Weight(s)
  {
    if s.main.Finished? {
      NothingLeft(s);
      es := [];
    } else {
      var e := OneStepCloser(s);
      var rest := DrainFinishes(Step(s, e).value);
      RunCons(s, e, rest);
      es := [e] + rest;
    }
  }

  lemma {:induction false} RunCons(s: State, e: Event, es: seq<Event>)
    requires Step(s, e).Some?
    ensures Run(s, [e] + es) == Run(Step(s, e).value, es)
  {
    var all := [e] + es;
    var n := |es|;
    if n == 0 {
      assert all[..0] == [] && Run(s, all[..0]) == Some(s);
    } else {
      assert all[..n] == [e] + es[..n - 1];
      RunCons(s, e, es[..n - 1]);
    }
  }
}
