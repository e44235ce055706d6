/** The fixed order of startup and shutdown, kept by every step (src/application.cpp:79-109). */
module PipelinePhases {
  import opened QueueModel
  import opened Options
  import opened Pipeline

  // ---------------------------------------------------------------- phases of the main thread

  function Rank(m: MainPc): nat {
    match m
    case Start(_) => 0
    case Waiting => 1
    case SignalSet => 2
    case SignalNotify => 3
    case SetToken => 4
    case NotifyToken => 5
    case CloseInput => 6
    case NotifyInEmpty => 7
    case NotifyInFull => 8
    case JoinProducer => 9
    case JoinWorker(_) => 10
    case CloseOutput => 11
    case NotifyOutEmpty => 12
    case NotifyOutFull => 13
    case JoinLogger => 14
    case JoinWatchdog => 15
    case Finished => 16
  }

  /** Queues close and threads are joined in the order of Application::shutdown. */
  ghost predicate PhaseInv(s: State) {
    && (s.input.closed <==> Rank(s.main) >= 7)
    && (s.output.closed <==> Rank(s.main) >= 12)
    && (Rank(s.main) == 3 || Rank(s.main) >= 5 ==> s.token)
    && (Rank(s.main) >= 10 ==> ProducerGone(s))
    && (s.main.JoinWorker? ==> forall j :: 0 <= j < |s.workers| && j < s.main.index ==> WorkerGone(s.workers[j]))
    && (Rank(s.main) >= 11 ==> forall j :: 0 <= j < |s.workers| ==> WorkerGone(s.workers[j]))
    && (Rank(s.main) >= 15 ==> LoggerGone(s))
    && (Rank(s.main) >= 16 ==> WatchdogGone(s))
  }

  /** Threads start in the order of Application::startThreads, the producer last. */
  ghost predicate StartInv(s: State) {
    && (s.main.Start? ==>
         && (s.main.next <= 0 ==> s.logger.LNotStarted?)
         && (s.main.next <= 1 ==> s.watchdog.DNotStarted?)
         && (forall j :: 0 <= j < |s.workers| && s.main.next <= j + 2 ==> s.workers[j].WNotStarted?)
         && (s.main.next <= |s.workers| + 2 ==> s.producer.PNotStarted?)
         && (forall j :: 0 <= j < |s.workers| && s.main.next > j + 2 ==> !s.workers[j].WNotStarted?))
    && (!s.producer.PNotStarted? ==> forall j :: 0 <= j < |s.workers| ==> !s.workers[j].WNotStarted?)
  }

  // ---------------------------------------------------------------- what each thread leaves alone

  /** A step of any thread but main closes nothing, starts nobody and brings nobody back. */
  ghost predicate Calm(s: State, t: State) {
    && t.main == s.main && t.escalate == s.escalate
    && t.input.closed == s.input.closed && t.output.closed == s.output.closed
    && (s.token ==> t.token)
    && (ProducerGone(s) ==> ProducerGone(t)) && (s.producer.PNotStarted? == t.producer.PNotStarted?)
    && (LoggerGone(s) ==> LoggerGone(t)) && (s.logger.LNotStarted? == t.logger.LNotStarted?)
    && (WatchdogGone(s) ==> WatchdogGone(t)) && (s.watchdog.DNotStarted? == t.watchdog.DNotStarted?)
  }

  // What the producer's steps and the watchdog's steps may do, whichever they are.

  ghost predicate ProducerEffect(s: State, t: State) {
    && t.main == s.main && t.escalate == s.escalate && t.logger == s.logger && t.output == s.output
    && (s.token ==> t.token)
    && (t.watchdog == s.watchdog || (s.watchdog.DWaitAsleep? && t.watchdog == DWait(false)))
    && (t.input == s.input || (s.producer.PPush? && t.input == Enqueue(s.input, s.producer.id).0))
    && t.books == s.books.(produced := t.books.produced, inputDrops := t.books.inputDrops,
                           exceptions := t.books.exceptions)
    && t.books.exceptions >= s.books.exceptions
    && !ProducerGone(s) && !t.producer.PNotStarted?
  }

  lemma ProducerGoMain(s: State, pick: nat)
    requires ProducerGo(s, pick).Some?
    ensures var t := ProducerGo(s, pick).value;
            && t.main == s.main && t.escalate == s.escalate && t.logger == s.logger && t.output == s.output
            && (s.token ==> t.token)
            && (t.watchdog == s.watchdog || (s.watchdog.DWaitAsleep? && t.watchdog == DWait(false)))
            && !ProducerGone(s) && !t.producer.PNotStarted?
  {
  }

  lemma ProducerGoBooks(s: State, pick: nat)
    requires ProducerGo(s, pick).Some?
    ensures var t := ProducerGo(s, pick).value;
            && t.books == s.books.(produced := t.books.produced, inputDrops := t.books.inputDrops,
                                   exceptions := t.books.exceptions)
            && t.books.exceptions >= s.books.exceptions
  {
  }

  lemma ProducerGoInput(s: State, pick: nat)
    requires ProducerGo(s, pick).Some?
    ensures var t := ProducerGo(s, pick).value;
            t.input == s.input || (s.producer.PPush? && t.input == Enqueue(s.input, s.producer.id).0)
  {
  }

  lemma ProducerDoes(s: State, act: Act)
    requires ProducerStep(s, act).Some?
    ensures ProducerEffect(s, ProducerStep(s, act).value)
  {
    if act.Go? {
      ProducerGoMain(s, act.pick);
      ProducerGoBooks(s, act.pick);
      ProducerGoInput(s, act.pick);
    }
  }

  lemma ProducerEffectCalm(s: State, t: State)
    requires ProducerEffect(s, t)
    ensures Calm(s, t)
  {
  }

  lemma ProducerCalm(s: State, act: Act)
    requires ProducerStep(s, act).Some?
    ensures Calm(s, ProducerStep(s, act).value)
  {
    ProducerDoes(s, act);
    ProducerEffectCalm(s, ProducerStep(s, act).value);
  }

  lemma WorkerCalm(s: State, pc: WorkerPc, act: Act)
    requires WorkerAct(s, pc, act).Moves?
    ensures Calm(s, WorkerAct(s, pc, act).rest)
    ensures WorkerAct(s, pc, act).rest.workers == s.workers
    ensures !WorkerGone(pc) && !WorkerAct(s, pc, act).pc.WNotStarted?
  {
  }

  lemma LoggerGoCalm(s: State, pick: nat)
    requires LoggerGo(s, pick).Some?
    ensures Calm(s, LoggerGo(s, pick).value)
    ensures LoggerGo(s, pick).value.workers == s.workers
  {
  }

  lemma LoggerCalm(s: State, act: Act)
    requires LoggerStep(s, act).Some?
    ensures Calm(s, LoggerStep(s, act).value)
    ensures LoggerStep(s, act).value.workers == s.workers
  {
    if act.Go? {
      LoggerGoCalm(s, act.pick);
    }
  }

  ghost predicate WatchdogEffect(s: State, t: State) {
    && t.main == s.main && t.workers == s.workers && t.escalate == s.escalate && t.input == s.input
    && t.time == s.time && (s.token ==> t.token)
    && (t.producer == s.producer || (s.producer.PWaitAsleep? && t.producer == PWait(false)))
    && (t.logger == s.logger || (s.logger.LPopAsleep? && t.logger == LPop))
    && (t.output == s.output
        || (s.watchdog.DStallPush? && t.output == Enqueue(s.output, StallRecord(Visited(s, s.watchdog.left + 1))).0))
    && t.books == s.books.(exceptions := t.books.exceptions, scans := t.books.scans, stalls := t.books.stalls)
    && t.books.exceptions >= s.books.exceptions
    && !WatchdogGone(s) && !t.watchdog.DNotStarted?
  }

  lemma WatchdogGoMain(s: State)
    requires WatchdogGo(s).Some?
    ensures var t := WatchdogGo(s).value;
            && t.main == s.main && t.workers == s.workers && t.escalate == s.escalate && t.input == s.input
            && t.time == s.time && (s.token ==> t.token)
            && !WatchdogGone(s) && !t.watchdog.DNotStarted?
  {
  }

  lemma WatchdogGoWakes(s: State)
    requires WatchdogGo(s).Some?
    ensures var t := WatchdogGo(s).value;
            && (t.producer == s.producer || (s.producer.PWaitAsleep? && t.producer == PWait(false)))
            && (t.logger == s.logger || (s.logger.LPopAsleep? && t.logger == LPop))
  {
  }

  lemma WatchdogGoOutput(s: State)
    requires WatchdogGo(s).Some?
    ensures var t := WatchdogGo(s).value;
            || t.output == s.output
            || (s.watchdog.DStallPush?
                && t.output == Enqueue(s.output, StallRecord(Visited(s, s.watchdog.left + 1))).0)
  {
  }

  lemma WatchdogGoBooks(s: State)
    requires WatchdogGo(s).Some?
    ensures var t := WatchdogGo(s).value;
            && t.books == s.books.(exceptions := t.books.exceptions, scans := t.books.scans, stalls := t.books.stalls)
            && t.books.exceptions >= s.books.exceptions
  {
  }

  lemma WatchdogDoes(s: State, act: Act)
    requires WatchdogStep(s, act).Some?
    ensures WatchdogEffect(s, WatchdogStep(s, act).value)
  {
    if act.Go? {
      WatchdogGoMain(s);
      WatchdogGoWakes(s);
      WatchdogGoOutput(s);
      WatchdogGoBooks(s);
    }
  }

  lemma WatchdogEffectCalm(s: State, t: State)
    requires WatchdogEffect(s, t)
    ensures Calm(s, t) && t.workers == s.workers
  {
  }

  lemma WatchdogCalm(s: State, act: Act)
    requires WatchdogStep(s, act).Some?
    ensures Calm(s, WatchdogStep(s, act).value)
    ensures WatchdogStep(s, act).value.workers == s.workers
  {
    WatchdogDoes(s, act);
    WatchdogEffectCalm(s, WatchdogStep(s, act).value);
  }

  // ---------------------------------------------------------------- the order of startup and shutdown is kept

  lemma PhaseCalm(s: State, t: State)
    requires PhaseInv(s) && StartInv(s) && Calm(s, t) && t.workers == s.workers
    ensures PhaseInv(t) && StartInv(t)
  {
  }

  lemma PhaseOneWorker(s: State, i: nat, pc: WorkerPc)
    requires PhaseInv(s) && StartInv(s) && i < |s.workers|
    requires !WorkerGone(s.workers[i]) && !pc.WNotStarted?
    ensures PhaseInv(SetWorker(s, i, pc)) && StartInv(SetWorker(s, i, pc))
  {
  }

  lemma ProducerPhase(s: State, act: Act)
    requires PhaseInv(s) && StartInv(s) && ProducerStep(s, act).Some?
    ensures PhaseInv(ProducerStep(s, act).value) && StartInv(ProducerStep(s, act).value)
  {
    var t := ProducerStep(s, act).value;
    ProducerCalm(s, act);
    var mid := t.(workers := s.workers);
    PhaseCalm(s, mid);
    ProducerWakes(s, act);
    if t.workers != s.workers {
      PhaseOneWorker(mid, act.pick, WPop);
    }
  }

  /** The producer touches a worker only to wake it. */
  lemma ProducerWakes(s: State, act: Act)
    requires ProducerStep(s, act).Some?
    ensures var t := ProducerStep(s, act).value;
            t.workers != s.workers ==>
              && act.Go? && act.pick < |s.workers| && s.workers[act.pick].WPopAsleep? && s.producer.PPushNotify?
              && t == s.(workers := s.workers[act.pick := WPop], producer := PCountProduced)
  {
  }

  lemma WorkerPhase(s: State, i: nat, act: Act)
    requires PhaseInv(s) && StartInv(s) && i < |s.workers| && WorkerStep(s, i, act).Some?
    ensures PhaseInv(WorkerStep(s, i, act).value) && StartInv(WorkerStep(s, i, act).value)
  {
    WorkerCalm(s, s.workers[i], act);
    var m := WorkerAct(s, s.workers[i], act);
    PhaseCalm(s, m.rest);
    PhaseOneWorker(m.rest, i, m.pc);
  }

  lemma LoggerPhase(s: State, act: Act)
    requires PhaseInv(s) && StartInv(s) && LoggerStep(s, act).Some?
    ensures PhaseInv(LoggerStep(s, act).value) && StartInv(LoggerStep(s, act).value)
  {
    LoggerCalm(s, act);
    PhaseCalm(s, LoggerStep(s, act).value);
  }

  lemma WatchdogPhase(s: State, act: Act)
    requires PhaseInv(s) && StartInv(s) && WatchdogStep(s, act).Some?
    ensures PhaseInv(WatchdogStep(s, act).value) && StartInv(WatchdogStep(s, act).value)
  {
    WatchdogCalm(s, act);
    PhaseCalm(s, WatchdogStep(s, act).value);
  }

  lemma StartPhase(s: State, pick: nat)
    requires PhaseInv(s) && StartInv(s) && s.main.Start?
    ensures PhaseInv(MainGo(s, pick).value) && StartInv(MainGo(s, pick).value)
  {
  }

  lemma NotifyInPhase(s: State, pick: nat)
    requires PhaseInv(s) && StartInv(s) && s.main.NotifyInEmpty?
    ensures PhaseInv(MainGo(s, pick).value) && StartInv(MainGo(s, pick).value)
  {
  }

  lemma EarlyPhase(s: State, pick: nat)
    requires PhaseInv(s) && StartInv(s) && 1 <= Rank(s.main) < 7 && MainGo(s, pick).Some?
    ensures PhaseInv(MainGo(s, pick).value) && StartInv(MainGo(s, pick).value)
  {
  }

  lemma JoinPhase(s: State, pick: nat)
    requires PhaseInv(s) && StartInv(s) && s.main.JoinWorker? && MainGo(s, pick).Some?
    ensures PhaseInv(MainGo(s, pick).value) && StartInv(MainGo(s, pick).value)
  {
  }

  lemma LatePhase(s: State, pick: nat)
    requires PhaseInv(s) && StartInv(s) && Rank(s.main) > 7 && !s.main.JoinWorker? && MainGo(s, pick).Some?
    ensures PhaseInv(MainGo(s, pick).value) && StartInv(MainGo(s, pick).value)
  {
  }

  lemma MainPhase(s: State, pick: nat)
    requires PhaseInv(s) && StartInv(s) && MainGo(s, pick).Some?
    ensures PhaseInv(MainGo(s, pick).value) && StartInv(MainGo(s, pick).value)
  {
    if s.main.Start? {
      StartPhase(s, pick);
    } else if s.main.NotifyInEmpty? {
      NotifyInPhase(s, pick);
    } else if Rank(s.main) < 7 {
      EarlyPhase(s, pick);
    } else if s.main.JoinWorker? {
      JoinPhase(s, pick);
    } else {
      LatePhase(s, pick);
    }
  }
}
