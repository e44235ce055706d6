/** Why the shutdown flag is set and who leaves because of it: the exception boundaries, the escalation of the
    watchdog, and the two waits that a shutdown interrupts. */
module PipelineFlag {
  import opened QueueModel
  import opened Options
  import opened Pipeline
  import opened PipelinePhases
  import opened PipelineFlow
  import opened PipelineLog
  import opened PipelineRuns
  import opened PipelineDrain
  import opened PipelineWitness

  // ---------------------------------------------------------------- the invariants

  predicate ProducerRaised(pc: ProducerPc) {
    pc == PCrashing(NotifyWaiters) || pc == PExited(true)
  }

  predicate WorkerRaised(pc: WorkerPc) {
    pc == WCrashing(NotifyWaiters) || pc == WExited(true)
  }

  predicate LoggerRaised(pc: LoggerPc) {
    pc == LCrashing(NotifyWaiters) || pc == LExited(true)
  }

  predicate WatchdogRaised(pc: WatchdogPc) {
    pc == DCrashing(NotifyWaiters) || pc == DExited(true)
  }

  function RaisedOf(): WorkerPc -> nat { (pc: WorkerPc) => if WorkerRaised(pc) then 1 else 0 }

  /** A handler that is past requestShutdown has set the flag, and producer and watchdog leave only for it. */
  ghost predicate FlagSet(s: State) {
    && (ProducerRaised(s.producer) || s.producer == PExited(false) ==> s.token)
    && (LoggerRaised(s.logger) ==> s.token)
    && (WatchdogRaised(s.watchdog) || s.watchdog == DExited(false) || s.watchdog.DEscalateNotify? ==> s.token)
  }

  ghost predicate WorkersFlag(s: State) {
    forall i :: 0 <= i < |s.workers| && WorkerRaised(s.workers[i]) ==> s.token
  }

  /** The flag is set by the main thread, by an exception, or by an escalation; never otherwise. */
  ghost predicate FlagReason(s: State) {
    s.token ==>
      || Rank(s.main) >= 3
      || ProducerRaised(s.producer) || LoggerRaised(s.logger) || WatchdogRaised(s.watchdog)
      || SumOver(s.workers, RaisedOf()) > 0
      || (s.escalate && s.books.stalls > 0)
  }

  /** On the way from a stall to its escalation. */
  predicate Escalating(pc: WatchdogPc) {
    pc.DStallPush? || pc.DStallNotify? || (pc.DScan? && pc.stall) || pc.DEscalate? || pc.DCrashing?
  }

  /** A watchdog that escalates does so for a stall, and does not go on waiting or scanning instead. */
  ghost predicate EscalationInv(s: State) {
    && (s.watchdog.DEscalate? || s.watchdog.DEscalateNotify? ==> s.escalate && s.books.stalls > 0)
    && (s.watchdog.DStallPush? || s.watchdog.DStallNotify? || (s.watchdog.DScan? && s.watchdog.stall)
        ==> s.books.stalls > 0)
    && (s.escalate && s.books.stalls > 0 ==> s.token || Escalating(s.watchdog))
  }

  /** The sinks are flushed exactly by a logger that leaves normally. */
  ghost predicate FlushInv(s: State) {
    s.books.flushed <==> s.logger == LExited(false)
  }

  // ---------------------------------------------------------------- kept by every step

  /** What a step of one thread does not do to the others. */
  ghost predicate Spares(s: State, t: State) {
    && t.escalate == s.escalate && (s.token ==> t.token)
    && (t.producer == s.producer || t.producer.PWait? || t.producer.PPush?)
    && (t.watchdog == s.watchdog || (s.watchdog.DWaitAsleep? && t.watchdog.DWait?))
    && (t.logger == s.logger || (s.logger.LPopAsleep? && t.logger.LPop?))
    && t.books.stalls == s.books.stalls && t.books.flushed == s.books.flushed
  }

  lemma ProducerFlag(s: State, act: Act)
    requires FlagSet(s) && (s.input.closed ==> s.token) && ProducerStep(s, act).Some?
    ensures FlagSet(ProducerStep(s, act).value)
  {
  }

  /** The producer raises the flag only in its handler, and stays there. */
  lemma ProducerRaises(s: State, act: Act)
    requires ProducerStep(s, act).Some?
    ensures var t := ProducerStep(s, act).value;
            && (t.token ==> s.token || ProducerRaised(t.producer))
            && (ProducerRaised(s.producer) ==> ProducerRaised(t.producer))
  {
  }

  lemma WorkerFlag(s: State, pc: WorkerPc, act: Act)
    requires WorkerAct(s, pc, act).Moves?
    ensures var m := WorkerAct(s, pc, act);
            && Spares(s, m.rest) && m.rest.main == s.main
            && (m.rest.token ==> s.token || WorkerRaised(m.pc))
            && (WorkerRaised(pc) ==> WorkerRaised(m.pc))
            && (WorkerRaised(m.pc) ==> WorkerRaised(pc) || m.rest.token)
  {
  }

  lemma LoggerFlag(s: State, act: Act)
    requires FlagSet(s) && LoggerStep(s, act).Some?
    ensures FlagSet(LoggerStep(s, act).value)
  {
  }

  lemma LoggerRaises(s: State, act: Act)
    requires LoggerStep(s, act).Some?
    ensures var t := LoggerStep(s, act).value;
            && (t.token ==> s.token || LoggerRaised(t.logger))
            && (LoggerRaised(s.logger) ==> LoggerRaised(t.logger))
  {
  }

  lemma LoggerSparesOthers(s: State, act: Act)
    requires FlushInv(s) && LoggerStep(s, act).Some?
    ensures var t := LoggerStep(s, act).value;
            && Spares(s, t.(logger := s.logger, books := s.books)) && t.main == s.main
            && t.books.stalls == s.books.stalls && FlushInv(t)
  {
  }

  lemma WatchdogFlag(s: State, act: Act)
    requires FlagSet(s) && WatchdogStep(s, act).Some?
    ensures FlagSet(WatchdogStep(s, act).value)
  {
  }

  lemma WatchdogRaises(s: State, act: Act)
    requires EscalationInv(s) && WatchdogStep(s, act).Some?
    ensures var t := WatchdogStep(s, act).value;
            && (t.token ==> s.token || WatchdogRaised(t.watchdog) || (t.escalate && t.books.stalls > 0))
            && (WatchdogRaised(s.watchdog) ==> WatchdogRaised(t.watchdog))
            && t.books.stalls >= s.books.stalls && t.escalate == s.escalate
  {
  }

  lemma WatchdogEscalates(s: State, act: Act)
    requires EscalationInv(s) && FlagSet(s) && WatchdogStep(s, act).Some?
    ensures EscalationInv(WatchdogStep(s, act).value)
  {
  }

  lemma MainFlag(s: State, pick: nat)
    requires StartInv(s) && MainGo(s, pick).Some?
    ensures var t := MainGo(s, pick).value;
            && (s.token ==> t.token) && (t.token ==> s.token || Rank(t.main) >= 3)
            && (Rank(s.main) >= 3 ==> Rank(t.main) >= 3)
            && t.escalate == s.escalate && t.books == s.books
  {
  }

  lemma MainStarts(s: State, pick: nat)
    requires StartInv(s) && MainGo(s, pick).Some?
    ensures var t := MainGo(s, pick).value;
            && (t.watchdog == s.watchdog || t.watchdog == DWait(false))
            && (s.escalate && s.books.stalls > 0 && !s.token && Escalating(s.watchdog) ==> t.watchdog == s.watchdog)
  {
  }

  // ---------------------------------------------------------------- all of it together

  ghost predicate FlagInv(s: State) {
    FlagSet(s) && WorkersFlag(s) && FlagReason(s) && EscalationInv(s) && FlushInv(s)
  }

  lemma ProducerKeepsReason(s: State, t: State)
    requires ProducerEffect(s, t) && FlagReason(s) && EscalationInv(s) && FlushInv(s)
    requires t.token ==> s.token || ProducerRaised(t.producer)
    requires ProducerRaised(s.producer) ==> ProducerRaised(t.producer)
    requires SumOver(t.workers, RaisedOf()) >= SumOver(s.workers, RaisedOf())
    ensures FlagReason(t) && EscalationInv(t) && FlushInv(t)
  {
  }

  lemma ProducerKeepsFlag(s: State, act: Act)
    requires PhaseInv(s) && FlagInv(s) && ProducerStep(s, act).Some?
    ensures FlagInv(ProducerStep(s, act).value)
  {
    var t := ProducerStep(s, act).value;
    ProducerFlag(s, act);
    ProducerRaises(s, act);
    ProducerDoes(s, act);
    ProducerWakes(s, act);
    if t.workers != s.workers {
      SumUpdate(s.workers, RaisedOf(), act.pick, WPop);
    }
    ProducerKeepsReason(s, t);
  }

  lemma WorkerSpares(s: State, t: State)
    requires Spares(s, t) && t.main == s.main && FlagSet(s) && EscalationInv(s) && FlushInv(s)
    ensures FlagSet(t) && EscalationInv(t) && FlushInv(t)
  {
  }

  lemma WorkerKeepsFlag(s: State, i: nat, act: Act)
    requires FlagInv(s) && i < |s.workers| && WorkerStep(s, i, act).Some?
    ensures FlagInv(WorkerStep(s, i, act).value)
  {
    var m := WorkerAct(s, s.workers[i], act);
    WorkerCalm(s, s.workers[i], act);
    WorkerFlag(s, s.workers[i], act);
    WorkerSpares(s, m.rest);
    SumUpdate(s.workers, RaisedOf(), i, m.pc);
    var ws := s.workers[i := m.pc];
    forall j | 0 <= j < |ws| && WorkerRaised(ws[j]) ensures m.rest.token {
      if j != i {
        assert WorkerRaised(s.workers[j]);
      }
    }
  }

  lemma LoggerKeepsFlag(s: State, act: Act)
    requires FlagInv(s) && LoggerStep(s, act).Some?
    ensures FlagInv(LoggerStep(s, act).value)
  {
    LoggerFlag(s, act);
    LoggerRaises(s, act);
    LoggerSparesOthers(s, act);
    LoggerCalm(s, act);
  }

  lemma WatchdogKeepsFlag(s: State, act: Act)
    requires FlagInv(s) && WatchdogStep(s, act).Some?
    ensures FlagInv(WatchdogStep(s, act).value)
  {
    WatchdogFlag(s, act);
    WatchdogRaises(s, act);
    WatchdogEscalates(s, act);
    WatchdogDoes(s, act);
  }

  lemma MainSparesRaised(s: State, pick: nat)
    requires StartInv(s) && MainGo(s, pick).Some?
    ensures var t := MainGo(s, pick).value;
            && (ProducerRaised(t.producer) == ProducerRaised(s.producer)) && (t.producer.PExited? ==> t.producer == s.producer)
            && (LoggerRaised(t.logger) == LoggerRaised(s.logger)) && (t.logger.LExited? == s.logger.LExited?)
  {
    MainEffects(s, pick);
    MainOutput(s, pick);
  }

  lemma MainKeepsFlag(s: State, pick: nat)
    requires StartInv(s) && FlagInv(s) && MainGo(s, pick).Some?
    ensures FlagInv(MainGo(s, pick).value)
  {
    MainFlag(s, pick);
    MainStarts(s, pick);
    MainSparesRaised(s, pick);
    MainOutput(s, pick);
    MainWorkers(s, pick);
    if s.main.NotifyInEmpty? {
      SumSame(s.workers, WakeWorkers(s.workers), RaisedOf());
    } else if s.main.Start? && 2 <= s.main.next < |s.workers| + 2 {
      SumUpdate(s.workers, RaisedOf(), s.main.next - 2, WPop);
    }
  }

  lemma FlagKept(s: State, e: Event)
    requires PhaseInv(s) && StartInv(s) && FlagInv(s) && Step(s, e).Some?
    ensures FlagInv(Step(s, e).value)
  {
    match e.thread
    case Main => MainKeepsFlag(s, e.act.pick);
    case Producer => ProducerKeepsFlag(s, e.act);
    case Worker(i) => WorkerKeepsFlag(s, i, e.act);
    case Logger => LoggerKeepsFlag(s, e.act);
    case Watchdog => WatchdogKeepsFlag(s, e.act);
    case Clock =>
  }

  lemma {:induction false} FlagRun(s: State, es: seq<Event>)
    requires Inv(s) && FlagInv(s) && Run(s, es).Some?
    ensures FlagInv(Run(s, es).value)
  {
    if es != [] {
      FlagRun(s, es[..|es| - 1]);
      RunKeeps(s, es[..|es| - 1]);
      FlagKept(Run(s, es[..|es| - 1]).value, es[|es| - 1]);
    }
  }

  lemma InitFlag(n: nat, inCap: nat, outCap: nat, escalate: bool, timeout: int)
    ensures FlagInv(Init(n, inCap, outCap, escalate, timeout))
  {
  }

  lemma ReachableFlag(s: State)
    requires Reachable(s)
    ensures FlagInv(s)
  {
    var n, inCap, outCap, escalate, timeout, es := Origin(s);
    InitFlag(n, inCap, outCap, escalate, timeout);
    FlagRun(Init(n, inCap, outCap, escalate, timeout), es);
  }

  // ---------------------------------------------------------------- what callers may rely on

  /** Every exception boundary that has been passed has requested shutdown. */
  lemma ThrowSetsFlag(s: State)
    requires Reachable(s)
    ensures s.producer == PCrashing(NotifyWaiters) || s.producer == PExited(true) ==> s.token
    ensures s.logger == LCrashing(NotifyWaiters) || s.logger == LExited(true) ==> s.token
    ensures s.watchdog == DCrashing(NotifyWaiters) || s.watchdog == DExited(true) ==> s.token
    ensures forall i :: 0 <= i < |s.workers| ==>
              (s.workers[i] == WCrashing(NotifyWaiters) || s.workers[i] == WExited(true) ==> s.token)
  {
    ReachableFlag(s);
  }

  /** The producer and the watchdog end normally only because of a shutdown. */
  lemma NobodyLeavesEarly(s: State)
    requires Reachable(s)
    ensures s.producer == PExited(false) || s.watchdog == DExited(false) ==> s.token
  {
    ReachableFlag(s);
  }

  /** The flag is never set without a reason: the main thread is shutting down, a thread has thrown, or the
      watchdog is configured to escalate and has found a stall. */
  lemma NoFlagWithoutReason(s: State)
    requires Reachable(s) && s.token && Rank(s.main) < 3 && s.books.exceptions == 0
    ensures s.escalate && s.books.stalls > 0
  {
    ReachableFlag(s);
    ReachableInv(s);
    NothingRaised(s);
  }

  lemma NothingRaised(s: State)
    requires WorkersOk(s) && OthersOk(s) && s.books.exceptions == 0
    ensures !ProducerRaised(s.producer) && !LoggerRaised(s.logger) && !WatchdogRaised(s.watchdog)
    ensures SumOver(s.workers, RaisedOf()) == 0
  {
    forall i | 0 <= i < |s.workers| ensures !WorkerRaised(s.workers[i]) {
      assert WorkerOk(s, s.workers[i]);
    }
    NoneRaised(s.workers);
  }

  lemma {:induction false} NoneRaised(ws: seq<WorkerPc>)
    requires forall i :: 0 <= i < |ws| ==> !WorkerRaised(ws[i])
    ensures SumOver(ws, RaisedOf()) == 0
  {
    if ws != [] {
      NoneRaised(ws[..|ws| - 1]);
    }
  }

  /** A watchdog configured to escalate does not go back to waiting, begin another scan or leave after a stall
      unless shutdown has been requested. */
  lemma StallEscalates(s: State)
    requires Reachable(s) && s.escalate && s.books.stalls > 0
    requires s.watchdog.DWait? || s.watchdog.DWaitAsleep? || s.watchdog.DBegin? || s.watchdog.DExited?
    ensures s.token
  {
    ReachableFlag(s);
  }

  /** A logger that leaves normally has flushed its sinks, after everything it was ever going to write. */
  lemma FlushedAtEnd(s: State)
    requires Reachable(s)
    ensures s.books.flushed <==> s.logger == LExited(false)
    ensures s.books.flushed ==> s.output.closed && s.output.buffer == []
  {
    ReachableFlag(s);
    ReachableInv(s);
  }

  // ---------------------------------------------------------------- every throw ends in a finished drain

  /** Somewhere a handler is at work. */
  ghost predicate SomeThrown(s: State) {
    || s.producer.PCrashing? || s.logger.LCrashing? || s.watchdog.DCrashing?
    || exists i :: 0 <= i < |s.workers| && s.workers[i].WCrashing?
  }

  lemma ProducerHandles(s: State, t: State) returns (u: State)
    requires Leads(s, t) && t.producer.PCrashing? && (t.producer.handler.NotifyWaiters? ==> t.token)
    ensures Leads(s, u) && u.token
  {
    u := t;
    if u.producer.handler.Count? {
      u := ByProducer(s, u, 0);
    }
    if u.producer.handler.SetFlag? {
      u := ByProducer(s, u, 0);
    }
  }

  lemma LoggerHandles(s: State, t: State) returns (u: State)
    requires Leads(s, t) && t.logger.LCrashing? && (t.logger.handler.NotifyWaiters? ==> t.token)
    ensures Leads(s, u) && u.token
  {
    u := t;
    if u.logger.handler.Count? {
      u := ByLogger(s, u, 0);
    }
    if u.logger.handler.SetFlag? {
      u := ByLogger(s, u, 0);
    }
  }

  lemma WatchdogHandles(s: State, t: State) returns (u: State)
    requires Leads(s, t) && t.watchdog.DCrashing? && (t.watchdog.handler.NotifyWaiters? ==> t.token)
    ensures Leads(s, u) && u.token
  {
    u := t;
    if u.watchdog.handler.Count? {
      u := ByWatchdog(s, u);
    }
    if u.watchdog.handler.SetFlag? {
      u := ByWatchdog(s, u);
    }
  }

  lemma WorkerHandles(s: State, t: State, i: nat) returns (u: State)
    requires Leads(s, t) && i < |t.workers| && t.workers[i].WCrashing?
    requires t.workers[i].handler.NotifyWaiters? ==> t.token
    ensures Leads(s, u) && u.token
  {
    u := t;
    if u.workers[i].handler.Count? {
      u := ByWorker(s, u, i);
    }
    if u.workers[i].handler.SetFlag? {
      u := ByWorker(s, u, i);
    }
  }

  /** Whoever throws, and wherever everybody else is, the application can be driven to a finished drain. */
  lemma ThrowDrains(s: State) returns (t: State)
    requires Reachable(s) && SomeThrown(s)
    ensures Leads(s, t) && AllJoined(t)
  {
    Here(s);
    ReachableFlag(s);
    var u: State;
    if s.producer.PCrashing? {
      u := ProducerHandles(s, s);
    } else if s.logger.LCrashing? {
      u := LoggerHandles(s, s);
    } else if s.watchdog.DCrashing? {
      u := WatchdogHandles(s, s);
    } else {
      var i :| 0 <= i < |s.workers| && s.workers[i].WCrashing?;
      u := WorkerHandles(s, s, i);
    }
    t := DriveToEnd(s, u);
  }

  lemma DriveToEnd(s: State, u: State) returns (t: State)
    requires Reachable(s) && Leads(s, u) && u.token
    ensures Leads(s, t) && AllJoined(t)
  {
    ReachableInv(s);
    var es :| Run(s, es) == Some(u);
    RunKeeps(s, es);
    var fs := DrainFinishes(u);
    t := Run(u, fs).value;
    RunConcat(s, es, u, fs, t);
    assert Run(s, es + fs) == Some(t);
  }

  // ---------------------------------------------------------------- waits end by a timeout or a shutdown

  /** Waiting between two samples, or gone. */
  predicate ProducerRests(pc: ProducerPc) {
    pc == PWait(false) || pc.PWaitAsleep? || pc.PExited? || pc.PCrashing?
  }

  predicate WatchdogRests(pc: WatchdogPc) {
    pc == DWait(false) || pc.DWaitAsleep? || pc.DExited? || pc.DCrashing?
  }

  lemma ProducerStillRests(s: State, act: Act)
    requires ProducerRests(s.producer) && !act.Timeout? && ProducerStep(s, act).Some?
    ensures var t := ProducerStep(s, act).value;
            ProducerRests(t.producer) && t.input == s.input && t.books.produced == s.books.produced
  {
  }

  lemma RestStep(s: State, e: Event)
    requires StartInv(s) && ProducerRests(s.producer) && Step(s, e).Some? && e != Event(Producer, Timeout)
    ensures var t := Step(s, e).value;
            && ProducerRests(t.producer) && |t.input.accepted| == |s.input.accepted|
            && t.books.produced == s.books.produced
  {
    match e.thread
    case Main => MainEffects(s, e.act.pick);
    case Producer => ProducerStillRests(s, e.act);
    case Worker(i) => WorkerRests(s, s.workers[i], e.act);
    case Logger => LoggerLeavesInput(s, e.act);
    case Watchdog => WatchdogLeavesInput(s, e.act);
    case Clock =>
  }

  lemma WorkerRests(s: State, pc: WorkerPc, act: Act)
    requires WorkerAct(s, pc, act).Moves? && ProducerRests(s.producer)
    ensures var t := WorkerAct(s, pc, act).rest;
            && ProducerRests(t.producer) && t.input.accepted == s.input.accepted
            && t.books.produced == s.books.produced
  {
  }

  /** No sample is taken early: as long as the wait has not timed out, whatever else happens, nothing is stored. */
  lemma {:induction false} NoSampleWithoutTimeout(s: State, es: seq<Event>)
    requires Inv(s) && ProducerRests(s.producer) && Run(s, es).Some?
    requires forall i :: 0 <= i < |es| ==> es[i] != Event(Producer, Timeout)
    ensures var t := Run(s, es).value;
            && ProducerRests(t.producer) && |t.input.accepted| == |s.input.accepted|
            && t.books.produced == s.books.produced
  {
    if es != [] {
      var before := es[..|es| - 1];
      NoSampleWithoutTimeout(s, before);
      RunKeeps(s, before);
      RestStep(Run(s, before).value, es[|es| - 1]);
    }
  }

  lemma WatchdogStillRests(s: State, act: Act)
    requires WatchdogRests(s.watchdog) && !act.Timeout? && WatchdogStep(s, act).Some?
    ensures var t := WatchdogStep(s, act).value;
            WatchdogRests(t.watchdog) && t.books.scans == s.books.scans
  {
  }

  lemma QuietWatchdogStep(s: State, e: Event)
    requires StartInv(s) && WatchdogRests(s.watchdog) && Step(s, e).Some? && e != Event(Watchdog, Timeout)
    ensures var t := Step(s, e).value; WatchdogRests(t.watchdog) && t.books.scans == s.books.scans
  {
    match e.thread
    case Main => MainStarts(s, e.act.pick); MainOutput(s, e.act.pick);
    case Producer => ProducerDoes(s, e.act);
    case Worker(i) => WorkerLeavesScans(s, s.workers[i], e.act);
    case Logger => LoggerLeavesScans(s, e.act);
    case Watchdog => WatchdogStillRests(s, e.act);
    case Clock =>
  }

  lemma WorkerLeavesScans(s: State, pc: WorkerPc, act: Act)
    requires WorkerAct(s, pc, act).Moves?
    ensures var t := WorkerAct(s, pc, act).rest;
            t.books.scans == s.books.scans && (t.watchdog == s.watchdog || t.watchdog == DWait(false))
  {
  }

  lemma LoggerLeavesScans(s: State, act: Act)
    requires LoggerStep(s, act).Some?
    ensures var t := LoggerStep(s, act).value;
            t.books.scans == s.books.scans && (t.watchdog == s.watchdog || t.watchdog == DWait(false))
  {
  }

  /** No scan begins before the scan interval has passed. */
  lemma {:induction false} NoScanWithoutTimeout(s: State, es: seq<Event>)
    requires Inv(s) && WatchdogRests(s.watchdog) && Run(s, es).Some?
    requires forall i :: 0 <= i < |es| ==> es[i] != Event(Watchdog, Timeout)
    ensures var t := Run(s, es).value; WatchdogRests(t.watchdog) && t.books.scans == s.books.scans
  {
    if es != [] {
      var before := es[..|es| - 1];
      NoScanWithoutTimeout(s, before);
      RunKeeps(s, before);
      QuietWatchdogStep(Run(s, before).value, es[|es| - 1]);
    }
  }

  // ---------------------------------------------------------------- the exception counter is exact

  predicate IsCounted(h: Handler) {
    !h.Count?
  }

  function ProducerCounted(pc: ProducerPc): nat {
    if (pc.PCrashing? && IsCounted(pc.handler)) || pc == PExited(true) then 1 else 0
  }

  function LoggerCounted(pc: LoggerPc): nat {
    if (pc.LCrashing? && IsCounted(pc.handler)) || pc == LExited(true) then 1 else 0
  }

  function WatchdogCounted(pc: WatchdogPc): nat {
    if (pc.DCrashing? && IsCounted(pc.handler)) || pc == DExited(true) then 1 else 0
  }

  function WorkerCounted(pc: WorkerPc): nat {
    if (pc.WCrashing? && IsCounted(pc.handler)) || pc == WExited(true) then 1 else 0
  }

  function WorkersCounted(): WorkerPc -> nat {
    pc => WorkerCounted(pc)
  }

  /** Each thread that threw has been counted once. */
  ghost predicate CountInv(s: State) {
    s.books.exceptions
    == ProducerCounted(s.producer) + LoggerCounted(s.logger) + WatchdogCounted(s.watchdog)
       + SumOver(s.workers, WorkersCounted())
  }

  lemma ProducerCounts(s: State, act: Act)
    requires ProducerStep(s, act).Some?
    ensures var t := ProducerStep(s, act).value;
            t.books.exceptions + ProducerCounted(s.producer) == s.books.exceptions + ProducerCounted(t.producer)
  {
  }

  lemma LoggerCounts(s: State, act: Act)
    requires LoggerStep(s, act).Some?
    ensures var t := LoggerStep(s, act).value;
            && t.books.exceptions + LoggerCounted(s.logger) == s.books.exceptions + LoggerCounted(t.logger)
            && (t.producer == s.producer || (s.producer.PWaitAsleep? && t.producer.PWait?))
            && (t.watchdog == s.watchdog || (s.watchdog.DWaitAsleep? && t.watchdog.DWait?))
  {
  }

  lemma WatchdogCountsOne(s: State, act: Act)
    requires WatchdogStep(s, act).Some?
    ensures var t := WatchdogStep(s, act).value;
            t.books.exceptions + WatchdogCounted(s.watchdog) == s.books.exceptions + WatchdogCounted(t.watchdog)
  {
  }

  lemma WorkerCounts(s: State, pc: WorkerPc, act: Act)
    requires WorkerAct(s, pc, act).Moves?
    ensures var m := WorkerAct(s, pc, act);
            m.rest.books.exceptions + WorkerCounted(pc) == s.books.exceptions + WorkerCounted(m.pc)
  {
  }

  lemma MainCounts(s: State, pick: nat)
    requires StartInv(s) && CountInv(s) && MainGo(s, pick).Some?
    ensures CountInv(MainGo(s, pick).value)
  {
    MainEffects(s, pick);
    MainOutput(s, pick);
    MainSparesWatchdog(s, pick);
    MainLeavesDead(s, pick);
    MainWorkers(s, pick);
    if s.main.NotifyInEmpty? {
      SumSame(s.workers, WakeWorkers(s.workers), WorkersCounted());
    } else if s.main.Start? && 2 <= s.main.next < |s.workers| + 2 {
      SumUpdate(s.workers, WorkersCounted(), s.main.next - 2, WPop);
    }
  }

  lemma MainLeavesDead(s: State, pick: nat)
    requires StartInv(s) && MainGo(s, pick).Some?
    ensures var t := MainGo(s, pick).value;
            t.watchdog == s.watchdog || ((s.watchdog.DWaitAsleep? || s.watchdog.DNotStarted?) && t.watchdog.DWait?)
  {
  }

  lemma OneWorkerCounts(s: State, i: nat, act: Act)
    requires CountInv(s) && i < |s.workers| && WorkerStep(s, i, act).Some?
    ensures CountInv(WorkerStep(s, i, act).value)
  {
    var m := WorkerAct(s, s.workers[i], act);
    WorkerCalm(s, s.workers[i], act);
    WorkerFlag(s, s.workers[i], act);
    WorkerSparesCounts(s, s.workers[i], act);
    WorkerCounts(s, s.workers[i], act);
    SumUpdate(s.workers, WorkersCounted(), i, m.pc);
  }

  lemma WorkerSparesCounts(s: State, pc: WorkerPc, act: Act)
    requires WorkerAct(s, pc, act).Moves?
    ensures var t := WorkerAct(s, pc, act).rest;
            ProducerCounted(t.producer) == ProducerCounted(s.producer)
  {
  }

  lemma CountKept(s: State, e: Event)
    requires StartInv(s) && CountInv(s) && Step(s, e).Some?
    ensures CountInv(Step(s, e).value)
  {
    match e.thread
    case Main => MainCounts(s, e.act.pick);
    case Producer =>
      ProducerCounts(s, e.act);
      ProducerDoes(s, e.act);
      ProducerWakes(s, e.act);
      if Step(s, e).value.workers != s.workers {
        SumUpdate(s.workers, WorkersCounted(), e.act.pick, WPop);
      }
    case Worker(i) => OneWorkerCounts(s, i, e.act);
    case Logger =>
      LoggerCounts(s, e.act);
      LoggerCalm(s, e.act);
    case Watchdog =>
      WatchdogCountsOne(s, e.act);
      WatchdogDoes(s, e.act);
    case Clock =>
  }

  lemma {:induction false} CountRun(s: State, es: seq<Event>)
    requires Inv(s) && CountInv(s) && Run(s, es).Some?
    ensures CountInv(Run(s, es).value)
  {
    if es != [] {
      CountRun(s, es[..|es| - 1]);
      RunKeeps(s, es[..|es| - 1]);
      CountKept(Run(s, es[..|es| - 1]).value, es[|es| - 1]);
    }
  }

  /** In every reachable state the counter is the number of threads that threw and have counted it. */
  lemma ExceptionsCounted(s: State)
    requires Reachable(s)
    ensures CountInv(s)
  {
    var n, inCap, outCap, escalate, timeout, es := Origin(s);
    SumNotStarted(n, WorkersCounted());
    CountRun(Init(n, inCap, outCap, escalate, timeout), es);
  }
}
