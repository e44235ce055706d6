/** Stall reports that come too late: the output queue is closed without waiting for a scan that is under way
    (src/application.cpp:105-108).  A run in which that happens, and exactly when it can. */
module PipelineReports {
  import opened QueueModel
  import opened Options
  import opened Pipeline
  import opened PipelinePhases
  import opened PipelineFlow
  import opened PipelineLog
  import opened PipelineRuns
  import opened PipelineBeats
  import opened PipelineWitness

  // ---------------------------------------------------------------- heartbeats and clock readings

  /** There is a heartbeat for every thread the watchdog looks at, and no clock reading lies in the future. */
  ghost predicate TimeInv(s: State) {
    && |s.time.beats| == Heartbeats(s)
    && (s.logger.LPopNotify? ==> s.logger.since <= s.time.clock)
  }

  lemma BeatsTimed(s: State)
    requires BeatInv(s)
    ensures TimeInv(s)
  {
  }

  // ---------------------------------------------------------------- when a report is still possible

  /** The logger will report Running again: it holds a record it has not marked yet, or has one to take. */
  predicate WillRun(s: State) {
    s.logger.LPopNotify? || ((s.logger.LPop? || s.logger.LPopAsleep? || s.logger.LWrite?) && s.output.buffer != [])
  }

  /** The earliest timestamp with which it can do so. */
  function NextStamp(s: State): int {
    if s.logger.LPopNotify? then s.logger.since else s.time.clock
  }

  /** A scan at time `now` can still find heartbeat k Running and too old: it is so now, or it is the logger's
      and will be. */
  predicate CanFlag(s: State, k: nat, now: int) {
    || Flagged(s.time, k, now)
    || (k == |s.workers| + 1 && WillRun(s) && now - NextStamp(s) > s.time.timeout)
  }

  /** Heartbeat k is Running or will be: it can grow too old for a scan that has not read the clock yet. */
  predicate CanRun(s: State, k: nat) {
    (k < |s.time.beats| && s.time.beats[k].running) || (k == |s.workers| + 1 && WillRun(s))
  }

  ghost predicate SomeCanFlag(s: State, left: nat, now: int) {
    exists j: nat :: 1 <= j <= left && CanFlag(s, Visited(s, j), now)
  }

  ghost predicate SomeCanRun(s: State, left: nat) {
    exists j: nat :: 1 <= j <= left && CanRun(s, Visited(s, j))
  }

  /** The watchdog is about to report, or a heartbeat that its scan has yet to visit can be found stalled. */
  ghost predicate MayReport(s: State) {
    match s.watchdog
    case DBegin(left) => SomeCanRun(s, left)
    case DScan(left, _, now) => SomeCanFlag(s, left, now)
    case DStallPush(_, _) => true
    case DStallNotify(left, now) => SomeCanFlag(s, left, now)
    case _ => false
  }

  // ---------------------------------------------------------------- if: the report is made, and refused

  lemma Refuse(s: State, t: State) returns (u: State)
    requires Leads(s, t) && t.watchdog.DStallPush? && t.output.closed
    ensures Leads(s, u) && u.main == t.main
    ensures u.output.refused == t.output.refused + [StallRecord(Visited(t, t.watchdog.left + 1))]
  {
    u := ByWatchdog(s, t);
  }

  /** The scan goes on to the heartbeat it will flag, or flags an earlier one. */
  lemma {:induction false} Walk(s: State, t: State, j: nat) returns (u: State)
    requires Leads(s, t) && t.watchdog.DScan? && 1 <= j <= t.watchdog.left && t.output.closed
    requires Flagged(t.time, Visited(t, j), t.watchdog.now)
    ensures Leads(s, u) && u.output.refused != []
    decreases t.watchdog.left
  {
    u := ByWatchdog(s, t);
    if u.watchdog.DStallPush? {
      u := Refuse(s, u);
    } else {
      u := Walk(s, u, j);
    }
  }

  lemma Pop(s: State, t: State) returns (u: State)
    requires Leads(s, t) && t.logger.LPop? && t.output.buffer != []
    ensures Leads(s, u) && u.logger.LPopNotify? && u.logger.since == t.time.clock
    ensures u == t.(logger := u.logger, output := u.output) && u.output.closed == t.output.closed
  {
    u := ByLogger(s, t, 0);
  }

  /** The logger comes to the point where it marks itself Running. */
  lemma TakeRecord(s: State, t: State) returns (u: State)
    requires Leads(s, t) && TimeInv(t) && WillRun(t)
    ensures Leads(s, u) && u.logger.LPopNotify? && u.logger.since == NextStamp(t) <= u.time.clock
    ensures u.watchdog == t.watchdog && |u.workers| == |t.workers| && u.output.closed == t.output.closed
    ensures u.time.clock == t.time.clock && u.time.timeout == t.time.timeout && |u.time.beats| == |t.time.beats|
  {
    u := t;
    if u.logger.LWrite? {
      u := ByLogger(s, u, 0);
    } else if u.logger.LPopAsleep? {
      Extended(s, u, Event(Logger, SpuriousWake), u.(logger := LPop));
      u := u.(logger := LPop);
    }
    if u.logger.LPop? {
      u := Pop(s, u);
    }
  }

  lemma BecomeRunning(s: State, t: State) returns (u: State)
    requires Leads(s, t) && TimeInv(t) && WillRun(t)
    ensures Leads(s, u) && u.watchdog == t.watchdog && |u.workers| == |t.workers|
    ensures u.output.closed == t.output.closed
    ensures u.time.clock == t.time.clock && u.time.timeout == t.time.timeout && |u.time.beats| == |t.time.beats|
    ensures u.time.beats[|u.workers| + 1] == Beat(true, NextStamp(t))
  {
    u := TakeRecord(s, t);
    u := ByLogger(s, u, 0);
  }

  lemma ScanReports(s: State, t: State) returns (u: State)
    requires Leads(s, t) && TimeInv(t) && t.output.closed
    requires t.watchdog.DScan? && SomeCanFlag(t, t.watchdog.left, t.watchdog.now)
    ensures Leads(s, u) && u.output.refused != []
  {
    var j: nat :| 1 <= j <= t.watchdog.left && CanFlag(t, Visited(t, j), t.watchdog.now);
    u := t;
    if !Flagged(t.time, Visited(t, j), t.watchdog.now) {
      u := BecomeRunning(s, t);
    }
    u := Walk(s, u, j);
  }

  /** The clock runs until the Running heartbeat is too old, and only then does the scan read it. */
  lemma AgeAndWalk(s: State, t: State, j: nat) returns (u: State)
    requires Leads(s, t) && t.output.closed && t.watchdog.DBegin? && 1 <= j <= t.watchdog.left
    requires Visited(t, j) < |t.time.beats| && t.time.beats[Visited(t, j)].running
    ensures Leads(s, u) && u.output.refused != []
  {
    var age := t.time.timeout + 1 - (t.time.clock - t.time.beats[Visited(t, j)].stamp);
    u := ByClock(s, t, if age < 0 then 0 else age);
    u := ByWatchdog(s, u);
    u := Walk(s, u, j);
  }

  lemma BeginReports(s: State, t: State) returns (u: State)
    requires Leads(s, t) && TimeInv(t) && t.output.closed
    requires t.watchdog.DBegin? && SomeCanRun(t, t.watchdog.left)
    ensures Leads(s, u) && u.output.refused != []
  {
    var j: nat :| 1 <= j <= t.watchdog.left && CanRun(t, Visited(t, j));
    if t.time.beats[Visited(t, j)].running {
      u := AgeAndWalk(s, t, j);
    } else {
      u := BecomeRunning(s, t);
      u := AgeAndWalk(s, u, j);
    }
  }

  lemma NotifyFirst(s: State, t: State) returns (u: State)
    requires Leads(s, t) && t.watchdog.DStallNotify? && TimeInv(t) && MayReport(t)
    ensures Leads(s, u) && u.watchdog == DScan(t.watchdog.left, true, t.watchdog.now)
    ensures TimeInv(u) && MayReport(u) && u.output == t.output
  {
    u := ByWatchdog(s, t);
    StillFlags(t, u, t.watchdog.left, t.watchdog.now);
  }

  lemma StillFlags(t: State, u: State, left: nat, now: int)
    requires SomeCanFlag(t, left, now) && |u.workers| == |t.workers| && u.time == t.time && u.output == t.output
    requires u.logger == t.logger || (t.logger.LPopAsleep? && u.logger.LPop?)
    ensures SomeCanFlag(u, left, now)
  {
    var j: nat :| 1 <= j <= left && CanFlag(t, Visited(t, j), now);
    assert CanFlag(u, Visited(u, j), now);
  }

  lemma ReportCarried(s: State, u: State)
    requires MayReport(s) && |u.workers| == |s.workers| && u.time == s.time && u.watchdog == s.watchdog
    requires u.logger == s.logger && u.output.buffer == s.output.buffer
    ensures MayReport(u)
  {
    if s.watchdog.DBegin? {
      var j: nat :| 1 <= j <= s.watchdog.left && CanRun(s, Visited(s, j));
      assert CanRun(u, Visited(u, j));
    } else if s.watchdog.DScan? || s.watchdog.DStallNotify? {
      var j: nat :| 1 <= j <= s.watchdog.left && CanFlag(s, Visited(s, j), s.watchdog.now);
      assert CanFlag(u, Visited(u, j), s.watchdog.now);
    }
  }

  lemma CloseNow(s: State) returns (u: State)
    requires s.main.CloseOutput? && TimeInv(s) && MayReport(s)
    ensures Leads(s, u) && TimeInv(u) && MayReport(u) && u.output.closed
  {
    Here(s);
    u := ByMain(s, s, 0);
    assert u == s.(output := Close(s.output), main := NotifyOutEmpty);
    ReportCarried(s, u);
  }

  lemma ReportLate(s: State) returns (u: State)
    requires s.main.CloseOutput? && TimeInv(s) && MayReport(s)
    ensures Leads(s, u) && u.output.refused != []
  {
    u := CloseNow(s);
    if u.watchdog.DStallNotify? {
      u := NotifyFirst(s, u);
    }
    if u.watchdog.DStallPush? {
      u := Refuse(s, u);
    } else if u.watchdog.DBegin? {
      u := BeginReports(s, u);
    } else {
      u := ScanReports(s, u);
    }
  }

  // ---------------------------------------------------------------- only if: nothing can turn up any more

  /** No heartbeat can be flagged or be Running that could not before, and nothing has been refused. */
  ghost predicate Quieter(s: State, t: State) {
    && |t.workers| == |s.workers| && t.output.refused == s.output.refused
    && (forall k: nat, now: int :: CanFlag(t, k, now) ==> CanFlag(s, k, now))
    && (forall k: nat :: CanRun(t, k) ==> CanRun(s, k))
  }

  lemma MainQuieter(s: State, pick: nat)
    requires Rank(s.main) >= 11 && MainGo(s, pick).Some?
    ensures var t := MainGo(s, pick).value;
            && Quieter(s, t) && Rank(t.main) >= 11
            && (t.watchdog == s.watchdog || t.watchdog.DWait?)
  {
  }

  lemma LoggerGoQuieter(s: State, pick: nat)
    requires TimeInv(s) && LoggerGo(s, pick).Some?
    ensures Quieter(s, LoggerGo(s, pick).value)
  {
  }

  lemma LoggerQuieter(s: State, act: Act)
    requires TimeInv(s) && LoggerStep(s, act).Some?
    ensures var t := LoggerStep(s, act).value;
            Quieter(s, t) && (t.watchdog == s.watchdog || t.watchdog.DWait?)
  {
    if act.Go? {
      LoggerGoQuieter(s, act.pick);
    }
  }

  lemma ClockQuieter(s: State, elapsed: nat)
    ensures Quieter(s, s.(time := s.time.(clock := s.time.clock + elapsed)))
  {
  }

  lemma WatchdogQuieter(s: State, act: Act)
    requires !s.watchdog.DStallPush? && WatchdogStep(s, act).Some?
    ensures Quieter(s, WatchdogStep(s, act).value)
  {
  }

  lemma NoReport(s: State, t: State)
    requires !MayReport(s) && Quieter(s, t) && (t.watchdog == s.watchdog || t.watchdog.DWait?)
    ensures !MayReport(t)
  {
    forall j: nat ensures Visited(t, j) == Visited(s, j) {
    }
  }

  /** The scan moves on without a report. */
  lemma ScanPasses(s: State, act: Act)
    requires !MayReport(s) && s.token && WatchdogStep(s, act).Some?
    ensures !MayReport(WatchdogStep(s, act).value)
  {
    var t := WatchdogStep(s, act).value;
    WatchdogQuieter(s, act);
    if act.Go? && s.watchdog.DScan? && s.watchdog.left > 0 {
      assert !CanFlag(s, Visited(s, s.watchdog.left), s.watchdog.now);
    }
    if t.watchdog.DScan? {
      forall j: nat | 1 <= j <= t.watchdog.left ensures !CanFlag(t, Visited(t, j), t.watchdog.now) {
        if s.watchdog.DBegin? {
          assert !CanRun(s, Visited(s, j));
        } else {
          assert !CanFlag(s, Visited(s, j), s.watchdog.now);
        }
      }
    }
  }

  /** The pool is joined, no report is possible any more, and none has been refused. */
  ghost predicate Settled(s: State) {
    Rank(s.main) >= 11 && s.token && BeatInv(s) && !MayReport(s) && s.output.refused == []
  }

  lemma SettledStep(s: State, e: Event)
    requires Inv(s) && Settled(s) && Step(s, e).Some?
    ensures Settled(Step(s, e).value)
  {
    var t := Step(s, e).value;
    BeatsTimed(s);
    BeatsKept(s, e);
    TokenStays(s, e);
    match e.thread
    case Main =>
      MainQuieter(s, e.act.pick);
      NoReport(s, t);
    case Producer =>
      ProducerDone(s, e.act);
    case Worker(i) =>
      WorkerCalm(s, s.workers[i], e.act);
    case Logger =>
      LoggerCalm(s, e.act);
      LoggerQuieter(s, e.act);
      NoReport(s, t);
    case Watchdog =>
      WatchdogCalm(s, e.act);
      WatchdogQuieter(s, e.act);
      ScanPasses(s, e.act);
    case Clock =>
      ClockQuieter(s, e.act.pick);
      NoReport(s, t);
  }

  lemma ProducerDone(s: State, act: Act)
    requires ProducerGone(s)
    ensures ProducerStep(s, act).None?
  {
  }

  lemma {:induction false} SettledRun(s: State, es: seq<Event>)
    requires Inv(s) && Settled(s) && Run(s, es).Some?
    ensures Settled(Run(s, es).value)
  {
    if es != [] {
      SettledRun(s, es[..|es| - 1]);
      RunKeeps(s, es[..|es| - 1]);
      SettledStep(Run(s, es[..|es| - 1]).value, es[|es| - 1]);
    }
  }

  lemma NeverLate(s: State, u: State)
    requires Inv(s) && Settled(s) && Leads(s, u)
    ensures u.output.refused == []
  {
    var es :| Run(s, es) == Some(u);
    SettledRun(s, es);
  }

  lemma AtCloseOutput(s: State)
    requires Reachable(s) && s.main.CloseOutput?
    ensures Inv(s) && BeatInv(s) && s.token && s.output.refused == []
  {
    BeatsTellTheTruth(s);
    ReachableInv(s);
    assert OutputQueue(s.output);
  }

  /** When the output queue is about to be closed, a report can still be refused exactly if the watchdog is about
      to make one or can still find a heartbeat stalled in the scan it is in. */
  lemma LateReportIff(s: State)
    requires Reachable(s) && s.main.CloseOutput?
    ensures (exists u :: Leads(s, u) && u.output.refused != []) <==> MayReport(s)
  {
    AtCloseOutput(s);
    if MayReport(s) {
      BeatsTimed(s);
      var u := ReportLate(s);
    } else {
      forall u | Leads(s, u) ensures u.output.refused == [] {
        NeverLate(s, u);
      }
    }
  }

  // ---------------------------------------------------------------- a run in which it happens

  lemma SetFlag(s: State, t: State) returns (u: State)
    requires Leads(s, t) && t.main.Waiting? && t.watchdog.DStallPush? && t.producer.PPush?
    ensures Leads(s, u) && u == t.(main := SetToken, token := true)
  {
    u := ByMain(s, t, 1);
    u := ByMain(s, u, 0);
    u := ByMain(s, u, 0);
  }

  lemma NotifyFlag(s: State, t: State) returns (u: State)
    requires Leads(s, t) && t.main.SetToken? && t.token && t.watchdog.DStallPush? && t.producer.PPush?
    ensures Leads(s, u) && u == t.(main := CloseInput)
  {
    u := ByMain(s, t, 0);
    assert u == t.(main := NotifyToken);
    u := ByMain(s, u, 0);
  }

  lemma CloseInputNow(s: State, t: State) returns (u: State)
    requires Leads(s, t) && t.main.CloseInput?
    ensures Leads(s, u) && u == t.(main := NotifyInEmpty, input := Close(t.input))
  {
    u := ByMain(s, t, 0);
  }

  /** The producer's push is refused; it leaves, and its heartbeat stays Running. */
  lemma ProducerLeaves(s: State, t: State) returns (u: State)
    requires Leads(s, t) && t.main.NotifyInEmpty? && t.producer.PPush? && t.input.closed
    requires forall i :: 0 <= i < |t.workers| ==> t.workers[i] == WPop
    ensures Leads(s, u)
    ensures u == t.(main := NotifyInFull, producer := PExited(false), input := Enqueue(t.input, t.producer.id).0)
  {
    u := ByProducer(s, t, 0);
    u := ByMain(s, u, 0);
    assert WakeWorkers(t.workers) == t.workers;
  }

  lemma JoinProducerNow(s: State, t: State) returns (u: State)
    requires Leads(s, t) && t.main.NotifyInFull? && t.producer.PExited?
    ensures Leads(s, u) && u == t.(main := JoinWorker(0))
  {
    u := ByMain(s, t, 0);
    u := ByMain(s, u, 0);
  }

  lemma WorkerLeaves(s: State, t: State, i: nat) returns (u: State)
    requires Leads(s, t) && i < |t.workers| && t.workers[i] == WPop && t.input.closed && t.input.buffer == []
    ensures Leads(s, u) && u == t.(workers := t.workers[i := WExited(false)])
  {
    u := ByWorker(s, t, i);
  }

  lemma JoinGone(s: State, t: State, i: nat) returns (u: State)
    requires Leads(s, t) && t.main == JoinWorker(i) && i < |t.workers| && WorkerGone(t.workers[i])
    ensures Leads(s, u) && u == t.(main := JoinWorker(i + 1))
  {
    u := ByMain(s, t, 0);
  }

  lemma JoinOne(s: State, t: State, i: nat) returns (u: State)
    requires Leads(s, t) && t.main == JoinWorker(i) && i < |t.workers| && t.workers[i] == WPop
    requires t.input.closed && t.input.buffer == []
    ensures Leads(s, u) && u == t.(main := JoinWorker(i + 1), workers := t.workers[i := WExited(false)])
  {
    u := WorkerLeaves(s, t, i);
    u := JoinGone(s, u, i);
  }

  /** The workers find the closed queue empty and are joined one by one. */
  lemma {:induction false} JoinAll(s: State, t: State, i: nat) returns (u: State)
    requires Leads(s, t) && t.main == JoinWorker(i) && i <= |t.workers|
    requires forall j :: i <= j < |t.workers| ==> t.workers[j] == WPop
    requires t.input.closed && t.input.buffer == []
    ensures Leads(s, u) && u == t.(main := CloseOutput, workers := u.workers) && |u.workers| == |t.workers|
    decreases |t.workers| - i
  {
    if i == |t.workers| {
      u := ByMain(s, t, 0);
    } else {
      u := JoinOne(s, t, i);
      u := JoinAll(s, u, i + 1);
    }
  }

  /** Shutdown up to the point where the output queue is closed, while the watchdog stays in its report. */
  lemma DrainPastWatchdog(s: State, t: State) returns (u: State)
    requires Leads(s, t) && t.main.Waiting? && t.watchdog.DStallPush? && t.producer.PPush? && t.input.buffer == []
    requires forall i :: 0 <= i < |t.workers| ==> t.workers[i] == WPop
    ensures Leads(s, u) && u.main.CloseOutput? && u.watchdog == t.watchdog && |u.workers| == |t.workers|
    ensures u.output == t.output
  {
    u := SetFlag(s, t);
    u := NotifyFlag(s, u);
    u := CloseInputNow(s, u);
    u := ProducerLeaves(s, u);
    u := JoinProducerNow(s, u);
    u := JoinAll(s, u, 0);
  }

  lemma CloseAndRefuse(s: State, t: State) returns (u: State)
    requires Leads(s, t) && t.main.CloseOutput? && t.watchdog.DStallPush? && t.output.refused == []
    requires t.watchdog.left == |t.workers| + 1
    ensures Leads(s, u) && u.main.NotifyOutEmpty? && u.output.refused == [StallRecord(0)]
  {
    u := ByMain(s, t, 0);
    u := Refuse(s, u);
  }

  /** For any configuration: the producer has been Running for longer than the timeout when a scan comes to it,
      shutdown overtakes the watchdog, and its report is refused. */
  lemma StallReportRefused(n: nat, inCap: nat, outCap: nat, escalate: bool, timeout: int) returns (s: State)
    ensures Leads(Init(n, inCap, outCap, escalate, timeout), s)
    ensures s.main.NotifyOutEmpty? && s.output.refused == [StallRecord(0)]
  {
    var init := Init(n, inCap, outCap, escalate, timeout);
    StartAll(init);
    s := Sample(init, Started(init));
    s := FlagProducer(init, s);
    s := DrainPastWatchdog(init, s);
    s := CloseAndRefuse(init, s);
  }
}
