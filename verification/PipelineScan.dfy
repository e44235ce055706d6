/** What a scan of the watchdog reports: every thread that hangs, and nobody else. */
module PipelineScan {
  import opened QueueModel
  import opened Options
  import opened Pipeline
  import opened PipelinePhases
  import opened PipelineFlow
  import opened PipelineLog
  import opened PipelineRuns
  import opened PipelineBeats

  // ---------------------------------------------------------------- reports offered to the output queue

  /** How many reports about heartbeat k are in rs. */
  function ReportsOf(rs: seq<Record>, k: nat): nat {
    if rs == [] then 0 else ReportsOf(rs[..|rs| - 1], k) + (if rs[|rs| - 1] == StallRecord(k) then 1 else 0)
  }

  lemma ReportsAppend(rs: seq<Record>, r: Record, k: nat)
    ensures ReportsOf(rs + [r], k) == ReportsOf(rs, k) + (if r == StallRecord(k) then 1 else 0)
  {
    assert (rs + [r])[..|rs|] == rs;
  }

  /** Reports about heartbeat k, stored or refused. */
  function Offered(q: Queue<Record>, k: nat): nat {
    ReportsOf(q.accepted, k) + ReportsOf(q.refused, k)
  }

  lemma OfferPush(q: Queue<Record>, r: Record, k: nat)
    requires OutputQueue(q)
    ensures Offered(Enqueue(q, r).0, k) == Offered(q, k) + (if r == StallRecord(k) then 1 else 0)
  {
    ReportsAppend(q.accepted, r, k);
    ReportsAppend(q.refused, r, k);
  }

  // ---------------------------------------------------------------- a thread that hangs is reported

  /** The thread that owns heartbeat k. */
  function Owner(s: State, k: nat): Thread {
    if k == 0 then Producer else if k == |s.workers| + 1 then Logger else Worker(k - 1)
  }

  /** A scan that read `now` has yet to come to heartbeat k, or is about to push the report about it. */
  ghost predicate ToVisit(s: State, k: nat, now: int) {
    && k < Heartbeats(s)
    && var r := Heartbeats(s) - k;
       match s.watchdog
       case DScan(left, _, n) => n == now && r <= left <= Heartbeats(s)
       case DStallNotify(left, n) => n == now && r <= left <= Heartbeats(s)
       case DStallPush(left, n) => n == now && r <= left + 1 <= Heartbeats(s)
       case _ => false
  }

  /** Running, with a stamp older than the timeout. */
  predicate Hangs(s: State, k: nat, now: int) {
    k < |s.time.beats| && s.time.beats[k].running && now - s.time.beats[k].stamp > s.time.timeout
  }

  /** A step of another thread leaves heartbeat k and the reports about it alone. */
  ghost predicate LeavesAlone(s: State, t: State, k: nat) {
    && |t.workers| == |s.workers| && |t.time.beats| == |s.time.beats| && t.time.timeout == s.time.timeout
    && (k < |s.time.beats| ==> t.time.beats[k] == s.time.beats[k])
    && Offered(t.output, k) >= Offered(s.output, k)
    && (t.watchdog == s.watchdog || s.watchdog.DWaitAsleep? || s.watchdog.DNotStarted?)
  }

  lemma ProducerAlone(s: State, act: Act, k: nat)
    requires BeatInv(s) && 0 < k < |s.time.beats| && ProducerStep(s, act).Some?
    ensures LeavesAlone(s, ProducerStep(s, act).value, k)
  {
    ProducerDoes(s, act);
    ProducerWakes(s, act);
    ProducerBeats(s, act);
  }

  lemma WorkerOffers(s: State, pc: WorkerPc, act: Act, k: nat)
    requires OutputQueue(s.output) && WorkerAct(s, pc, act).Moves?
    ensures var t := WorkerAct(s, pc, act).rest;
            && Offered(t.output, k) == Offered(s.output, k)
            && (t.watchdog == s.watchdog || s.watchdog.DWaitAsleep?)
  {
    if pc.WPush? {
      OfferPush(s.output, DspRecord(pc.id), k);
    }
  }

  lemma WorkerAlone(s: State, i: nat, act: Act, k: nat)
    requires BeatInv(s) && OutputQueue(s.output) && i < |s.workers| && k < |s.time.beats| && k != i + 1
    requires WorkerStep(s, i, act).Some?
    ensures LeavesAlone(s, WorkerStep(s, i, act).value, k)
  {
    var j := i + 1;
    assert WorkerBeatOk(s.workers[i], s.time.beats[j], s.time.clock);
    WorkerBeats(s, i, act);
    WorkerOffers(s, s.workers[i], act, k);
  }

  lemma LoggerOffers(s: State, act: Act)
    requires LoggerStep(s, act).Some?
    ensures var t := LoggerStep(s, act).value;
            && t.output.accepted == s.output.accepted && t.output.refused == s.output.refused
            && (t.watchdog == s.watchdog || s.watchdog.DWaitAsleep?)
  {
  }

  lemma LoggerAlone(s: State, act: Act, k: nat)
    requires BeatInv(s) && k < |s.workers| + 1 && LoggerStep(s, act).Some?
    ensures LeavesAlone(s, LoggerStep(s, act).value, k)
  {
    LoggerOffers(s, act);
    LoggerBeats(s, act);
    LoggerCalm(s, act);
  }

  lemma MainAlone(s: State, pick: nat, k: nat)
    requires StartInv(s) && MainGo(s, pick).Some?
    ensures LeavesAlone(s, MainGo(s, pick).value, k)
  {
    MainTime(s, pick);
    MainOutput(s, pick);
    MainWorkers(s, pick);
    MainSparesScan(s, pick);
  }

  lemma MainSparesScan(s: State, pick: nat)
    requires StartInv(s) && MainGo(s, pick).Some?
    ensures MainGo(s, pick).value.watchdog == s.watchdog || s.watchdog.DWaitAsleep? || s.watchdog.DNotStarted?
  {
  }

  lemma OtherAlone(s: State, e: Event, k: nat)
    requires StartInv(s) && BeatInv(s) && OutputQueue(s.output) && k < Heartbeats(s) && Step(s, e).Some?
    requires e.thread != Owner(s, k) && e.thread != Watchdog
    ensures LeavesAlone(s, Step(s, e).value, k)
  {
    match e.thread
    case Main => MainAlone(s, e.act.pick, k);
    case Producer => ProducerAlone(s, e.act, k);
    case Worker(i) => WorkerAlone(s, i, e.act, k);
    case Logger => LoggerAlone(s, e.act, k);
    case Clock =>
  }

  lemma VisitProceeds(s: State, k: nat, now: int)
    requires ToVisit(s, k, now) && Hangs(s, k, now) && !s.watchdog.DStallPush? && WatchdogGo(s).Some?
    ensures ToVisit(WatchdogGo(s).value, k, now)
  {
  }

  lemma PushProceeds(s: State, k: nat, now: int)
    requires OutputQueue(s.output) && ToVisit(s, k, now) && s.watchdog.DStallPush?
    ensures var t := WatchdogGo(s).value; ToVisit(t, k, now) || Offered(t.output, k) > Offered(s.output, k)
  {
    OfferPush(s.output, StallRecord(Visited(s, s.watchdog.left + 1)), k);
  }

  /** The scan comes closer to k, or offers the report about it. */
  lemma ScanProceeds(s: State, act: Act, k: nat, now: int)
    requires OutputQueue(s.output) && ToVisit(s, k, now) && Hangs(s, k, now) && !act.Throw?
    requires WatchdogStep(s, act).Some?
    ensures var t := WatchdogStep(s, act).value;
            ToVisit(t, k, now) || Offered(t.output, k) > Offered(s.output, k)
  {
    assert act.Go?;
    if s.watchdog.DStallPush? {
      PushProceeds(s, k, now);
    } else {
      VisitProceeds(s, k, now);
    }
  }

  lemma WatchdogOffers(s: State, act: Act, k: nat)
    requires OutputQueue(s.output) && WatchdogStep(s, act).Some?
    ensures Offered(WatchdogStep(s, act).value.output, k) >= Offered(s.output, k)
  {
    WatchdogDoes(s, act);
    if s.watchdog.DStallPush? {
      OfferPush(s.output, StallRecord(Visited(s, s.watchdog.left + 1)), k);
    }
  }

  /** Still on its way to k, or done with it: since `before` one more report has been offered. */
  ghost predicate OnTheWay(s: State, k: nat, now: int, before: nat) {
    && Hangs(s, k, now) && k < Heartbeats(s) && Offered(s.output, k) >= before
    && (ToVisit(s, k, now) || Offered(s.output, k) > before)
  }

  lemma OnTheWayStep(s: State, e: Event, k: nat, now: int, before: nat)
    requires StartInv(s) && BeatInv(s) && OutputQueue(s.output) && OnTheWay(s, k, now, before) && Step(s, e).Some?
    requires e.thread != Owner(s, k) && e != Event(Watchdog, Throw)
    ensures OnTheWay(Step(s, e).value, k, now, before)
  {
    if e.thread == Watchdog {
      WatchdogDoes(s, e.act);
      WatchdogOffers(s, e.act, k);
      if ToVisit(s, k, now) {
        ScanProceeds(s, e.act, k, now);
      }
    } else {
      OtherAlone(s, e, k);
    }
  }

  /** Whoever hangs through a scan is reported: if the thread of heartbeat k makes no step and its heartbeat is
      Running and too old for a scan that has yet to visit it, the scan ends with a report about it, whatever the
      other threads do. */
  lemma {:induction false} HangingIsReported(s: State, es: seq<Event>, k: nat, now: int)
    requires Inv(s) && BeatInv(s) && ToVisit(s, k, now) && Hangs(s, k, now) && Run(s, es).Some?
    requires forall i :: 0 <= i < |es| ==> es[i].thread != Owner(s, k) && es[i] != Event(Watchdog, Throw)
    ensures var t := Run(s, es).value;
            OnTheWay(t, k, now, Offered(s.output, k)) && |t.workers| == |s.workers|
  {
    if es != [] {
      var before := es[..|es| - 1];
      HangingIsReported(s, before, k, now);
      RunKeeps(s, before);
      BeatsRun(s, before);
      var mid := Run(s, before).value;
      OnTheWayStep(mid, es[|es| - 1], k, now, Offered(s.output, k));
      PoolSize(mid, es[|es| - 1]);
    }
  }

  /** The scan has not yet decided about heartbeat k. */
  ghost predicate Undecided(s: State, k: nat, now: int) {
    ToVisit(s, k, now) && (s.watchdog.DStallPush? ==> Heartbeats(s) - k <= s.watchdog.left)
  }

  lemma DecisionCounted(s: State, act: Act, k: nat, now: int)
    requires Undecided(s, k, now) && Hangs(s, k, now) && !act.Throw? && WatchdogStep(s, act).Some?
    ensures var t := WatchdogStep(s, act).value;
            Undecided(t, k, now) || t.books.stalls > s.books.stalls
  {
  }

  lemma StallsGrow(s: State, act: Act)
    requires WatchdogStep(s, act).Some?
    ensures WatchdogStep(s, act).value.books.stalls >= s.books.stalls
  {
  }

  /** Still undecided, or the stall has been counted. */
  ghost predicate CountedSince(s: State, k: nat, now: int, before: nat) {
    && Hangs(s, k, now) && k < Heartbeats(s) && s.books.stalls >= before
    && (Undecided(s, k, now) || s.books.stalls > before)
  }

  lemma CountedStep(s: State, e: Event, k: nat, now: int, before: nat)
    requires StartInv(s) && BeatInv(s) && OutputQueue(s.output) && CountedSince(s, k, now, before) && Step(s, e).Some?
    requires e.thread != Owner(s, k) && e != Event(Watchdog, Throw)
    ensures CountedSince(Step(s, e).value, k, now, before)
  {
    StallsByWatchdog(s, e);
    if e.thread == Watchdog {
      WatchdogDoes(s, e.act);
      StallsGrow(s, e.act);
      if Undecided(s, k, now) {
        DecisionCounted(s, e.act, k, now);
      }
    } else {
      OtherAlone(s, e, k);
    }
  }

  lemma {:induction false} HangingIsCounted(s: State, es: seq<Event>, k: nat, now: int)
    requires Inv(s) && BeatInv(s) && Undecided(s, k, now) && Hangs(s, k, now) && Run(s, es).Some?
    requires forall i :: 0 <= i < |es| ==> es[i].thread != Owner(s, k) && es[i] != Event(Watchdog, Throw)
    ensures var t := Run(s, es).value; CountedSince(t, k, now, s.books.stalls) && |t.workers| == |s.workers|
  {
    if es != [] {
      var before := es[..|es| - 1];
      HangingIsCounted(s, before, k, now);
      RunKeeps(s, before);
      BeatsRun(s, before);
      var mid := Run(s, before).value;
      CountedStep(mid, es[|es| - 1], k, now, s.books.stalls);
      PoolSize(mid, es[|es| - 1]);
    }
  }

  /** Once the scan is over, the thread that hung has been counted and reported. */
  lemma ScanOver(s: State, es: seq<Event>, k: nat, now: int)
    requires Inv(s) && BeatInv(s) && Undecided(s, k, now) && Hangs(s, k, now) && Run(s, es).Some?
    requires forall i :: 0 <= i < |es| ==> es[i].thread != Owner(s, k) && es[i] != Event(Watchdog, Throw)
    ensures var t := Run(s, es).value;
            t.watchdog.DWait? || t.watchdog.DEscalate? ==>
              t.books.stalls > s.books.stalls && Offered(t.output, k) > Offered(s.output, k)
  {
    HangingIsReported(s, es, k, now);
    HangingIsCounted(s, es, k, now);
  }

  lemma ProcessingHangs(s: State, i: nat, now: int)
    requires Reachable(s) && i < |s.workers| && s.workers[i].WProcess? && BeatsLate(s, i + 1, now)
    ensures Inv(s) && BeatInv(s) && Hangs(s, i + 1, now)
  {
    ReachableInv(s);
    BeatsTellTheTruth(s);
    var k := i + 1;
    assert WorkerBeatOk(s.workers[i], s.time.beats[k], s.time.clock);
  }

  /** A worker that stays in process() past the timeout: a scan that has yet to decide about it cannot end without
      counting a stall and offering a report about it. */
  lemma HungWorkerReported(s: State, es: seq<Event>, i: nat, now: int)
    requires Reachable(s) && i < |s.workers| && s.workers[i].WProcess? && Undecided(s, i + 1, now)
    requires BeatsLate(s, i + 1, now) && Run(s, es).Some?
    requires forall j :: 0 <= j < |es| ==> es[j].thread != Worker(i) && es[j] != Event(Watchdog, Throw)
    ensures var t := Run(s, es).value;
            t.watchdog.DWait? || t.watchdog.DEscalate? ==>
              t.books.stalls > s.books.stalls && Offered(t.output, i + 1) > Offered(s.output, i + 1)
  {
    var k := i + 1;
    assert Owner(s, k) == Worker(i);
    ScanOver(s, es, k, now) by {
      ProcessingHangs(s, i, now);
    }
  }

  /** The stamp of heartbeat k is older than the timeout at `now`. */
  predicate BeatsLate(s: State, k: nat, now: int) {
    k < |s.time.beats| && now - s.time.beats[k].stamp > s.time.timeout
  }

  /** A scan visits every heartbeat. */
  lemma ScanVisitsAll(s: State, k: nat)
    requires s.watchdog == DBegin(Heartbeats(s)) && k < Heartbeats(s)
    ensures Undecided(WatchdogGo(s).value, k, s.time.clock)
  {
  }

  // ---------------------------------------------------------------- and nobody else is

  /** A scan under way has at most all heartbeats left, and one that is about to begin has all of them. */
  ghost predicate ScanInv(s: State) {
    match s.watchdog
    case DBegin(left) => left == Heartbeats(s)
    case DScan(left, _, now) => left <= Heartbeats(s) && now <= s.time.clock
    case DStallPush(left, now) => left < Heartbeats(s) && now <= s.time.clock
    case DStallNotify(left, now) => left < Heartbeats(s) && now <= s.time.clock
    case _ => true
  }

  lemma WatchdogScans(s: State, act: Act)
    requires ScanInv(s) && WatchdogStep(s, act).Some?
    ensures ScanInv(WatchdogStep(s, act).value)
  {
  }

  lemma OthersScan(s: State, t: State)
    requires ScanInv(s) && |t.workers| == |s.workers| && t.time.clock >= s.time.clock
    requires t.watchdog == s.watchdog || s.watchdog.DWaitAsleep? || s.watchdog.DNotStarted?
    requires t.watchdog == s.watchdog || t.watchdog.DWait?
    ensures ScanInv(t)
  {
  }

  lemma ScanKept(s: State, e: Event)
    requires StartInv(s) && ScanInv(s) && Step(s, e).Some?
    ensures ScanInv(Step(s, e).value)
  {
    var t := Step(s, e).value;
    PoolSize(s, e);
    match e.thread
    case Main =>
      MainTime(s, e.act.pick);
      MainSparesScan(s, e.act.pick);
      MainWakesScan(s, e.act.pick);
      OthersScan(s, t);
    case Producer =>
      ProducerDoes(s, e.act);
      ProducerClock(s, e.act);
      OthersScan(s, t);
    case Worker(i) =>
      WorkerClock(s, s.workers[i], e.act);
      OthersScan(s, t);
    case Logger =>
      LoggerClock(s, e.act);
      OthersScan(s, t);
    case Watchdog => WatchdogScans(s, e.act);
    case Clock => OthersScan(s, t);
  }

  lemma MainWakesScan(s: State, pick: nat)
    requires StartInv(s) && MainGo(s, pick).Some?
    ensures var t := MainGo(s, pick).value; t.watchdog == s.watchdog || t.watchdog.DWait?
  {
  }

  lemma ProducerClock(s: State, act: Act)
    requires ProducerStep(s, act).Some?
    ensures ProducerStep(s, act).value.time.clock == s.time.clock
  {
  }

  lemma WorkerClock(s: State, pc: WorkerPc, act: Act)
    requires WorkerAct(s, pc, act).Moves?
    ensures var t := WorkerAct(s, pc, act).rest;
            t.watchdog == s.watchdog || (s.watchdog.DWaitAsleep? && t.watchdog.DWait?)
  {
  }

  lemma LoggerClock(s: State, act: Act)
    requires LoggerStep(s, act).Some?
    ensures var t := LoggerStep(s, act).value;
            && t.time.clock == s.time.clock
            && (t.watchdog == s.watchdog || (s.watchdog.DWaitAsleep? && t.watchdog.DWait?))
  {
  }

  lemma {:induction false} ScanRun(s: State, es: seq<Event>)
    requires Inv(s) && ScanInv(s) && Run(s, es).Some?
    ensures ScanInv(Run(s, es).value)
  {
    if es != [] {
      ScanRun(s, es[..|es| - 1]);
      RunKeeps(s, es[..|es| - 1]);
      ScanKept(Run(s, es[..|es| - 1]).value, es[|es| - 1]);
    }
  }

  /** In every reachable state a scan that is about to begin will visit every heartbeat. */
  lemma ReachableScan(s: State)
    requires Reachable(s)
    ensures ScanInv(s)
  {
    var n, inCap, outCap, escalate, timeout, es := Origin(s);
    ScanRun(Init(n, inCap, outCap, escalate, timeout), es);
  }

  lemma StallsByWatchdog(s: State, e: Event)
    requires StartInv(s) && Step(s, e).Some?
    ensures e.thread != Watchdog ==> Step(s, e).value.books.stalls == s.books.stalls
  {
    match e.thread
    case Main => MainOutput(s, e.act.pick);
    case Producer => ProducerDoes(s, e.act);
    case Worker(i) => WorkerStalls(s, s.workers[i], e.act);
    case Logger => LoggerStalls(s, e.act);
    case Watchdog =>
    case Clock =>
  }

  lemma WorkerStalls(s: State, pc: WorkerPc, act: Act)
    requires WorkerAct(s, pc, act).Moves?
    ensures WorkerAct(s, pc, act).rest.books.stalls == s.books.stalls
  {
  }

  lemma LoggerStalls(s: State, act: Act)
    requires LoggerStep(s, act).Some?
    ensures LoggerStep(s, act).value.books.stalls == s.books.stalls
  {
  }

  lemma WatchdogStalls(s: State, act: Act)
    requires ScanInv(s) && WatchdogStep(s, act).Some? && WatchdogStep(s, act).value.books.stalls != s.books.stalls
    ensures s.watchdog.DScan? && s.watchdog.left > 0
    ensures var k := Heartbeats(s) - s.watchdog.left;
            && k < |s.time.beats| && s.time.beats[k].running
            && s.watchdog.now - s.time.beats[k].stamp > s.time.timeout
    ensures WatchdogStep(s, act).value.books.stalls == s.books.stalls + 1
  {
  }

  /** The counter of stalls goes up only when a scan comes to a heartbeat that is Running with a stamp older than
      the timeout at the scan's time, and then by one. */
  lemma OnlyStallsReported(s: State, e: Event)
    requires Reachable(s) && Step(s, e).Some? && Step(s, e).value.books.stalls != s.books.stalls
    ensures e.thread == Watchdog && s.watchdog.DScan? && 0 < s.watchdog.left <= Heartbeats(s)
    ensures var k := Heartbeats(s) - s.watchdog.left;
            && k < |s.time.beats| && s.time.beats[k].running
            && s.watchdog.now - s.time.beats[k].stamp > s.time.timeout
    ensures Step(s, e).value.books.stalls == s.books.stalls + 1
  {
    ReachableInv(s);
    ReachableScan(s);
    StallsByWatchdog(s, e);
    WatchdogStalls(s, e.act);
  }

  // ---------------------------------------------------------------- every report is counted

  function AllReports(rs: seq<Record>): nat {
    if rs == [] then 0 else AllReports(rs[..|rs| - 1]) + (if rs[|rs| - 1].StallRecord? then 1 else 0)
  }

  lemma AllReportsAppend(rs: seq<Record>, r: Record)
    ensures AllReports(rs + [r]) == AllReports(rs) + (if r.StallRecord? then 1 else 0)
  {
    assert (rs + [r])[..|rs|] == rs;
  }

  function AllOffered(q: Queue<Record>): nat {
    AllReports(q.accepted) + AllReports(q.refused)
  }

  lemma AllOfferedPush(q: Queue<Record>, r: Record)
    requires OutputQueue(q)
    ensures AllOffered(Enqueue(q, r).0) == AllOffered(q) + (if r.StallRecord? then 1 else 0)
  {
    AllReportsAppend(q.accepted, r);
    AllReportsAppend(q.refused, r);
  }

  /** The counter is ahead of the output queue by the report that is being made, or was when the watchdog threw. */
  ghost predicate ReportsCounted(s: State) {
    match s.watchdog
    case DStallPush(_, _) => s.books.stalls == AllOffered(s.output) + 1
    case DCrashing(_) => AllOffered(s.output) <= s.books.stalls <= AllOffered(s.output) + 1
    case DExited(true) => AllOffered(s.output) <= s.books.stalls <= AllOffered(s.output) + 1
    case _ => s.books.stalls == AllOffered(s.output)
  }

  lemma WatchdogReports(s: State, act: Act)
    requires OutputQueue(s.output) && ReportsCounted(s) && WatchdogStep(s, act).Some?
    ensures ReportsCounted(WatchdogStep(s, act).value)
  {
    if s.watchdog.DStallPush? && act.Go? {
      ReportPushed(s);
    }
  }

  lemma ReportPushed(s: State)
    requires OutputQueue(s.output) && ReportsCounted(s) && s.watchdog.DStallPush?
    ensures ReportsCounted(WatchdogGo(s).value)
  {
    AllOfferedPush(s.output, StallRecord(Visited(s, s.watchdog.left + 1)));
  }

  lemma OthersReport(s: State, t: State)
    requires ReportsCounted(s) && t.books.stalls == s.books.stalls && AllOffered(t.output) == AllOffered(s.output)
    requires t.watchdog == s.watchdog
             || ((s.watchdog.DWaitAsleep? || s.watchdog.DNotStarted?) && t.watchdog.DWait?)
    ensures ReportsCounted(t)
  {
  }

  lemma WorkerAllOffers(s: State, pc: WorkerPc, act: Act)
    requires OutputQueue(s.output) && WorkerAct(s, pc, act).Moves?
    ensures AllOffered(WorkerAct(s, pc, act).rest.output) == AllOffered(s.output)
  {
    if pc.WPush? {
      AllOfferedPush(s.output, DspRecord(pc.id));
    }
  }

  lemma ReportsKept(s: State, e: Event)
    requires StartInv(s) && OutputQueue(s.output) && ReportsCounted(s) && Step(s, e).Some?
    ensures ReportsCounted(Step(s, e).value)
  {
    var t := Step(s, e).value;
    StallsByWatchdog(s, e);
    match e.thread
    case Main =>
      MainOutput(s, e.act.pick);
      MainSparesScan(s, e.act.pick);
      MainWakesScan(s, e.act.pick);
      OthersReport(s, t);
    case Producer =>
      ProducerDoes(s, e.act);
      OthersReport(s, t);
    case Worker(i) =>
      WorkerClock(s, s.workers[i], e.act);
      WorkerAllOffers(s, s.workers[i], e.act);
      OthersReport(s, t);
    case Logger =>
      LoggerClock(s, e.act);
      LoggerOffers(s, e.act);
      OthersReport(s, t);
    case Watchdog => WatchdogReports(s, e.act);
    case Clock => OthersReport(s, t);
  }

  lemma {:induction false} ReportsRun(s: State, es: seq<Event>)
    requires Inv(s) && ReportsCounted(s) && Run(s, es).Some?
    ensures ReportsCounted(Run(s, es).value)
  {
    if es != [] {
      ReportsRun(s, es[..|es| - 1]);
      RunKeeps(s, es[..|es| - 1]);
      ReportsKept(Run(s, es[..|es| - 1]).value, es[|es| - 1]);
    }
  }

  /** In every reachable state the stall counter is the number of reports offered to the output queue, apart from
      the one that is being made. */
  lemma StallsCounted(s: State)
    requires Reachable(s)
    ensures ReportsCounted(s)
  {
    var n, inCap, outCap, escalate, timeout, es := Origin(s);
    ReportsRun(Init(n, inCap, outCap, escalate, timeout), es);
  }
}
