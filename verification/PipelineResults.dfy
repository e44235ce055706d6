/** Where the result of every processed signal is: offered to the log, in a worker's hands, or lost with it. */
module PipelineResults {
  import opened QueueModel
  import opened Options
  import opened Pipeline
  import opened PipelinePhases
  import opened PipelineFlow
  import opened PipelineLog

  /** How many records of signal x are in rs. */
  function Logged(rs: seq<Record>, x: nat): nat {
    if rs == [] then 0 else Logged(rs[..|rs| - 1], x) + (if rs[|rs| - 1] == DspRecord(x) then 1 else 0)
  }

  lemma LoggedAppend(rs: seq<Record>, r: Record, x: nat)
    ensures Logged(rs + [r], x) == Logged(rs, x) + (if r == DspRecord(x) then 1 else 0)
  {
    assert (rs + [r])[..|rs|] == rs;
  }

  /** Whether a worker has yet to push the record of signal x. */
  function Carries(pc: WorkerPc, x: nat): nat {
    if pc == WPush(x) then 1 else 0
  }

  function CarriesOf(x: nat): WorkerPc -> nat {
    pc => Carries(pc, x)
  }

  /** Signal x was processed as often as its record entered the output queue, is about to, or never will because
      its worker threw in between. */
  ghost predicate ResultAt(s: State, x: nat) {
    Occ(s.books.processed, x)
    == Logged(s.output.accepted, x) + SumOver(s.workers, CarriesOf(x)) + Occ(s.books.unlogged, x)
  }

  /** Nothing that concerns results changes. */
  ghost predicate ResultsSame(s: State, t: State, x: nat) {
    && t.books.processed == s.books.processed && t.books.unlogged == s.books.unlogged
    && Logged(t.output.accepted, x) == Logged(s.output.accepted, x)
  }

  // ---------------------------------------------------------------- the workers

  ghost predicate ResultsMoved(s: State, pc: WorkerPc, m: WorkerMove, x: nat)
    requires m.Moves?
  {
    var t := m.rest;
    && Occ(t.books.processed, x) + Logged(s.output.accepted, x) + Carries(pc, x) + Occ(s.books.unlogged, x)
    == Occ(s.books.processed, x) + Logged(t.output.accepted, x) + Carries(m.pc, x) + Occ(t.books.unlogged, x)
  }

  lemma PushResult(s: State, pc: WorkerPc, x: nat)
    requires pc.WPush? && !s.output.closed && OutputQueue(s.output)
    ensures ResultsMoved(s, pc, WorkerGo(s, pc), x)
  {
    LoggedAppend(s.output.accepted, DspRecord(pc.id), x);
  }

  lemma ProcessResult(s: State, pc: WorkerPc, x: nat)
    requires pc.WProcess?
    ensures ResultsMoved(s, pc, WorkerGo(s, pc), x)
  {
    OccAppend(s.books.processed, pc.id, x);
  }

  lemma WorkerGoResults(s: State, pc: WorkerPc, x: nat)
    requires WorkerGo(s, pc).Moves? && OutputQueue(s.output) && (pc.WPush? ==> !s.output.closed)
    ensures ResultsMoved(s, pc, WorkerGo(s, pc), x)
  {
    if pc.WPush? {
      PushResult(s, pc, x);
    } else if pc.WProcess? {
      ProcessResult(s, pc, x);
    }
  }

  lemma DropResult(s: State, pc: WorkerPc, act: Act, x: nat)
    requires pc.WPush? && !act.Go? && WorkerAct(s, pc, act).Moves?
    ensures ResultsMoved(s, pc, WorkerAct(s, pc, act), x)
  {
    OccAppend(s.books.unlogged, pc.id, x);
  }

  lemma WorkerResults(s: State, pc: WorkerPc, act: Act, x: nat)
    requires WorkerAct(s, pc, act).Moves? && OutputQueue(s.output) && (pc.WPush? ==> !s.output.closed)
    ensures ResultsMoved(s, pc, WorkerAct(s, pc, act), x)
  {
    if act.Go? {
      WorkerGoResults(s, pc, x);
    } else if pc.WPush? {
      DropResult(s, pc, act, x);
    } else {
      assert s.books.unlogged + [] == s.books.unlogged;
    }
  }

  lemma WorkerKeepsResults(s: State, i: nat, act: Act, x: nat)
    requires PhaseInv(s) && OutputQueue(s.output) && ResultAt(s, x)
    requires i < |s.workers| && WorkerStep(s, i, act).Some?
    ensures ResultAt(WorkerStep(s, i, act).value, x)
  {
    WorkerCalm(s, s.workers[i], act);
    WorkerResults(s, s.workers[i], act, x);
    SumUpdate(s.workers, CarriesOf(x), i, WorkerAct(s, s.workers[i], act).pc);
  }

  // ---------------------------------------------------------------- the other threads

  lemma LoggerLeavesResults(s: State, act: Act, x: nat)
    requires LoggerStep(s, act).Some?
    ensures ResultsSame(s, LoggerStep(s, act).value, x)
  {
  }

  lemma WatchdogEffectResults(s: State, t: State)
    requires WatchdogEffect(s, t)
    ensures t.output.accepted == s.output.accepted
            || (s.watchdog.DStallPush?
                && t.output.accepted == s.output.accepted + [StallRecord(Visited(s, s.watchdog.left + 1))])
  {
  }

  lemma WatchdogLeavesBooks(s: State, act: Act)
    requires WatchdogStep(s, act).Some?
    ensures var t := WatchdogStep(s, act).value;
            && t.books.processed == s.books.processed && t.books.unlogged == s.books.unlogged
            && (t.output.accepted == s.output.accepted
                || (s.watchdog.DStallPush?
                    && t.output.accepted == s.output.accepted + [StallRecord(Visited(s, s.watchdog.left + 1))]))
  {
    WatchdogDoes(s, act);
    WatchdogEffectResults(s, WatchdogStep(s, act).value);
  }

  lemma WatchdogLeavesResults(s: State, act: Act, x: nat)
    requires WatchdogStep(s, act).Some?
    ensures ResultsSame(s, WatchdogStep(s, act).value, x)
  {
    WatchdogLeavesBooks(s, act);
    if s.watchdog.DStallPush? {
      LoggedAppend(s.output.accepted, StallRecord(Visited(s, s.watchdog.left + 1)), x);
    }
  }

  lemma ProducerKeepsResults(s: State, act: Act, x: nat)
    requires ResultAt(s, x) && ProducerStep(s, act).Some?
    ensures ResultAt(ProducerStep(s, act).value, x)
  {
    ProducerFavors(s, act);
    ProducerWakes(s, act);
    if ProducerStep(s, act).value.workers != s.workers {
      SumUpdate(s.workers, CarriesOf(x), act.pick, WPop);
    }
  }

  lemma MainKeepsResults(s: State, pick: nat, x: nat)
    requires StartInv(s) && ResultAt(s, x) && MainGo(s, pick).Some?
    ensures ResultAt(MainGo(s, pick).value, x)
  {
    MainOutput(s, pick);
    MainWorkers(s, pick);
    if s.main.Start? && 2 <= s.main.next < |s.workers| + 2 {
      SumUpdate(s.workers, CarriesOf(x), s.main.next - 2, WPop);
    } else if s.main.NotifyInEmpty? {
      SumSame(s.workers, WakeWorkers(s.workers), CarriesOf(x));
    }
  }

  lemma ResultAtKept(s: State, e: Event, x: nat)
    requires PhaseInv(s) && StartInv(s) && OutputQueue(s.output) && ResultAt(s, x) && Step(s, e).Some?
    ensures ResultAt(Step(s, e).value, x)
  {
    match e.thread
    case Main =>
      MainKeepsResults(s, e.act.pick, x);
    case Producer =>
      ProducerKeepsResults(s, e.act, x);
    case Worker(i) =>
      WorkerKeepsResults(s, i, e.act, x);
    case Logger =>
      LoggerLeavesResults(s, e.act, x);
      LoggerCalm(s, e.act);
    case Watchdog =>
      WatchdogLeavesResults(s, e.act, x);
      WatchdogCalm(s, e.act);
    case Clock =>
  }
}
