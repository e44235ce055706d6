/** What holds in every state of every run, whatever the interleaving, the number of workers, the capacities,
    and the threads that throw. */
module PipelineRuns {
  import opened QueueModel
  import opened Options
  import opened Pipeline
  import opened PipelinePhases
  import opened PipelineFlow
  import opened PipelineLog
  import opened PipelineResults
  import opened PipelineWake

  // ---------------------------------------------------------------- the invariant over runs

  ghost predicate SignalsInv(s: State) {
    forall x :: FlowAt(s, x) && ResultAt(s, x)
  }

  ghost predicate Inv(s: State) {
    PhaseInv(s) && StartInv(s) && InputInv(s) && LogsInv(s) && WakeInv(s) && SignalsInv(s)
  }

  lemma {:induction false} SumNotStarted(n: nat, f: WorkerPc -> nat)
    requires f(WNotStarted) == 0
    ensures SumOver(seq(n, _ => WNotStarted), f) == 0
  {
    if n > 0 {
      var ws := seq(n, _ => WNotStarted);
      assert ws[..n - 1] == seq(n - 1, _ => WNotStarted);
      SumNotStarted(n - 1, f);
    }
  }

  lemma InitInv(n: nat, inputCapacity: nat, outputCapacity: nat, escalate: bool, timeout: int)
    requires inputCapacity >= 1 && outputCapacity >= 1
    ensures Inv(Init(n, inputCapacity, outputCapacity, escalate, timeout))
  {
    var s := Init(n, inputCapacity, outputCapacity, escalate, timeout);
    forall x ensures FlowAt(s, x) && ResultAt(s, x) {
      SumNotStarted(n, HoldsOf(x));
      SumNotStarted(n, CarriesOf(x));
    }
    assert LogInv(s);
  }

  lemma PhaseKept(s: State, e: Event)
    requires PhaseInv(s) && StartInv(s) && Step(s, e).Some?
    ensures PhaseInv(Step(s, e).value) && StartInv(Step(s, e).value)
  {
    match e.thread
    case Main => MainPhase(s, e.act.pick);
    case Producer => ProducerPhase(s, e.act);
    case Worker(i) => WorkerPhase(s, i, e.act);
    case Logger => LoggerPhase(s, e.act);
    case Watchdog => WatchdogPhase(s, e.act);
    case Clock => PhaseCalm(s, Step(s, e).value);
  }

  lemma SignalsKept(s: State, e: Event)
    requires PhaseInv(s) && StartInv(s) && InputInv(s) && LogsInv(s) && SignalsInv(s) && Step(s, e).Some?
    ensures SignalsInv(Step(s, e).value)
  {
    forall x ensures FlowAt(Step(s, e).value, x) && ResultAt(Step(s, e).value, x) {
      assert FlowAt(s, x) && ResultAt(s, x);
      FlowAtKept(s, e, x);
      ResultAtKept(s, e, x);
    }
  }

  lemma StepKeeps(s: State, e: Event)
    requires Inv(s) && Step(s, e).Some?
    ensures Inv(Step(s, e).value)
  {
    PhaseKept(s, e);
    InputKept(s, e);
    LogsKept(s, e);
    WakeKept(s, e);
    SignalsKept(s, e);
  }

  lemma {:induction false} RunKeeps(s: State, es: seq<Event>)
    requires Inv(s) && Run(s, es).Some?
    ensures Inv(Run(s, es).value)
  {
    if es != [] {
      RunKeeps(s, es[..|es| - 1]);
      StepKeeps(Run(s, es[..|es| - 1]).value, es[|es| - 1]);
    }
  }

  /** Reachable from the start of Application::run. */
  ghost predicate Reachable(s: State) {
    exists n: nat, inCap: nat, outCap: nat, escalate, timeout, es ::
      inCap >= 1 && outCap >= 1 && Run(Init(n, inCap, outCap, escalate, timeout), es) == Some(s)
  }

  /** A run that leads to a reachable state. */
  lemma Origin(s: State)
    returns (n: nat, inCap: nat, outCap: nat, escalate: bool, timeout: int, es: seq<Event>)
    requires Reachable(s)
    ensures inCap >= 1 && outCap >= 1 && Inv(Init(n, inCap, outCap, escalate, timeout))
    ensures Run(Init(n, inCap, outCap, escalate, timeout), es) == Some(s)
  {
    n, inCap, outCap, escalate, timeout, es :|
      inCap >= 1 && outCap >= 1 && Run(Init(n, inCap, outCap, escalate, timeout), es) == Some(s);
    InitInv(n, inCap, outCap, escalate, timeout);
  }

  lemma ReachableInv(s: State)
    requires Reachable(s)
    ensures Inv(s)
  {
    var n, inCap, outCap, escalate, timeout, es := Origin(s);
    RunKeeps(Init(n, inCap, outCap, escalate, timeout), es);
  }

  /** The number of workers never changes. */
  lemma PoolSize(s: State, e: Event)
    requires StartInv(s) && Step(s, e).Some?
    ensures |Step(s, e).value.workers| == |s.workers|
  {
    match e.thread
    case Main => MainWorkers(s, e.act.pick);
    case Producer => ProducerWakes(s, e.act);
    case Worker(i) => WorkerCalm(s, s.workers[i], e.act);
    case Logger => LoggerCalm(s, e.act);
    case Watchdog => WatchdogCalm(s, e.act);
    case Clock =>
  }

  // ---------------------------------------------------------------- conservation of signals

  /** The signals in the workers' hands. */
  function AllHeld(ws: seq<WorkerPc>): seq<nat> {
    if ws == [] then [] else AllHeld(ws[..|ws| - 1]) + Held(ws[|ws| - 1])
  }

  lemma {:induction false} OccIsMultiplicity(xs: seq<nat>, x: nat)
    ensures multiset(xs)[x] == Occ(xs, x)
  {
    if xs != [] {
      var n := |xs| - 1;
      OccIsMultiplicity(xs[..n], x);
      assert xs == xs[..n] + [xs[n]];
    }
  }

  lemma {:induction false} HeldIsInFlight(ws: seq<WorkerPc>, x: nat)
    ensures multiset(AllHeld(ws))[x] == InFlight(ws, x)
  {
    if ws != [] {
      HeldIsInFlight(ws[..|ws| - 1], x);
    }
  }

  lemma {:induction false} Numbering(xs: seq<nat>, x: nat)
    requires forall i :: 0 <= i < |xs| ==> xs[i] == i
    ensures multiset(xs)[x] == if x < |xs| then 1 else 0
  {
    if xs != [] {
      var n := |xs| - 1;
      Numbering(xs[..n], x);
      assert xs == xs[..n] + [xs[n]];
    }
  }

  /** The signals removed from the input queue. */
  lemma RemovedConserved(s: State)
    requires SignalsInv(s)
    ensures multiset(Items(s.input.removed))
            == multiset(s.books.processed) + multiset(AllHeld(s.workers)) + multiset(s.books.lost)
  {
    var all := multiset(s.books.processed) + multiset(AllHeld(s.workers)) + multiset(s.books.lost);
    var removed: seq<nat> := Items(s.input.removed);
    forall x: nat ensures multiset(removed)[x] == all[x] {
      assert FlowAt(s, x);
      OccIsMultiplicity(removed, x);
      OccIsMultiplicity(s.books.processed, x);
      OccIsMultiplicity(s.books.lost, x);
      HeldIsInFlight(s.workers, x);
    }
  }

  /** accepted = processed + in flight + lost with a worker that threw + still buffered, and no signal is
      accepted twice, so none is processed twice. */
  lemma Conservation(s: State)
    requires Reachable(s)
    ensures multiset(s.input.accepted)
            == multiset(s.books.processed) + multiset(AllHeld(s.workers)) + multiset(s.books.lost)
               + multiset(s.input.buffer)
    ensures |s.input.accepted| == |s.books.processed| + |AllHeld(s.workers)| + |s.books.lost| + |s.input.buffer|
    ensures forall x: nat :: multiset(s.input.accepted)[x] == if x < |s.input.accepted| then 1 else 0
    ensures forall x: nat :: multiset(s.books.processed)[x] <= 1
  {
    ReachableInv(s);
    RemovedConserved(s);
    forall x: nat ensures multiset(s.input.accepted)[x] == if x < |s.input.accepted| then 1 else 0 {
      Numbering(s.input.accepted, x);
    }
    var all := multiset(s.books.processed) + multiset(AllHeld(s.workers)) + multiset(s.books.lost)
      + multiset(s.input.buffer);
    assert multiset(s.input.accepted) == all;
    assert |multiset(s.input.accepted)| == |all|;
    forall x: nat ensures multiset(s.books.processed)[x] <= 1 {
      assert all[x] <= 1;
    }
  }

  // ---------------------------------------------------------------- counters

  lemma CounterHonesty(s: State)
    requires Reachable(s)
    ensures s.books.produced <= |s.input.accepted| <= s.books.produced + 1
    ensures |s.books.processed| <= s.books.produced + 1
    ensures s.books.inputDrops == 0 == s.input.dropped && s.input.rejected == []
    ensures s.books.logDrops <= s.output.dropped
  {
    ReachableInv(s);
    Conservation(s);
  }

  // ---------------------------------------------------------------- the log path

  /** The record of a DSP worker is never refused; a refused record is a stall report. */
  lemma DspPushAccepted(s: State, i: nat, pick: nat)
    requires Reachable(s) && i < |s.workers| && s.workers[i].WPush?
    ensures WorkerStep(s, i, Go(pick)).Some?
    ensures var t := WorkerStep(s, i, Go(pick)).value;
            && t.output.accepted == s.output.accepted + [DspRecord(s.workers[i].id)]
            && t.output.refused == s.output.refused
            && t.workers[i] == WPushNotify
  {
    ReachableInv(s);
  }

  lemma OnlyStallsRefused(s: State)
    requires Reachable(s)
    ensures forall i :: 0 <= i < |s.output.refused| ==> s.output.refused[i].StallRecord?
    ensures s.output.refused != [] ==> Rank(s.main) >= 12
  {
    ReachableInv(s);
  }

  /** What a logger that did not throw has written is an ordered subsequence of the accepted records. */
  lemma WrittenInOrder(s: State)
    requires Reachable(s) && !LoggerCrashed(s.logger)
    ensures var at := PoppedAt(s.output.removed);
            && Increasing(at) && |s.books.written| <= |at| <= |s.books.written| + 1
            && (forall i :: 0 <= i < |s.books.written| ==>
                  at[i] < |s.output.accepted| && s.books.written[i] == s.output.accepted[at[i]])
  {
    ReachableInv(s);
    PoppedInOrder(s.output.removed);
    var at := PoppedAt(s.output.removed);
    assert s.books.written + [] == s.books.written;
    forall i | 0 <= i < |s.books.written|
      ensures at[i] < |s.output.accepted| && s.books.written[i] == s.output.accepted[at[i]] {
      assert s.books.written[i] == PoppedItems(s.output.removed)[i];
    }
  }

  /** Once such a logger is done, written + evicted = accepted, and nothing is left in the queue. */
  lemma LogAccounted(s: State)
    requires Reachable(s) && s.logger == LExited(false)
    ensures s.output.buffer == [] && s.output.closed
    ensures |s.books.written| + s.output.dropped == |s.output.accepted|
    ensures s.books.written == PoppedItems(s.output.removed)
  {
    ReachableInv(s);
    PoppedInOrder(s.output.removed);
    assert s.books.written + [] + [] == s.books.written;
  }

  // ---------------------------------------------------------------- after the drain

  /** How one worker can have ended. */
  lemma WorkerAtEnd(s: State, i: nat)
    requires Inv(s) && s.main.Finished? && i < |s.workers|
    ensures WorkerGone(s.workers[i])
    ensures s.workers[i] == WExited(true) ==> s.books.exceptions > 0
    ensures s.workers[i] != WExited(true) ==> s.input.buffer == []
  {
    var pc := s.workers[i];
    assert WorkerGone(pc) && WorkerOk(s, pc);
    if pc.WNotStarted? {
      assert s.producer.PNotStarted?;
      assert |s.input.accepted| == 0;
    }
  }

  /** A signal left behind means that every worker was started and died by an exception. */
  lemma LeftBehind(s: State)
    requires Reachable(s) && s.main.Finished? && s.input.buffer != []
    ensures forall i :: 0 <= i < |s.workers| ==> s.workers[i] == WExited(true)
  {
    ReachableInv(s);
    forall i | 0 <= i < |s.workers| ensures s.workers[i] == WExited(true) {
      WorkerAtEnd(s, i);
    }
  }

  lemma {:induction false} NobodyHolds(ws: seq<WorkerPc>)
    requires forall i :: 0 <= i < |ws| ==> WorkerGone(ws[i])
    ensures AllHeld(ws) == [] && forall x :: SumOver(ws, CarriesOf(x)) == 0
  {
    if ws != [] {
      NobodyHolds(ws[..|ws| - 1]);
    }
  }

  lemma NoWorkerCrashed(s: State)
    requires Inv(s) && s.main.Finished? && s.books.exceptions == 0
    ensures forall i :: 0 <= i < |s.workers| ==> !WorkerCrashed(s.workers[i])
  {
    forall i | 0 <= i < |s.workers| ensures !WorkerCrashed(s.workers[i]) {
      WorkerAtEnd(s, i);
    }
  }

  lemma NoOtherCrashed(s: State)
    requires PhaseInv(s) && OthersOk(s) && s.main.Finished? && s.books.exceptions == 0
    ensures !s.producer.PCrashing? && s.producer != PExited(true) && !LoggerCrashed(s.logger)
  {
  }

  lemma NoneCrashed(s: State)
    requires Reachable(s) && s.main.Finished? && s.books.exceptions == 0
    ensures forall i :: 0 <= i < |s.workers| ==> !WorkerCrashed(s.workers[i])
    ensures NothingLost(s.books) && !s.producer.PCrashing? && s.producer != PExited(true)
    ensures !LoggerCrashed(s.logger)
  {
    ReachableInv(s);
    NoWorkerCrashed(s);
    NoOtherCrashed(s);
  }

  lemma InputDrained(s: State)
    requires Reachable(s) && s.main.Finished? && s.books.exceptions == 0 && s.workers != []
    ensures s.input.buffer == []
  {
    ReachableInv(s);
    NoneCrashed(s);
    WorkerAtEnd(s, 0);
    assert !WorkerCrashed(s.workers[0]);
  }

  lemma CleanSignals(s: State)
    requires Reachable(s) && AllHeld(s.workers) == [] && NothingLost(s.books) && s.input.buffer == []
    ensures multiset(s.books.processed) == multiset(s.input.accepted)
    ensures |s.books.processed| == |s.input.accepted|
  {
    Conservation(s);
    var none: multiset<nat> := multiset{};
    assert multiset(s.input.accepted) == multiset(s.books.processed) + none + none + none;
  }

  lemma CleanCount(s: State)
    requires PhaseInv(s) && InputInv(s) && s.main.Finished? && s.producer != PExited(true)
    ensures s.books.produced == |s.input.accepted| && AllHeld(s.workers) == []
  {
    NobodyHolds(s.workers);
  }

  lemma CleanRecords(s: State, x: nat)
    requires PhaseInv(s) && InputQueue(s.input) && ResultAt(s, x) && s.main.Finished? && NothingLost(s.books)
    requires multiset(s.books.processed) == multiset(s.input.accepted)
    ensures Logged(s.output.accepted, x) == if x < |s.input.accepted| then 1 else 0
  {
    Numbering(s.input.accepted, x);
    NobodyHolds(s.workers);
    OccIsMultiplicity(s.books.processed, x);
  }

  /** A drain without exceptions loses nothing: every accepted signal was counted, processed exactly once, and
      its record entered the output queue exactly once. */
  lemma CleanDrain(s: State)
    requires Reachable(s) && s.main.Finished? && s.books.exceptions == 0 && s.workers != []
    ensures s.input.buffer == []
    ensures multiset(s.books.processed) == multiset(s.input.accepted)
    ensures s.books.produced == |s.books.processed| == |s.input.accepted|
    ensures forall x: nat :: Logged(s.output.accepted, x) == if x < s.books.produced then 1 else 0
  {
    InputDrained(s);
    NoneCrashed(s);
    CleanCount(s) by {
      ReachableInv(s);
    }
    CleanSignals(s);
    forall x: nat ensures Logged(s.output.accepted, x) == if x < s.books.produced then 1 else 0 {
      CleanRecords(s, x) by {
        ReachableInv(s);
      }
    }
  }

  lemma LoggerAtEnd(s: State)
    requires PhaseInv(s) && OthersOk(s) && s.main.Finished? && s.books.exceptions == 0 && !s.logger.LNotStarted?
    ensures s.logger == LExited(false)
  {
  }

  /** And when the logger was started as well, every record is on the sinks or counted as dropped. */
  lemma CleanLog(s: State)
    requires Reachable(s) && s.main.Finished? && s.books.exceptions == 0 && !s.logger.LNotStarted?
    ensures |s.books.written| + s.output.dropped == |s.output.accepted| && s.output.buffer == []
  {
    LoggerAtEnd(s) by {
      ReachableInv(s);
    }
    LogAccounted(s);
  }

  // ---------------------------------------------------------------- after the flag is set

  /** A thread asleep in waitFor: the flag is unset, or a thread that is awake has yet to notify. */
  lemma NoLostShutdown(s: State)
    requires Reachable(s) && TokenWaiter(s)
    ensures !s.token || OtherOwes(s) || SomeWorkerOwes(s.workers)
  {
    ReachableInv(s);
  }

  /** The signals the producer may still store once the flag is set. */
  function Storing(pc: ProducerPc): nat {
    if pc.PSample? || pc.PPush? || pc.PPushAsleep? then 1 else 0
  }

  function Stores(s: State): nat {
    |s.input.accepted| + Storing(s.producer)
  }

  lemma ProducerStores(s: State, act: Act)
    requires s.token && ProducerStep(s, act).Some?
    ensures Stores(ProducerStep(s, act).value) <= Stores(s)
    ensures ProducerStep(s, act).value.books.scans == s.books.scans
  {
  }

  lemma WorkerStores(s: State, pc: WorkerPc, act: Act)
    requires WorkerAct(s, pc, act).Moves?
    ensures Stores(WorkerAct(s, pc, act).rest) <= Stores(s)
    ensures WorkerAct(s, pc, act).rest.books.scans == s.books.scans
  {
  }

  lemma OthersStore(s: State, e: Event)
    requires s.token && StartInv(s) && Step(s, e).Some? && !e.thread.Worker? && !e.thread.Producer?
    ensures Stores(Step(s, e).value) <= Stores(s) && Step(s, e).value.books.scans == s.books.scans
  {
    match e.thread
    case Main => MainEffects(s, e.act.pick);
    case Logger => LoggerLeavesInput(s, e.act);
    case Watchdog => WatchdogLeavesInput(s, e.act);
    case Clock =>
  }

  lemma QuietStep(s: State, e: Event)
    requires s.token && StartInv(s) && Step(s, e).Some?
    ensures Stores(Step(s, e).value) <= Stores(s)
    ensures Step(s, e).value.books.scans == s.books.scans
  {
    match e.thread
    case Producer => ProducerStores(s, e.act);
    case Worker(i) => WorkerStores(s, s.workers[i], e.act);
    case _ => OthersStore(s, e);
  }

  lemma TokenStays(s: State, e: Event)
    requires s.token && Step(s, e).Some?
    ensures Step(s, e).value.token
  {
    match e.thread
    case Main =>
    case Producer => ProducerCalm(s, e.act);
    case Worker(i) => WorkerCalm(s, s.workers[i], e.act);
    case Logger => LoggerCalm(s, e.act);
    case Watchdog => WatchdogCalm(s, e.act);
    case Clock =>
  }

  /** Whatever happens after the flag is set, at most one more signal is stored and no further scan begins. */
  lemma {:induction false} QuietAfterShutdown(s: State, es: seq<Event>)
    requires Inv(s) && s.token && Run(s, es).Some?
    ensures var t := Run(s, es).value;
            && t.token && Stores(t) <= Stores(s) && t.books.scans == s.books.scans
            && |t.input.accepted| <= |s.input.accepted| + 1
  {
    if es != [] {
      var before := es[..|es| - 1];
      QuietAfterShutdown(s, before);
      RunKeeps(s, before);
      QuietStep(Run(s, before).value, es[|es| - 1]);
      TokenStays(Run(s, before).value, es[|es| - 1]);
    }
  }
}
