/** Where every signal is: the input queue, the producer's counters and the workers' hands. */
module PipelineFlow {
  import opened QueueModel
  import opened Options
  import opened Pipeline
  import opened PipelinePhases

  // ---------------------------------------------------------------- sums over the workers

  function SumOver(ws: seq<WorkerPc>, f: WorkerPc -> nat): nat {
    if ws == [] then 0 else SumOver(ws[..|ws| - 1], f) + f(ws[|ws| - 1])
  }

  lemma {:induction false} SumUpdate(ws: seq<WorkerPc>, f: WorkerPc -> nat, i: nat, pc: WorkerPc)
    requires i < |ws|
    ensures SumOver(ws[i := pc], f) + f(ws[i]) == SumOver(ws, f) + f(pc)
  {
    var n := |ws| - 1;
    if i == n {
      assert ws[i := pc][..n] == ws[..n];
    } else {
      assert ws[i := pc][..n] == ws[..n][i := pc];
      SumUpdate(ws[..n], f, i, pc);
    }
  }

  lemma {:induction false} SumSame(ws: seq<WorkerPc>, vs: seq<WorkerPc>, f: WorkerPc -> nat)
    requires |ws| == |vs| && forall i :: 0 <= i < |ws| ==> f(ws[i]) == f(vs[i])
    ensures SumOver(ws, f) == SumOver(vs, f)
  {
    if ws != [] {
      SumSame(ws[..|ws| - 1], vs[..|vs| - 1], f);
    }
  }

  // ---------------------------------------------------------------- the invariants

  /** Signals are numbered in the order of acceptance, and none has ever been dropped. */
  ghost predicate InputQueue(q: Queue<nat>) {
    && Valid(q) && q.policy == Block && q.rejected == []
    && forall i :: 0 <= i < |q.accepted| ==> q.accepted[i] == i
  }

  /** The producer's counters against the number n of accepted signals. */
  ghost predicate CountersAgree(pc: ProducerPc, n: nat, b: Ledger) {
    && b.inputDrops == 0
    && match pc
       case PNotStarted => 0 == n == b.produced
       case PPush(id) => id == n == b.produced
       case PPushAsleep(id) => id == n == b.produced
       case PPushNotify => n == b.produced + 1
       case PCountProduced => n == b.produced + 1
       case PStoreDrops(drops) => drops == 0 && n == b.produced
       case PCrashing(_) => b.produced <= n <= b.produced + 1
       case PExited(crashed) => b.produced <= n <= (if crashed then b.produced + 1 else b.produced)
       case _ => n == b.produced
  }

  ghost predicate InputInv(s: State) {
    InputQueue(s.input) && CountersAgree(s.producer, |s.input.accepted|, s.books)
  }

  /** How often x occurs in xs. */
  function Occ(xs: seq<nat>, x: nat): nat {
    if xs == [] then 0 else Occ(xs[..|xs| - 1], x) + (if xs[|xs| - 1] == x then 1 else 0)
  }

  lemma OccAppend(xs: seq<nat>, v: nat, x: nat)
    ensures Occ(xs + [v], x) == Occ(xs, x) + (if v == x then 1 else 0)
  {
    assert (xs + [v])[..|xs|] == xs;
  }

  /** Whether a worker holds signal x. */
  function Holds(pc: WorkerPc, x: nat): nat {
    match pc
    case WPopNotify(id) => if id == x then 1 else 0
    case WMark(id, _) => if id == x then 1 else 0
    case WProcess(id) => if id == x then 1 else 0
    case _ => 0
  }

  function HoldsOf(x: nat): WorkerPc -> nat {
    pc => Holds(pc, x)
  }

  /** How many workers hold signal x. */
  function InFlight(ws: seq<WorkerPc>, x: nat): nat {
    SumOver(ws, HoldsOf(x))
  }

  /** Signal x was taken from the queue as often as it was processed, is in a worker's hands, or was lost
      with a worker that threw. */
  ghost predicate FlowAt(s: State, x: nat) {
    Occ(Items(s.input.removed), x) == Occ(s.books.processed, x) + InFlight(s.workers, x) + Occ(s.books.lost, x)
  }

  // ---------------------------------------------------------------- the producer

  lemma BlockPush(q: Queue<nat>, id: nat)
    requires InputQueue(q) && id == |q.accepted| && (Full(q) ==> q.closed)
    ensures InputQueue(Enqueue(q, id).0)
    ensures Enqueue(q, id).0.removed == q.removed
    ensures |Enqueue(q, id).0.accepted| == |q.accepted| + (if Enqueue(q, id).1 then 1 else 0)
    ensures q.dropped == 0
  {
    EnqueueValid(q, id);
  }

  lemma PushInput(s: State)
    requires InputInv(s) && s.producer.PPush?
    ensures InputInv(ProducerGo(s, 0).value)
  {
    if !(Full(s.input) && !s.input.closed) {
      BlockPush(s.input, s.producer.id);
    }
  }

  lemma GoCounters(s: State, pick: nat)
    requires CountersAgree(s.producer, |s.input.accepted|, s.books) && s.input.dropped == 0
    requires !s.producer.PPush? && ProducerGo(s, pick).Some?
    ensures var t := ProducerGo(s, pick).value; CountersAgree(t.producer, |s.input.accepted|, t.books)
  {
  }

  lemma ProducerInput(s: State, act: Act)
    requires InputInv(s) && ProducerStep(s, act).Some?
    ensures InputInv(ProducerStep(s, act).value)
  {
    if act.Go? {
      if s.producer.PPush? {
        PushInput(s);
      } else {
        GoCounters(s, act.pick);
        ProducerGoInput(s, act.pick);
      }
    }
  }

  lemma ProducerFlow(s: State, act: Act, x: nat)
    requires InputInv(s) && FlowAt(s, x) && ProducerStep(s, act).Some?
    ensures FlowAt(ProducerStep(s, act).value, x)
  {
    ProducerRemovesNothing(s, act);
    ProducerWakes(s, act);
    if ProducerStep(s, act).value.workers != s.workers {
      SumUpdate(s.workers, HoldsOf(x), act.pick, WPop);
    }
  }

  lemma ProducerEffectRemoves(s: State, t: State)
    requires InputInv(s) && ProducerEffect(s, t)
    ensures t.input.removed == s.input.removed && t.books.processed == s.books.processed && t.books.lost == s.books.lost
  {
  }

  lemma ProducerRemovesNothing(s: State, act: Act)
    requires InputInv(s) && ProducerStep(s, act).Some?
    ensures var t := ProducerStep(s, act).value;
            t.input.removed == s.input.removed && t.books.processed == s.books.processed && t.books.lost == s.books.lost
  {
    ProducerDoes(s, act);
    ProducerEffectRemoves(s, ProducerStep(s, act).value);
  }

  // ---------------------------------------------------------------- the workers

  lemma WorkerInput(s: State, pc: WorkerPc, act: Act)
    requires InputInv(s) && WorkerAct(s, pc, act).Moves?
    ensures InputInv(WorkerAct(s, pc, act).rest)
  {
    if s.input.buffer != [] {
      DequeueValid(s.input);
    }
  }

  /** A worker's step moves at most one signal: from the queue to its hands, to the results or to the losses. */
  ghost predicate SignalsMoved(s: State, pc: WorkerPc, m: WorkerMove, x: nat)
    requires m.Moves?
  {
    var t := m.rest;
    && Occ(Items(t.input.removed), x) + Occ(s.books.processed, x) + Occ(s.books.lost, x) + Holds(pc, x)
    == Occ(Items(s.input.removed), x) + Occ(t.books.processed, x) + Occ(t.books.lost, x) + Holds(m.pc, x)
  }

  lemma TakesSignal(s: State, x: nat)
    requires s.input.buffer != []
    ensures SignalsMoved(s, WPop, WorkerGo(s, WPop), x)
  {
    OneMore(s.input.removed, Removal(s.input.buffer[0], Popped));
    OccAppend(Items(s.input.removed), s.input.buffer[0], x);
  }

  lemma ProcessesSignal(s: State, id: nat, x: nat)
    ensures SignalsMoved(s, WProcess(id), WorkerGo(s, WProcess(id)), x)
  {
    OccAppend(s.books.processed, id, x);
  }

  lemma WorkerGoMoves(s: State, pc: WorkerPc, x: nat)
    requires WorkerGo(s, pc).Moves?
    ensures SignalsMoved(s, pc, WorkerGo(s, pc), x)
  {
    if pc.WPop? && s.input.buffer != [] {
      TakesSignal(s, x);
    } else if pc.WProcess? {
      ProcessesSignal(s, pc.id, x);
    }
  }

  lemma WorkerMovesSignals(s: State, pc: WorkerPc, act: Act, x: nat)
    requires WorkerAct(s, pc, act).Moves?
    ensures SignalsMoved(s, pc, WorkerAct(s, pc, act), x)
  {
    if act.Go? {
      WorkerGoMoves(s, pc, x);
    } else if pc.WProcess? || pc.WMark? {
      OccAppend(s.books.lost, pc.id, x);
    } else {
      assert s.books.lost + [] == s.books.lost;
    }
  }

  lemma WorkerFlow(s: State, i: nat, act: Act, x: nat)
    requires FlowAt(s, x) && i < |s.workers| && WorkerStep(s, i, act).Some?
    ensures FlowAt(WorkerStep(s, i, act).value, x)
  {
    WorkerCalm(s, s.workers[i], act);
    WorkerMovesSignals(s, s.workers[i], act, x);
    SumUpdate(s.workers, HoldsOf(x), i, WorkerAct(s, s.workers[i], act).pc);
  }

  // ---------------------------------------------------------------- the other threads

  /** The input side is untouched, except that a producer asleep on the token may be woken. */
  ghost predicate InputUntouched(s: State, t: State) {
    && t.input == s.input && t.workers == s.workers
    && t.books.produced == s.books.produced && t.books.inputDrops == s.books.inputDrops
    && t.books.processed == s.books.processed && t.books.lost == s.books.lost
    && (t.producer == s.producer || (s.producer.PWaitAsleep? && t.producer == PWait(false)))
  }

  lemma LoggerLeavesInput(s: State, act: Act)
    requires LoggerStep(s, act).Some?
    ensures InputUntouched(s, LoggerStep(s, act).value)
  {
  }

  lemma WatchdogEffectInput(s: State, t: State)
    requires WatchdogEffect(s, t)
    ensures InputUntouched(s, t)
  {
  }

  lemma WatchdogLeavesInput(s: State, act: Act)
    requires WatchdogStep(s, act).Some?
    ensures InputUntouched(s, WatchdogStep(s, act).value)
  {
    WatchdogDoes(s, act);
    WatchdogEffectInput(s, WatchdogStep(s, act).value);
  }

  /** The main thread closes the input queue, starts the producer and wakes it; nothing else. */
  lemma MainEffects(s: State, pick: nat)
    requires StartInv(s) && MainGo(s, pick).Some?
    ensures var t := MainGo(s, pick).value;
            && (t.input == s.input || t.input == Close(s.input))
            && t.books == s.books
            && (t.producer == s.producer
                || (s.producer.PNotStarted? && t.producer.PCheck?)
                || (s.producer.PWaitAsleep? && t.producer == PWait(false))
                || (s.producer.PPushAsleep? && t.producer == PPush(s.producer.id)))
  {
  }

  lemma MainInput(s: State, pick: nat)
    requires StartInv(s) && InputInv(s) && MainGo(s, pick).Some?
    ensures InputInv(MainGo(s, pick).value)
  {
    MainEffects(s, pick);
  }

  /** The main thread touches workers only to start or wake them. */
  lemma MainWorkers(s: State, pick: nat)
    requires StartInv(s) && MainGo(s, pick).Some?
    ensures var ws := MainGo(s, pick).value.workers;
            || ws == s.workers
            || (s.main.NotifyInEmpty? && ws == WakeWorkers(s.workers))
            || (s.main.Start? && 2 <= s.main.next < |s.workers| + 2 && ws == s.workers[s.main.next - 2 := WPop]
                && s.workers[s.main.next - 2].WNotStarted?)
  {
  }

  lemma MainFlow(s: State, pick: nat, x: nat)
    requires StartInv(s) && InputInv(s) && FlowAt(s, x) && MainGo(s, pick).Some?
    ensures FlowAt(MainGo(s, pick).value, x)
  {
    MainEffects(s, pick);
    MainWorkers(s, pick);
    if s.main.Start? && 2 <= s.main.next < |s.workers| + 2 {
      SumUpdate(s.workers, HoldsOf(x), s.main.next - 2, WPop);
    } else if s.main.NotifyInEmpty? {
      SumSame(s.workers, WakeWorkers(s.workers), HoldsOf(x));
    }
  }

  lemma FlowAtKept(s: State, e: Event, x: nat)
    requires StartInv(s) && InputInv(s) && FlowAt(s, x) && Step(s, e).Some?
    ensures FlowAt(Step(s, e).value, x)
  {
    match e.thread
    case Main => MainFlow(s, e.act.pick, x);
    case Producer => ProducerFlow(s, e.act, x);
    case Worker(i) => WorkerFlow(s, i, e.act, x);
    case Logger => LoggerLeavesInput(s, e.act);
    case Watchdog => WatchdogLeavesInput(s, e.act);
    case Clock =>
  }

  lemma InputKept(s: State, e: Event)
    requires StartInv(s) && InputInv(s) && Step(s, e).Some?
    ensures InputInv(Step(s, e).value)
  {
    match e.thread
    case Main => MainInput(s, e.act.pick);
    case Producer => ProducerInput(s, e.act);
    case Worker(i) => WorkerInput(s, s.workers[i], e.act);
    case Logger => LoggerLeavesInput(s, e.act);
    case Watchdog => WatchdogLeavesInput(s, e.act);
    case Clock =>
  }
}
