/** Building runs step by step: what can be reached, and the stretches that longer runs are made of. */
module PipelineWitness {
  import opened QueueModel
  import opened Options
  import opened Pipeline
  import opened PipelinePhases
  import opened PipelineFlow
  import opened PipelineLog
  import opened PipelineRuns
  import opened PipelineDrain

  ghost predicate Leads(s: State, t: State) {
    exists es :: Run(s, es) == Some(t)
  }

  lemma Here(s: State)
    ensures Leads(s, s)
  {
    assert Run(s, []) == Some(s);
  }

  lemma RunSnoc(s: State, es: seq<Event>, t: State, e: Event)
    requires Run(s, es) == Some(t)
    ensures Run(s, es + [e]) == Step(t, e)
  {
    assert (es + [e])[..|es|] == es;
  }

  lemma Extended(s: State, t: State, e: Event, u: State)
    requires Leads(s, t) && Step(t, e) == Some(u)
    ensures Leads(s, u)
  {
    var es :| Run(s, es) == Some(t);
    RunSnoc(s, es, t, e);
    assert Run(s, es + [e]) == Some(u);
  }

  lemma RunSplit(s: State, es: seq<Event>, e: Event, u: State)
    requires Run(s, es + [e]) == Some(u)
    ensures Run(s, es).Some? && Step(Run(s, es).value, e) == Some(u)
  {
    assert (es + [e])[..|es|] == es;
  }

  lemma {:induction false} RunConcat(s: State, es: seq<Event>, t: State, fs: seq<Event>, u: State)
    requires Run(s, es) == Some(t) && Run(t, fs) == Some(u)
    ensures Run(s, es + fs) == Some(u)
  {
    if fs == [] {
      assert es + fs == es;
    } else {
      var n := |fs| - 1;
      assert fs == fs[..n] + [fs[n]];
      RunSplit(t, fs[..n], fs[n], u);
      var m := Run(t, fs[..n]).value;
      RunConcat(s, es, t, fs[..n], m);
      RunSnoc(s, es + fs[..n], m, fs[n]);
      assert es + fs[..n] + [fs[n]] == es + fs;
    }
  }

  // ---------------------------------------------------------------- one more step of a thread

  lemma ByMain(s: State, t: State, pick: nat) returns (u: State)
    requires Leads(s, t) && MainGo(t, pick).Some?
    ensures u == MainGo(t, pick).value && Leads(s, u)
  {
    u := MainGo(t, pick).value;
    Extended(s, t, Event(Main, Go(pick)), u);
  }

  lemma ByProducer(s: State, t: State, pick: nat) returns (u: State)
    requires Leads(s, t) && ProducerGo(t, pick).Some?
    ensures u == ProducerGo(t, pick).value && Leads(s, u)
  {
    u := ProducerGo(t, pick).value;
    Extended(s, t, Event(Producer, Go(pick)), u);
  }

  lemma ByWorker(s: State, t: State, i: nat) returns (u: State)
    requires Leads(s, t) && i < |t.workers| && WorkerGo(t, t.workers[i]).Moves?
    ensures Some(u) == WorkerStep(t, i, Go(0)) && Leads(s, u)
  {
    WorkerCalm(t, t.workers[i], Go(0));
    u := WorkerStep(t, i, Go(0)).value;
    Extended(s, t, Event(Worker(i), Go(0)), u);
  }

  lemma ByLogger(s: State, t: State, pick: nat) returns (u: State)
    requires Leads(s, t) && LoggerGo(t, pick).Some?
    ensures u == LoggerGo(t, pick).value && Leads(s, u)
  {
    u := LoggerGo(t, pick).value;
    Extended(s, t, Event(Logger, Go(pick)), u);
  }

  lemma ByWatchdog(s: State, t: State) returns (u: State)
    requires Leads(s, t) && WatchdogGo(t).Some?
    ensures u == WatchdogGo(t).value && Leads(s, u)
  {
    u := WatchdogGo(t).value;
    Extended(s, t, Event(Watchdog, Go(0)), u);
  }

  lemma ByClock(s: State, t: State, elapsed: nat) returns (u: State)
    requires Leads(s, t)
    ensures u == t.(time := t.time.(clock := t.time.clock + elapsed)) && Leads(s, u)
  {
    u := t.(time := t.time.(clock := t.time.clock + elapsed));
    Extended(s, t, Event(Clock, Go(elapsed)), u);
  }

  // ---------------------------------------------------------------- startup

  function PoolStarted(n: nat, k: nat): (ws: seq<WorkerPc>)
    ensures |ws| == n
  {
    seq(n, i => if i < k then WPop else WNotStarted)
  }

  lemma PoolNext(n: nat, k: nat)
    requires k < n
    ensures PoolStarted(n, k)[k := WPop] == PoolStarted(n, k + 1)
  {
  }

  function StartedTo(init: State, k: nat): State {
    init.(main := Start(k + 2), logger := LPop, watchdog := DWait(false), workers := PoolStarted(|init.workers|, k))
  }

  lemma StartTwo(init: State)
    requires init.main == Start(0) && init.workers == seq(|init.workers|, _ => WNotStarted)
    ensures Leads(init, StartedTo(init, 0))
  {
    Here(init);
    var t := ByMain(init, init, 0);
    t := ByMain(init, t, 0);
    assert PoolStarted(|init.workers|, 0) == init.workers;
  }

  lemma StartWorker(s: State, t: State, k: nat) returns (u: State)
    requires Leads(s, t) && t.main == Start(k + 2) && k < |t.workers|
    ensures Leads(s, u) && u == t.(main := Start(k + 3), workers := t.workers[k := WPop])
  {
    u := ByMain(s, t, 0);
  }

  ghost predicate UpTo(init: State, k: nat) {
    Leads(init, StartedTo(init, k))
  }

  lemma StartNext(init: State, k: nat)
    requires k < |init.workers| && UpTo(init, k)
    ensures UpTo(init, k + 1)
  {
    var t := StartWorker(init, StartedTo(init, k), k);
    PoolNext(|init.workers|, k);
    assert t == StartedTo(init, k + 1);
  }

  lemma StartPool(init: State)
    requires UpTo(init, 0)
    ensures UpTo(init, |init.workers|)
  {
    var k := 0;
    while k < |init.workers|
      invariant k <= |init.workers| && UpTo(init, k)
    {
      StartNext(init, k);
      k := k + 1;
    }
  }

  function Started(init: State): State {
    init.(main := Waiting, producer := PCheck, logger := LPop, watchdog := DWait(false),
          workers := seq(|init.workers|, _ => WPop))
  }

  /** Every thread started, none has done anything yet. */
  lemma StartAll(init: State)
    requires init.main == Start(0) && init.workers == seq(|init.workers|, _ => WNotStarted)
    ensures Leads(init, Started(init))
  {
    var n := |init.workers|;
    StartTwo(init);
    StartPool(init);
    var t := ByMain(init, StartedTo(init, n), 0);
    t := ByMain(init, t, 0);
    assert PoolStarted(n, n) == seq(n, _ => WPop);
  }

  // ---------------------------------------------------------------- one cycle of the producer

  lemma Sample(s: State, t: State) returns (u: State)
    requires Leads(s, t) && t.producer.PCheck? && !t.token
    ensures Leads(s, u)
    ensures u == t.(producer := PPush(|t.input.accepted|), time := MarkRunning(t.time, 0, t.time.clock))
  {
    u := ByProducer(s, t, 0);
    u := ByProducer(s, u, 0);
  }

  lemma Store(s: State, t: State) returns (u: State)
    requires Leads(s, t) && t.producer.PPush? && !t.input.closed && !Full(t.input)
    requires forall i :: 0 <= i < |t.workers| ==> !t.workers[i].WPopAsleep?
    ensures Leads(s, u) && u == t.(producer := PCountProduced, input := Enqueue(t.input, t.producer.id).0)
  {
    u := ByProducer(s, t, 0);
    u := ByProducer(s, u, 0);
  }

  lemma CountOne(s: State, t: State) returns (u: State)
    requires Leads(s, t) && t.producer.PCountProduced?
    ensures Leads(s, u)
    ensures u == t.(producer := PStoreDrops(t.input.dropped), books := t.books.(produced := t.books.produced + 1))
  {
    u := ByProducer(s, t, 0);
    u := ByProducer(s, u, 0);
  }

  lemma NextCycle(s: State, t: State) returns (u: State)
    requires Leads(s, t) && t.producer.PStoreDrops?
    ensures Leads(s, u)
    ensures u == t.(producer := PCheck, books := t.books.(inputDrops := t.producer.drops))
  {
    u := ByProducer(s, t, 0);
    u := ByProducer(s, u, 0);
  }

  /** A signal is stored in the empty input queue, and the deadline after it is missed. */
  lemma Produce(s: State, t: State) returns (u: State)
    requires Leads(s, t) && t.producer.PCheck? && !t.token
    requires !t.input.closed && t.input.capacity >= 1 && t.input.buffer == []
    requires forall i :: 0 <= i < |t.workers| ==> !t.workers[i].WPopAsleep?
    ensures Leads(s, u)
    ensures u == t.(input := u.input, books := u.books, time := MarkRunning(t.time, 0, t.time.clock))
    ensures u.books == t.books.(produced := u.books.produced, inputDrops := u.books.inputDrops)
    ensures |u.input.buffer| == 1 && !u.input.closed && u.input.capacity == t.input.capacity
  {
    u := Sample(s, t);
    u := Store(s, u);
    u := CountOne(s, u);
    u := NextCycle(s, u);
  }

  // ---------------------------------------------------------------- one signal through a worker

  /** The clock and the producer's heartbeat stay as they are. */
  ghost predicate TimeKept(t: Timing, u: Timing) {
    && u.clock == t.clock && u.timeout == t.timeout && |u.beats| == |t.beats|
    && (|t.beats| > 0 ==> u.beats[0] == t.beats[0])
  }

  lemma Take(s: State, t: State, i: nat) returns (u: State)
    requires Leads(s, t) && i < |t.workers| && t.workers[i].WPop? && |t.input.buffer| == 1 && t.producer.PCheck?
    ensures Leads(s, u)
    ensures exists id, since :: u == t.(input := Dequeue(t.input), workers := t.workers[i := WMark(id, since)])
  {
    u := ByWorker(s, t, i);
    u := ByWorker(s, u, i);
    assert u == t.(input := Dequeue(t.input), workers := t.workers[i := WMark(t.input.buffer[0], t.time.clock)]);
  }

  lemma ProcessOne(s: State, t: State, i: nat) returns (u: State)
    requires Leads(s, t) && i < |t.workers| && t.workers[i].WMark?
    ensures Leads(s, u)
    ensures u == t.(workers := t.workers[i := WPush(t.workers[i].id)], time := u.time,
                    books := t.books.(processed := u.books.processed))
    ensures TimeKept(t.time, u.time)
  {
    u := ByWorker(s, t, i);
    u := ByWorker(s, u, i);
  }

  lemma PushOne(s: State, t: State, i: nat) returns (u: State)
    requires Leads(s, t) && i < |t.workers| && t.workers[i].WPush? && !t.logger.LPopAsleep?
    requires !t.output.closed && t.output.policy == DropOldest && t.output.capacity >= 1
    ensures Leads(s, u)
    ensures u == t.(workers := t.workers[i := WReadDrops], output := Enqueue(t.output, DspRecord(t.workers[i].id)).0)
  {
    u := ByWorker(s, t, i);
    u := ByWorker(s, u, i);
  }

  lemma ReadGauge(s: State, t: State, i: nat) returns (u: State)
    requires Leads(s, t) && i < |t.workers| && t.workers[i].WReadDrops?
    ensures Leads(s, u) && u == t.(workers := t.workers[i := WStoreDrops(t.output.dropped)])
  {
    u := ByWorker(s, t, i);
  }

  lemma StoreGauge(s: State, t: State, i: nat) returns (u: State)
    requires Leads(s, t) && i < |t.workers| && t.workers[i].WStoreDrops?
    ensures Leads(s, u)
    ensures u == t.(workers := t.workers[i := WPop], time := u.time,
                    books := t.books.(logDrops := t.workers[i].drops))
    ensures TimeKept(t.time, u.time)
  {
    u := ByWorker(s, t, i);
    u := ByWorker(s, u, i);
  }

  /** What one more record does to a DropOldest queue that is open. */
  ghost predicate OneMoreRecord(q: Queue<Record>, p: Queue<Record>) {
    && p.capacity == q.capacity && p.policy == q.policy && p.closed == q.closed
    && |p.buffer| == (if Full(q) then |q.buffer| else |q.buffer| + 1)
    && p.dropped == (if Full(q) then q.dropped + 1 else q.dropped)
  }

  /** A worker takes the only signal, processes it, pushes the record and reads the drop count. */
  lemma Consume(s: State, t: State, i: nat) returns (u: State)
    requires Leads(s, t) && i < |t.workers| && t.workers[i].WPop? && |t.input.buffer| == 1 && t.producer.PCheck?
    requires !t.logger.LPopAsleep? && !t.output.closed && t.output.policy == DropOldest && t.output.capacity >= 1
    ensures Leads(s, u)
    ensures u == t.(input := Dequeue(t.input), workers := t.workers[i := WStoreDrops(u.output.dropped)],
                    output := u.output, time := u.time, books := t.books.(processed := u.books.processed))
    ensures OneMoreRecord(t.output, u.output) && TimeKept(t.time, u.time)
  {
    u := Take(s, t, i);
    u := ProcessOne(s, u, i);
    u := PushOne(s, u, i);
    u := ReadGauge(s, u, i);
  }

  /** A signal arrives and the producer sees the flag. */
  lemma Stop(s: State, t: State) returns (u: State)
    requires Leads(s, t) && t.main.Waiting? && t.producer.PCheck?
    ensures Leads(s, u) && u == t.(main := SignalNotify, producer := PExited(false), token := true)
  {
    u := ByMain(s, t, 1);
    u := ByMain(s, u, 0);
    u := ByProducer(s, u, 0);
  }

  // ---------------------------------------------------------------- a scan that finds the producer stalled

  /** A scan begins. */
  lemma BeginScan(s: State, t: State) returns (u: State)
    requires Leads(s, t) && t.watchdog == DWait(false) && !t.token
    ensures Leads(s, u)
    ensures u == t.(watchdog := DScan(Heartbeats(t), false, t.time.clock),
                    books := t.books.(scans := t.books.scans + 1))
  {
    u := ByWatchdog(s, t);
    Extended(s, u, Event(Watchdog, Timeout), u.(watchdog := DWait(true)));
    u := u.(watchdog := DWait(true));
    u := ByWatchdog(s, u);
    u := ByWatchdog(s, u);
  }

  /** The producer's heartbeat has been Running for longer than the timeout when the scan comes to it. */
  lemma FlagProducer(s: State, t: State) returns (u: State)
    requires Leads(s, t) && t.watchdog == DWait(false) && !t.token && |t.time.beats| == |t.workers| + 2
    requires t.time.beats[0].running && t.time.beats[0].stamp <= t.time.clock
    ensures Leads(s, u) && u.watchdog.DStallPush? && u.watchdog.left == |t.workers| + 1
    ensures u == t.(watchdog := u.watchdog, books := u.books, time := u.time)
    ensures u.books == t.books.(scans := t.books.scans + 1, stalls := t.books.stalls + 1)
  {
    var elapsed := if t.time.timeout < 0 then 0 else t.time.timeout + 1;
    u := ByClock(s, t, elapsed);
    u := BeginScan(s, u);
    assert Flagged(u.time, Visited(u, Heartbeats(u)), u.watchdog.now);
    u := ByWatchdog(s, u);
  }
}
