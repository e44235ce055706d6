/** The heartbeats of the running pipeline: they say where their thread is, a scan misses no thread that hangs, and
    it reports no other (src/watchdog.cpp:59-99). */
module PipelineBeats {
  import opened QueueModel
  import opened Options
  import opened Pipeline
  import opened PipelinePhases
  import opened PipelineFlow
  import opened PipelineLog
  import opened PipelineRuns

  // ---------------------------------------------------------------- a heartbeat says where its thread is

  /** Running from the mark before the push to the wait; PCheck, PSample and the end keep what was there. */
  ghost predicate ProducerBeatOk(pc: ProducerPc, b: Beat, clock: int) {
    && b.stamp <= clock
    && (pc.PSample? ==> pc.since <= clock)
    && (pc.PPush? || pc.PPushAsleep? || pc.PPushNotify? || pc.PCountProduced? ==> b.running)
    && (pc.PReadDrops? || pc.PStoreDrops? || pc.PDeadline? ==> b.running)
    && (pc.PNotStarted? || pc.PWait? || pc.PWaitAsleep? ==> !b.running)
  }

  /** Running from the mark after the pop to the mark before the next. */
  ghost predicate WorkerBeatOk(pc: WorkerPc, b: Beat, clock: int) {
    && b.stamp <= clock
    && (pc.WMark? ==> pc.since <= clock)
    && (pc.WProcess? || pc.WPush? || pc.WPushNotify? ==> b.running)
    && (pc.WReadDrops? || pc.WStoreDrops? || pc.WMarkWaiting? ==> b.running)
    && (pc.WNotStarted? || pc.WPop? || pc.WPopAsleep? ==> !b.running)
    && (pc.WPopNotify? || pc.WMark? || pc == WExited(false) ==> !b.running)
  }

  ghost predicate LoggerBeatOk(pc: LoggerPc, b: Beat, clock: int) {
    && b.stamp <= clock
    && (pc.LPopNotify? ==> pc.since <= clock)
    && (pc.LWrite? ==> b.running)
    && (pc.LNotStarted? || pc.LPop? || pc.LPopAsleep? ==> !b.running)
    && (pc.LPopNotify? || pc.LFlush? || pc == LExited(false) ==> !b.running)
  }

  ghost predicate BeatInv(s: State) {
    var n := |s.workers|;
    && |s.time.beats| == n + 2
    && ProducerBeatOk(s.producer, s.time.beats[0], s.time.clock)
    && LoggerBeatOk(s.logger, s.time.beats[n + 1], s.time.clock)
    && forall i, k :: 0 <= i < n && k == i + 1 ==> WorkerBeatOk(s.workers[i], s.time.beats[k], s.time.clock)
  }

  /** Only heartbeat k changes. */
  ghost predicate OnlyBeat(t: Timing, u: Timing, k: nat) {
    && u.clock == t.clock && u.timeout == t.timeout && |u.beats| == |t.beats|
    && forall j :: 0 <= j < |t.beats| && j != k ==> u.beats[j] == t.beats[j]
  }

  lemma ProducerBeats(s: State, act: Act)
    requires |s.time.beats| > 0 && ProducerBeatOk(s.producer, s.time.beats[0], s.time.clock)
    requires ProducerStep(s, act).Some?
    ensures var t := ProducerStep(s, act).value;
            && OnlyBeat(s.time, t.time, 0) && ProducerBeatOk(t.producer, t.time.beats[0], t.time.clock)
  {
  }

  /** A woken producer or logger has a heartbeat that fits where it is. */
  lemma WokenBeats(s: State, p: ProducerPc, l: LoggerPc)
    requires BeatInv(s)
    requires p == s.producer || (s.producer.PWaitAsleep? && p.PWait?) || (s.producer.PPushAsleep? && p.PPush?)
             || (s.producer.PNotStarted? && p.PCheck?)
    requires l == s.logger || ((s.logger.LPopAsleep? || s.logger.LNotStarted?) && l.LPop?)
    ensures BeatInv(s.(producer := p, logger := l))
  {
  }

  lemma BeatsOnly(s: State, t: State)
    requires BeatInv(s) && t.workers == s.workers && t.time == s.time && t.producer == s.producer && t.logger == s.logger
    ensures BeatInv(t)
  {
  }

  lemma ProducerKeepsBeats(s: State, act: Act)
    requires BeatInv(s) && ProducerStep(s, act).Some?
    ensures BeatInv(ProducerStep(s, act).value)
  {
    var t := ProducerStep(s, act).value;
    ProducerBeats(s, act);
    ProducerDoes(s, act);
    ProducerWakes(s, act);
  }

  lemma WorkerTouches(s: State, pc: WorkerPc, act: Act)
    requires WorkerAct(s, pc, act).Moves?
    ensures var t := WorkerAct(s, pc, act).rest;
            && (t.producer == s.producer || (s.producer.PWaitAsleep? && t.producer.PWait?)
                || (s.producer.PPushAsleep? && t.producer.PPush?))
            && (t.logger == s.logger || (s.logger.LPopAsleep? && t.logger.LPop?))
  {
  }

  lemma WorkerBeats(s: State, i: nat, act: Act)
    requires |s.time.beats| == |s.workers| + 2 && i < |s.workers|
    requires WorkerBeatOk(s.workers[i], s.time.beats[i + 1], s.time.clock) && WorkerStep(s, i, act).Some?
    ensures var t := WorkerStep(s, i, act).value;
            && OnlyBeat(s.time, t.time, i + 1)
            && |t.workers| == |s.workers| && WorkerBeatOk(t.workers[i], t.time.beats[i + 1], t.time.clock)
  {
    WorkerCalm(s, s.workers[i], act);
  }

  lemma OneWorkerBeat(s: State, t: State, i: nat, pc: WorkerPc)
    requires BeatInv(s) && i < |s.workers| && t.workers == s.workers[i := pc] && OnlyBeat(s.time, t.time, i + 1)
    requires WorkerBeatOk(pc, t.time.beats[i + 1], t.time.clock)
    requires t.producer == s.producer && t.logger == s.logger
    ensures BeatInv(t)
  {
  }

  lemma WorkerKeepsBeats(s: State, i: nat, act: Act)
    requires BeatInv(s) && i < |s.workers| && WorkerStep(s, i, act).Some?
    ensures BeatInv(WorkerStep(s, i, act).value)
  {
    var t := WorkerStep(s, i, act).value;
    var k := i + 1;
    assert WorkerBeatOk(s.workers[i], s.time.beats[k], s.time.clock);
    WorkerCalm(s, s.workers[i], act);
    WorkerTouches(s, s.workers[i], act);
    WorkerBeats(s, i, act);
    WokenBeats(s, t.producer, t.logger);
    OneWorkerBeat(s.(producer := t.producer, logger := t.logger), t, i, t.workers[i]);
  }

  lemma LoggerBeats(s: State, act: Act)
    requires |s.time.beats| == |s.workers| + 2 && LoggerStep(s, act).Some?
    requires LoggerBeatOk(s.logger, s.time.beats[|s.workers| + 1], s.time.clock)
    ensures var t := LoggerStep(s, act).value;
            && OnlyBeat(s.time, t.time, |s.workers| + 1)
            && LoggerBeatOk(t.logger, t.time.beats[|s.workers| + 1], t.time.clock)
            && (t.producer == s.producer || (s.producer.PWaitAsleep? && t.producer.PWait?))
  {
  }

  lemma LoggerKeepsBeats(s: State, act: Act)
    requires BeatInv(s) && LoggerStep(s, act).Some?
    ensures BeatInv(LoggerStep(s, act).value)
  {
    LoggerBeats(s, act);
    LoggerCalm(s, act);
  }

  lemma MainTime(s: State, pick: nat)
    requires StartInv(s) && MainGo(s, pick).Some?
    ensures MainGo(s, pick).value.time == s.time
  {
  }

  lemma MainKeepsBeats(s: State, pick: nat)
    requires StartInv(s) && BeatInv(s) && MainGo(s, pick).Some?
    ensures BeatInv(MainGo(s, pick).value)
  {
    var t := MainGo(s, pick).value;
    MainTime(s, pick);
    MainEffects(s, pick);
    MainOutput(s, pick);
    MainWorkers(s, pick);
    WokenBeats(s, t.producer, t.logger);
    var mid := s.(producer := t.producer, logger := t.logger);
    if s.main.Start? && 2 <= s.main.next < |s.workers| + 2 && t.workers != s.workers {
      var i := s.main.next - 2;
      var k := i + 1;
      assert WorkerBeatOk(s.workers[i], s.time.beats[k], s.time.clock);
      OneWorkerBeat(mid, t, i, WPop);
    } else {
      WakeKeepsBeats(mid, t);
    }
  }

  lemma WakeKeepsBeats(s: State, t: State)
    requires BeatInv(s) && (t.workers == s.workers || t.workers == WakeWorkers(s.workers))
    requires t.time == s.time && t.producer == s.producer && t.logger == s.logger
    ensures BeatInv(t)
  {
  }

  lemma ClockKeepsBeats(s: State, elapsed: nat)
    requires BeatInv(s)
    ensures BeatInv(s.(time := s.time.(clock := s.time.clock + elapsed)))
  {
  }

  lemma BeatsKept(s: State, e: Event)
    requires StartInv(s) && BeatInv(s) && Step(s, e).Some?
    ensures BeatInv(Step(s, e).value)
  {
    match e.thread
    case Main => MainKeepsBeats(s, e.act.pick);
    case Producer => ProducerKeepsBeats(s, e.act);
    case Worker(i) => WorkerKeepsBeats(s, i, e.act);
    case Logger => LoggerKeepsBeats(s, e.act);
    case Watchdog =>
      var t := Step(s, e).value;
      WatchdogDoes(s, e.act);
      WokenBeats(s, t.producer, t.logger);
      BeatsOnly(s.(producer := t.producer, logger := t.logger), t);
    case Clock => ClockKeepsBeats(s, e.act.pick);
  }

  lemma {:induction false} BeatsRun(s: State, es: seq<Event>)
    requires Inv(s) && BeatInv(s) && Run(s, es).Some?
    ensures BeatInv(Run(s, es).value)
  {
    if es != [] {
      BeatsRun(s, es[..|es| - 1]);
      RunKeeps(s, es[..|es| - 1]);
      BeatsKept(Run(s, es[..|es| - 1]).value, es[|es| - 1]);
    }
  }

  lemma InitBeats(n: nat, inCap: nat, outCap: nat, escalate: bool, timeout: int)
    ensures BeatInv(Init(n, inCap, outCap, escalate, timeout))
  {
  }

  /** In every reachable state: every heartbeat fits where its thread is, and no stamp lies in the future. */
  lemma BeatsTellTheTruth(s: State)
    requires Reachable(s)
    ensures BeatInv(s)
  {
    var n, inCap, outCap, escalate, timeout, es := Origin(s);
    InitBeats(n, inCap, outCap, escalate, timeout);
    BeatsRun(Init(n, inCap, outCap, escalate, timeout), es);
  }

  // ---------------------------------------------------------------- each mark is fresh

  /** A worker's mark carries a time between its arrival and now. */
  lemma WorkerMarksFresh(s: State, i: nat, pick: nat)
    requires BeatInv(s) && i < |s.workers| && s.workers[i].WMark?
    ensures var t := WorkerStep(s, i, Go(pick)).value;
            && t.time.beats[i + 1].running
            && s.workers[i].since <= t.time.beats[i + 1].stamp <= s.time.clock
  {
    var k := i + 1;
    assert WorkerBeatOk(s.workers[i], s.time.beats[k], s.time.clock);
  }

  lemma ProducerMarksFresh(s: State, pick: nat)
    requires BeatInv(s) && s.producer.PSample?
    ensures var t := ProducerGo(s, pick).value;
            t.time.beats[0].running && s.producer.since <= t.time.beats[0].stamp <= s.time.clock
  {
  }

  lemma LoggerMarksFresh(s: State, pick: nat)
    requires BeatInv(s) && s.logger.LPopNotify?
    ensures var t := LoggerGo(s, pick).value;
            var b := t.time.beats[|s.workers| + 1];
            b.running && s.logger.since <= b.stamp <= s.time.clock
  {
  }
}
