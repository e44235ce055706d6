/** RadarProducer::produceLoop (src/radar_producer.cpp:48-78) against the clock.  The environment decides every
    delay; time never runs backwards and a timed wait never returns early unless shutdown was requested. */
module Schedule {
  import opened Options

  datatype Ending = GoesOn | StopSeen | QueueClosed | WokenByStop

  /** One cycle of the environment: the delays before the sample, during the work and after the wait. */
  datatype Cycle = Cycle(beforeSample: nat, work: nat, oversleep: nat, ending: Ending)

  /** One signal that was stored: the deadline in force, the time of the sample, the reading after the push. */
  datatype Beat = Beat(deadline: int, sample: int, now: int)

  /** A signal that was sampled and then refused by the closed queue. */
  datatype Sample = Sample(deadline: int, time: int)

  /** The next deadline had come when the work was done. */
  predicate IsMiss(b: Beat, period: int) {
    b.deadline + period <= b.now
  }

  /** By how much a cycle overran the next deadline. */
  function Lateness(b: Beat, period: int): nat {
    if IsMiss(b, period) then b.now - b.deadline - period else 0
  }

  function Drift(beats: seq<Beat>, period: int): nat {
    if beats == [] then 0 else Drift(beats[..|beats| - 1], period) + Lateness(beats[|beats| - 1], period)
  }

  function Misses(beats: seq<Beat>, period: int): nat {
    if beats == [] then 0
    else Misses(beats[..|beats| - 1], period) + (if IsMiss(beats[|beats| - 1], period) then 1 else 0)
  }

  /** Deadline j is the start, or the deadline before it plus a period and its lateness. */
  ghost predicate DeadlineOk(start: int, period: int, beats: seq<Beat>, j: nat)
    requires j < |beats|
  {
    beats[j].deadline
    == if j == 0 then start else beats[j - 1].deadline + period + Lateness(beats[j - 1], period)
  }

  ghost predicate Chained(start: int, period: int, beats: seq<Beat>) {
    forall j: nat :: j < |beats| ==> DeadlineOk(start, period, beats, j)
  }

  /** Where a cycle leaves the clock: straight after a miss, otherwise after the wait for the next deadline. */
  function Resumes(b: Beat, c: Cycle, period: int): int {
    if IsMiss(b, period) then b.now else b.deadline + period + c.oversleep
  }

  /** Sample j is taken as soon as the cycle before allows, give or take the environment's delays. */
  ghost predicate SampleOk(start: int, period: int, beats: seq<Beat>, script: seq<Cycle>, j: nat)
    requires j < |beats| <= |script|
  {
    && beats[j].now == beats[j].sample + script[j].work
    && beats[j].sample
       == (if j == 0 then start else Resumes(beats[j - 1], script[j - 1], period)) + script[j].beforeSample
  }

  ghost predicate Paced(start: int, period: int, beats: seq<Beat>, script: seq<Cycle>) {
    && |beats| <= |script|
    && forall j: nat :: j < |beats| ==> SampleOk(start, period, beats, script, j)
  }

  // ---------------------------------------------------------------- what the schedule promises

  lemma DriftStep(beats: seq<Beat>, period: int, i: nat)
    requires i < |beats|
    ensures Drift(beats[..i + 1], period) == Drift(beats[..i], period) + Lateness(beats[i], period)
  {
    assert beats[..i + 1][..i] == beats[..i];
  }

  lemma ProductStep(i: nat, period: int)
    ensures (i + 1) * period == i * period + period
  {
  }

  /** The k-th deadline is start + k periods + all the lateness of the cycles before it. */
  lemma {:induction false} DeadlineAt(start: int, period: int, beats: seq<Beat>, k: nat)
    requires Chained(start, period, beats) && k < |beats|
    ensures beats[k].deadline == start + k * period + Drift(beats[..k], period)
  {
    assert DeadlineOk(start, period, beats, k);
    if k > 0 {
      DeadlineAt(start, period, beats, k - 1);
      DriftStep(beats, period, k - 1);
      ProductStep(k - 1, period);
    }
  }

  /** No sample is taken before its deadline. */
  lemma SampleNotEarly(start: int, period: int, beats: seq<Beat>, script: seq<Cycle>, k: nat)
    requires Chained(start, period, beats) && Paced(start, period, beats, script) && k < |beats|
    ensures beats[k].deadline <= beats[k].sample
  {
    assert DeadlineOk(start, period, beats, k) && SampleOk(start, period, beats, script, k);
  }

  /** No drift between misses. */
  lemma {:induction false} NoDrift(start: int, period: int, beats: seq<Beat>, a: nat, b: nat)
    requires Chained(start, period, beats) && a <= b < |beats|
    requires forall i :: a <= i < b ==> !IsMiss(beats[i], period)
    ensures beats[b].deadline == beats[a].deadline + (b - a) * period
    decreases b
  {
    if a < b {
      var i := b - 1;
      NoDrift(start, period, beats, a, i);
      assert DeadlineOk(start, period, beats, b);
      assert (b - a) * period == (i - a) * period + period;
    }
  }

  /** The signals sampled by time T. */
  function TakenBy(beats: seq<Beat>, T: int): nat {
    if beats == [] then 0
    else TakenBy(beats[..|beats| - 1], T) + (if beats[|beats| - 1].sample <= T then 1 else 0)
  }

  lemma {:induction false} TakenBound(beats: seq<Beat>, start: int, period: int, T: int)
    requires period > 0 && T >= start
    requires forall k :: 0 <= k < |beats| ==> start + k * period <= beats[k].sample
    ensures TakenBy(beats, T) <= (T - start) / period + 1
    ensures TakenBy(beats, T) <= |beats|
  {
    if beats != [] {
      var n := |beats| - 1;
      TakenBound(beats[..n], start, period, T);
      if beats[n].sample <= T {
        assert start + n * period <= beats[n].sample;
        QuotientBound(T - start, period, n);
      }
    }
  }

  lemma ProductMonotone(a: nat, b: nat, d: nat)
    requires a <= b
    ensures a * d <= b * d
  {
  }

  lemma QuotientBound(x: nat, d: nat, n: nat)
    requires d > 0 && n * d <= x
    ensures n <= x / d
  {
    var q := x / d;
    assert x < (q + 1) * d;
    if q + 1 <= n {
      ProductMonotone(q + 1, n, d);
      assert false;
    }
  }

  // ---------------------------------------------------------------- the loop

  /** The cycle after `beats` fits the schedule. */
  ghost predicate Fits(start: int, period: int, beats: seq<Beat>, script: seq<Cycle>, deadline: int, time: int) {
    if beats == [] then deadline == time == start
    else
      var k := |beats| - 1;
      && k < |script|
      && deadline == beats[k].deadline + period + Lateness(beats[k], period)
      && time == Resumes(beats[k], script[k], period)
  }

  /** The sample after the stored ones, when its push is refused, is the one the schedule had next. */
  ghost predicate RefusedOk(start: int, period: int, beats: seq<Beat>, script: seq<Cycle>, refused: Option<Sample>) {
    refused.Some? ==>
      && |beats| < |script| && script[|beats|].ending == QueueClosed
      && Fits(start, period, beats, script, refused.value.deadline,
              refused.value.time - script[|beats|].beforeSample)
  }

  /** The environment let every cycle but the last run to its end. */
  ghost predicate Undisturbed(beats: seq<Beat>, script: seq<Cycle>, period: int, upTo: int) {
    && |beats| <= |script|
    && (forall k :: 0 <= k < |beats| ==> script[k].ending != StopSeen && script[k].ending != QueueClosed)
    && (forall k :: 0 <= k < |beats| && k < upTo ==> script[k].ending != WokenByStop || IsMiss(beats[k], period))
  }

  /** The loop ended because the environment ended it, with a refused sample exactly if the queue was closed. */
  ghost predicate Ended(beats: seq<Beat>, script: seq<Cycle>, period: int, refused: Option<Sample>)
    requires |beats| <= |script|
  {
    var n := |beats|;
    if n > 0 && script[n - 1].ending == WokenByStop && !IsMiss(beats[n - 1], period) then refused.None?
    else if n == |script| || script[n].ending == StopSeen then refused.None?
    else script[n].ending == QueueClosed && refused.Some?
  }

  lemma Extend(start: int, period: int, beats: seq<Beat>, script: seq<Cycle>, deadline: int, time: int, b: Beat)
    requires Chained(start, period, beats) && Paced(start, period, beats, script)
    requires |beats| < |script| && Fits(start, period, beats, script, deadline, time)
    requires b.deadline == deadline && b.sample == time + script[|beats|].beforeSample
    requires b.now == b.sample + script[|beats|].work
    ensures Chained(start, period, beats + [b]) && Paced(start, period, beats + [b], script)
    ensures Misses(beats + [b], period) == Misses(beats, period) + (if IsMiss(b, period) then 1 else 0)
  {
    var all := beats + [b];
    assert all[..|beats|] == beats;
    forall j: nat | j < |all| ensures DeadlineOk(start, period, all, j) && SampleOk(start, period, all, script, j) {
      if j < |beats| {
        assert DeadlineOk(start, period, beats, j) && SampleOk(start, period, beats, script, j);
      }
    }
  }

  /** As if the refused sample had been stored. */
  function Completed(beats: seq<Beat>, script: seq<Cycle>, r: Sample): seq<Beat>
    requires |beats| < |script|
  {
    beats + [Beat(r.deadline, r.time, r.time + script[|beats|].work)]
  }

  /** Neither a stored sample nor the refused one comes before its deadline. */
  lemma RefusedNotEarly(start: int, period: int, beats: seq<Beat>, script: seq<Cycle>, r: Sample)
    requires Chained(start, period, beats) && Paced(start, period, beats, script)
    requires RefusedOk(start, period, beats, script, Some(r))
    ensures r.deadline <= r.time
    ensures r.deadline == start + |beats| * period + Drift(beats, period)
  {
    var all := Completed(beats, script, r);
    Extend(start, period, beats, script, r.deadline, r.time - script[|beats|].beforeSample, all[|beats|]);
    SampleNotEarly(start, period, all, script, |beats|);
    DeadlineAt(start, period, all, |beats|);
    assert all[..|beats|] == beats;
  }

  lemma StoredRateBound(start: int, period: int, beats: seq<Beat>, script: seq<Cycle>, T: int)
    requires Chained(start, period, beats) && Paced(start, period, beats, script)
    requires period > 0 && T >= start
    ensures TakenBy(beats, T) <= (T - start) / period + 1
  {
    forall k | 0 <= k < |beats| ensures start + k * period <= beats[k].sample {
      DeadlineAt(start, period, beats, k);
      SampleNotEarly(start, period, beats, script, k);
    }
    TakenBound(beats, start, period, T);
  }

  /** At most floor((T - start) / period) + 1 samples by time T, the refused one included. */
  lemma RateBound(start: int, period: int, beats: seq<Beat>, script: seq<Cycle>, refused: Option<Sample>, T: int)
    requires Chained(start, period, beats) && Paced(start, period, beats, script)
    requires RefusedOk(start, period, beats, script, refused)
    requires period > 0 && T >= start
    ensures TakenBy(beats, T) + (if refused.Some? && refused.value.time <= T then 1 else 0)
            <= (T - start) / period + 1
  {
    if refused.Some? {
      var r := refused.value;
      var all := Completed(beats, script, r);
      Extend(start, period, beats, script, r.deadline, r.time - script[|beats|].beforeSample, all[|beats|]);
      StoredRateBound(start, period, all, script, T);
      assert all[..|beats|] == beats;
    } else {
      StoredRateBound(start, period, beats, script, T);
    }
  }

  /** The recurrence written out: after a miss the deadline is realigned to now and the next sample follows at once;
      otherwise the deadline moves by one period and the next sample waits for it. */
  lemma Recurrence(start: int, period: int, beats: seq<Beat>, script: seq<Cycle>, k: nat)
    requires Chained(start, period, beats) && Paced(start, period, beats, script) && k + 1 < |beats|
    ensures var b, c := beats[k], beats[k + 1];
            var wait := script[k + 1].beforeSample;
            if b.deadline + period <= b.now then c.deadline == b.now && c.sample == b.now + wait
            else c.deadline == b.deadline + period && c.sample == c.deadline + script[k].oversleep + wait
  {
    assert DeadlineOk(start, period, beats, k + 1) && SampleOk(start, period, beats, script, k + 1);
  }

  /** The first sample is due at the start and taken at once. */
  lemma FirstSample(start: int, period: int, beats: seq<Beat>, script: seq<Cycle>)
    requires Chained(start, period, beats) && Paced(start, period, beats, script) && beats != []
    ensures beats[0].deadline == start && beats[0].sample == start + script[0].beforeSample
    ensures beats[0].now == beats[0].sample + script[0].work
  {
    assert DeadlineOk(start, period, beats, 0) && SampleOk(start, period, beats, script, 0);
  }

  /** The cycles that had reached their next deadline when the work was done. */
  ghost function LateCycles(beats: seq<Beat>, period: int): set<nat> {
    set k: nat | k < |beats| && beats[k].deadline + period <= beats[k].now
  }

  lemma {:induction false} MissesAreLate(beats: seq<Beat>, period: int)
    ensures Misses(beats, period) == |LateCycles(beats, period)|
  {
    if beats == [] {
      assert LateCycles(beats, period) == {};
    } else {
      var n := |beats| - 1;
      MissesAreLate(beats[..n], period);
      var before := LateCycles(beats[..n], period);
      assert LateCycles(beats, period) == if IsMiss(beats[n], period) then before + {n} else before;
    }
  }

  /** produceLoop until the environment ends it; the end of the script is a stop seen by the loop condition. */
  method ProduceLoop(start: int, period: int, script: seq<Cycle>)
    returns (beats: seq<Beat>, refused: Option<Sample>, produced: nat, misses: nat)
    ensures Chained(start, period, beats) && Paced(start, period, beats, script)
    ensures produced == |beats| && misses == Misses(beats, period)
    ensures Undisturbed(beats, script, period, |beats| - 1) && Ended(beats, script, period, refused)
    ensures RefusedOk(start, period, beats, script, refused)
    ensures misses == |LateCycles(beats, period)|
  {
    var nextDeadline, time := start, start;
    beats, refused, produced, misses := [], None, 0, 0;
    while produced < |script| && script[produced].ending != StopSeen
      invariant produced == |beats| <= |script|
      invariant Chained(start, period, beats) && Paced(start, period, beats, script)
      invariant Fits(start, period, beats, script, nextDeadline, time)
      invariant misses == Misses(beats, period)
      invariant Undisturbed(beats, script, period, |beats|) && refused.None?
      decreases |script| - produced
    {
      var c := script[produced];
      var sampleTime := time + c.beforeSample;
      if c.ending == QueueClosed {
        refused := Some(Sample(nextDeadline, sampleTime));
        break;
      }
      var now := sampleTime + c.work;
      var b := Beat(nextDeadline, sampleTime, now);
      Extend(start, period, beats, script, nextDeadline, time, b);
      beats, produced := beats + [b], produced + 1;
      nextDeadline := nextDeadline + period;
      if nextDeadline - now <= 0 {
        misses := misses + 1;
        nextDeadline, time := now, now;
      } else if c.ending == WokenByStop {
        break;
      } else {
        time := nextDeadline + c.oversleep;
      }
    }
    MissesAreLate(beats, period);
  }
}
