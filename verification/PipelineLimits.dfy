/** What the drain leaves in the input queue when there is no worker, and exactly when it leaves nothing. */
module PipelineLimits {
  import opened QueueModel
  import opened Options
  import opened Pipeline
  import opened PipelinePhases
  import opened PipelineRuns
  import opened PipelineDrain
  import opened PipelineWitness

  /** Shutting down with a signal in the queue, nobody to take it, and nobody throwing. */
  ghost predicate Stranded(s: State) {
    && Rank(s.main) >= 3 && s.token && s.producer == PExited(false) && s.workers == [] && s.input.buffer != []
    && !s.logger.LCrashing? && !s.watchdog.DCrashing? && s.books.exceptions == 0
  }

  lemma MainStranded(s: State, pick: nat)
    requires Stranded(s) && MainGo(s, pick).Some?
    ensures Stranded(MainGo(s, pick).value)
  {
  }

  lemma LoggerStranded(s: State, pick: nat)
    requires Stranded(s) && LoggerGo(s, pick).Some?
    ensures Stranded(LoggerGo(s, pick).value)
  {
  }

  lemma WatchdogStranded(s: State)
    requires Stranded(s) && WatchdogGo(s).Some?
    ensures Stranded(WatchdogGo(s).value)
  {
  }

  lemma StrandedStep(s: State, e: Event)
    requires Stranded(s) && IsOrdinary(e) && Step(s, e).Some?
    ensures Stranded(Step(s, e).value)
  {
    match e.thread
    case Main => MainStranded(s, e.act.pick);
    case Logger => LoggerStranded(s, e.act.pick);
    case Watchdog => WatchdogStranded(s);
  }

  lemma {:induction false} StrandedRun(s: State, es: seq<Event>)
    requires Stranded(s) && Run(s, es).Some? && forall i :: 0 <= i < |es| ==> IsOrdinary(es[i])
    ensures Stranded(Run(s, es).value)
  {
    if es != [] {
      StrandedRun(s, es[..|es| - 1]);
      StrandedStep(Run(s, es[..|es| - 1]).value, es[|es| - 1]);
    }
  }

  lemma EmptyPoolLoses(inCap: nat, outCap: nat, escalate: bool, timeout: int) returns (s: State)
    requires inCap >= 1 && outCap >= 1
    ensures Leads(Init(0, inCap, outCap, escalate, timeout), s)
    ensures s.main.Finished? && s.books.exceptions == 0 && s.input.buffer != []
  {
    var init := Init(0, inCap, outCap, escalate, timeout);
    InitInv(0, inCap, outCap, escalate, timeout);
    StartAll(init);
    var t := Produce(init, Started(init));
    t := Stop(init, t);
    var es :| Run(init, es) == Some(t);
    RunKeeps(init, es);
    var fs := DrainFinishes(t);
    StrandedRun(t, fs);
    s := Run(t, fs).value;
    RunConcat(init, es, t, fs, s);
    assert Run(init, es + fs) == Some(s);
  }

  lemma {:induction false} PoolSizeKept(s: State, es: seq<Event>)
    requires Inv(s) && Run(s, es).Some?
    ensures |Run(s, es).value.workers| == |s.workers|
  {
    if es != [] {
      PoolSizeKept(s, es[..|es| - 1]);
      RunKeeps(s, es[..|es| - 1]);
      PoolSize(Run(s, es[..|es| - 1]).value, es[|es| - 1]);
    }
  }

  /** Every completed drain without exceptions leaves the input queue empty. */
  ghost predicate DrainsInput(n: nat, inCap: nat, outCap: nat, escalate: bool, timeout: int) {
    forall s | Leads(Init(n, inCap, outCap, escalate, timeout), s) ::
      s.main.Finished? && s.books.exceptions == 0 ==> s.input.buffer == []
  }

  /** workerCount is not validated, and the promise holds exactly for a pool with at least one worker. */
  lemma DrainsInputIff(n: nat, inCap: nat, outCap: nat, escalate: bool, timeout: int)
    requires inCap >= 1 && outCap >= 1
    ensures DrainsInput(n, inCap, outCap, escalate, timeout) <==> n >= 1
  {
    var init := Init(n, inCap, outCap, escalate, timeout);
    if n == 0 {
      var s := EmptyPoolLoses(inCap, outCap, escalate, timeout);
    } else {
      forall s | Leads(init, s) && s.main.Finished? && s.books.exceptions == 0 ensures s.input.buffer == [] {
        var es :| Run(init, es) == Some(s);
        InitInv(n, inCap, outCap, escalate, timeout);
        PoolSizeKept(init, es);
        InputDrained(s);
      }
    }
  }
}
