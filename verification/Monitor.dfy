/** ThreadSafeQueue under any interleaving of any number of threads (thread_safe_queue.hpp:66-179).
    One step is one lock section, one notification issued after unlocking, or one spurious wake-up. */
module Monitor {
  import opened Options
  import opened QueueModel

  /** Where a thread is.  A thread woken from a wait is back at the entry that re-checks the predicate. */
  datatype Pc<T> =
    | Idle
    | PushEnter(item: T, blocking: bool)
    | PushAsleep(item: T)
    | NotifyOne
    | PopEnter(blocking: bool)
    | PopAsleep
    | NotifyAllFull
    | CloseEnter
    | CloseNotifyEmpty
    | CloseNotifyFull
    | DrainEnter
    | DrainAsleep

  datatype State<T> = State(q: Queue<T>, threads: seq<Pc<T>>)

  /** `chosen` is the waiter that notify_one happens to wake. */
  datatype Event<T> =
    | Call(t: nat, pc: Pc<T>)
    | Section(t: nat)
    | Notify(t: nat, chosen: nat)
    | Spurious(t: nat)

  predicate IsEntry<T>(pc: Pc<T>) {
    pc.PushEnter? || pc.PopEnter? || pc.CloseEnter? || pc.DrainEnter?
  }

  function Init<T>(capacity: nat, policy: OverflowPolicy, n: nat): State<T> {
    State(Empty(capacity, policy), seq(n, _ => Idle))
  }

  // ---------------------------------------------------------------- wake-ups

  predicate Asleep<T>(pc: Pc<T>) {
    pc.PushAsleep? || pc.PopAsleep? || pc.DrainAsleep?
  }

  function WokenFull<T>(pc: Pc<T>): Pc<T> {
    match pc
    case PushAsleep(v) => PushEnter(v, true)
    case DrainAsleep => DrainEnter
    case _ => pc
  }

  function WokenEmpty<T>(pc: Pc<T>): Pc<T> {
    if pc.PopAsleep? then PopEnter(true) else pc
  }

  /** not_full_.notify_all() */
  function WakeFull<T>(ts: seq<Pc<T>>): (r: seq<Pc<T>>)
    ensures |r| == |ts|
  {
    seq(|ts|, i requires 0 <= i < |ts| => WokenFull(ts[i]))
  }

  /** not_empty_.notify_all() */
  function WakeEmpty<T>(ts: seq<Pc<T>>): (r: seq<Pc<T>>)
    ensures |r| == |ts|
  {
    seq(|ts|, i requires 0 <= i < |ts| => WokenEmpty(ts[i]))
  }

  // ---------------------------------------------------------------- steps

  function SectionStep<T>(s: State<T>, t: nat): Option<State<T>>
    requires t < |s.threads|
  {
    match s.threads[t]
    case PushEnter(v, blocking) =>
      if blocking && s.q.policy == Block && Full(s.q) && !s.q.closed then
        Some(s.(threads := s.threads[t := PushAsleep(v)]))
      else
        var (q, stored) := Enqueue(s.q, v);
        Some(State(q, s.threads[t := if stored then NotifyOne else Idle]))
    case PopEnter(blocking) =>
      if s.q.buffer != [] then Some(State(Dequeue(s.q), s.threads[t := NotifyAllFull]))
      else Some(s.(threads := s.threads[t := if blocking && !s.q.closed then PopAsleep else Idle]))
    case CloseEnter => Some(State(Close(s.q), s.threads[t := CloseNotifyEmpty]))
    case DrainEnter => Some(s.(threads := s.threads[t := if s.q.buffer == [] then Idle else DrainAsleep]))
    case _ => None
  }

  function NotifyStep<T>(s: State<T>, t: nat, chosen: nat): Option<State<T>>
    requires t < |s.threads|
  {
    match s.threads[t]
    case NotifyOne =>
      if chosen < |s.threads| && s.threads[chosen].PopAsleep? then
        Some(s.(threads := s.threads[chosen := PopEnter(true)][t := Idle]))
      else if exists i :: 0 <= i < |s.threads| && s.threads[i].PopAsleep? then None
      else Some(s.(threads := s.threads[t := Idle]))
    case NotifyAllFull => Some(s.(threads := WakeFull(s.threads)[t := Idle]))
    case CloseNotifyEmpty => Some(s.(threads := WakeEmpty(s.threads)[t := CloseNotifyFull]))
    case CloseNotifyFull => Some(s.(threads := WakeFull(s.threads)[t := Idle]))
    case _ => None
  }

  function Step<T>(s: State<T>, e: Event<T>): Option<State<T>> {
    if e.t >= |s.threads| then None
    else
      match e
      case Call(t, pc) =>
        if s.threads[t].Idle? && IsEntry(pc) then Some(s.(threads := s.threads[t := pc])) else None
      case Section(t) => SectionStep(s, t)
      case Notify(t, chosen) => NotifyStep(s, t, chosen)
      case Spurious(t) =>
        if !Asleep(s.threads[t]) then None
        else Some(s.(threads := s.threads[t := WokenEmpty(WokenFull(s.threads[t]))]))
  }

  function Run<T>(s: State<T>, es: seq<Event<T>>): Option<State<T>> {
    if es == [] then Some(s)
    else
      match Run(s, es[..|es| - 1])
      case None => None
      case Some(s') => Step(s', es[|es| - 1])
  }

  // ---------------------------------------------------------------- the invariant

  /** A consumer that will re-check the buffer, or a push that still owes a notify_one. */
  predicate Helps<T>(pc: Pc<T>) {
    pc == PopEnter(true) || pc.NotifyOne?
  }

  function Helpers<T>(ts: seq<Pc<T>>): nat {
    if ts == [] then 0 else Helpers(ts[..|ts| - 1]) + (if Helps(ts[|ts| - 1]) then 1 else 0)
  }

  ghost predicate SomePopAsleep<T>(ts: seq<Pc<T>>) {
    exists i :: 0 <= i < |ts| && ts[i].PopAsleep?
  }

  /** Some thread still owes not_full_ a notify_all. */
  predicate OwesFull<T>(pc: Pc<T>) {
    pc.NotifyAllFull? || pc.CloseNotifyEmpty? || pc.CloseNotifyFull?
  }

  ghost predicate FullOwed<T>(ts: seq<Pc<T>>) {
    exists i :: 0 <= i < |ts| && OwesFull(ts[i])
  }

  ghost predicate EmptyOwed<T>(ts: seq<Pc<T>>) {
    exists i :: 0 <= i < |ts| && ts[i].CloseNotifyEmpty?
  }

  /** not_empty_: while open, there is a helper for every buffered item whenever a consumer sleeps;
      once closed, a sleeping consumer means close() has not notified yet. */
  ghost predicate ConsumersSafe<T>(s: State<T>) {
    SomePopAsleep(s.threads) ==>
      if s.q.closed then EmptyOwed(s.threads) else Helpers(s.threads) >= |s.q.buffer|
  }

  /** not_full_: a sleeper's predicate is false, unless a notify_all is on its way. */
  ghost predicate ProducersSafe<T>(s: State<T>) {
    forall i :: 0 <= i < |s.threads| && (s.threads[i].PushAsleep? || s.threads[i].DrainAsleep?) ==>
      || FullOwed(s.threads)
      || (if s.threads[i].PushAsleep? then s.q.policy == Block && Full(s.q) && !s.q.closed else s.q.buffer != [])
  }

  ghost predicate Inv<T>(s: State<T>) {
    Valid(s.q) && ConsumersSafe(s) && ProducersSafe(s)
  }

  // ---------------------------------------------------------------- counting

  lemma {:induction false} HelpersUpdate<T>(ts: seq<Pc<T>>, i: nat, pc: Pc<T>)
    requires i < |ts|
    ensures Helpers(ts[i := pc]) + (if Helps(ts[i]) then 1 else 0) == Helpers(ts) + (if Helps(pc) then 1 else 0)
  {
    var n := |ts| - 1;
    if i == n {
      assert ts[i := pc][..n] == ts[..n];
    } else {
      assert ts[i := pc][..n] == ts[..n][i := pc];
      HelpersUpdate(ts[..n], i, pc);
    }
  }

  lemma {:induction false} HelpersSame<T>(ts: seq<Pc<T>>, us: seq<Pc<T>>)
    requires |ts| == |us| && forall i :: 0 <= i < |ts| ==> Helps(ts[i]) == Helps(us[i])
    ensures Helpers(ts) == Helpers(us)
  {
    if ts != [] {
      HelpersSame(ts[..|ts| - 1], us[..|us| - 1]);
    }
  }

  lemma {:induction false} HelpersSome<T>(ts: seq<Pc<T>>)
    requires Helpers(ts) > 0
    ensures exists i :: 0 <= i < |ts| && Helps(ts[i])
  {
    var n := |ts| - 1;
    if !Helps(ts[n]) {
      HelpersSome(ts[..n]);
      var i :| 0 <= i < n && Helps(ts[..n][i]);
      assert Helps(ts[i]);
    }
  }

  // ---------------------------------------------------------------- every step keeps the invariant

  /** Thread t alone moves from a waking position to pc, and the queue stays as it is or only gains. */
  lemma MoveOne<T>(s: State<T>, q: Queue<T>, t: nat, pc: Pc<T>)
    requires Inv(s) && t < |s.threads| && Valid(q)
    requires !OwesFull(s.threads[t])
    requires q.policy == s.q.policy && q.capacity == s.q.capacity
    requires q.closed ==> s.q.closed || pc.CloseNotifyEmpty?
    requires s.q.closed ==> q.closed
    requires pc.PopAsleep? ==> q.buffer == [] && !q.closed
    requires pc.PushAsleep? ==> q.policy == Block && Full(q) && !q.closed
    requires pc.DrainAsleep? ==> q.buffer != []
    requires |q.buffer| + (if Helps(s.threads[t]) then 1 else 0) <= |s.q.buffer| + (if Helps(pc) then 1 else 0)
          || q.buffer == []
    requires |q.buffer| < |s.q.buffer| ==> OwesFull(pc)
    ensures Inv(State(q, s.threads[t := pc]))
  {
    var ts, us := s.threads, s.threads[t := pc];
    HelpersUpdate(ts, t, pc);
    assert us[t] == pc;
    if SomePopAsleep(us) {
      if SomePopAsleep(ts) && s.q.closed {
        var i :| 0 <= i < |ts| && ts[i].CloseNotifyEmpty?;
        assert us[i].CloseNotifyEmpty?;
      }
      assert SomePopAsleep(ts) || pc.PopAsleep?;
    }
    if FullOwed(ts) {
      var i :| 0 <= i < |ts| && OwesFull(ts[i]);
      assert OwesFull(us[i]);
    }
    forall i | 0 <= i < |us| && (us[i].PushAsleep? || us[i].DrainAsleep?)
      ensures FullOwed(us)
           || (if us[i].PushAsleep? then q.policy == Block && Full(q) && !q.closed else q.buffer != [])
    {
      assert i == t || us[i] == ts[i];
    }
  }

  lemma PushKeeps<T>(s: State<T>, t: nat, v: T, blocking: bool)
    requires Inv(s) && t < |s.threads| && s.threads[t] == PushEnter(v, blocking)
    ensures Inv(SectionStep(s, t).value)
  {
    if blocking && s.q.policy == Block && Full(s.q) && !s.q.closed {
      MoveOne(s, s.q, t, PushAsleep(v));
    } else {
      EnqueueValid(s.q, v);
      var (q, stored) := Enqueue(s.q, v);
      MoveOne(s, q, t, if stored then NotifyOne else Idle);
    }
  }

  lemma PopKeeps<T>(s: State<T>, t: nat, blocking: bool)
    requires Inv(s) && t < |s.threads| && s.threads[t] == PopEnter(blocking)
    ensures Inv(SectionStep(s, t).value)
  {
    if s.q.buffer != [] {
      DequeueValid(s.q);
      MoveOne(s, Dequeue(s.q), t, NotifyAllFull);
    } else {
      MoveOne(s, s.q, t, if blocking && !s.q.closed then PopAsleep else Idle);
    }
  }

  lemma SectionKeeps<T>(s: State<T>, t: nat)
    requires Inv(s) && t < |s.threads| && SectionStep(s, t).Some?
    ensures Inv(SectionStep(s, t).value)
  {
    match s.threads[t]
    case PushEnter(v, blocking) => PushKeeps(s, t, v, blocking);
    case PopEnter(blocking) => PopKeeps(s, t, blocking);
    case CloseEnter => MoveOne(s, Close(s.q), t, CloseNotifyEmpty);
    case DrainEnter => MoveOne(s, s.q, t, if s.q.buffer == [] then Idle else DrainAsleep);
  }

  /** notify_one hands the duty of the push to the woken consumer. */
  lemma NotifyOneKeeps<T>(s: State<T>, t: nat, chosen: nat)
    requires Inv(s) && t < |s.threads| && s.threads[t].NotifyOne? && NotifyStep(s, t, chosen).Some?
    ensures Inv(NotifyStep(s, t, chosen).value)
  {
    if chosen < |s.threads| && s.threads[chosen].PopAsleep? {
      var mid := s.(threads := s.threads[chosen := PopEnter(true)]);
      MoveOne(s, s.q, chosen, PopEnter(true));
      MoveHelper(s, mid, t, chosen);
    } else {
      var us := s.threads[t := Idle];
      assert !SomePopAsleep(us);
      QuietKeeps(s, us, t);
    }
  }

  /** The woken consumer replaces the finished notifier as a helper. */
  lemma MoveHelper<T>(s: State<T>, mid: State<T>, t: nat, chosen: nat)
    requires Inv(s) && Inv(mid) && t < |s.threads| && chosen < |s.threads|
    requires s.threads[t].NotifyOne? && s.threads[chosen].PopAsleep?
    requires mid == s.(threads := s.threads[chosen := PopEnter(true)])
    ensures Inv(mid.(threads := mid.threads[t := Idle]))
  {
    var ts, us := s.threads, mid.threads[t := Idle];
    HelpersUpdate(ts, chosen, PopEnter(true));
    HelpersUpdate(mid.threads, t, Idle);
    assert SomePopAsleep(ts);
    if s.q.closed {
      var i :| 0 <= i < |ts| && ts[i].CloseNotifyEmpty?;
      assert us[i].CloseNotifyEmpty?;
    }
    QuietKeeps(mid, us, t);
  }

  /** A thread that owes nothing to not_full_ goes idle. */
  lemma QuietKeeps<T>(s: State<T>, us: seq<Pc<T>>, t: nat)
    requires Inv(s) && t < |s.threads| && us == s.threads[t := Idle]
    requires !OwesFull(s.threads[t]) && !Asleep(s.threads[t])
    requires ConsumersSafe(s.(threads := us))
    ensures Inv(s.(threads := us))
  {
    var ts := s.threads;
    if FullOwed(ts) {
      var i :| 0 <= i < |ts| && OwesFull(ts[i]);
      assert OwesFull(us[i]);
    }
  }

  /** Either notify_all on not_full_ leaves nobody asleep there. */
  lemma WakeFullKeeps<T>(s: State<T>, t: nat)
    requires Inv(s) && t < |s.threads| && (s.threads[t].NotifyAllFull? || s.threads[t].CloseNotifyFull?)
    ensures Inv(s.(threads := WakeFull(s.threads)[t := Idle]))
  {
    var ts, us := s.threads, WakeFull(s.threads)[t := Idle];
    HelpersSame(ts, us);
    if SomePopAsleep(us) {
      var i :| 0 <= i < |us| && us[i].PopAsleep?;
      assert ts[i].PopAsleep?;
      if s.q.closed {
        var j :| 0 <= j < |ts| && ts[j].CloseNotifyEmpty?;
        assert us[j].CloseNotifyEmpty?;
      }
    }
  }

  lemma WakeEmptyKeeps<T>(s: State<T>, t: nat)
    requires Inv(s) && t < |s.threads| && s.threads[t].CloseNotifyEmpty?
    ensures Inv(s.(threads := WakeEmpty(s.threads)[t := CloseNotifyFull]))
  {
    var us := WakeEmpty(s.threads)[t := CloseNotifyFull];
    assert !SomePopAsleep(us);
    assert OwesFull(us[t]);
  }

  lemma StepKeeps<T>(s: State<T>, e: Event<T>)
    requires Inv(s) && Step(s, e).Some?
    ensures Inv(Step(s, e).value)
  {
    match e
    case Call(t, pc) => MoveOne(s, s.q, t, pc);
    case Section(t) => SectionKeeps(s, t);
    case Spurious(t) => MoveOne(s, s.q, t, WokenEmpty(WokenFull(s.threads[t])));
    case Notify(t, chosen) =>
      match s.threads[t]
      case NotifyOne => NotifyOneKeeps(s, t, chosen);
      case CloseNotifyEmpty => WakeEmptyKeeps(s, t);
      case _ => WakeFullKeeps(s, t);
  }

  /** Every state of every run, for any number of threads, any capacity, any policy and any calls. */
  lemma {:induction false} AlwaysInv<T>(capacity: nat, policy: OverflowPolicy, n: nat, es: seq<Event<T>>)
    requires capacity >= 1
    requires Run(Init(capacity, policy, n), es).Some?
    ensures Inv(Run(Init(capacity, policy, n), es).value)
  {
    if es == [] {
    } else {
      AlwaysInv(capacity, policy, n, es[..|es| - 1]);
      StepKeeps(Run(Init(capacity, policy, n), es[..|es| - 1]).value, es[|es| - 1]);
    }
  }

  // ---------------------------------------------------------------- no lost wake-up

  /** Nothing is in progress: every thread is idle or asleep in a wait. */
  ghost predicate Quiescent<T>(s: State<T>) {
    forall i :: 0 <= i < |s.threads| ==> s.threads[i].Idle? || Asleep(s.threads[i])
  }

  /** Whenever no thread has anything left to do, everyone asleep is waiting for something that is still
      false: consumers for an item, producers for room, waitUntilEmpty for the last item to go. */
  lemma NoLostWakeup<T>(capacity: nat, policy: OverflowPolicy, n: nat, es: seq<Event<T>>, t: nat)
    requires capacity >= 1 && Run(Init(capacity, policy, n), es).Some?
    requires var s := Run(Init(capacity, policy, n), es).value; Quiescent(s) && t < |s.threads|
    ensures var s := Run(Init(capacity, policy, n), es).value;
            && (s.threads[t].PopAsleep? ==> s.q.buffer == [] && !s.q.closed)
            && (s.threads[t].PushAsleep? ==> s.q.policy == Block && Full(s.q) && !s.q.closed)
            && (s.threads[t].DrainAsleep? ==> s.q.buffer != [])
  {
    AlwaysInv(capacity, policy, n, es);
    var s := Run(Init(capacity, policy, n), es).value;
    if s.threads[t].PopAsleep? && Helpers(s.threads) > 0 {
      HelpersSome(s.threads);
    }
  }

  // ---------------------------------------------------------------- lock sections are queue operations

  /** The operation that a thread at pc carries out in its next lock section, unless it has to wait. */
  function OpOf<T>(q: Queue<T>, pc: Pc<T>): Option<Op<T>> {
    match pc
    case PushEnter(v, blocking) =>
      if blocking && q.policy == Block && Full(q) && !q.closed then None else Some(Push(v))
    case PopEnter(blocking) => if blocking && q.buffer == [] && !q.closed then None else Some(Pop)
    case CloseEnter => Some(CloseOp)
    case _ => None
  }

  function OpsAt<T>(s: State<T>, e: Event<T>): seq<Op<T>> {
    if e.Section? && e.t < |s.threads| then
      match OpOf(s.q, s.threads[e.t])
      case Some(op) => [op]
      case None => []
    else []
  }

  /** The operations of a run in the order of their lock sections. */
  function OpsOf<T>(s: State<T>, es: seq<Event<T>>): seq<Op<T>> {
    if es == [] then []
    else
      var n := |es| - 1;
      match Run(s, es[..n])
      case None => []
      case Some(mid) => OpsOf(s, es[..n]) + OpsAt(mid, es[n])
  }

  lemma StepIsOperation<T>(s: State<T>, e: Event<T>)
    requires Step(s, e).Some?
    ensures var ops := OpsAt(s, e);
            && |ops| <= 1
            && Step(s, e).value.q == if ops == [] then s.q else Apply(s.q, ops[0]).0
  {
  }

  /** However the threads are interleaved, the queue is what its operations make of it one after another. */
  lemma {:induction false} Linearizable<T>(capacity: nat, policy: OverflowPolicy, n: nat, es: seq<Event<T>>)
    requires Run(Init(capacity, policy, n), es).Some?
    ensures var init := Init<T>(capacity, policy, n);
            Run(init, es).value.q == RunFrom(Empty(capacity, policy), OpsOf(init, es)).0
  {
    if es != [] {
      var k := |es| - 1;
      var init := Init<T>(capacity, policy, n);
      Linearizable(capacity, policy, n, es[..k]);
      var mid := Run(init, es[..k]).value;
      StepIsOperation(mid, es[k]);
      var ops, last := OpsOf(init, es[..k]), OpsAt(mid, es[k]);
      if last == [] {
        assert ops + last == ops;
      } else {
        assert (ops + last)[..|ops|] == ops && (ops + last)[|ops|] == last[0];
      }
    }
  }

  // ---------------------------------------------------------------- when calls wait and when they return

  /** A blocking pop returns without a value only at end of stream, waitUntilEmpty only on an empty queue, and
      neither waits longer than it has to. */
  lemma ReturnsWhenDone<T>(s: State<T>, t: nat)
    requires t < |s.threads| && SectionStep(s, t).Some?
    ensures var pc := SectionStep(s, t).value.threads[t];
            && (s.threads[t] == PopEnter(true) ==>
                  && (pc.Idle? <==> s.q.buffer == [] && s.q.closed)
                  && (pc.PopAsleep? <==> s.q.buffer == [] && !s.q.closed))
            && (s.threads[t].DrainEnter? ==>
                  && (pc.Idle? <==> s.q.buffer == [])
                  && (pc.DrainAsleep? <==> s.q.buffer != []))
            && (s.threads[t].PushEnter? ==>
                  (pc.PushAsleep? <==> s.threads[t].blocking && s.q.policy == Block && Full(s.q) && !s.q.closed))
  {
  }

  /** tryPush and tryPop never wait. */
  lemma TriesNeverWait<T>(s: State<T>, t: nat)
    requires t < |s.threads| && SectionStep(s, t).Some?
    requires s.threads[t] == PopEnter(false) || (s.threads[t].PushEnter? && !s.threads[t].blocking)
    ensures !Asleep(SectionStep(s, t).value.threads[t])
  {
  }
}
