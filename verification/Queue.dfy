/** ThreadSafeQueue (include/radar/thread_safe_queue.hpp): what each critical section does to the
    buffer, with the full history of every value that was ever offered. */
module QueueModel {

  datatype OverflowPolicy = Block | DropNewest | DropOldest

  datatype Fate = Popped | Evicted

  datatype Removal<T> = Removal(item: T, fate: Fate)

  /** accepted, removed, rejected and refused record the past; the other fields are the members of the class. */
  datatype Queue<T> = Queue(
    capacity: nat,
    policy: OverflowPolicy,
    buffer: seq<T>,
    closed: bool,
    dropped: nat,
    accepted: seq<T>,
    removed: seq<Removal<T>>,
    rejected: seq<T>,
    refused: seq<T>)

  function Items<T>(rs: seq<Removal<T>>): (s: seq<T>)
    ensures |s| == |rs|
  {
    seq(|rs|, i requires 0 <= i < |rs| => rs[i].item)
  }

  function Evictions<T>(rs: seq<Removal<T>>): (n: nat)
    ensures n <= |rs|
  {
    if rs == [] then 0
    else Evictions(rs[..|rs| - 1]) + (if rs[|rs| - 1].fate == Evicted then 1 else 0)
  }

  /** The values handed to consumers, in order. */
  function PoppedItems<T>(rs: seq<Removal<T>>): (s: seq<T>) {
    if rs == [] then []
    else PoppedItems(rs[..|rs| - 1]) + (if rs[|rs| - 1].fate == Popped then [rs[|rs| - 1].item] else [])
  }

  lemma OneMore<T>(rs: seq<Removal<T>>, r: Removal<T>)
    ensures Items(rs + [r]) == Items(rs) + [r.item]
    ensures Evictions(rs + [r]) == Evictions(rs) + (if r.fate == Evicted then 1 else 0)
    ensures PoppedItems(rs + [r]) == PoppedItems(rs) + (if r.fate == Popped then [r.item] else [])
  {
    assert (rs + [r])[..|rs|] == rs;
  }

  /** Everything accepted is either removed or still buffered, in arrival order, and `dropped` counts
      exactly the evictions and the overflow rejections. */
  ghost predicate Valid<T>(q: Queue<T>) {
    && q.capacity >= 1
    && |q.buffer| <= q.capacity
    && q.accepted == Items(q.removed) + q.buffer
    && q.dropped == Evictions(q.removed) + |q.rejected|
    && (q.policy != DropOldest ==> Evictions(q.removed) == 0)
    && (q.policy == DropOldest ==> q.rejected == [])
    && (!q.closed ==> q.refused == [])
  }

  function Empty<T>(capacity: nat, policy: OverflowPolicy): Queue<T> {
    Queue(capacity, policy, [], false, 0, [], [], [], [])
  }

  predicate Full<T>(q: Queue<T>) {
    |q.buffer| >= q.capacity
  }

  /** enqueueLocked: the new queue and whether the value was stored. */
  function Enqueue<T>(q: Queue<T>, v: T): (Queue<T>, bool) {
    if q.closed then (q.(refused := q.refused + [v]), false)
    else if !Full(q) then (q.(buffer := q.buffer + [v], accepted := q.accepted + [v]), true)
    else if q.policy == DropOldest && q.buffer != [] then
      (q.(buffer := q.buffer[1..] + [v], accepted := q.accepted + [v], dropped := q.dropped + 1,
          removed := q.removed + [Removal(q.buffer[0], Evicted)]), true)
    else (q.(dropped := q.dropped + 1, rejected := q.rejected + [v]), false)
  }

  /** The locked part of popLockedAndNotify. */
  function Dequeue<T>(q: Queue<T>): Queue<T>
    requires q.buffer != []
  {
    q.(buffer := q.buffer[1..], removed := q.removed + [Removal(q.buffer[0], Popped)])
  }

  function Close<T>(q: Queue<T>): Queue<T> {
    q.(closed := true)
  }

  lemma EnqueueValid<T>(q: Queue<T>, v: T)
    requires Valid(q)
    ensures Valid(Enqueue(q, v).0)
  {
    if !q.closed && Full(q) && q.policy == DropOldest {
      OneMore(q.removed, Removal(q.buffer[0], Evicted));
      assert q.buffer == [q.buffer[0]] + q.buffer[1..];
    }
  }

  lemma DequeueValid<T>(q: Queue<T>)
    requires Valid(q) && q.buffer != []
    ensures Valid(Dequeue(q))
    ensures PoppedItems(Dequeue(q).removed) == PoppedItems(q.removed) + [q.buffer[0]]
  {
    OneMore(q.removed, Removal(q.buffer[0], Popped));
    assert q.buffer == [q.buffer[0]] + q.buffer[1..];
  }

  // ---------------------------------------------------------------- any sequence of operations

  datatype Op<T> = Push(value: T) | Pop | CloseOp

  /** What one operation hands back: nothing, a push verdict, a value, or "nothing there". */
  datatype Reply<T> = Done | Verdict(stored: bool) | Item(value: T) | Nothing(endOfStream: bool)

  function Apply<T>(q: Queue<T>, op: Op<T>): (Queue<T>, Reply<T>) {
    match op
    case Push(v) => var (q', stored) := Enqueue(q, v); (q', Verdict(stored))
    case Pop => if q.buffer == [] then (q, Nothing(q.closed)) else (Dequeue(q), Item(q.buffer[0]))
    case CloseOp => (Close(q), Done)
  }

  function RunFrom<T>(q: Queue<T>, ops: seq<Op<T>>): (Queue<T>, seq<Reply<T>>)
    decreases |ops|
  {
    if ops == [] then (q, [])
    else
      var (q1, replies) := RunFrom(q, ops[..|ops| - 1]);
      var (q2, reply) := Apply(q1, ops[|ops| - 1]);
      (q2, replies + [reply])
  }

  function ItemsOf<T>(reply: Reply<T>): seq<T> {
    match reply
    case Item(v) => [v]
    case _ => []
  }

  /** The values in the replies of successful pops. */
  function Delivered<T>(replies: seq<Reply<T>>): seq<T> {
    if replies == [] then []
    else Delivered(replies[..|replies| - 1]) + ItemsOf(replies[|replies| - 1])
  }

  /** The pushed values whose push was answered `true`, in order. */
  function Stored<T>(ops: seq<Op<T>>, replies: seq<Reply<T>>): seq<T>
    requires |ops| == |replies|
  {
    if ops == [] then []
    else
      var n := |ops| - 1;
      Stored(ops[..n], replies[..n]) + StoredBy(ops[n], replies[n])
  }

  function StoredBy<T>(op: Op<T>, reply: Reply<T>): seq<T> {
    if op.Push? && reply == Verdict(true) then [op.value] else []
  }

  /** Whether the queue has been closed. */
  predicate Closes<T>(ops: seq<Op<T>>) {
    exists i :: 0 <= i < |ops| && ops[i].CloseOp?
  }

  /** How many pushes were answered `false`: before a close if `open`, after it otherwise. */
  function Denied<T>(ops: seq<Op<T>>, replies: seq<Reply<T>>, open: bool): nat
    requires |ops| == |replies|
  {
    if ops == [] then 0
    else
      var n := |ops| - 1;
      var denied := ops[n].Push? && replies[n] == Verdict(false) && Closes(ops[..n]) != open;
      Denied(ops[..n], replies[..n], open) + (if denied then 1 else 0)
  }

  /** What callers saw is the queue's history: the pushes answered true are the accepted values, those answered
      false were overflow rejections before the close and refusals after it, the values popped are the popped part
      of the removed prefix, and an end-of-stream reply means the queue was closed with every accepted value
      removed. */
  ghost predicate Explains<T>(q: Queue<T>, ops: seq<Op<T>>, replies: seq<Reply<T>>) {
    && Valid(q) && |replies| == |ops|
    && Stored(ops, replies) == q.accepted
    && Delivered(replies) == PoppedItems(q.removed)
    && (q.closed <==> Closes(ops))
    && |q.rejected| == Denied(ops, replies, true) && |q.refused| == Denied(ops, replies, false)
    && (ops != [] && replies[|ops| - 1] == Nothing(true) ==> q.closed && q.accepted == Items(q.removed))
  }

  lemma ExplainsStep<T>(q: Queue<T>, ops: seq<Op<T>>, replies: seq<Reply<T>>, op: Op<T>)
    requires Explains(q, ops, replies)
    ensures Explains(Apply(q, op).0, ops + [op], replies + [Apply(q, op).1])
  {
    ApplyRefines(q, op);
    ApplyCounts(q, op);
    assert (ops + [op])[..|ops|] == ops;
    assert (replies + [Apply(q, op).1])[..|ops|] == replies;
    ClosesStep(ops, op);
  }

  lemma ClosesStep<T>(ops: seq<Op<T>>, op: Op<T>)
    ensures Closes(ops + [op]) <==> Closes(ops) || op.CloseOp?
  {
    var all := ops + [op];
    assert all[|ops|] == op;
    if Closes(ops) {
      var i :| 0 <= i < |ops| && ops[i].CloseOp?;
      assert all[i].CloseOp?;
    }
  }

  /** One operation closes the queue or leaves it as it was, and files every denied push where it belongs. */
  lemma ApplyCounts<T>(q: Queue<T>, op: Op<T>)
    ensures var (q', reply) := Apply(q, op);
            var denied := if op.Push? && reply == Verdict(false) then 1 else 0;
            && (q'.closed <==> q.closed || op.CloseOp?)
            && |q'.rejected| == |q.rejected| + (if q.closed then 0 else denied)
            && |q'.refused| == |q.refused| + (if q.closed then denied else 0)
  {
  }

  lemma ExplainsNothing<T>(capacity: nat, policy: OverflowPolicy)
    requires capacity >= 1
    ensures Explains<T>(Empty(capacity, policy), [], [])
  {
  }

  ghost predicate Refined<T>(capacity: nat, policy: OverflowPolicy, ops: seq<Op<T>>) {
    var (q, replies) := RunFrom(Empty(capacity, policy), ops);
    Explains(q, ops, replies) && q.capacity == capacity && q.policy == policy
  }

  lemma RefinedStep<T>(capacity: nat, policy: OverflowPolicy, ops: seq<Op<T>>, op: Op<T>)
    requires Refined(capacity, policy, ops)
    ensures Refined(capacity, policy, ops + [op])
  {
    var (q, replies) := RunFrom(Empty(capacity, policy), ops);
    assert (ops + [op])[..|ops|] == ops;
    ExplainsStep(q, ops, replies, op);
    ApplyRefines(q, op);
  }

  lemma RefinedNothing<T>(capacity: nat, policy: OverflowPolicy)
    requires capacity >= 1
    ensures Refined<T>(capacity, policy, [])
  {
    ExplainsNothing<T>(capacity, policy);
  }

  /** Holds over any operation sequence, capacity and policy. */
  lemma {:induction false} HistoryRefined<T>(capacity: nat, policy: OverflowPolicy, ops: seq<Op<T>>)
    requires capacity >= 1
    ensures var (q, replies) := RunFrom(Empty(capacity, policy), ops);
            Explains(q, ops, replies) && q.capacity == capacity && q.policy == policy
    ensures Refined(capacity, policy, ops)
  {
    if ops == [] {
      RefinedNothing<T>(capacity, policy);
    } else {
      var n := |ops| - 1;
      HistoryRefined(capacity, policy, ops[..n]);
      RefinedStep(capacity, policy, ops[..n], ops[n]);
      assert ops[..n] + [ops[n]] == ops;
    }
  }

  lemma PushRefines<T>(q: Queue<T>, v: T)
    requires Valid(q)
    ensures var (q', stored) := Enqueue(q, v);
            && Valid(q')
            && q'.accepted == q.accepted + (if stored then [v] else [])
            && PoppedItems(q'.removed) == PoppedItems(q.removed)
  {
    EnqueueValid(q, v);
    if q.buffer != [] {
      OneMore(q.removed, Removal(q.buffer[0], Evicted));
    }
  }

  lemma PopRefines<T>(q: Queue<T>)
    requires Valid(q)
    ensures var (q', reply) := Apply(q, Pop);
            && Valid(q') && q'.accepted == q.accepted
            && PoppedItems(q'.removed) == PoppedItems(q.removed) + ItemsOf(reply)
            && (reply == Nothing(true) ==> q'.closed && q'.accepted == Items(q'.removed))
  {
    if q.buffer != [] {
      DequeueValid(q);
    }
  }

  lemma ApplyRefines<T>(q: Queue<T>, op: Op<T>)
    requires Valid(q)
    ensures var (q', reply) := Apply(q, op);
            && Valid(q') && q'.capacity == q.capacity && q'.policy == q.policy
            && q'.accepted == q.accepted + StoredBy(op, reply)
            && PoppedItems(q'.removed) == PoppedItems(q.removed) + ItemsOf(reply)
            && (reply == Nothing(true) ==> q'.closed && q'.accepted == Items(q'.removed))
  {
    match op
    case Push(v) => PushRefines(q, v);
    case Pop => PopRefines(q);
    case CloseOp => assert q.accepted + [] == q.accepted;
  }

  // ---------------------------------------------------------------- filling and draining

  function Pops<T>(n: nat): (ops: seq<Op<T>>)
    ensures |ops| == n
  {
    seq(n, _ => Pop)
  }

  function Pushes<T>(vs: seq<T>): (ops: seq<Op<T>>)
    ensures |ops| == |vs|
  {
    seq(|vs|, i requires 0 <= i < |vs| => Push(vs[i]))
  }

  lemma DeliveredStep<T>(replies: seq<Reply<T>>, v: T)
    ensures Delivered(replies + [Item(v)]) == Delivered(replies) + [v]
  {
    assert (replies + [Item(v)])[..|replies|] == replies;
  }

  lemma PopStep<T>(q: Queue<T>, k: nat, p: Queue<T>, replies: seq<Reply<T>>)
    requires k < |q.buffer| && RunFrom(q, Pops(k)) == (p, replies) && p.buffer == q.buffer[k..]
    ensures RunFrom(q, Pops(k + 1)) == (Dequeue(p), replies + [Item(q.buffer[k])])
  {
    assert Pops<T>(k + 1)[..k] == Pops<T>(k);
    assert p.buffer[0] == q.buffer[k];
  }

  /** The first k pops of a queue that holds at least k values deliver exactly those values, in order. */
  lemma {:induction false} PopsDeliver<T>(q: Queue<T>, k: nat)
    requires k <= |q.buffer|
    ensures var (q', replies) := RunFrom(q, Pops(k));
            Delivered(replies) == q.buffer[..k] && q'.buffer == q.buffer[k..]
  {
    if k > 0 {
      var i := k - 1;
      PopsDeliver(q, i);
      var (p, replies) := RunFrom(q, Pops(i));
      PopStep(q, i, p, replies);
      DeliveredStep(replies, q.buffer[i]);
      assert q.buffer[..i] + [q.buffer[i]] == q.buffer[..k];
      assert q.buffer[i..][1..] == q.buffer[k..];
    }
  }

  /** Closed or open, as many pops as there are buffered values deliver them all and leave the queue empty. */
  lemma DrainLaw<T>(q: Queue<T>)
    ensures var (q', replies) := RunFrom(q, Pops(|q.buffer|));
            Delivered(replies) == q.buffer && q'.buffer == []
  {
    PopsDeliver(q, |q.buffer|);
    assert q.buffer[..|q.buffer|] == q.buffer;
  }

  /** As long as there is room every push on an open queue is stored, whatever the policy. */
  lemma {:induction false} PushesStore<T>(q: Queue<T>, vs: seq<T>)
    requires !q.closed && |q.buffer| + |vs| <= q.capacity
    ensures var q' := RunFrom(q, Pushes(vs)).0;
            q' == q.(buffer := q.buffer + vs, accepted := q.accepted + vs)
  {
    if vs == [] {
      assert q.buffer + vs == q.buffer && q.accepted + vs == q.accepted;
    } else {
      var n := |vs| - 1;
      PushesStore(q, vs[..n]);
      assert Pushes(vs)[..n] == Pushes(vs[..n]);
      assert vs == vs[..n] + [vs[n]];
      assert q.buffer + vs[..n] + [vs[n]] == q.buffer + vs;
      assert q.accepted + vs[..n] + [vs[n]] == q.accepted + vs;
    }
  }

  /** What goes in comes out: values that fit are delivered in the order they were pushed. */
  lemma RoundTrip<T>(capacity: nat, policy: OverflowPolicy, vs: seq<T>)
    requires |vs| <= capacity
    ensures var filled := RunFrom(Empty(capacity, policy), Pushes(vs)).0;
            var (drained, replies) := RunFrom(filled, Pops(|vs|));
            Delivered(replies) == vs && drained.buffer == []
  {
    PushesStore(Empty(capacity, policy), vs);
    DrainLaw(RunFrom(Empty(capacity, policy), Pushes(vs)).0);
  }

  // ---------------------------------------------------------------- order of delivery

  /** The positions in the accepted sequence of the values that were popped. */
  function PoppedAt<T>(rs: seq<Removal<T>>): (s: seq<nat>) {
    if rs == [] then []
    else PoppedAt(rs[..|rs| - 1]) + (if rs[|rs| - 1].fate == Popped then [|rs| - 1] else [])
  }

  ghost predicate Increasing(s: seq<nat>) {
    forall i, j :: 0 <= i < j < |s| ==> s[i] < s[j]
  }

  /** Consumers see an ordered subsequence of the accepted values, short of it by exactly the evictions
      and the values still buffered. */
  lemma {:induction false} PoppedInOrder<T>(rs: seq<Removal<T>>)
    ensures var at := PoppedAt(rs);
            && Increasing(at)
            && (forall i :: 0 <= i < |at| ==> at[i] < |rs|)
            && |at| == |PoppedItems(rs)|
            && (forall i :: 0 <= i < |at| ==> PoppedItems(rs)[i] == rs[at[i]].item)
            && |at| + Evictions(rs) == |rs|
  {
    if rs != [] {
      PoppedInOrder(rs[..|rs| - 1]);
    }
  }

  /** Without evictions nothing is skipped: the removed prefix is exactly what consumers received. */
  lemma {:induction false} LosslessPrefix<T>(rs: seq<Removal<T>>)
    requires Evictions(rs) == 0
    ensures PoppedItems(rs) == Items(rs)
  {
    if rs != [] {
      var n := |rs| - 1;
      LosslessPrefix(rs[..n]);
      assert Items(rs) == Items(rs[..n]) + [rs[n].item];
    }
  }

  // ---------------------------------------------------------------- the class

  datatype Outcome<T> = Answer(reply: Reply<T>) | MustWait

  class ThreadSafeQueue<T> {
    const capacity: nat
    const policy: OverflowPolicy
    var queue: seq<T>
    var droppedCount: nat
    var closed: bool
    ghost var accepted: seq<T>
    ghost var removed: seq<Removal<T>>
    ghost var rejected: seq<T>
    ghost var refused: seq<T>

    ghost function Model(): Queue<T>
      reads this
    {
      Queue(capacity, policy, queue, closed, droppedCount, accepted, removed, rejected, refused)
    }

    ghost predicate Ok()
      reads this
    {
      Valid(Model())
    }

    constructor (capacity: nat, policy: OverflowPolicy)
      requires capacity >= 1
      ensures Ok() && Model() == Empty(capacity, policy)
    {
      this.capacity := capacity;
      this.policy := policy;
      queue, droppedCount, closed := [], 0, false;
      accepted, removed, rejected, refused := [], [], [], [];
    }

    predicate IsFull()
      reads this
    {
      |queue| >= capacity
    }

    method EnqueueLocked(value: T) returns (stored: bool)
      requires Ok()
      modifies this
      ensures Ok() && (Model(), stored) == Enqueue(old(Model()), value) && closed == old(closed)
      ensures old(closed) ==> !stored && queue == old(queue) && droppedCount == old(droppedCount)
      ensures !old(closed) && |old(queue)| < capacity ==>
                stored && queue == old(queue) + [value] && droppedCount == old(droppedCount)
      ensures !old(closed) && |old(queue)| >= capacity && policy == DropOldest ==>
                stored && queue == old(queue)[1..] + [value] && droppedCount == old(droppedCount) + 1
      ensures !old(closed) && |old(queue)| >= capacity && policy != DropOldest ==>
                !stored && queue == old(queue) && droppedCount == old(droppedCount) + 1
    {
      ghost var before := Model();
      if closed {
        refused := refused + [value];
        stored := false;
      } else if IsFull() && policy != DropOldest {
        droppedCount := droppedCount + 1;
        rejected := rejected + [value];
        stored := false;
      } else {
        if IsFull() {
          removed := removed + [Removal(queue[0], Evicted)];
          queue := queue[1..];
          droppedCount := droppedCount + 1;
        }
        queue := queue + [value];
        accepted := accepted + [value];
        stored := true;
      }
      assert (Model(), stored) == Enqueue(before, value);
      EnqueueValid(before, value);
    }

    method PopLocked() returns (value: T)
      requires Ok() && queue != []
      modifies this
      ensures Ok() && Model() == Dequeue(old(Model())) && value == old(queue)[0] && queue == old(queue)[1..]
    {
      ghost var before := Model();
      value := queue[0];
      removed := removed + [Removal(queue[0], Popped)];
      queue := queue[1..];
      assert Model() == Dequeue(before);
      DequeueValid(before);
    }

    /** One lock section of push: under Block a full open queue makes the caller wait and try again. */
    method PushSection(value: T) returns (r: Outcome<T>)
      requires Ok()
      modifies this
      ensures Ok()
      ensures r.MustWait? <==> policy == Block && old(IsFull()) && !old(closed)
      ensures r.MustWait? ==> Model() == old(Model())
      ensures r.Answer? ==> (Model(), r.reply) == Apply(old(Model()), Push(value))
      ensures r.Answer? ==>
                r.reply.Verdict? && (Model(), r.reply.stored) == Enqueue(old(Model()), value)
    {
      if policy == Block && IsFull() && !closed {
        return MustWait;
      }
      var stored := EnqueueLocked(value);
      r := Answer(Verdict(stored));
    }

    method TryPush(value: T) returns (stored: bool)
      requires Ok()
      modifies this
      ensures Ok() && (Model(), Verdict(stored)) == Apply(old(Model()), Push(value))
      ensures (Model(), stored) == Enqueue(old(Model()), value)
    {
      stored := EnqueueLocked(value);
    }

    /** One lock section of waitAndPop: an empty open queue makes the caller wait and try again. */
    method PopSection() returns (r: Outcome<T>)
      requires Ok()
      modifies this
      ensures Ok()
      ensures r.MustWait? <==> old(queue) == [] && !old(closed)
      ensures r.MustWait? ==> Model() == old(Model())
      ensures r.Answer? ==> (Model(), r.reply) == Apply(old(Model()), Pop)
      ensures old(queue) != [] ==> r == Answer(Item(old(queue)[0])) && queue == old(queue)[1..]
      ensures old(queue) == [] && old(closed) ==> r == Answer(Nothing(true)) && queue == []
      ensures closed == old(closed) && droppedCount == old(droppedCount)
    {
      if queue == [] && !closed {
        return MustWait;
      }
      if queue == [] {
        return Answer(Nothing(true));
      }
      var v := PopLocked();
      r := Answer(Item(v));
    }

    method TryPop() returns (r: Reply<T>)
      requires Ok()
      modifies this
      ensures Ok() && (Model(), r) == Apply(old(Model()), Pop)
      ensures old(queue) != [] ==> r == Item(old(queue)[0]) && queue == old(queue)[1..]
      ensures old(queue) == [] ==> r == Nothing(old(closed)) && queue == []
      ensures closed == old(closed) && droppedCount == old(droppedCount)
    {
      if queue == [] {
        return Nothing(closed);
      }
      var v := PopLocked();
      r := Item(v);
    }

    method CloseLocked()
      requires Ok()
      modifies this
      ensures Ok() && (Model(), Reply<T>.Done) == Apply(old(Model()), CloseOp)
      ensures closed && queue == old(queue) && droppedCount == old(droppedCount)
    {
      closed := true;
    }
  }

  datatype Construction<T> = Constructed(queue: ThreadSafeQueue<T>) | InvalidArgument

  /** The public constructor, which throws on a zero capacity (thread_safe_queue.hpp:49-54). */
  method NewQueue<T>(capacity: nat, policy: OverflowPolicy) returns (r: Construction<T>)
    ensures r.InvalidArgument? <==> capacity == 0
    ensures r.Constructed? ==> fresh(r.queue) && r.queue.Ok() && r.queue.Model() == Empty(capacity, policy)
  {
    if capacity == 0 {
      return InvalidArgument;
    }
    var q := new ThreadSafeQueue(capacity, policy);
    r := Constructed(q);
  }
}
