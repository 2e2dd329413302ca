/** The per-subscriber ring buffer of the fan-out, and the bounded drop-oldest queue
    it implements. */
module Ring {
  import opened Wrappers

  const DEFAULT_BUFFER_SIZE := 256

  // The abstract queue, with its whole history. `taken` and `lost` are what left it
  // at the front, by delivery and by overflow.
  datatype Queue<T> = Queue(live: seq<T>, enqueued: seq<T>, taken: seq<T>, lost: nat)

  function Push<T>(q: Queue<T>, capacity: nat, x: T): Queue<T>
    requires 0 < capacity
  {
    var full := |q.live| == capacity;
    Queue((if full then q.live[1..] else q.live) + [x], q.enqueued + [x], q.taken,
          if full then q.lost + 1 else q.lost)
  }

  function Pop<T>(q: Queue<T>): (Queue<T>, Option<T>) {
    if q.live == [] then (q, None)
    else (q.(live := q.live[1..], taken := q.taken + [q.live[0]]), Some(q.live[0]))
  }

  // xs can be obtained from ys by leaving elements out.
  predicate Subsequence<T(==)>(xs: seq<T>, ys: seq<T>) {
    if xs == [] then true
    else if ys == [] then false
    else if xs[|xs| - 1] == ys[|ys| - 1] then Subsequence(xs[..|xs| - 1], ys[..|ys| - 1])
    else Subsequence(xs, ys[..|ys| - 1])
  }

  lemma {:induction false} SubsequenceGrows<T>(xs: seq<T>, ys: seq<T>, y: T)
    requires Subsequence(xs, ys)
    ensures Subsequence(xs, ys + [y])
    decreases |xs| + |ys|, 1
  {
    assert (ys + [y])[..|ys|] == ys;
    if xs != [] && xs[|xs| - 1] == y {
      SubsequenceDropsLast(xs, ys);
    }
  }

  lemma {:induction false} SubsequenceDropsLast<T>(xs: seq<T>, ys: seq<T>)
    requires xs != [] && Subsequence(xs, ys)
    ensures Subsequence(xs[..|xs| - 1], ys)
    decreases |xs| + |ys|, 0
  {
    if xs[|xs| - 1] == ys[|ys| - 1] {
      SubsequenceGrows(xs[..|xs| - 1], ys[..|ys| - 1], ys[|ys| - 1]);
      assert ys == ys[..|ys| - 1] + [ys[|ys| - 1]];
    } else {
      SubsequenceDropsLast(xs, ys[..|ys| - 1]);
      SubsequenceGrows(xs[..|xs| - 1], ys[..|ys| - 1], ys[|ys| - 1]);
      assert ys == ys[..|ys| - 1] + [ys[|ys| - 1]];
    }
  }

  lemma SubsequenceAppends<T>(xs: seq<T>, ys: seq<T>, y: T)
    requires Subsequence(xs, ys)
    ensures Subsequence(xs + [y], ys + [y])
  {
    assert (xs + [y])[..|xs|] == xs && (ys + [y])[..|ys|] == ys;
  }

  /** The queue is the tail of everything enqueued; what was taken is an in-order
      selection of the rest; and nothing is unaccounted for. */
  ghost predicate QueueInv<T>(q: Queue<T>, capacity: nat) {
    && |q.live| <= capacity
    && |q.live| <= |q.enqueued|
    && q.live == q.enqueued[|q.enqueued| - |q.live|..]
    && Subsequence(q.taken, q.enqueued[..|q.enqueued| - |q.live|])
    && |q.enqueued| == |q.taken| + q.lost + |q.live|
  }

  lemma PushKeeps<T>(q: Queue<T>, capacity: nat, x: T)
    requires 0 < capacity && QueueInv(q, capacity)
    ensures QueueInv(Push(q, capacity, x), capacity)
  {
    var r := Push(q, capacity, x);
    var before := q.enqueued[..|q.enqueued| - |q.live|];
    if |q.live| == capacity {
      assert r.enqueued[..|r.enqueued| - |r.live|] == before + [q.live[0]];
      SubsequenceGrows(q.taken, before, q.live[0]);
    } else {
      assert r.enqueued[..|r.enqueued| - |r.live|] == before;
    }
  }

  lemma PopKeeps<T>(q: Queue<T>, capacity: nat)
    requires QueueInv(q, capacity)
    ensures QueueInv(Pop(q).0, capacity)
  {
    if q.live != [] {
      var r := Pop(q).0;
      var before := q.enqueued[..|q.enqueued| - |q.live|];
      assert r.enqueued[..|r.enqueued| - |r.live|] == before + [q.live[0]];
      SubsequenceAppends(q.taken, before, q.live[0]);
    }
  }

  datatype QueueOp<T> = Enqueue(x: T) | Dequeue

  function RunQueue<T>(ops: seq<QueueOp<T>>, capacity: nat): Queue<T>
    requires 0 < capacity
  {
    if ops == [] then Queue([], [], [], 0)
    else
      var q := RunQueue(ops[..|ops| - 1], capacity);
      match ops[|ops| - 1]
      case Enqueue(x) => Push(q, capacity, x)
      case Dequeue => Pop(q).0
  }

  /** Any mix of enqueues and dequeues: the contents are the latest messages, the
      dequeued ones an in-order subsequence of those before them, and enqueued =
      dequeued + dropped + size. */
  lemma {:induction false} DropOldest<T>(ops: seq<QueueOp<T>>, capacity: nat)
    requires 0 < capacity
    ensures QueueInv(RunQueue(ops, capacity), capacity)
  {
    if ops != [] {
      DropOldest(ops[..|ops| - 1], capacity);
      var q := RunQueue(ops[..|ops| - 1], capacity);
      match ops[|ops| - 1] {
        case Enqueue(x) => PushKeeps(q, capacity, x);
        case Dequeue => PopKeeps(q, capacity);
      }
    }
  }

  /** One more message: a queue that is not full loses nothing and grows by one, a
      full one loses exactly its oldest message. The message itself comes last. */
  lemma OneMore<T>(ops: seq<QueueOp<T>>, capacity: nat, x: T)
    requires 0 < capacity
    ensures
      var (q, r) := (RunQueue(ops, capacity), RunQueue(ops + [Enqueue(x)], capacity));
      && |r.live| == (if |q.live| + 1 < capacity then |q.live| + 1 else capacity)
      && r.lost == q.lost + (if |q.live| == capacity then 1 else 0)
      && r.enqueued == q.enqueued + [x] && r.taken == q.taken
      && r.live[|r.live| - 1] == x
  {
    assert (ops + [Enqueue(x)])[..|ops|] == ops;
    DropOldest(ops, capacity);
  }

  /** One taken: the oldest message leaves a queue that has one; nothing is lost. */
  lemma OneLess<T>(ops: seq<QueueOp<T>>, capacity: nat)
    requires 0 < capacity
    ensures
      var (q, r) := (RunQueue(ops, capacity), RunQueue(ops + [Dequeue], capacity));
      && q.live == r.taken[|q.taken|..] + r.live
      && |r.taken| == |q.taken| + (if q.live == [] then 0 else 1)
      && q.taken <= r.taken && r.enqueued == q.enqueued && r.lost == q.lost
  {
    assert (ops + [Dequeue])[..|ops|] == ops;
  }

  // No enqueue of the run found `capacity` messages waiting.
  predicate NeverFull<T>(ops: seq<QueueOp<T>>, capacity: nat)
    requires 0 < capacity
  {
    forall k | 0 <= k < |ops| && ops[k].Enqueue? :: |RunQueue(ops[..k], capacity).live| < capacity
  }

  lemma {:induction false} NothingLost<T>(ops: seq<QueueOp<T>>, capacity: nat)
    requires 0 < capacity
    ensures RunQueue(ops, capacity).lost == 0 <==> NeverFull(ops, capacity)
  {
    if ops != [] {
      var n := |ops| - 1;
      var before := ops[..n];
      NothingLost(before, capacity);
      DropOldest(before, capacity);
      assert forall k | 0 <= k < n :: before[..k] == ops[..k];
      if NeverFull(ops, capacity) {
        assert forall k | 0 <= k < n && before[k].Enqueue? :: |RunQueue(before[..k], capacity).live| < capacity;
      } else if NeverFull(before, capacity) {
        assert ops[n].Enqueue? && |RunQueue(ops[..n], capacity).live| >= capacity;
      }
    }
  }

  lemma {:induction false} WholeSubsequence<T>(xs: seq<T>, ys: seq<T>)
    requires Subsequence(xs, ys)
    ensures |xs| <= |ys|
    ensures |xs| == |ys| ==> xs == ys
  {
    if xs != [] {
      if xs[|xs| - 1] == ys[|ys| - 1] {
        WholeSubsequence(xs[..|xs| - 1], ys[..|ys| - 1]);
        assert xs == xs[..|xs| - 1] + [xs[|xs| - 1]] && ys == ys[..|ys| - 1] + [ys[|ys| - 1]];
      } else {
        WholeSubsequence(xs, ys[..|ys| - 1]);
      }
    }
  }

  /** A plain queue until it overflows: messages leave in the order they came, none
      missing, if and only if no enqueue of the run found the buffer full. */
  lemma PlainQueueUntilFull<T>(ops: seq<QueueOp<T>>, capacity: nat)
    requires 0 < capacity
    ensures var q := RunQueue(ops, capacity);
            q.taken + q.live == q.enqueued <==> NeverFull(ops, capacity)
  {
    hide Subsequence, NeverFull;
    var q := RunQueue(ops, capacity);
    DropOldest(ops, capacity);
    NothingLost(ops, capacity);
    WholeSubsequence(q.taken, q.enqueued[..|q.enqueued| - |q.live|]);
  }

  // The slot of the i-th element from `head` on in a ring of n.
  function Slot(head: nat, i: nat, n: nat): (k: nat)
    requires head < n && i <= n
    ensures k < n
  {
    if head + i < n then head + i else head + i - n
  }

  lemma SlotIsModulo(head: nat, i: nat, n: nat)
    requires head < n && i <= n
    ensures Slot(head, i, n) == (head + i) % n
  {
    if head + i >= n {
      assert (head + i) / n == 1;
    }
  }

  class Subscriber<T> {
    var ring: array<Option<T>>
    var head: nat
    var tail: nat
    var size: nat
    var dropped: nat
    ghost var enqueued: seq<T>
    ghost var taken: seq<T>
    ghost var live: seq<T>

    ghost function View(): Queue<T>
      reads this
    {
      Queue(live, enqueued, taken, dropped)
    }

    ghost predicate Valid()
      reads this, ring
    {
      && 0 < ring.Length && head < ring.Length && size <= ring.Length
      && tail == Slot(head, size, ring.Length)
      && |live| == size
      && (forall i | 0 <= i < size :: ring[Slot(head, i, ring.Length)] == Some(live[i]))
      && (forall i | size <= i < ring.Length :: ring[Slot(head, i, ring.Length)] == None)
    }

    constructor (bufSize: int)
      ensures Valid() && fresh(ring)
      ensures ring.Length == if bufSize <= 0 then DEFAULT_BUFFER_SIZE else bufSize
      ensures View() == Queue([], [], [], 0)
    {
      var n := if bufSize <= 0 then DEFAULT_BUFFER_SIZE else bufSize;
      ring := new Option<T>[n](_ => None);
      head, tail, size, dropped := 0, 0, 0, 0;
      enqueued, taken, live := [], [], [];
    }

    // What enqueue does on overflow and deliverLoop on every turn: clear the oldest slot.
    method ClearHead()
      requires Valid() && size > 0
      modifies this`head, this`size, this`live, ring
      ensures Valid() && size == old(size) - 1 && live == old(live)[1..]
    {
      SlotIsModulo(head, 1, ring.Length);
      ring[head] := None;
      head := (head + 1) % ring.Length;
      size := size - 1;
      live := live[1..];
      assert forall i | 0 <= i < ring.Length :: Slot(head, i, ring.Length) == Slot(old(head), i + 1, ring.Length);
    }

    // The end of enqueue: write the tail slot, which is free.
    method WriteTail(x: T)
      requires Valid() && size < ring.Length
      modifies this`tail, this`size, this`live, this`enqueued, ring
      ensures Valid() && size == old(size) + 1
      ensures live == old(live) + [x] && enqueued == old(enqueued) + [x]
    {
      SlotIsModulo(tail, 1, ring.Length);
      ring[tail] := Some(x);
      tail := (tail + 1) % ring.Length;
      size := size + 1;
      live, enqueued := live + [x], enqueued + [x];
    }

    // The critical section of enqueue.
    method Enqueue(x: T)
      requires Valid()
      modifies this, ring
      ensures Valid() && ring == old(ring)
      ensures View() == Push(old(View()), ring.Length, x)
      ensures size == (if old(size) < ring.Length then old(size) + 1 else old(size))
      ensures dropped == (if old(size) < ring.Length then old(dropped) else old(dropped) + 1)
      ensures tail == (head + size) % ring.Length
    {
      if size == ring.Length {
        ClearHead();
        dropped := dropped + 1;
      }
      WriteTail(x);
      SlotIsModulo(head, size, ring.Length);
    }

    // The critical section of deliverLoop; None when the ring is empty.
    method Dequeue() returns (r: Option<T>)
      requires Valid()
      modifies this, ring
      ensures Valid() && ring == old(ring)
      ensures (View(), r) == Pop(old(View()))
    {
      if size == 0 {
        return None;
      }
      r := ring[head];
      assert r == ring[Slot(head, 0, ring.Length)];
      taken := taken + [live[0]];
      ClearHead();
    }
  }
}
