/** The bounded single-producer/single-consumer sample queue (the ring buffer created
    at src/main.rs:101-103), modelled by the samples it holds, oldest first. */
module SampleQueue {
  import opened Wrappers

  /** The capacity the program gives its ring buffer. */
  const PlaybackCapacity: nat := 8192

  /** A queue of unread samples with a capacity fixed at construction. */
  datatype Queue<T> = Queue(capacity: nat, items: seq<T>)

  /** The queue never holds more than its capacity. */
  predicate Valid<T>(q: Queue<T>) {
    |q.items| <= q.capacity
  }

  /** A fresh, empty queue. */
  function New<T>(capacity: nat): (q: Queue<T>)
    ensures Valid(q) && q.capacity == capacity && q.items == []
  {
    Queue(capacity, [])
  }

  /** Free slots the producer may fill without overwriting unread samples. */
  function Remaining<T>(q: Queue<T>): (n: nat)
    requires Valid(q)
    ensures n + |q.items| == q.capacity
  {
    q.capacity - |q.items|
  }

  /** The producer's bulk write. It accepts as many leading samples as there is room
      for (possibly fewer than offered), appends them in order and reports how many it took. */
  function PushSlice<T>(q: Queue<T>, xs: seq<T>): (r: (Queue<T>, nat))
    requires Valid(q)
    ensures var (q', n) := r;
      && n <= |xs|
      && (n == |xs| <==> |xs| <= Remaining(q))
      && (n < |xs| ==> n == Remaining(q))
      && q'.capacity == q.capacity
      && q'.items == q.items + xs[..n]
      && Valid(q')
      && Remaining(q') == Remaining(q) - n
  {
    var n := if |xs| <= q.capacity - |q.items| then |xs| else q.capacity - |q.items|;
    (Queue(q.capacity, q.items + xs[..n]), n)
  }

  /** The consumer's read: the oldest unread sample, or nothing when the queue is empty.
      It never waits. */
  function Pop<T>(q: Queue<T>): (r: (Option<T>, Queue<T>))
    ensures r.1.capacity == q.capacity
    ensures r.0.None? <==> q.items == []
    ensures r.0.None? ==> r.1 == q
    ensures r.0.Some? ==> [r.0.value] + r.1.items == q.items
  {
    if q.items == [] then (None, q)
    else (Some(q.items[0]), Queue(q.capacity, q.items[1..]))
  }

  /** FIFO: after samples that fit are appended to a non-empty queue, the next read still
      returns the oldest sample, and reading first then appending gives the same queue. */
  lemma PopAfterPushSliceIsOldest<T>(q: Queue<T>, xs: seq<T>)
    requires Valid(q) && q.items != [] && |xs| <= Remaining(q)
    ensures var (q', _) := PushSlice(q, xs);
      Pop(q').0 == Pop(q).0 && Pop(q').1 == PushSlice(Pop(q).1, xs).0
  {
    var (q', n) := PushSlice(q, xs);
    assert q'.items[1..] == q.items[1..] + xs[..n];
  }
}
