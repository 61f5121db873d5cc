/** The producer side of the decode-and-queue loop (src/main.rs:117-141): after a frame
    has been resampled and viewed as interleaved samples, wait until the queue has room
    for the whole view, then push it in one write. */
module Pipeline {
  import opened Wrappers
  import opened SampleQueue
  import opened Playback

  /** One poll of the backpressure loop followed, when the room is there, by the push.
      `None` means the producer sleeps and polls again; it never writes part of a frame. */
  function TryEnqueue<T>(q: Queue<T>, view: seq<T>): (r: Option<Queue<T>>)
    requires Valid(q)
    ensures r.Some? <==> |view| <= Remaining(q)
    ensures |view| > q.capacity ==> r.None?
    ensures r.Some? ==> r.value.capacity == q.capacity && r.value.items == q.items + view
    ensures r.Some? ==> Valid(r.value) && Remaining(r.value) == Remaining(q) - |view|
  {
    if Remaining(q) < |view| then None
    else Some(PushSlice(q, view).0)
  }

  /** A blocked producer is released by the consumer exactly when the callback has read
      enough samples to free room for the whole view. */
  lemma BackpressureReleasedByReads<T>(q: Queue<T>, view: seq<T>, n: nat, silence: T)
    requires Valid(q)
    ensures Valid(Drain(q, n, silence).1)
    ensures TryEnqueue(Drain(q, n, silence).1, view).Some?
            <==> |view| <= Remaining(q) + Min(n, |q.items|)
  {
  }

  /** With the program's capacity of 8192, frames of 3000 and 2000 samples go straight in;
      a third frame of 4000 waits until the consumer has read 808 samples (8192 minus
      5000 leaves 3192 free) and then lands whole, behind everything still unread. */
  lemma ThreeFrameScenario<T>(a: seq<T>, b: seq<T>, c: seq<T>, silence: T)
    requires |a| == 3000 && |b| == 2000 && |c| == 4000
    ensures var q1 := TryEnqueue(New(PlaybackCapacity), a);
      && q1.Some?
      && var q2 := TryEnqueue(q1.value, b);
      && q2.Some?
      && q2.value.items == a + b
      && TryEnqueue(q2.value, c).None?
      && (forall n: nat :: n < 808 ==> TryEnqueue(Drain(q2.value, n, silence).1, c).None?)
      && var q3 := TryEnqueue(Drain(q2.value, 808, silence).1, c);
      && q3.Some?
      && q3.value.items == (a + b)[808..] + c
      && |q3.value.items| == PlaybackCapacity
  {
    var q2 := TryEnqueue(TryEnqueue(New(PlaybackCapacity), a).value, b).value;
    forall n: nat | n < 808
      ensures TryEnqueue(Drain(q2, n, silence).1, c).None?
    {
      BackpressureReleasedByReads(q2, c, n, silence);
    }
    BackpressureReleasedByReads(q2, c, 808, silence);
  }
}
