/** The playback callback (src/main.rs:28-37): fill every slot of the device's buffer
    from the queue, writing silence once the queue runs dry. */
module Playback {
  import opened Wrappers
  import opened SampleQueue

  function Min(a: nat, b: nat): nat {
    if a <= b then a else b
  }

  /** What one slot receives: the popped sample, or silence on underrun. */
  function SlotValue<T>(x: Option<T>, silence: T): T {
    match x
    case Some(v) => v
    case None => silence
  }

  /** Reading `n` slots one pop at a time. With `k` the smaller of `n` and the queue's
      length, the output is the `k` oldest samples in order followed by silence, and the
      queue loses exactly those `k` samples. */
  function Drain<T>(q: Queue<T>, n: nat, silence: T): (r: (seq<T>, Queue<T>))
    ensures var (filled, q') := r; var k := Min(n, |q.items|);
      && |filled| == n
      && filled[..k] == q.items[..k]
      && (forall i :: k <= i < n ==> filled[i] == silence)
      && q'.capacity == q.capacity
      && q'.items == q.items[k..]
    decreases n
  {
    if n == 0 then ([], q)
    else
      var (x, q1) := Pop(q);
      var (rest, q2) := Drain(q1, n - 1, silence);
      ([SlotValue(x, silence)] + rest, q2)
  }

  /** The callback over the device's buffer `data`: every slot is overwritten in order
      (the old contents only fix the length), and the remaining queue is returned. */
  method WriteAudio<T>(data: seq<T>, q: Queue<T>, silence: T) returns (filled: seq<T>, rest: Queue<T>)
    ensures |filled| == |data|
    ensures filled[..Min(|data|, |q.items|)] == q.items[..Min(|data|, |q.items|)]
    ensures forall i :: Min(|data|, |q.items|) <= i < |data| ==> filled[i] == silence
    ensures rest.capacity == q.capacity
    ensures rest.items == q.items[Min(|data|, |q.items|)..]
    ensures filled == Drain(q, |data|, silence).0 && rest == Drain(q, |data|, silence).1
  {
    filled := data;
    rest := q;
    var i := 0;
    while i < |data|
      invariant 0 <= i <= |data|
      invariant |filled| == |data|
      invariant rest.capacity == q.capacity
      invariant filled[..Min(i, |q.items|)] == q.items[..Min(i, |q.items|)]
      invariant forall j :: Min(i, |q.items|) <= j < i ==> filled[j] == silence
      invariant rest.items == q.items[Min(i, |q.items|)..]
    {
      var popped := Pop(rest);
      rest := popped.1;
      filled := filled[i := SlotValue(popped.0, silence)];
      i := i + 1;
    }
    var d := Drain(q, |data|, silence);
    assert filled == d.0 by {
      forall j | 0 <= j < |data|
        ensures filled[j] == d.0[j]
      {
        var k := Min(|data|, |q.items|);
        if j < k {
          assert filled[j] == filled[..k][j] && d.0[j] == d.0[..k][j];
        }
      }
    }
  }
}
