/** A playback session as a sequence of steps: the decode thread's polls of the
    backpressure loop interleaved with the device's callbacks (src/main.rs:101-157).
    Concurrency is reduced to the order in which the two threads' steps happen. */
module Session {
  import opened Wrappers
  import opened Frames
  import opened SampleQueue
  import opened Playback
  import opened Pipeline

  /** One thing that can happen next: the producer polls (and pushes if there is room),
      or the device asks for a buffer of `slots` samples. */
  datatype Event = ProducerPoll | Callback(slots: nat)

  /** A session runs until every frame is played, or stops at a frame it cannot read. */
  datatype Status = Running | Finished | Aborted(error: FrameError)

  /** The session's state. `pending` are the resampled frames not yet queued; `pushed`
      the views already queued, in order; `delivered` the samples the device has played. */
  datatype State<T> = State(
    queue: Queue<T>,
    pending: seq<Frame<T>>,
    pushed: seq<seq<T>>,
    delivered: seq<T>,
    status: Status)

  predicate AllWellFormed<T>(frames: seq<Frame<T>>) {
    forall i :: 0 <= i < |frames| ==> WellFormed(frames[i])
  }

  /** What every step needs: a valid queue and frames the reader may be applied to. */
  predicate Ready<T>(s: State<T>) {
    Valid(s.queue) && AllWellFormed(s.pending)
  }

  /** All queued views concatenated, oldest first. */
  function Flatten<T>(views: seq<seq<T>>): seq<T> {
    if views == [] then [] else Flatten(views[..|views| - 1]) + views[|views| - 1]
  }

  /** A new session over the resampled frames, with the program's 8192-sample queue. */
  function Start<T>(frames: seq<Frame<T>>): (s: State<T>)
    requires AllWellFormed(frames)
    ensures Ready(s) && s.status == Running && s.pending == frames
    ensures s.queue.capacity == PlaybackCapacity && s.queue.items == []
  {
    State(New(PlaybackCapacity), frames, [], [], Running)
  }

  /** The producer's work on the next frame: read it as interleaved samples (a frame that
      cannot be read ends the session), then try to queue the whole view. */
  function Produce<T>(s: State<T>): (r: State<T>)
    requires Ready(s) && s.status == Running && s.pending != []
    ensures Ready(r)
    ensures r.queue.capacity == s.queue.capacity
    ensures r.delivered == s.delivered
    ensures s.pending[0].isPacked && s.pending[0].formatOk ==>
      (r.pending != s.pending <==> Extent(s.pending[0]) <= Remaining(s.queue))
    ensures r.pending == s.pending && !r.status.Aborted? ==> r == s
    ensures r.status.Aborted? <==> !(s.pending[0].isPacked && s.pending[0].formatOk)
    ensures r.pending == s.pending ==> r.queue == s.queue && r.pushed == s.pushed
    ensures r.pending != s.pending ==>
      && r.status == Running
      && r.pending == s.pending[1..]
      && |r.pushed| == |s.pushed| + 1
      && r.pushed[..|s.pushed|] == s.pushed
      && r.queue.items == s.queue.items + r.pushed[|s.pushed|]
      && |r.pushed[|s.pushed|]| == Extent(s.pending[0])
      && Packed(s.pending[0]) == Success(r.pushed[|s.pushed|])
  {
    match Packed(s.pending[0])
    case Failure(e) => s.(status := Aborted(e))
    case Success(view) =>
      match TryEnqueue(s.queue, view)
      case None => s
      case Some(q) => s.(queue := q, pending := s.pending[1..], pushed := s.pushed + [view])
  }

  /** One device callback for `n` slots; what it reads from the queue is played. */
  function Consume<T>(s: State<T>, n: nat, silence: T): (r: State<T>)
    requires Ready(s)
    ensures Ready(r)
    ensures r.queue.capacity == s.queue.capacity
    ensures r.pending == s.pending && r.pushed == s.pushed && r.status == s.status
    ensures s.delivered <= r.delivered
    ensures r.delivered + r.queue.items == s.delivered + s.queue.items
    ensures s.status.Running? ==>
      && r.delivered == s.delivered + s.queue.items[..Min(n, |s.queue.items|)]
      && r.queue.items == s.queue.items[Min(n, |s.queue.items|)..]
    ensures !s.status.Running? ==> r == s
  {
    if !s.status.Running? then s
    else
      var (out, q) := Drain(s.queue, n, silence);
      s.(queue := q, delivered := s.delivered + out[..Min(n, |s.queue.items|)])
  }

  /** One step of a session. Once every frame is queued the session ends only after the
      queue has been played out. */
  function Step<T>(s: State<T>, e: Event, silence: T): (r: State<T>)
    requires Ready(s)
    ensures Ready(r)
    ensures r.status.Finished? && !s.status.Finished? ==> s.pending == [] && s.queue.items == []
    ensures e.ProducerPoll? && s.status.Running? && s.pending == [] ==>
      r == (if s.queue.items == [] then s.(status := Finished) else s)
  {
    match e
    case Callback(n) => Consume(s, n, silence)
    case ProducerPoll =>
      if !s.status.Running? then s
      else if s.pending == [] then (if s.queue.items == [] then s.(status := Finished) else s)
      else Produce(s)
  }

  /** One step as the program is written: when the packet loop runs out, `main` returns at
      once and drops the output stream, whatever is still queued. */
  function StepAsWritten<T>(s: State<T>, e: Event, silence: T): (r: State<T>)
    requires Ready(s)
    ensures Ready(r)
    ensures r.status.Finished? && !s.status.Finished? ==> s.pending == []
    ensures e.ProducerPoll? && s.status.Running? && s.pending == [] ==> r == s.(status := Finished)
  {
    if e.ProducerPoll? && s.status.Running? && s.pending == [] then s.(status := Finished)
    else Step(s, e, silence)
  }

  /** The session after the events of `schedule`, in order. */
  function Run<T>(s: State<T>, schedule: seq<Event>, silence: T): (r: State<T>)
    requires Ready(s)
    ensures Ready(r)
    decreases |schedule|
  {
    if schedule == [] then s else Run(Step(s, schedule[0], silence), schedule[1..], silence)
  }

  /** The session after the events of `schedule`, with the program's own ending. */
  function RunAsWritten<T>(s: State<T>, schedule: seq<Event>, silence: T): (r: State<T>)
    requires Ready(s)
    ensures Ready(r)
    decreases |schedule|
  {
    if schedule == [] then s
    else RunAsWritten(StepAsWritten(s, schedule[0], silence), schedule[1..], silence)
  }

  /** The safety facts of a session over `frames`: the queue is never over capacity; the
      queued views are, in order, the whole views of a prefix of the frames; and what was
      played followed by what is still queued is exactly those views concatenated. */
  ghost predicate Safe<T>(frames: seq<Frame<T>>, s: State<T>) {
    && Ready(s)
    && AllWellFormed(frames)
    && s.queue.capacity == PlaybackCapacity
    && |s.pushed| <= |frames|
    && s.pending == frames[|s.pushed|..]
    && (forall i :: 0 <= i < |s.pushed| ==> Packed(frames[i]) == Success(s.pushed[i]))
    && s.delivered + s.queue.items == Flatten(s.pushed)
    && (s.status.Aborted? ==> s.pending != [] && Packed(s.pending[0]) == Failure(s.status.error))
  }

  /** Safety, plus: a finished session has played every frame. */
  ghost predicate Inv<T>(frames: seq<Frame<T>>, s: State<T>) {
    Safe(frames, s) && (s.status.Finished? ==> s.pending == [] && s.queue.items == [])
  }

  lemma StartInv<T>(frames: seq<Frame<T>>)
    requires AllWellFormed(frames)
    ensures Inv(frames, Start(frames))
  {
  }

  lemma ProduceSafe<T>(frames: seq<Frame<T>>, s: State<T>)
    requires Safe(frames, s) && s.status == Running && s.pending != []
    ensures Safe(frames, Produce(s))
  {
    match Packed(s.pending[0])
    case Failure(e) =>
    case Success(view) =>
      match TryEnqueue(s.queue, view)
      case None =>
      case Some(q) =>
        var r := Produce(s);
        var pushed' := s.pushed + [view];
        assert pushed'[..|pushed'| - 1] == s.pushed;
        assert Flatten(pushed') == Flatten(s.pushed) + view;
        assert frames[|s.pushed|] == s.pending[0];
        assert r.pending == frames[|pushed'|..];
  }

  lemma ConsumeSafe<T>(frames: seq<Frame<T>>, s: State<T>, n: nat, silence: T)
    requires Safe(frames, s)
    ensures Safe(frames, Consume(s, n, silence))
  {
    if s.status.Running? {
      var (out, q) := Drain(s.queue, n, silence);
      var k := Min(n, |s.queue.items|);
      assert s.queue.items == s.queue.items[..k] + q.items;
    }
  }

  lemma StepKeepsInv<T>(frames: seq<Frame<T>>, s: State<T>, e: Event, silence: T)
    requires Inv(frames, s)
    ensures Inv(frames, Step(s, e, silence))
  {
    match e
    case Callback(n) => ConsumeSafe(frames, s, n, silence);
    case ProducerPoll =>
      if s.status.Running? && s.pending != [] {
        ProduceSafe(frames, s);
      }
  }

  lemma StepAsWrittenKeepsSafe<T>(frames: seq<Frame<T>>, s: State<T>, e: Event, silence: T)
    requires Safe(frames, s)
    ensures Safe(frames, StepAsWritten(s, e, silence))
  {
    if !(e.ProducerPoll? && s.status.Running? && s.pending == []) {
      match e
      case Callback(n) => ConsumeSafe(frames, s, n, silence);
      case ProducerPoll =>
        if s.status.Running? && s.pending != [] {
          ProduceSafe(frames, s);
        }
    }
  }

  lemma {:induction false} RunKeepsInv<T>(frames: seq<Frame<T>>, s: State<T>, schedule: seq<Event>, silence: T)
    requires Inv(frames, s)
    ensures Inv(frames, Run(s, schedule, silence))
    decreases |schedule|
  {
    if schedule != [] {
      StepKeepsInv(frames, s, schedule[0], silence);
      RunKeepsInv(frames, Step(s, schedule[0], silence), schedule[1..], silence);
    }
  }

  lemma {:induction false} RunAsWrittenKeepsSafe<T>(frames: seq<Frame<T>>, s: State<T>, schedule: seq<Event>, silence: T)
    requires Safe(frames, s)
    ensures Safe(frames, RunAsWritten(s, schedule, silence))
    decreases |schedule|
  {
    if schedule != [] {
      StepAsWrittenKeepsSafe(frames, s, schedule[0], silence);
      RunAsWrittenKeepsSafe(frames, StepAsWritten(s, schedule[0], silence), schedule[1..], silence);
    }
  }

  /** Whatever the interleaving of producer polls and callbacks: the queue never exceeds
      its 8192 samples (no unread sample is overwritten); only whole frame views are
      queued, in decode order; the device plays a prefix of their concatenation (FIFO);
      and a session that finishes has played every frame's samples, in order. */
  lemma SessionGuarantees<T>(frames: seq<Frame<T>>, schedule: seq<Event>, silence: T)
    requires AllWellFormed(frames)
    ensures var s := Run(Start(frames), schedule, silence);
      && |s.queue.items| <= PlaybackCapacity
      && |s.pushed| <= |frames|
      && (forall i :: 0 <= i < |s.pushed| ==> Packed(frames[i]) == Success(s.pushed[i]))
      && s.delivered <= Flatten(s.pushed)
      && (s.status.Finished? ==> |s.pushed| == |frames| && s.delivered == Flatten(s.pushed))
      && (s.status.Aborted? ==> |s.pushed| < |frames| && Packed(frames[|s.pushed|]) == Failure(s.status.error))
  {
    StartInv(frames);
    RunKeepsInv(frames, Start(frames), schedule, silence);
  }

  /** The same safety guarantees hold for the program as written, except completion. */
  lemma SessionAsWrittenSafety<T>(frames: seq<Frame<T>>, schedule: seq<Event>, silence: T)
    requires AllWellFormed(frames)
    ensures |RunAsWritten(Start(frames), schedule, silence).queue.items| <= PlaybackCapacity
    ensures Safe(frames, RunAsWritten(Start(frames), schedule, silence))
  {
    StartInv(frames);
    RunAsWrittenKeepsSafe(frames, Start(frames), schedule, silence);
  }

  /** As written, a finished session is final: no later callback plays anything. */
  lemma {:induction false} AsWrittenFinishedIsFinal<T>(s: State<T>, schedule: seq<Event>, silence: T)
    requires Ready(s) && s.status.Finished?
    ensures RunAsWritten(s, schedule, silence) == s
    decreases |schedule|
  {
    if schedule != [] {
      AsWrittenFinishedIsFinal(StepAsWritten(s, schedule[0], silence), schedule[1..], silence);
    }
  }

  /** As written, the last queued samples can be lost: a one-sample frame is queued, the
      next poll ends the session before any callback, and the sample is never played. */
  lemma AsWrittenDropsQueuedTail<T>(x: T, silence: T, later: seq<Event>)
    ensures var frames := [Frame(true, true, 1, 1, [x])];
      var s := RunAsWritten(Start(frames), [ProducerPoll, ProducerPoll] + later, silence);
      && s.status == Finished
      && s.delivered == []
      && s.queue.items == [x]
  {
    var frames := [Frame(true, true, 1, 1, [x])];
    var s0 := Start(frames);
    var s2 := StepAsWritten(StepAsWritten(s0, ProducerPoll, silence), ProducerPoll, silence);
    assert s2.status == Finished && s2.delivered == [] && s2.queue.items == [x];
    assert RunAsWritten(s0, [ProducerPoll, ProducerPoll] + later, silence) == RunAsWritten(s2, later, silence) by {
      var sched := [ProducerPoll, ProducerPoll] + later;
      assert sched[1..] == [ProducerPoll] + later;
      assert sched[1..][1..] == later;
    }
    AsWrittenFinishedIsFinal(s2, later, silence);
  }

  /** With the corrected ending, the same session keeps polling until the callback has
      played the queued sample, and then finishes having delivered it. */
  lemma CorrectedPlaysQueuedTail<T>(x: T, silence: T)
    ensures var frames := [Frame(true, true, 1, 1, [x])];
      var s := Run(Start(frames), [ProducerPoll, ProducerPoll, Callback(1), ProducerPoll], silence);
      && s.status == Finished
      && s.delivered == [x]
  {
  }
}
