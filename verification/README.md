# Audio playback core of ffmpeg-cpal-play-audio, in Dafny

The program decodes audio with ffmpeg and plays it through cpal. Two timing domains meet
in the middle: a decode loop produces resampled frames whenever the decoder has them, and
the device callback asks for a fixed number of samples on the hardware's clock. This
project models the sequential core that joins them and proves its invariants:

- **Format adapter** (`Formats`): the device sample kind (I16, U16, F32) mapped to the
  engine's interleaved sample descriptor. U16 is a fatal configuration error, modelled as
  a `Failure`.
- **Frame layout reader** (`Frames`): a resampled frame read as a flat sequence of
  interleaved samples. It checks that the frame is interleaved, then that the element
  type suits the frame's format and channel count. Only then does it expose the first
  `samples * channels` elements of the frame's buffer. The buffer may be longer than that.
- **Bounded sample queue** (`SampleQueue`): the 8192-sample ring buffer, modelled as the
  sequence of unread samples plus a fixed capacity. It has a partial bulk write (accept as
  many samples as fit) and a non-blocking single read.
- **Producer step** (`Pipeline`): one poll of the backpressure loop. The producer waits
  until `remaining >= |view|`, then pushes the whole view.
- **Playback callback** (`Playback`): every output slot gets the oldest queued sample, or
  silence once the queue is empty.
- **Session** (`Session`): any interleaving of producer polls and device callbacks over a
  sequence of resampled frames. The proved invariant covers four things: the queue is
  never over capacity, only whole frame views are queued, playback is FIFO, and a
  session that finishes under the corrected ending has played every frame.

Samples are an opaque type parameter. The silence value (`Sample::from(&0.0)`) is passed
in as a parameter.

With frames of 3000, 2000 and 4000 samples in the 8192-sample queue:
8192 - 5000 leaves 3192 free, so the third frame fits once the consumer has read 808
samples. `Pipeline.ThreeFrameScenario` proves that 808 is exactly the threshold.

A frame view longer than the queue's capacity can never be pushed. One example is
4608 stereo samples, which is 9216 interleaved samples. The wait loop at
src/main.rs:133-135 would then poll forever. `Pipeline.TryEnqueue` states this. The
model records the behaviour but does not correct it, because the code does not show
whether such frames should be split or the queue enlarged.

## Model

| member | source | states |
|---|---|---|
| Formats.AsEngineSample | src/main.rs:16-26 | I16 and F32 map to the interleaved descriptor of the same kind; U16, and only U16, fails with the unsupported-format error |
| Formats.AdapterIsInverseOfDeviceKind | src/main.rs:18-24 | the adapter's result is the one and only interleaved engine descriptor whose element kind is the requested device kind |
| Frames.Packed | src/main.rs:57-67 | fails with not-packed when the frame is planar; fails with unsupported-type when it is packed but the type check fails; otherwise succeeds with a view of length samples * channels that is a prefix of the frame's buffer |
| Frames.PackedIgnoresStaleTail | src/main.rs:66 | the view depends only on the frame's metadata and its populated prefix, never on buffer contents past samples * channels |
| SampleQueue.New | src/main.rs:102-103 | a new queue is empty and keeps the capacity it was created with |
| SampleQueue.Remaining | src/main.rs:133 | free space plus queued samples equals the capacity |
| SampleQueue.PushSlice | src/main.rs:138 | the bulk write takes the longest prefix of the offered samples that fits and appends it in order; it takes all of them exactly when they fit, and free space drops by exactly the number taken |
| SampleQueue.Pop | src/main.rs:32 | an empty queue yields nothing and is unchanged; otherwise the read yields the oldest sample and the queue keeps the rest, in order |
| SampleQueue.PopAfterPushSliceIsOldest | src/main.rs:32-33 | FIFO: appending samples that fit to a non-empty queue does not change which sample is read next, and reading first then appending gives the same queue |
| Playback.Drain | src/main.rs:29-36 | reading n slots, with k = min(n, queue length): the output has length n, its first k slots are the k oldest samples in order, the rest are silence, and the queue loses exactly those k samples |
| Playback.WriteAudio | src/main.rs:28-37 | the callback overwrites every slot of the buffer and keeps its length; the output is the queue's prefix followed by silence, and the queue loses exactly that prefix |
| Pipeline.TryEnqueue | src/main.rs:131-138 | one poll pushes only when free space is at least the view's length, and then appends the whole view; a view longer than the capacity can never be pushed; free space drops by exactly the view's length |
| Pipeline.BackpressureReleasedByReads | src/main.rs:133-135 | after a callback of n slots, a waiting producer can push exactly when the samples read plus the earlier free space cover the whole view |
| Pipeline.ThreeFrameScenario | src/main.rs:102-138 | in an 8192-sample queue, frames of 3000 and 2000 go straight in; a 4000-sample frame waits through every read of fewer than 808 samples; after 808 reads it lands whole, behind the unread samples |
| Session.Start | src/main.rs:102-103 | a session starts running with an empty 8192-sample queue and all frames pending |
| Session.Produce | src/main.rs:122-139 | a frame that cannot be read aborts the session; a readable frame is queued exactly when its whole view fits in the free space; a frame leaves the pending list only by having its whole view (the reader's result for that frame) appended to the queue; a blocked poll changes nothing; the capacity is kept and the producer never plays anything |
| Session.Consume | src/main.rs:107-109 | a running callback of n slots plays the min(n, queue length) oldest queued samples, in order, and removes exactly those from the queue; it leaves the producer's side alone; after the session has ended a callback changes nothing |
| Session.Step | src/main.rs:143-157 | with the corrected ending, a poll with no frame pending finishes the session exactly when the queue is empty, and otherwise waits; a session finishes only once every frame is queued and the queue is empty |
| Session.StepAsWritten | src/main.rs:143-159 | as written, the first poll with no frame pending finishes the session, whatever is still in the queue; a session finishes only once no frame is pending |
| Session.StartInv | src/main.rs:102-103 | the session invariant holds at the start |
| Session.ProduceSafe | src/main.rs:129-138 | a producer poll preserves the safety invariant: capacity respected, queued views are the whole views of a prefix of the frames, played followed by queued equals their concatenation |
| Session.ConsumeSafe | src/main.rs:28-37 | a callback preserves the safety invariant |
| Session.StepKeepsInv | src/main.rs:117-157 | any step with the corrected ending preserves the invariant, including that a finished session has played everything |
| Session.StepAsWrittenKeepsSafe | src/main.rs:117-159 | any as-written step preserves the safety invariant |
| Session.RunKeepsInv | src/main.rs:117-157 | every interleaving of polls and callbacks preserves the invariant |
| Session.RunAsWrittenKeepsSafe | src/main.rs:117-159 | every as-written interleaving preserves the safety invariant |
| Session.SessionGuarantees | src/main.rs:117-157 | over any interleaving, with the corrected ending: the queue never exceeds 8192 samples; only whole views of the frames are queued, in decode order; the device plays a prefix of their concatenation; a finished session has played all of it; an aborted one stopped at an unreadable frame |
| Session.SessionAsWrittenSafety | src/main.rs:117-159 | as written, the same capacity, whole-frame and FIFO guarantees hold over any interleaving |
| Session.AsWrittenFinishedIsFinal | src/main.rs:159 | as written, once the session has finished, no later event changes anything, so nothing more is played |
| Session.AsWrittenDropsQueuedTail | src/main.rs:147-159 | as written, a one-sample frame is queued and the next poll ends the session; the sample is never played, whatever happens afterwards |
| Session.CorrectedPlaysQueuedTail | src/main.rs:147-159 | with the corrected ending, the same session plays the queued sample before finishing |

## Findings

| source | as written | input that shows it | evidently intended | confidence | as-written member | corrected member |
|---|---|---|---|---|---|---|
| src/main.rs:147-159 | `main` returns right after the packet loop queues the last frame, which drops the output stream while up to 8192 samples are still queued | any file: the last frame's view is pushed, `main` returns `Ok(())`, and the queued samples are never played; a one-sample mono frame is the smallest case | keep the stream alive until the queue has been played out | medium, not executed | Session.AsWrittenDropsQueuedTail | Session.SessionGuarantees |

`Session.Step` is the corrected step that the rest of the model uses: after the last frame
is queued, the producer keeps polling until the queue is empty. `Session.StepAsWritten`
ends the session at once.

## Left out

- Decoder and container: ffmpeg initialisation, opening the file, choosing the stream,
  `send_packet` and `receive_frame` (src/main.rs:70-88, 119-122, 147-157) are I/O and
  foreign calls. A session is given the sequence of resampled frames those calls produce.
- Resampler: constructing it and `resampler.run` (src/main.rs:91-99, 125) are ffmpeg
  internals. The frames are taken as its output. Its error path (`?`, which ends the
  session) is not modelled. Only the frame reader's panics abort a session.
- The engine's element-type check `is_valid(format, channels)` (src/main.rs:62) is the
  frame's `formatOk` flag, because its code belongs to ffmpeg-next.
- The unsafe raw-pointer cast (src/main.rs:66) is replaced by the prefix of the frame's
  buffer. Frames are assumed to hold at least their populated extent when readable,
  which the engine guarantees. The product `samples * channels` is unbounded, so `usize`
  overflow is not modelled. It cannot occur for real frame sizes.
- The device: `init_cpal`, `build_output_stream` and its I16/U16 "unimplemented" panics
  (src/main.rs:39-54, 105-115) are device glue.
- Concurrency and time: the two threads are reduced to interleavings of whole producer
  polls and whole callbacks. The 10 ms sleep is a poll that changes nothing. Liveness
  (that a waiting producer is eventually released) is not modelled beyond
  `Pipeline.BackpressureReleasedByReads`.
- Ring-buffer internals (head and tail indices, the extra slot) are replaced by the
  sequence of unread samples. `remaining()` is therefore exact rather than a safe
  underestimate.
- Sample values are opaque. Floating-point arithmetic and the conversion of 0.0 to
  silence are a parameter.
- Playback.WriteAudio: takes the device buffer as a value and returns the filled buffer,
  instead of writing through a mutable slice.
