/** The frame layout reader: exposing a resampled frame's first data plane as a flat
    sequence of interleaved samples (src/main.rs:56-67). */
module Frames {
  import opened Wrappers

  /** A decoded or resampled audio frame. `formatOk` is the engine's verdict on whether
      the frame's format and channel count suit the requested element type. The
      allocated buffer `data` may be longer than the populated extent. */
  datatype Frame<T> = Frame(isPacked: bool, formatOk: bool, samples: nat, channels: nat, data: seq<T>)

  /** Why a frame cannot be read as interleaved samples (each a panic in the program). */
  datatype FrameError = NotPacked | UnsupportedType

  /** The number of populated interleaved samples: samples per channel times channels. */
  function Extent<T>(f: Frame<T>): nat {
    f.samples * f.channels
  }

  /** What the engine guarantees of any frame it hands out: a readable frame's buffer
      holds at least its populated extent. */
  predicate WellFormed<T>(f: Frame<T>) {
    f.isPacked && f.formatOk ==> Extent(f) <= |f.data|
  }

  /** The checked view: interleaving is tested first, then the element type; only then is
      the populated prefix of the buffer exposed. */
  function Packed<T>(f: Frame<T>): (r: Result<seq<T>, FrameError>)
    requires WellFormed(f)
    ensures r.Success? <==> f.isPacked && f.formatOk
    ensures !f.isPacked ==> r == Failure(NotPacked)
    ensures f.isPacked && !f.formatOk ==> r == Failure(UnsupportedType)
    ensures r.Success? ==> |r.value| == f.samples * f.channels && r.value <= f.data
  {
    if !f.isPacked then Failure(NotPacked)
    else if !f.formatOk then Failure(UnsupportedType)
    else Success(f.data[..Extent(f)])
  }

  /** The view never reads past the populated extent: two frames that agree on their
      metadata and on the populated prefix give the same view, whatever lies beyond it. */
  lemma PackedIgnoresStaleTail<T>(f: Frame<T>, g: Frame<T>)
    requires WellFormed(f) && WellFormed(g)
    requires f.isPacked == g.isPacked && f.formatOk == g.formatOk
    requires f.samples == g.samples && f.channels == g.channels
    requires f.isPacked && f.formatOk ==> f.data[..Extent(f)] == g.data[..Extent(g)]
    ensures Packed(f) == Packed(g)
  {
  }
}
