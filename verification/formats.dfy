/** The format adapter: translating the output device's sample kind into the
    decoding engine's sample descriptor (src/main.rs:12-26). */
module Formats {
  import opened Wrappers

  /** The sample kinds an output device can ask for. */
  datatype SampleFormat = I16 | U16 | F32

  /** Whether the channels of a frame are interleaved or stored one after another. */
  datatype Layout = Packed | Planar

  /** The decoding engine's sample descriptors: an element kind together with its layout. */
  datatype EngineSample =
    | NoFormat
    | EngineU8(layout: Layout)
    | EngineI16(layout: Layout)
    | EngineI32(layout: Layout)
    | EngineI64(layout: Layout)
    | EngineF32(layout: Layout)
    | EngineF64(layout: Layout)

  /** True when the descriptor names an element kind stored interleaved. */
  predicate IsPacked(e: EngineSample) {
    !e.NoFormat? && e.layout == Packed
  }

  /** Why no engine descriptor could be produced. */
  datatype ConfigError = UnsupportedU16

  /** The device sample kind an engine descriptor stores, if the device has one.
      This is an independent reading of the descriptor, used as the adapter's partner. */
  function DeviceKind(e: EngineSample): (r: Option<SampleFormat>)
    ensures r != Some(U16)
  {
    match e
    case EngineI16(_) => Some(I16)
    case EngineF32(_) => Some(F32)
    case _ => None
  }

  /** The adapter. The engine's resampler has no unsigned 16-bit format, so that kind
      is a fatal configuration error; the other two map to their interleaved descriptor. */
  function AsEngineSample(f: SampleFormat): (r: Result<EngineSample, ConfigError>)
    ensures r.Success? <==> f != U16
    ensures r.Failure? ==> r.error == UnsupportedU16
    ensures r.Success? ==> IsPacked(r.value) && DeviceKind(r.value) == Some(f)
  {
    match f
    case I16 => Success(EngineI16(Packed))
    case U16 => Failure(UnsupportedU16)
    case F32 => Success(EngineF32(Packed))
  }

  /** The adapter's descriptor is the only interleaved descriptor of the requested kind,
      so reading the kind back from it and adapting again gives the same descriptor. */
  lemma AdapterIsInverseOfDeviceKind(e: EngineSample, f: SampleFormat)
    ensures (DeviceKind(e) == Some(f) && IsPacked(e))
            <==> AsEngineSample(f) == Success(e)
  {
  }
}
