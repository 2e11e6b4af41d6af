/** The requests the bridge makes of the V4L2 SDR device, as plain records:
    the data of a VIDIOC_S_FREQUENCY argument (tuner, tuner type, frequency)
    and of the VIDIOC_S_FMT argument issued once at start-up. */
module Device {
  import opened Wire

  datatype Option<T> = None | Some(value: T)

  /** V4L2 tuner types. */
  const TunerAdc: bv32 := 4
  const TunerRf: bv32 := 5

  /** V4L2 buffer type for SDR capture and the fourcc of 8-bit unsigned I/Q samples. */
  const BufTypeSdrCapture: bv32 := 11
  const PixFmtSdrU8: bv32 := 0x38305544

  /** The fields of struct v4l2_frequency that the bridge sets (the reserved words stay zero). */
  datatype FrequencyRequest = FrequencyRequest(tuner: bv32, tunerType: bv32, frequency: bv32)

  /** The fields of struct v4l2_format that the bridge sets. */
  datatype FormatRequest = FormatRequest(bufType: bv32, pixelFormat: bv32)

  /** The format selected before the first client is accepted. */
  const SdrFormat: FormatRequest := FormatRequest(BufTypeSdrCapture, PixFmtSdrU8)

  /** The frequency request a command causes: SET_FREQ tunes the RF tuner (tuner 1),
      SET_SAMPLE_RATE sets the ADC clock (tuner 0); every other code, logged or
      unknown, reaches no device. */
  function RequestFor(c: Command): (r: Option<FrequencyRequest>)
    ensures r.Some? <==> c.code == CmdSetFreq || c.code == CmdSetSampleRate
    ensures c.code == CmdSetFreq ==> r == Some(FrequencyRequest(1, TunerRf, c.value))
    ensures c.code == CmdSetSampleRate ==> r == Some(FrequencyRequest(0, TunerAdc, c.value))
  {
    if c.code == CmdSetFreq then Some(FrequencyRequest(1, TunerRf, c.value))
    else if c.code == CmdSetSampleRate then Some(FrequencyRequest(0, TunerAdc, c.value))
    else None
  }

  /** A device request determines the command that caused it: the tuner and its
      type tell the two codes apart, and the frequency is the value unchanged. */
  lemma RequestIdentifiesCommand(c: Command, d: Command)
    requires RequestFor(c).Some? && RequestFor(c) == RequestFor(d)
    ensures c == d
  {
  }
}
