/**
 The per-frame record handed to the SBUS channel layer by the frame parser
 (`sbusChannels_t`: sixteen already-unpacked 11-bit channel fields and a flag
 byte), and the frame status the decoders return (src/main/rx/sbus_channels.c,
 lines 74-85 and 120-131). Flags and status bits are named booleans; their
 numeric encodings live in headers that are not part of this model.
 */
module SbusFrame {

  /** Number of analog channel fields in one frame. */
  const AnalogChannels: nat := 16

  /** An 11-bit raw channel field. */
  type u11 = x: int | 0 <= x < 0x800

  /** The sixteen channel fields `chan0` .. `chan15`, in declared order. */
  type ChannelFields = s: seq<u11> | |s| == AnalogChannels witness seq(16, i => 0)

  /** The four flag bits of a frame. */
  datatype SbusFlags = SbusFlags(
    digitalChannel1: bool,
    digitalChannel2: bool,
    signalLoss: bool,
    failsafeActive: bool)

  /** One parsed frame. */
  datatype SbusChannels = SbusChannels(chan: ChannelFields, flags: SbusFlags)

  /** The frame-status bits COMPLETE, FAILSAFE and DROPPED. */
  datatype FrameStatus = FrameStatus(complete: bool, failsafe: bool, dropped: bool)

  /**
   The status both decoders return: failsafe takes precedence over signal
   loss, and every frame that reaches the decoder is complete.
   */
  function StatusOf(flags: SbusFlags): (r: FrameStatus)
    ensures r.complete
    ensures r.failsafe <==> flags.failsafeActive
    ensures r.dropped <==> flags.signalLoss && !flags.failsafeActive
    ensures !flags.failsafeActive && !flags.signalLoss <==> r == FrameStatus(true, false, false)
  {
    if flags.failsafeActive then
      // the receiver keeps sending last-known-good channel data in failsafe
      FrameStatus(true, true, false)
    else if flags.signalLoss then
      // a repeat of the last valid data: still complete, but flagged
      FrameStatus(true, false, true)
    else
      FrameStatus(true, false, false)
  }
}
