# SBUS channel layer — a Dafny model

This project models the SBUS channel layer of the INAV flight-control
firmware (`src/main/rx/sbus_channels.c`). The layer takes one SBUS frame that
has already been parsed into sixteen 11-bit channel fields and four flag bits.
It stores the fields in the receiver's shared channel array and reports the
frame's health. The flight loop later reads each slot back through a linear
codec that maps raw SBUS units to pulse widths.

Modules:

- `SbusCodec` (`sbus_codec.dfy`) holds the value codec. `DecodeChannelValue`
  clamps a raw value by one of two policies and computes `5x/8 + 880`:
  - `Safe` clamps to [173, 1812].
  - `Full` clamps to [0, 2047].

  `EncodeChannelValue` is the inverse fit `((v-880)*8+4)/5`, clamped to
  [173, 1812]. Its numerator can be negative, so C's truncating division is
  written out explicitly (`TruncDiv`). A lemma then shows the clamp hides
  the difference from Euclidean division.
- `SbusFrame` (`sbus_frame.dfy`) holds the parsed frame record
  (`sbusChannels_t`) and the frame status. Flags and status bits are named
  booleans. `StatusOf` is the failsafe > signal-loss > complete precedence
  that both decoders share.
- `SbusChannelData` (`sbus_channel_data.dfy`) holds the channel array as a
  `seq<u16>`, with these operations:
  - the standard decoder;
  - the two halves of the extended decoder (`sbus26ChannelsDecode`), which uses
    a 34-slot array;
  - the read accessor;
  - the initialisation.

  Each decoder returns the updated array and the status. Its contract lists
  exactly which slots it writes and states that all other slots keep their
  value.

In the extended layout the low half writes the digital channels to slots 32
and 33 (`sbus_channels.c` lines 62 and 68), and the high half writes only
slots 16..31. So the two halves never write the same slot, and the order in
which they arrive does not matter (`ExtendedHalvesCommute`).
`sbusChannelsInit` fills the first `SBUS_MAX_CHANNEL` slots, which is the
parameter `maxChannel`.

Assumptions about headers that are not part of this model:
- `PWM_RANGE_MIDDLE` is 1500, so every slot below `SBUS_MAX_CHANNEL` starts at
  raw value 992.
- `constrain` saturates its argument into `[low, high]` (`Clamp`).
- The channel array is long enough for the slots a decoder writes:
  - 18 slots for the standard decoder;
  - 34 slots for the low half of the extended decoder;
  - 32 slots for its high half.

## Model

| member | source | states |
|---|---|---|
| SbusCodec.Clamp | src/main/rx/sbus_channels.c:140-150 | models `constrain` as used at lines 140, 144 and 150: the result lies in [lo, hi]; it is the argument itself when that is already in range, lo when the argument is below, and hi when it is above |
| SbusCodec.TruncDiv | src/main/rx/sbus_channels.c:150 | C's `/` on a positive divisor: for a non-negative numerator the quotient is the largest q with q*d <= n; for a negative numerator it is the smallest q with n <= q*d; either way it rounds toward zero |
| SbusChannelData.WriteDigital | src/main/rx/sbus_channels.c:60-72 | the two given slots receive 1812 when DG1 (resp. DG2) is set and 173 otherwise; every other slot is unchanged; the raw domain is preserved (the same writes appear at lines 108-118 with slots 16 and 17) |
| SbusCodec.DecodeChannelValue | src/main/rx/sbus_channels.c:134-146 | the result minus 880 is 5/8 of the policy-clamped raw value, rounded down; safe results lie in [988, 2012], full results lie in [880, 2159]; safe saturates at 988 at or below 173 and at 2012 at or above 1812; full saturates at 2159 at or above 2047 |
| SbusCodec.EncodeChannelValue | src/main/rx/sbus_channels.c:148-151 | the result always lies in [173, 1812]; pulse widths at or below 988 give 173 and at or above 2012 give 1812; in between, the result is (8(v-880)+4)/5 rounded down, i.e. 8/5 of the offset rounded half up |
| SbusCodec.EncodeTruncationInvisible | src/main/rx/sbus_channels.c:150 | the encoder with C's truncating division equals the encoder with Euclidean division for every 16-bit input, because a negative quotient is clamped to 173 either way |
| SbusCodec.DecodeMonotonic | src/main/rx/sbus_channels.c:134-146 | both decode policies are non-decreasing in the raw value |
| SbusCodec.EncodeMonotonic | src/main/rx/sbus_channels.c:148-151 | the encoder is non-decreasing in the pulse width |
| SbusCodec.SafeAgreesWithFull | src/main/rx/sbus_channels.c:138-145 | on raw values in [173, 1812] the safe and full policies give the same pulse width |
| SbusCodec.SafeIsClampedFull | src/main/rx/sbus_channels.c:138-145 | the safe policy equals the full policy applied to the raw value clamped to [173, 1812] |
| SbusCodec.DecodeEncodeRoundTrip | src/main/rx/sbus_channels.c:134-151 | every pulse width in [988, 2012] is returned exactly by encode followed by decode, under either policy |
| SbusCodec.EncodeDecodeDrift | src/main/rx/sbus_channels.c:134-151 | a raw value x in [173, 1812] that is safe-decoded then encoded comes back as x or x-1; it comes back exactly iff 5x mod 8 <= 4, and both 173 and 1812 come back exactly |
| SbusCodec.EncodeDecodeFullDrift | src/main/rx/sbus_channels.c:134-151 | a raw value x in [0, 2047] that is full-decoded then encoded comes back as x or x-1 (by the same rule), clamped into [173, 1812] |
| SbusCodec.EncodeDecodeEncodeStable | src/main/rx/sbus_channels.c:134-151 | drift does not accumulate: decoding an encoded value and encoding it again reproduces the first encoding |
| SbusFrame.StatusOf | src/main/rx/sbus_channels.c:74-85 | COMPLETE is always set; FAILSAFE is set iff the failsafe flag is set; DROPPED is set iff signal loss is set without failsafe; the status is exactly COMPLETE iff neither flag is set |
| SbusChannelData.WriteAnalog | src/main/rx/sbus_channels.c:43-58 | the sixteen channel fields are copied into slots offset..offset+15, in order, and no other slot changes |
| SbusChannelData.ChannelsDecode | src/main/rx/sbus_channels.c:88-132 | slots 0..15 receive chan0..chan15; slots 16 and 17 receive 1812 if DG1 (resp. DG2) is set and 173 otherwise; every later slot is unchanged; the status follows the failsafe > signal-loss > complete precedence; an array within the raw domain stays within it |
| SbusChannelData.Channels26Decode | src/main/rx/sbus_channels.c:39-86 | the low half writes chan_i to slot i and the digital values to slots 32 and 33, leaving every other slot from 16 upwards unchanged; the high half writes chan_i to slot 16+i and leaves every other slot unchanged, slots 0..15, 32 and 33 included; the status precedence is that of the standard decoder; the raw domain is preserved |
| SbusChannelData.ReadRawRC | src/main/rx/sbus_channels.c:153-156 | the accessor returns a pulse width in [880, 2159]; on a raw-domain slot it is the unclamped linear fit 5x/8 + 880 rounded down; the default slot value 992 reads as 1500 |
| SbusChannelData.ChannelsInit | src/main/rx/sbus_channels.c:158-164 | slots 0..maxChannel-1 hold 992 and read back as 1500 through the accessor; the other slots are unchanged; the raw domain is preserved |
| SbusChannelData.ExtendedHalvesCommute | src/main/rx/sbus_channels.c:39-72 | decoding a low half then a high half gives the same array as the reverse order: low fields in 0..15, high fields in 16..31, the low half's digital values in 32 and 33, and everything from slot 34 on untouched |
| SbusChannelData.StandardMatchesLowHalf | src/main/rx/sbus_channels.c:39-132 | the standard decoder and the extended low half store the same fields in slots 0..15 and return the same status; the standard's slots 16 and 17 hold what the low half puts in 32 and 33 |
| SbusChannelData.DigitalChannelReads | src/main/rx/sbus_channels.c:108-118 | after a standard decode, digital slots 16 and 17 read back as 2012 when their flag is set and 988 when it is clear |
| SbusChannelData.ExtendedDigitalChannelReads | src/main/rx/sbus_channels.c:60-72 | after an extended low-half decode, digital slots 32 and 33 read back as 2012 when their flag is set and 988 when it is clear |

## Left out

- Byte-level frame parsing is not modelled. This covers bit-field unpacking into `sbusChannels_t` and the `STATIC_ASSERT` on the frame size (line 37). That work happens upstream or at compile time, so a frame enters the model as sixteen 11-bit fields plus four flags.
- Numeric encodings of the `SBUS_FLAG_*` and `RX_FRAME_*` bits are not modelled, because they are defined in headers that are not part of this model. They appear as named booleans instead.
- Registering `rcReadRawFn` (line 160) is not modelled. A function pointer has no counterpart here, so the accessor is the plain function `ReadRawRC`.
- Interleaving between the decoder and the flight-loop reader is not modelled. This includes a reader that sees one extended half stale relative to the other. That behaviour depends on scheduling, which is outside this file.
- The `USE_SERIAL_RX` build guard and the debug include are not modelled, because they are configuration only.
- `src/main/target/KAKUTEF4WING/hardware_setup.c` is not modelled. It only makes foreign GPIO calls (`IOInit`, `IOConfigGPIO`, `IOLo`) and has no logic to model.
- In-place mutation of `rxRuntimeConfig->channelData` is not modelled. Each operation instead returns the new array as a value, and a frame condition on every other slot states what the in-place writes leave untouched.
