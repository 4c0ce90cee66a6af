/**
 The channel array of an SBUS receiver session and the operations on it
 (src/main/rx/sbus_channels.c, lines 39-164): the standard decoder
 (16 analog + 2 digital channels), the extended decoder that receives 32
 analog channels as two alternating 16-channel halves, the read accessor the
 flight loop polls, and the initialisation that centres every slot.

 The array is a value (`seq<u16>`, the source's `uint16_t channelData[]`);
 each decoder returns the updated array together with the frame status, and
 its contract pins down exactly which slots it writes.
 */
module SbusChannelData {
  import opened SbusCodec
  import opened SbusFrame

  type u8 = x: int | 0 <= x < 0x100

  type ChannelData = seq<u16>

  /** Slots the standard decoder writes: 16 analog followed by the two digital channels. */
  const StandardSlots: nat := 18
  /** Slots the extended decoder writes: two analog halves, then the two digital channels. */
  const ExtendedSlots: nat := 34
  /** First slot of the extended decoder's high half. */
  const HighHalfOffset: nat := 16
  /** Slots of the two digital channels in the standard layout. */
  const StandardDigital1: nat := 16
  const StandardDigital2: nat := 17
  /** Slots of the two digital channels in the extended layout. */
  const ExtendedDigital1: nat := 32
  const ExtendedDigital2: nat := 33

  /** Mid-stick pulse width of the flight stack; its header is not part of this model, so the usual value is assumed. */
  const PwmRangeMiddle: int := 1500
  /** Raw value every slot starts from: the one that reads back as mid-stick. */
  const DefaultRawValue: int := (16 * PwmRangeMiddle) / 10 - 1408

  /** Every slot holds a value of the protocol's 11-bit raw domain. */
  predicate InRawDomain(data: ChannelData) {
    forall i :: 0 <= i < |data| ==> data[i] <= RawMax
  }

  /** Raw value written for a digital channel: fully high when its flag is set, fully low otherwise. */
  function DigitalValue(on: bool): u16 {
    if on then DigitalChannelMax else DigitalChannelMin
  }

  /** The array after a decoder has run, and the status it returned. */
  datatype DecodeResult = DecodeResult(data: ChannelData, status: FrameStatus)

  /**
   Copies the channel fields `chan[k..]` into slots `offset + k` onwards, one
   assignment after the other, as both decoders do.
   */
  function WriteAnalog(data: ChannelData, chan: ChannelFields, offset: nat, k: nat): (r: ChannelData)
    requires k <= AnalogChannels
    requires offset + AnalogChannels <= |data|
    ensures |r| == |data|
    ensures forall i :: offset + k <= i < offset + AnalogChannels ==> r[i] == chan[i - offset]
    ensures forall i :: 0 <= i < |data| && !(offset + k <= i < offset + AnalogChannels) ==> r[i] == data[i]
    ensures InRawDomain(data) ==> InRawDomain(r)
    decreases AnalogChannels - k
  {
    if k == AnalogChannels then data
    else WriteAnalog(data[offset + k := chan[k]], chan, offset, k + 1)
  }

  /** Stores the two digital channels synthesised from the flags in the given slots. */
  function WriteDigital(data: ChannelData, slot1: nat, slot2: nat, flags: SbusFlags): (r: ChannelData)
    requires slot1 < slot2 < |data|
    ensures |r| == |data|
    ensures r[slot1] == DigitalValue(flags.digitalChannel1) && r[slot2] == DigitalValue(flags.digitalChannel2)
    ensures forall i :: 0 <= i < |data| && i != slot1 && i != slot2 ==> r[i] == data[i]
    ensures InRawDomain(data) ==> InRawDomain(r)
  {
    data[slot1 := DigitalValue(flags.digitalChannel1)][slot2 := DigitalValue(flags.digitalChannel2)]
  }

  /**
   The standard decoder (`sbusChannelsDecode`): the sixteen channel fields go
   to slots 0..15, the digital channels to slots 16 and 17, and no other slot
   changes.
   */
  function ChannelsDecode(data: ChannelData, channels: SbusChannels): (r: DecodeResult)
    requires |data| >= StandardSlots
    ensures |r.data| == |data|
    ensures forall i :: 0 <= i < AnalogChannels ==> r.data[i] == channels.chan[i]
    ensures r.data[StandardDigital1] == (if channels.flags.digitalChannel1 then DigitalChannelMax else DigitalChannelMin)
    ensures r.data[StandardDigital2] == (if channels.flags.digitalChannel2 then DigitalChannelMax else DigitalChannelMin)
    ensures forall i :: StandardSlots <= i < |data| ==> r.data[i] == data[i]
    ensures r.status.complete
    ensures r.status.failsafe <==> channels.flags.failsafeActive
    ensures r.status.dropped <==> channels.flags.signalLoss && !channels.flags.failsafeActive
    ensures InRawDomain(data) ==> InRawDomain(r.data)
  {
    var analog := WriteAnalog(data, channels.chan, 0, 0);
    DecodeResult(WriteDigital(analog, StandardDigital1, StandardDigital2, channels.flags), StatusOf(channels.flags))
  }

  /**
   One half of the extended decoder (`sbus26ChannelsDecode`). The low half
   writes its fields to slots 0..15 and the digital channels to slots 32 and
   33; the high half writes its fields to slots 16..31 and nothing else. No
   other slot changes, so the two halves never overwrite each other.
   */
  function Channels26Decode(data: ChannelData, channels: SbusChannels, highChannels: bool): (r: DecodeResult)
    requires |data| >= (if highChannels then HighHalfOffset + AnalogChannels else ExtendedSlots)
    ensures |r.data| == |data|
    ensures !highChannels ==> forall i :: 0 <= i < AnalogChannels ==> r.data[i] == channels.chan[i]
    ensures highChannels ==> forall i :: 0 <= i < AnalogChannels ==> r.data[HighHalfOffset + i] == channels.chan[i]
    ensures !highChannels ==> r.data[ExtendedDigital1] == (if channels.flags.digitalChannel1 then DigitalChannelMax else DigitalChannelMin)
    ensures !highChannels ==> r.data[ExtendedDigital2] == (if channels.flags.digitalChannel2 then DigitalChannelMax else DigitalChannelMin)
    ensures !highChannels ==> forall i :: AnalogChannels <= i < |data| && i != ExtendedDigital1 && i != ExtendedDigital2 ==> r.data[i] == data[i]
    ensures highChannels ==> forall i :: 0 <= i < |data| && !(HighHalfOffset <= i < HighHalfOffset + AnalogChannels) ==> r.data[i] == data[i]
    ensures r.status.complete
    ensures r.status.failsafe <==> channels.flags.failsafeActive
    ensures r.status.dropped <==> channels.flags.signalLoss && !channels.flags.failsafeActive
    ensures InRawDomain(data) ==> InRawDomain(r.data)
  {
    if highChannels then
      DecodeResult(WriteAnalog(data, channels.chan, HighHalfOffset, 0), StatusOf(channels.flags))
    else
      var analog := WriteAnalog(data, channels.chan, 0, 0);
      DecodeResult(WriteDigital(analog, ExtendedDigital1, ExtendedDigital2, channels.flags), StatusOf(channels.flags))
  }

  /**
   The read accessor (`sbusChannelsReadRawRC`): the full-policy decode of one
   slot. On a raw-domain slot no clamping happens, so the result is exactly
   the linear fit 5/8 x + 880 rounded down.
   */
  function ReadRawRC(data: ChannelData, chan: u8): (r: u16)
    requires chan < |data|
    ensures 880 <= r <= 2159
    ensures data[chan] <= RawMax ==> 8 * (r - PulseOffset) <= 5 * data[chan] < 8 * (r - PulseOffset) + 8
    ensures data[chan] == DefaultRawValue ==> r == PwmRangeMiddle
  {
    DecodeChannelValue(data[chan], Full)
  }

  /**
   The initialisation (`sbusChannelsInit`): the first `maxChannel` slots
   (`SBUS_MAX_CHANNEL`) are set to the centred default, so that every read
   before the first frame reports mid-stick.
   */
  method ChannelsInit(data: ChannelData, maxChannel: nat) returns (initialised: ChannelData)
    requires maxChannel <= |data|
    ensures |initialised| == |data|
    ensures forall b :: 0 <= b < maxChannel ==> initialised[b] == DefaultRawValue
    ensures forall b :: maxChannel <= b < |data| ==> initialised[b] == data[b]
    ensures forall b: u8 :: b < maxChannel ==> ReadRawRC(initialised, b) == PwmRangeMiddle
    ensures InRawDomain(data) ==> InRawDomain(initialised)
  {
    initialised := data;
    var b := 0;
    while b < maxChannel
      invariant 0 <= b <= maxChannel
      invariant |initialised| == |data|
      invariant forall j :: 0 <= j < b ==> initialised[j] == DefaultRawValue
      invariant forall j :: b <= j < |data| ==> initialised[j] == data[j]
    {
      initialised := initialised[b := DefaultRawValue];
      b := b + 1;
    }
  }

  /**
   In the extended layout the order in which the two halves arrive does not
   matter: low-then-high and high-then-low leave the same array, holding the
   low fields in slots 0..15, the high fields in 16..31 and the low half's
   digital channels in 32 and 33.
   */
  lemma ExtendedHalvesCommute(data: ChannelData, low: SbusChannels, high: SbusChannels)
    requires |data| >= ExtendedSlots
    ensures var lowFirst := Channels26Decode(Channels26Decode(data, low, false).data, high, true).data;
      var highFirst := Channels26Decode(Channels26Decode(data, high, true).data, low, false).data;
      && lowFirst == highFirst
      && (forall i :: 0 <= i < AnalogChannels ==> lowFirst[i] == low.chan[i] && lowFirst[HighHalfOffset + i] == high.chan[i])
      && lowFirst[ExtendedDigital1] == DigitalValue(low.flags.digitalChannel1)
      && lowFirst[ExtendedDigital2] == DigitalValue(low.flags.digitalChannel2)
      && (forall i :: ExtendedSlots <= i < |data| ==> lowFirst[i] == data[i])
  {
    var lowFirst := Channels26Decode(Channels26Decode(data, low, false).data, high, true).data;
    var highFirst := Channels26Decode(Channels26Decode(data, high, true).data, low, false).data;
    assert |lowFirst| == |highFirst|;
    forall i | 0 <= i < |lowFirst|
      ensures lowFirst[i] == highFirst[i]
    {
      if i < AnalogChannels {
        assert lowFirst[i] == low.chan[i];
      } else if i < HighHalfOffset + AnalogChannels {
        assert lowFirst[i] == high.chan[i - HighHalfOffset];
      }
    }
  }

  /**
   The standard decoder and the low half of the extended decoder store the
   same analog fields and return the same status; they differ only in where
   the digital channels go (slots 16 and 17 against 32 and 33).
   */
  lemma StandardMatchesLowHalf(data: ChannelData, channels: SbusChannels)
    requires |data| >= ExtendedSlots
    ensures var standard := ChannelsDecode(data, channels);
      var lowHalf := Channels26Decode(data, channels, false);
      && standard.data[..AnalogChannels] == lowHalf.data[..AnalogChannels]
      && standard.data[StandardDigital1] == lowHalf.data[ExtendedDigital1]
      && standard.data[StandardDigital2] == lowHalf.data[ExtendedDigital2]
      && standard.status == lowHalf.status
  {
  }

  /**
   A digital channel of the standard layout reads back through the accessor as
   exactly one end of the safe pulse range: 2012 when its flag was set, 988
   when it was clear.
   */
  lemma DigitalChannelReads(data: ChannelData, channels: SbusChannels)
    requires |data| >= StandardSlots
    ensures ReadRawRC(ChannelsDecode(data, channels).data, StandardDigital1 as u8) == (if channels.flags.digitalChannel1 then 2012 else 988)
    ensures ReadRawRC(ChannelsDecode(data, channels).data, StandardDigital2 as u8) == (if channels.flags.digitalChannel2 then 2012 else 988)
  {
  }

  /** The same for the digital channels of the extended layout, slots 32 and 33. */
  lemma ExtendedDigitalChannelReads(data: ChannelData, channels: SbusChannels)
    requires |data| >= ExtendedSlots
    ensures ReadRawRC(Channels26Decode(data, channels, false).data, ExtendedDigital1 as u8) == (if channels.flags.digitalChannel1 then 2012 else 988)
    ensures ReadRawRC(Channels26Decode(data, channels, false).data, ExtendedDigital2 as u8) == (if channels.flags.digitalChannel2 then 2012 else 988)
  {
  }
}
