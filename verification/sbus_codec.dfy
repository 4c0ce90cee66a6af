/**
 The linear value codec of the SBUS channel layer: conversion between the
 protocol's 11-bit raw channel domain and the pulse-width domain used by the
 flight-control stack (src/main/rx/sbus_channels.c, lines 134-151).

 All arithmetic is on unbounded integers; the source's `uint16_t` arguments
 and results are the subset type `u16`, and the one place where C's
 truncating division differs from Dafny's Euclidean division (a negative
 numerator in the encoder) is written out with `TruncDiv`.
 */
module SbusCodec {

  type u16 = x: int | 0 <= x < 0x1_0000

  /** Raw value a digital channel takes when its switch is off; the lower clamp of the safe policy and of the encoder. */
  const DigitalChannelMin: int := 173
  /** Raw value a digital channel takes when its switch is on; the upper clamp of the safe policy and of the encoder. */
  const DigitalChannelMax: int := 1812
  /** Largest 11-bit raw value; the upper clamp of the full policy. */
  const RawMax: int := 2047
  /** Offset of the linear fit, in pulse-width units. */
  const PulseOffset: int := 880

  /** The two clamp policies of the decoder (the source's `safeValuesOnly` flag). */
  datatype DecodePolicy = Safe | Full {
    function Lo(): int {
      match this
      case Safe => DigitalChannelMin
      case Full => 0
    }

    function Hi(): int {
      match this
      case Safe => DigitalChannelMax
      case Full => RawMax
    }
  }

  /** The usual `constrain(amt, low, high)` helper: `amt` saturated into [lo, hi]. */
  function Clamp(amt: int, lo: int, hi: int): (r: int)
    requires lo <= hi
    ensures lo <= r <= hi
    ensures lo <= amt <= hi ==> r == amt
    ensures amt < lo ==> r == lo
    ensures hi < amt ==> r == hi
  {
    if amt < lo then lo else if amt > hi then hi else amt
  }

  /** Integer division by a positive divisor as C performs it: the quotient is rounded toward zero. */
  function TruncDiv(n: int, d: int): (q: int)
    requires d > 0
    ensures 0 <= n ==> 0 <= q * d <= n < q * d + d
    ensures n < 0 ==> q * d - d < n <= q * d <= 0
  {
    if n >= 0 then
      DivFloorBounds(n, d);
      n / d
    else
      DivFloorBounds(-n, d);
      -((-n) / d)
  }

  lemma DivFloorBounds(m: nat, d: int)
    requires d > 0
    ensures 0 <= (m / d) * d <= m < (m / d) * d + d
  {
    assert m == d * (m / d) + m % d;
  }

  /**
   Raw channel value to pulse width (`sbusDecodeChannelValue`): clamp by the
   policy, then take five eighths and add 880. The product is never negative,
   so Dafny's `/` agrees with C's here.
   */
  function DecodeChannelValue(sbusValue: u16, policy: DecodePolicy): (r: u16)
    // r - 880 is the floor of 5/8 of the clamped raw value
    ensures 8 * (r - PulseOffset) <= 5 * Clamp(sbusValue, policy.Lo(), policy.Hi()) < 8 * (r - PulseOffset) + 8
    ensures policy == Safe ==> 988 <= r <= 2012
    ensures policy == Full ==> 880 <= r <= 2159
    ensures policy == Safe && sbusValue <= DigitalChannelMin ==> r == 988
    ensures policy == Safe && sbusValue >= DigitalChannelMax ==> r == 2012
    ensures policy == Full && sbusValue >= RawMax ==> r == 2159
  {
    5 * Clamp(sbusValue, policy.Lo(), policy.Hi()) / 8 + PulseOffset
  }

  /** The numerator of the encoder: eight fifths of the offset pulse width, plus 4 to round half up. */
  function EncodeNumerator(rcValue: u16): int {
    (rcValue - PulseOffset) * 8 + 4
  }

  /**
   Pulse width to raw channel value (`sbusEncodeChannelValue`), always clamped
   into the digital-channel bounds [173, 1812].
   */
  function EncodeChannelValue(rcValue: u16): (r: u16)
    ensures DigitalChannelMin <= r <= DigitalChannelMax
    ensures rcValue <= 988 ==> r == DigitalChannelMin
    ensures rcValue >= 2012 ==> r == DigitalChannelMax
    // inside the safe pulse range the result is (8 (v - 880) + 4) / 5 rounded down
    ensures 988 <= rcValue <= 2012 ==> 5 * r <= 8 * (rcValue - PulseOffset) + 4 < 5 * r + 5
  {
    Clamp(TruncDiv(EncodeNumerator(rcValue), 5), DigitalChannelMin, DigitalChannelMax)
  }

  /** Replacing C's truncating division by Euclidean division would not change the encoder: the clamp hides the difference. */
  lemma EncodeTruncationInvisible(rcValue: u16)
    ensures EncodeChannelValue(rcValue) == Clamp(EncodeNumerator(rcValue) / 5, DigitalChannelMin, DigitalChannelMax)
  {
    var n := EncodeNumerator(rcValue);
    if n < 0 {
      // both quotients are at most 0, well below the lower clamp
      assert TruncDiv(n, 5) <= 0;
      assert n / 5 < 0;
    }
  }

  /** Both decoding policies are non-decreasing in the raw value. */
  lemma DecodeMonotonic(a: u16, b: u16, policy: DecodePolicy)
    requires a <= b
    ensures DecodeChannelValue(a, policy) <= DecodeChannelValue(b, policy)
  {
    var ca := Clamp(a, policy.Lo(), policy.Hi());
    var cb := Clamp(b, policy.Lo(), policy.Hi());
    assert ca <= cb;
    assert 5 * ca / 8 <= 5 * cb / 8;
  }

  /** The encoder is non-decreasing in the pulse width. */
  lemma EncodeMonotonic(a: u16, b: u16)
    requires a <= b
    ensures EncodeChannelValue(a) <= EncodeChannelValue(b)
  {
    EncodeTruncationInvisible(a);
    EncodeTruncationInvisible(b);
    assert EncodeNumerator(a) / 5 <= EncodeNumerator(b) / 5;
  }

  /** On the digital-channel raw range the two policies coincide. */
  lemma SafeAgreesWithFull(x: u16)
    requires DigitalChannelMin <= x <= DigitalChannelMax
    ensures DecodeChannelValue(x, Safe) == DecodeChannelValue(x, Full)
  {
  }

  /** The safe policy is the full policy applied to the raw value clamped to [173, 1812]. */
  lemma SafeIsClampedFull(x: u16)
    ensures DecodeChannelValue(x, Safe) == DecodeChannelValue(Clamp(x, DigitalChannelMin, DigitalChannelMax), Full)
  {
  }

  /** Every pulse width in [988, 2012] survives an encode followed by a decode unchanged, under either policy. */
  lemma DecodeEncodeRoundTrip(v: u16, policy: DecodePolicy)
    requires 988 <= v <= 2012
    ensures DecodeChannelValue(EncodeChannelValue(v), policy) == v
  {
    var e := EncodeChannelValue(v);
    // 8 (v - 880) <= 5 e <= 8 (v - 880) + 4, so 5 e / 8 == v - 880
    assert 8 * (v - PulseOffset) <= 5 * e <= 8 * (v - PulseOffset) + 4;
    assert Clamp(e, policy.Lo(), policy.Hi()) == e;
  }

  /**
   A raw value in [173, 1812] decoded with the safe policy and encoded again
   comes back as itself or one less, and it comes back exactly precisely when
   5x mod 8 is at most 4; both endpoints come back exactly.
   */
  lemma EncodeDecodeDrift(x: u16)
    requires DigitalChannelMin <= x <= DigitalChannelMax
    ensures var e := EncodeChannelValue(DecodeChannelValue(x, Safe));
      && (e == x || e == x - 1)
      && (e == x <==> (5 * x) % 8 <= 4)
      && (x == DigitalChannelMin || x == DigitalChannelMax ==> e == x)
  {
    var d := DecodeChannelValue(x, Safe);
    var w := d - PulseOffset;
    var rem := (5 * x) % 8;
    assert 8 * w == 5 * x - rem;
    var e := EncodeChannelValue(d);
    // 5 e <= 5 x + 4 - rem < 5 e + 5
    assert 5 * e <= 5 * x + 4 - rem < 5 * e + 5;
    if rem <= 4 {
      assert e == x;
    } else {
      assert e == x - 1;
    }
  }

  /**
   The same round trip for any 11-bit raw value under the full policy: the
   value comes back as itself or one less (by the same rule), then clamped
   into [173, 1812].
   */
  lemma EncodeDecodeFullDrift(x: u16)
    requires x <= RawMax
    ensures EncodeChannelValue(DecodeChannelValue(x, Full))
         == Clamp(if (5 * x) % 8 <= 4 then x else x - 1, DigitalChannelMin, DigitalChannelMax)
  {
    if x < DigitalChannelMin {
      assert DecodeChannelValue(x, Full) <= 988;
    } else if x > DigitalChannelMax {
      assert DecodeChannelValue(x, Full) >= 2012;
    } else {
      EncodeDecodeDrift(x);
      SafeAgreesWithFull(x);
    }
  }

  /**
   Drift does not accumulate: once a pulse width has been encoded, decoding
   and encoding it again (with either policy) changes nothing.
   */
  lemma EncodeDecodeEncodeStable(v: u16, policy: DecodePolicy)
    ensures EncodeChannelValue(DecodeChannelValue(EncodeChannelValue(v), policy)) == EncodeChannelValue(v)
  {
    var e := EncodeChannelValue(v);
    var d := DecodeChannelValue(e, policy);
    if 988 <= v <= 2012 {
      DecodeEncodeRoundTrip(v, policy);
    } else if v < 988 {
      assert e == DigitalChannelMin;
      assert d == 988;
    } else {
      assert e == DigitalChannelMax;
      assert d == 2012;
    }
  }
}
