/** The arithmetic of src/Ladybug_ADC.c: the count-to-millivolt conversion
    (1.2 V band-gap reference, 10-bit result, 1/3 input prescaling undone by
    the factor 3) and the one-hot channel-select mask. The register
    programming and the busy-wait are hardware I/O, so the raw count is an
    input. */
module Adc {
  import opened Basics

  const ADC_PRE_SCALING_COMPENSATION: int := 3
  const ADC_REF_VOLTAGE_IN_MILLIVOLTS: int := 1200
  /** Full scale of a 10-bit result. */
  const ADC_FULL_SCALE: int := 1023

  /** C's `/` on int: the quotient truncated toward zero, that is, the one
      whose remainder is smaller than the divisor in magnitude and never has
      the opposite sign to the dividend. */
  function CDiv(a: int, b: int): (q: int)
    requires b > 0
    ensures var r := a - q * b; -b < r < b && (r > 0 ==> a > 0) && (r < 0 ==> a < 0)
  {
    if a >= 0 then a / b else -((-a) / b)
  }

  /** ADC_RESULT_IN_MILLI_VOLTS, evaluated in int: the division comes before
      the multiplication by 3, so the result is a multiple of 3 with the
      sign of the count. */
  function AdcResultInMilliVolts(raw: int): (mV: int)
    ensures mV % 3 == 0
    ensures raw >= 0 ==> mV >= 0
    ensures raw <= 0 ==> mV <= 0
  {
    CDiv(raw * ADC_REF_VOLTAGE_IN_MILLIVOLTS, ADC_FULL_SCALE) * ADC_PRE_SCALING_COMPENSATION
  }

  /** read(): the result register lands in an int16_t, is converted, and the
      converted value is stored back into that int16_t. For a 10-bit count
      that store loses nothing and the reading lies in 0..3600 mV. */
  function ReadMilliVolts(raw: i16): (r: i16)
    ensures 0 <= raw <= ADC_FULL_SCALE ==> r == AdcResultInMilliVolts(raw) && 0 <= r <= 3600
  {
    if 0 <= raw <= ADC_FULL_SCALE then
      ConversionFitsInt16(raw);
      ToI16(AdcResultInMilliVolts(raw))
    else
      ToI16(AdcResultInMilliVolts(raw))
  }

  /** Zero counts read as 0 mV and a full-scale count as 3600 mV. */
  lemma ConversionEndpoints()
    ensures AdcResultInMilliVolts(0) == 0
    ensures AdcResultInMilliVolts(1023) == 3600
  {
  }

  /** More counts never read as fewer millivolts. */
  lemma {:induction false} ConversionMonotone(a: int, b: int)
    requires 0 <= a <= b
    ensures AdcResultInMilliVolts(a) <= AdcResultInMilliVolts(b)
  {
    var qa, ra := (a * 1200) / 1023, (a * 1200) % 1023;
    var qb, rb := (b * 1200) / 1023, (b * 1200) % 1023;
    assert a * 1200 == 1023 * qa + ra && 0 <= ra < 1023;
    assert b * 1200 == 1023 * qb + rb && 0 <= rb < 1023;
    assert a * 1200 <= b * 1200;
    assert 1023 * (qa - qb) < 1023;
  }

  /** Every 10-bit count converts to 0..3600 mV, which the int16_t holds
      unchanged. */
  lemma {:induction false} ConversionFitsInt16(raw: int)
    requires 0 <= raw <= ADC_FULL_SCALE
    ensures 0 <= AdcResultInMilliVolts(raw) <= 3600
    ensures ToI16(AdcResultInMilliVolts(raw)) == AdcResultInMilliVolts(raw)
  {
    ConversionMonotone(0, raw);
    ConversionMonotone(raw, ADC_FULL_SCALE);
  }

  /** Dividing before multiplying by 3 loses less than 3 mV against the exact
      value raw * 3600 / 1023: 1023 * mV <= 3600 * raw < 1023 * (mV + 3). */
  lemma {:induction false} ConversionPrecision(raw: int)
    requires 0 <= raw
    ensures var mV := AdcResultInMilliVolts(raw);
      1023 * mV <= 3600 * raw < 1023 * (mV + 3)
  {
    var q := (raw * 1200) / 1023;
    var r := (raw * 1200) % 1023;
    assert raw * 1200 == 1023 * q + r && 0 <= r < 1023;
    assert 3600 * raw == 1023 * (3 * q) + 3 * r;
  }

  /** 2 to the n. */
  function Pow2(n: nat): (p: nat)
    ensures p >= 1
  {
    if n == 0 then 1 else 2 * Pow2(n - 1)
  }

  /** The PSEL value selecting AIN `which`: `1 << which`. */
  function ChannelMask(which: nat): (m: bv32)
    requires which < 8
  {
    (1 as bv32) << which
  }

  /** The mask of AIN n is 2^n: one bit, in the low byte, and a different
      bit for every input. */
  lemma {:induction false} ChannelMaskIsOneHot(which: nat)
    requires which < 8
    ensures ChannelMask(which) as int == Pow2(which)
    ensures ChannelMask(which) != 0 && ChannelMask(which) & (ChannelMask(which) - 1) == 0
    ensures ChannelMask(which) as int < 0x100
  {
    if which == 0 {
      assert ChannelMask(0) == 1;
    } else if which == 1 {
      assert ChannelMask(1) == 2;
    } else if which == 2 {
      assert ChannelMask(2) == 4;
    } else if which == 3 {
      assert ChannelMask(3) == 8;
    } else if which == 4 {
      assert ChannelMask(4) == 16;
    } else if which == 5 {
      assert ChannelMask(5) == 32;
    } else if which == 6 {
      assert ChannelMask(6) == 64;
    } else {
      assert ChannelMask(7) == 128;
    }
  }

  lemma {:induction false} ChannelMaskInjective(a: nat, b: nat)
    requires a < 8 && b < 8 && ChannelMask(a) == ChannelMask(b)
    ensures a == b
  {
    ChannelMaskIsOneHot(a);
    ChannelMaskIsOneHot(b);
    if a < b {
      Pow2Increasing(a, b);
    } else if b < a {
      Pow2Increasing(b, a);
    }
  }

  lemma {:induction false} Pow2Increasing(a: nat, b: nat)
    requires a < b
    ensures Pow2(a) < Pow2(b)
    decreases b
  {
    if a + 1 < b {
      Pow2Increasing(a, b - 1);
    }
  }
}
