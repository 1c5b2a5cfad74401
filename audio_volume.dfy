/**
  USBD_AUDIO_ApplyVolumeControl: digital attenuation of one 16-bit sample in
  3 dB steps. An even number of steps is a plain arithmetic shift (6 dB per
  bit); an odd number adds half of the shifted sample back.
 */
module AudioVolume {
  import opened AudioConfig

  function Pow2(k: nat): (r: nat)
    ensures r >= 1
  {
    if k == 0 then 1 else 2 * Pow2(k - 1)
  }

  /**
    sample >> k on an int16_t, written as k one-bit shifts. GCC's arithmetic
    shift rounds toward minus infinity, so each bit is a floor division by 2.
   */
  function Sar(x: int16, k: nat): (r: int16)
    ensures x >= 0 ==> 0 <= r <= x
    ensures x < 0 ==> x <= r <= -1
    ensures k >= 1 ==> -0x4000 <= r < 0x4000
  {
    if k == 0 then x else Sar(x, k - 1) / 2
  }

  /** A value inside [-2^n, 2^n) shifted by k <= n bits lies inside [-2^(n-k), 2^(n-k)). */
  lemma {:induction false} SarBound(x: int16, k: nat, n: nat)
    requires 0 <= x + Pow2(n) && x < Pow2(n) && k <= n
    ensures 0 <= Sar(x, k) + Pow2(n - k) && Sar(x, k) < Pow2(n - k)
  {
    if k > 0 {
      SarBound(x, k - 1, n);
      assert Pow2(n - k + 1) == 2 * Pow2(n - k);
    }
  }

  /** Fifteen or more bits of shift leave only the sign of an int16_t: 0 or -1. */
  lemma {:induction false} SarToSign(x: int16, k: nat)
    requires k >= 15
    ensures Sar(x, k) == (if x >= 0 then 0 else -1)
  {
    if k == 15 {
      assert Pow2(5) == 32;
      assert Pow2(10) == 1024;
      assert Pow2(15) == 0x8000;
      SarBound(x, 15, 15);
    } else {
      SarToSign(x, k - 1);
    }
  }

  /** The conversion of an int result to int16_t: two's-complement truncation. */
  function Wrap16(x: int): (r: int16)
    ensures (r - x) % 0x1_0000 == 0
    ensures -0x8000 <= x < 0x8000 ==> r == x
  {
    (x + 0x8000) % 0x1_0000 - 0x8000
  }

  /** The two ifs at the top of ApplyVolumeControl. */
  function ClampVolume(volume: int16): (r: int16)
    ensures USBD_AUDIO_VOL_MIN <= r <= USBD_AUDIO_VOL_MAX
    ensures USBD_AUDIO_VOL_MIN <= volume <= USBD_AUDIO_VOL_MAX ==> r == volume
    ensures volume > USBD_AUDIO_VOL_MAX ==> r == USBD_AUDIO_VOL_MAX
    ensures volume < USBD_AUDIO_VOL_MIN ==> r == USBD_AUDIO_VOL_MIN
  {
    if volume > USBD_AUDIO_VOL_MAX then USBD_AUDIO_VOL_MAX
    else if volume < USBD_AUDIO_VOL_MIN then USBD_AUDIO_VOL_MIN
    else volume
  }

  /**
    The number of 3 dB steps of attenuation: the attenuation below 0 dB
    divided by the resolution, rounded to the nearest step with halves rounded up.
   */
  function Shifts(volume: int16): (r: nat)
    ensures r <= 32
    ensures r * USBD_AUDIO_VOL_RES - USBD_AUDIO_VOL_RES / 2
            <= USBD_AUDIO_VOL_MAX - ClampVolume(volume)
            < r * USBD_AUDIO_VOL_RES + USBD_AUDIO_VOL_RES / 2
  {
    (USBD_AUDIO_VOL_MAX - ClampVolume(volume) + USBD_AUDIO_VOL_RES / 2) / USBD_AUDIO_VOL_RES
  }

  /**
    The shift-and-add step of ApplyVolumeControl for a given step count, as
    written: no steps keep the sample, an even count never amplifies, and 30 or
    more even steps (15 bits of shift) leave only the sign.
   */
  function Attenuate(sample: int16, steps: nat): (r: int16)
    ensures steps == 0 ==> r == sample
    ensures steps % 2 == 0 ==> (0 <= r <= sample || sample <= r <= 0)
    ensures steps % 2 == 0 && steps >= 30 ==> r == (if sample >= 0 then 0 else -1)
  {
    var s := Sar(sample, steps / 2);
    if steps % 2 == 1 then Wrap16(s + Sar(s, 1))
    else if steps >= 30 then SarToSign(sample, steps / 2); s
    else s
  }

  /**
    USBD_AUDIO_ApplyVolumeControl(sample, volume). Within half a step of 0 dB
    (and above it) the sample passes unchanged; an even number of steps is an
    arithmetic shift by half that number and never amplifies; at the minimum
    volume (-96 dB, 16 bits of shift) only the sign survives.
   */
  function ApplyVolumeControl(sample: int16, volume: int16): (r: int16)
    ensures ClampVolume(volume) > USBD_AUDIO_VOL_MAX - USBD_AUDIO_VOL_RES / 2 ==> r == sample
    ensures Shifts(volume) % 2 == 0 ==> r == Sar(sample, Shifts(volume) / 2)
    ensures Shifts(volume) % 2 == 0 ==> (0 <= r <= sample || sample <= r <= 0)
    ensures volume <= USBD_AUDIO_VOL_MIN ==> r == (if sample >= 0 then 0 else -1)
  {
    Attenuate(sample, Shifts(volume))
  }

  // ---------------------------------------------------------------------------
  // Finding: the odd branch multiplies the shifted sample by 1.5.

  /**
    As written, one 3 dB step below 0 dB (volume -768) turns a full-scale
    sample 32767 into 32767 + 16383 = 49150, which wraps to -16386.
   */
  lemma OddStepWraps()
    ensures ApplyVolumeControl(32767, -768) == -16386
  {
    assert Shifts(-768) == 1;
    assert Sar(32767, 0) == 32767;
    assert Sar(32767, 1) == 16383;
  }

  /**
    As written, for every sample from 2 to 21845 one 3 dB step of attenuation
    makes the output louder than no attenuation at all.
   */
  lemma OddStepLouder(sample: int16)
    requires 2 <= sample <= 21845
    ensures ApplyVolumeControl(sample, -768) > ApplyVolumeControl(sample, USBD_AUDIO_VOL_MAX)
  {
    assert Shifts(-768) == 1;
    assert Shifts(USBD_AUDIO_VOL_MAX) == 0;
    assert Sar(sample, 0) == sample;
  }

  /**
    The evidently intended odd step: three quarters of the even step below it,
    (sample >> (k + 1)) * 1.5, which lies between the two neighbouring even
    steps and stays in int16 range without wrapping.
   */
  function AttenuateIntended(sample: int16, steps: nat): (r: int16)
    ensures sample >= 0 ==> 0 <= r <= sample
    ensures steps % 2 == 0 ==> r == Sar(sample, steps / 2)
    ensures sample >= 0 && steps % 2 == 1 ==> Sar(sample, steps / 2 + 1) <= r <= Sar(sample, steps / 2)
  {
    if steps % 2 == 1 then
      var s := Sar(sample, steps / 2 + 1);
      s + Sar(s, 1)
    else
      Sar(sample, steps / 2)
  }

  /** One more step of attenuation never makes a non-negative sample louder. */
  lemma IntendedStep(sample: int16, steps: nat)
    requires sample >= 0
    ensures AttenuateIntended(sample, steps + 1) <= AttenuateIntended(sample, steps)
  {
    if steps % 2 == 1 {
      assert (steps + 1) / 2 == steps / 2 + 1;
    }
  }

  /** With the intended odd step, more steps never make a non-negative sample louder. */
  lemma {:induction false} IntendedMonotone(sample: int16, fewer: nat, more: nat)
    requires sample >= 0 && fewer <= more
    ensures AttenuateIntended(sample, more) <= AttenuateIntended(sample, fewer)
  {
    if fewer < more {
      IntendedMonotone(sample, fewer, more - 1);
      IntendedStep(sample, more - 1);
    }
  }

  /** ApplyVolumeControl with the intended odd step. */
  function ApplyVolumeControlIntended(sample: int16, volume: int16): (r: int16)
    ensures ClampVolume(volume) > USBD_AUDIO_VOL_MAX - USBD_AUDIO_VOL_RES / 2 ==> r == sample
    ensures sample >= 0 ==> 0 <= r <= sample
    ensures Shifts(volume) % 2 == 0 ==> r == ApplyVolumeControl(sample, volume)
  {
    AttenuateIntended(sample, Shifts(volume))
  }

  /** With the intended odd step, turning the volume up never makes a non-negative sample quieter. */
  lemma IntendedVolumeMonotone(sample: int16, lower: int16, higher: int16)
    requires sample >= 0 && lower <= higher
    ensures ApplyVolumeControlIntended(sample, lower) <= ApplyVolumeControlIntended(sample, higher)
  {
    assert Shifts(higher) <= Shifts(lower);
    IntendedMonotone(sample, Shifts(higher), Shifts(lower));
  }
}
