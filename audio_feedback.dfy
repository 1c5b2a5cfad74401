/**
  The arithmetic of USBD_AUDIO_SOF: the distance in frames since the last
  feedback report, the free space of the ring in stereo frames, and the
  explicit feedback value in 10.14 fixed point (section 5.12.4.2 of the USB
  2.0 specification) that steers the host's sample rate so that the ring stays
  half full.
 */
module AudioFeedback {
  import opened UsbTypes
  import opened AudioConfig

  /** The 14-bit frame number field FNSOF of the OTG_FS DSTS register. */
  type FrameNumber = x: int | 0 <= x < 0x4000

  /** Frames are reported at most every this many frames apart, plus one. */
  const FEEDBACK_PERIOD := 4

  /** The number of frames from `last` forward to `now` on the 14-bit frame counter. */
  function FrameDistance(now: FrameNumber, last: FrameNumber): (r: nat)
    ensures r < 0x4000
    ensures (last + r) % 0x4000 == now
  {
    (now - last) % 0x4000
  }

  /**
    fnsof_interval as written: across a wrap of the counter it adds 0x3FFF
    rather than the modulus 0x4000, so it comes out one frame short.
   */
  function FrameInterval(now: FrameNumber, last: FrameNumber): (r: u16)
    ensures now >= last ==> r == FrameDistance(now, last)
    ensures now < last ==> r == FrameDistance(now, last) - 1
  {
    if now < last then now + 0x3FFF - last else now - last
  }

  /**
    Five frames pass from frame 0x3FFE to frame 3, but the interval as written
    is 4, so the report due in that frame is not sent.
   */
  lemma WrapDelaysFeedback()
    ensures FrameDistance(3, 0x3FFE) == 5 > FEEDBACK_PERIOD
    ensures FrameInterval(3, 0x3FFE) == 4 <= FEEDBACK_PERIOD
  {
  }

  /** The interval with the modulus 0x4000: the frame distance itself. */
  function FrameIntervalIntended(now: FrameNumber, last: FrameNumber): (r: u16)
    ensures r == FrameDistance(now, last)
    ensures r == 0 <==> now == last
  {
    if now < last then now + 0x4000 - last else now - last
  }

  /**
    writable_samples: the bytes from the write pointer forward to the read
    pointer (the part of the ring the host may still fill before overtaking
    the I2S read position), counted in 4-byte stereo frames.
   */
  function WritableSamples(rdPtr: nat, wrPtr: nat): (r: nat)
    requires rdPtr <= AUDIO_TOTAL_BUF_SIZE && wrPtr < AUDIO_TOTAL_BUF_SIZE
    ensures r <= AUDIO_TOTAL_BUF_SIZE / 4
    ensures rdPtr == wrPtr ==> r == 0
  {
    if rdPtr < wrPtr then (rdPtr + AUDIO_TOTAL_BUF_SIZE - wrPtr) / 4 else (rdPtr - wrPtr) / 4
  }

  /**
    On the ring, the free space is the distance from the write pointer
    forward to the read pointer, modulo the ring size, in whole stereo frames.
    SOF computes rd_ptr as AUDIO_TOTAL_BUF_SIZE - 2 * NDTR, which is
    AUDIO_TOTAL_BUF_SIZE itself while NDTR reads 0 (before the first DMA start,
    for instance). That read position is ring position 0, and the distance is
    the same, except with wr_ptr at 0: then the whole ring (392 frames) is
    reported free where the ring distance is 0.
   */
  lemma WritableIsRingDistance(rdPtr: nat, wrPtr: nat)
    requires rdPtr <= AUDIO_TOTAL_BUF_SIZE && wrPtr < AUDIO_TOTAL_BUF_SIZE
    ensures rdPtr < AUDIO_TOTAL_BUF_SIZE || wrPtr > 0 ==>
      WritableSamples(rdPtr, wrPtr) == ((rdPtr - wrPtr) % AUDIO_TOTAL_BUF_SIZE) / 4
    ensures rdPtr == AUDIO_TOTAL_BUF_SIZE && wrPtr == 0 ==>
      WritableSamples(rdPtr, wrPtr) == AUDIO_TOTAL_BUF_SIZE / 4 != ((rdPtr - wrPtr) % AUDIO_TOTAL_BUF_SIZE) / 4
  {
    if rdPtr < wrPtr {
      assert (rdPtr - wrPtr) % AUDIO_TOTAL_BUF_SIZE == rdPtr + AUDIO_TOTAL_BUF_SIZE - wrPtr;
    } else if rdPtr < AUDIO_TOTAL_BUF_SIZE {
      assert (rdPtr - wrPtr) % AUDIO_TOTAL_BUF_SIZE == rdPtr - wrPtr;
    } else if wrPtr > 0 {
      assert (rdPtr - wrPtr) % AUDIO_TOTAL_BUF_SIZE == rdPtr - wrPtr;
    } else {
      assert (rdPtr - wrPtr) % AUDIO_TOTAL_BUF_SIZE == 0;
    }
  }

  /** factor: 1.0 in 2.14 fixed point, corrected by the distance of the free space from half the ring. */
  function FeedbackFactor(writable: nat): (r: int)
    requires writable <= AUDIO_TOTAL_BUF_SIZE / 4
    ensures 0x4000 - AUDIO_TOTAL_BUF_SIZE / 8 <= r <= 0x4000 + AUDIO_TOTAL_BUF_SIZE / 8
    ensures r > 0
  {
    0x4000 + (writable - AUDIO_TOTAL_BUF_SIZE / 4 / 2)
  }

  /**
    fb_value: the nominal rate scaled by the factor, ((uint64_t)norm * factor) >> 14
    truncated to uint32_t. From the nominal 48 << 14 it is 48 * factor: above
    nominal exactly when more than half the ring is free, equal to it exactly
    at half.
   */
  function FeedbackValue(norm: u32, writable: nat): (r: u32)
    requires writable <= AUDIO_TOTAL_BUF_SIZE / 4
    ensures norm == NOMINAL_FEEDBACK ==> r == 48 * FeedbackFactor(writable)
    ensures norm == NOMINAL_FEEDBACK ==> (r > NOMINAL_FEEDBACK <==> writable > AUDIO_TOTAL_BUF_SIZE / 8)
    ensures norm == NOMINAL_FEEDBACK ==> (r == NOMINAL_FEEDBACK <==> writable == AUDIO_TOTAL_BUF_SIZE / 8)
  {
    (norm * FeedbackFactor(writable) / 0x4000) % 0x1_0000_0000
  }

  /** From the nominal rate, more free space never asks the host for fewer samples. */
  lemma FeedbackMonotone(fewer: nat, more: nat)
    requires fewer <= more <= AUDIO_TOTAL_BUF_SIZE / 4
    ensures FeedbackValue(NOMINAL_FEEDBACK, fewer) <= FeedbackValue(NOMINAL_FEEDBACK, more)
  {
    assert FeedbackFactor(fewer) <= FeedbackFactor(more);
  }

  /**
    The set point of the controller: when the read pointer is half a ring
    ahead of the write pointer, the feedback is exactly the nominal 48 << 14.
   */
  lemma HalfFullIsNominal(rdPtr: nat, wrPtr: nat)
    requires rdPtr < AUDIO_TOTAL_BUF_SIZE && wrPtr < AUDIO_TOTAL_BUF_SIZE
    requires rdPtr == (wrPtr + AUDIO_TOTAL_BUF_SIZE / 2) % AUDIO_TOTAL_BUF_SIZE
    ensures WritableSamples(rdPtr, wrPtr) == AUDIO_TOTAL_BUF_SIZE / 8
    ensures FeedbackValue(NOMINAL_FEEDBACK, WritableSamples(rdPtr, wrPtr)) == NOMINAL_FEEDBACK
  {
    if wrPtr < AUDIO_TOTAL_BUF_SIZE / 2 {
      assert rdPtr == wrPtr + AUDIO_TOTAL_BUF_SIZE / 2;
    } else {
      assert rdPtr == wrPtr - AUDIO_TOTAL_BUF_SIZE / 2;
    }
    var w := WritableSamples(rdPtr, wrPtr);
    assert w == AUDIO_TOTAL_BUF_SIZE / 8;
    assert FeedbackFactor(w) == 0x4000;
  }

  /**
    The three bytes USBD_LL_Transmit sends from &fb_value: its low 24 bits,
    little-endian, so that put back together low byte first they are the value
    modulo 2^24.
   */
  function FeedbackBytes(value: u32): (r: seq<byte>)
    ensures |r| == 3
    ensures r[0] as int + 0x100 * (r[1] as int) + 0x1_0000 * (r[2] as int) == value % 0x100_0000
  {
    var q := value / 0x100;
    ByteSplit(value);
    ByteSplit(q);
    ByteSplit(q / 0x100);
    ShiftTwice(value);
    var low := value % 0x100 + 0x100 * (q % 0x100) + 0x1_0000 * (q / 0x100 % 0x100);
    assert value == 0x100_0000 * (q / 0x100 / 0x100) + low;
    [value % 0x100, value / 0x100 % 0x100, value / 0x1_0000 % 0x100]
  }

  /** A number is 256 times its quotient by 256 plus its low byte. */
  lemma ByteSplit(x: nat)
    ensures x == 0x100 * (x / 0x100) + x % 0x100 && 0 <= x % 0x100 < 0x100
  {
  }

  /** Shifting right by 8 twice is shifting right by 16. */
  lemma ShiftTwice(x: nat)
    ensures x / 0x100 / 0x100 == x / 0x1_0000
  {
    var q := x / 0x100;
    ByteSplit(x);
    ByteSplit(q);
    assert x == 0x1_0000 * (q / 0x100) + (0x100 * (q % 0x100) + x % 0x100);
  }

  /** The nominal 48.0 samples per frame goes on the wire as 00 00 0C (0x0C0000 in 10.14). */
  lemma NominalFeedbackBytes()
    ensures FeedbackBytes(NOMINAL_FEEDBACK) == [0x00, 0x00, 0x0C]
  {
  }
}
