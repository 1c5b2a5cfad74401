/**
  The constants of USB/Inc/usbd_audio.h (sample rate, packet and buffer sizes,
  volume range, request codes) and the 16-bit sample encoding the audio class
  uses on a little-endian core.
 */
module AudioConfig {
  import opened UsbTypes

  /** int16_t */
  type int16 = x: int | -0x8000 <= x < 0x8000
  /** uint32_t */
  type u32 = x: int | 0 <= x < 0x1_0000_0000

  /** (int16_t) applied to a 16-bit pattern: two's complement. */
  function AsInt16(bits: u16): (r: int16)
    ensures (r - bits) % 0x1_0000 == 0
  {
    if bits < 0x8000 then bits else bits - 0x1_0000
  }

  /** The 16-bit pattern that stores a signed value; the inverse of AsInt16. */
  function Int16Bits(v: int16): (r: u16)
    ensures AsInt16(r) == v
  {
    if v >= 0 then v else v + 0x1_0000
  }

  /**
    A signed sample read from two bytes in memory, low byte first: its bit
    pattern is the little-endian word, and its sign is the top bit of the high byte.
   */
  function Int16FromBytes(lo: byte, hi: byte): (r: int16)
    ensures Int16Bits(r) == Word(lo, hi)
    ensures r < 0 <==> hi >= 0x80
  {
    AsInt16(Word(lo, hi))
  }

  /** The two bytes, low byte first, that an int16_t store writes. */
  function Int16Bytes(v: int16): (r: seq<byte>)
    ensures |r| == 2
    ensures Int16FromBytes(r[0], r[1]) == v
  {
    [LoByte(Int16Bits(v)), HiByte(Int16Bits(v))]
  }

  /** Reading two stored bytes as a sample and storing it again gives the same bytes. */
  lemma Int16BytesRoundTrip(lo: byte, hi: byte)
    ensures Int16Bytes(Int16FromBytes(lo, hi)) == [lo, hi]
  {
    var w := Word(lo, hi);
    assert Int16Bits(AsInt16(w)) == w;
  }

  /** The volume limits as the bytes GET_MIN, GET_MAX and GET_RES send. */
  lemma VolumeRangeBytes()
    ensures Int16Bytes(USBD_AUDIO_VOL_MIN) == [0x00, 0xA0]
    ensures Int16Bytes(USBD_AUDIO_VOL_MAX) == [0x00, 0x00]
    ensures Int16Bytes(USBD_AUDIO_VOL_RES) == [0x00, 0x03]
  {
    assert Int16Bits(USBD_AUDIO_VOL_MIN) == 0xA000;
    assert LoByte(0xA000) == 0x00 && HiByte(0xA000) == 0xA0;
    assert Int16Bits(USBD_AUDIO_VOL_MAX) == 0;
    assert LoByte(0) == 0x00 && HiByte(0) == 0x00;
    assert Int16Bits(USBD_AUDIO_VOL_RES) == 0x0300;
    assert LoByte(0x0300) == 0x00 && HiByte(0x0300) == 0x03;
  }

  const USBD_AUDIO_FREQ := 48000
  const USBD_MAX_NUM_INTERFACES := 1
  const AUDIO_OUT_EP := 0x01
  const AUDIO_IN_EP := 0x81

  /** Volume limits in 1/256 dB: -96 dB, 0 dB and a 3 dB step. */
  const USBD_AUDIO_VOL_MIN: int16 := AsInt16(0xA000)
  const USBD_AUDIO_VOL_MAX: int16 := AsInt16(0x0000)
  const USBD_AUDIO_VOL_RES: int16 := AsInt16(0x0300)

  /**
    One 1 ms packet of 16-bit stereo at USBD_AUDIO_FREQ, plus one spare stereo
    frame: (USBD_AUDIO_FREQ / 1000 + 1) * 2 * 2. The sizes are written out as
    numbers; ConfigurationConstants proves they are the header's formulas.
   */
  const AUDIO_OUT_PACKET := 196
  const AUDIO_OUT_PACKET_NUM := 8
  /** The ring capacity in bytes: AUDIO_OUT_PACKET * AUDIO_OUT_PACKET_NUM. */
  const AUDIO_TOTAL_BUF_SIZE := 1568
  /** The handle's buffer: the ring plus one packet of slack for the wrap tail. */
  const AUDIO_BUFFER_SIZE := 1764

  /** USB_MAX_EP0_SIZE of the ST device library (usbd_def.h): the size of setup_data. */
  const USB_MAX_EP0_SIZE := 64

  // Audio class request codes (USB Audio Class 1.0, appendix A.9)
  const AUDIO_REQ_SET_CUR := 0x01
  const AUDIO_REQ_GET_CUR := 0x81
  const AUDIO_REQ_GET_MIN := 0x82
  const AUDIO_REQ_GET_MAX := 0x83
  const AUDIO_REQ_GET_RES := 0x84

  // Feature Unit control selectors (USB Audio Class 1.0, section 5.2.2.4.3)
  const AUDIO_CONTROL_MUTE := 0x01
  const AUDIO_CONTROL_VOLUME := 0x02

  /** 48 samples per frame in 10.14 fixed point: 48 << 14. */
  const NOMINAL_FEEDBACK := 48 * 0x4000

  /**
    The header's sizing rules: a packet is one stereo 16-bit frame more than a
    nominal millisecond, the packet count is even and above 3, the ring size
    fits the uint16_t cast, the buffer has exactly one packet of slack, and the
    volume range is ordered with a positive resolution.
   */
  lemma ConfigurationConstants()
    ensures AUDIO_OUT_PACKET == (USBD_AUDIO_FREQ / 1000 + 1) * 2 * 2
    ensures AUDIO_OUT_PACKET == USBD_AUDIO_FREQ / 1000 * 4 + 4
    ensures AUDIO_OUT_PACKET_NUM % 2 == 0 && AUDIO_OUT_PACKET_NUM > 3
    ensures AUDIO_TOTAL_BUF_SIZE == AUDIO_OUT_PACKET * AUDIO_OUT_PACKET_NUM < 0x1_0000
    ensures AUDIO_BUFFER_SIZE == AUDIO_TOTAL_BUF_SIZE + AUDIO_OUT_PACKET < 0x1_0000
    ensures AUDIO_TOTAL_BUF_SIZE % 4 == 0
    ensures USBD_AUDIO_VOL_MIN == -96 * 256 && USBD_AUDIO_VOL_MAX == 0 && USBD_AUDIO_VOL_RES == 3 * 256
    ensures USBD_AUDIO_VOL_MIN < USBD_AUDIO_VOL_MAX && USBD_AUDIO_VOL_RES > 0
  {
  }
}
