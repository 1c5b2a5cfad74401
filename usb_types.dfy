/**
  Byte-level vocabulary shared by the USB modules: the setup packet of
  section 9.3 of the USB 2.0 specification, the LOBYTE/HIBYTE/MIN/MAX helper
  macros, the bmRequestType masks and the standard request codes of
  Core/Inc/usbd_core.h.
 */
module UsbTypes {

  /** uint8_t */
  type byte = x: int | 0 <= x < 0x100
  /** uint16_t */
  type u16 = x: int | 0 <= x < 0x1_0000

  /** The 8-byte setup packet, little-endian fields already assembled. */
  datatype SetupPacket = SetupPacket(
    bmRequestType: byte,
    bRequest: byte,
    wValue: u16,
    wIndex: u16,
    wLength: u16)

  // bmRequestType type field (bits 6..5)
  const USB_REQ_TYPE_STANDARD := 0x00
  const USB_REQ_TYPE_CLASS := 0x20
  const USB_REQ_TYPE_VENDOR := 0x40
  const USB_REQ_TYPE_MASK := 0x60

  // bmRequestType recipient field (bits 4..0)
  const USB_REQ_RECIPIENT_DEVICE := 0x00
  const USB_REQ_RECIPIENT_INTERFACE := 0x01
  const USB_REQ_RECIPIENT_ENDPOINT := 0x02
  const USB_REQ_RECIPIENT_MASK := 0x1F

  // Standard request codes (USB 2.0, section 9.4)
  const USB_REQ_GET_STATUS := 0x00
  const USB_REQ_CLEAR_FEATURE := 0x01
  const USB_REQ_SET_FEATURE := 0x03
  const USB_REQ_SET_ADDRESS := 0x05
  const USB_REQ_GET_DESCRIPTOR := 0x06
  const USB_REQ_SET_DESCRIPTOR := 0x07
  const USB_REQ_GET_CONFIGURATION := 0x08
  const USB_REQ_SET_CONFIGURATION := 0x09
  const USB_REQ_GET_INTERFACE := 0x0A
  const USB_REQ_SET_INTERFACE := 0x0B
  const USB_REQ_SYNCH_FRAME := 0x0C

  // Descriptor types (high byte of wValue in GET_DESCRIPTOR)
  const USB_DESC_TYPE_DEVICE := 0x01
  const USB_DESC_TYPE_CONFIGURATION := 0x02
  const USB_DESC_TYPE_STRING := 0x03
  const USB_DESC_TYPE_INTERFACE := 0x04
  const USB_DESC_TYPE_ENDPOINT := 0x05

  /** LOBYTE(x): the byte that x agrees with modulo 256. */
  function LoByte(x: u16): (r: byte)
    ensures (x - r) % 0x100 == 0
  {
    x % 0x100
  }

  /** HIBYTE(x): the number of whole 256s in x. */
  function HiByte(x: u16): (r: byte)
    ensures 0x100 * r <= x < 0x100 * (r + 1)
  {
    x / 0x100
  }

  /** The 16-bit word whose bytes are lo and hi (the inverse of LoByte/HiByte). */
  function Word(lo: byte, hi: byte): (r: u16)
    ensures LoByte(r) == lo && HiByte(r) == hi
  {
    lo + 0x100 * hi
  }

  /** Splitting a word into its two bytes and joining them again gives it back. */
  lemma SplitJoin(x: u16)
    ensures Word(LoByte(x), HiByte(x)) == x
    ensures HiByte(x) * 0x100 + LoByte(x) == x
  {
  }

  /** MIN(a, b) */
  function Min(a: int, b: int): (r: int)
    ensures r <= a && r <= b
    ensures r == a || r == b
  {
    if a < b then a else b
  }

  /** MAX(a, b) */
  function Max(a: int, b: int): (r: int)
    ensures r >= a && r >= b
    ensures r == a || r == b
  {
    if a > b then a else b
  }

  lemma MinMaxSymmetric(a: int, b: int)
    ensures Min(a, b) == Min(b, a)
    ensures Max(a, b) == Max(b, a)
  {
  }

  /**
    bmRequestType & USB_REQ_TYPE_MASK. The mask keeps bits 6 and 5, which is
    the value modulo 0x80 with bits 4..0 taken away.
   */
  function RequestType(bm: byte): (r: byte)
    ensures r == 0x00 || r == 0x20 || r == 0x40 || r == 0x60
  {
    bm % 0x80 - bm % 0x20
  }

  /** bmRequestType & USB_REQ_RECIPIENT_MASK: bits 4..0. */
  function Recipient(bm: byte): (r: byte)
    ensures r < 0x20
    ensures (bm - r) % 0x20 == 0
  {
    bm % 0x20
  }

  /**
    The type mask 0x60 and the recipient mask 0x1F select disjoint bits: for a
    request type built from any direction bit, any type field and any recipient
    field, the two extractions give back exactly the type and the recipient.
   */
  lemma {:induction false} MasksIndependent(direction: int, kind: int, recipient: int)
    requires direction == 0 || direction == 0x80
    requires 0 <= kind < 4 && 0 <= recipient < 0x20
    ensures RequestType(direction + kind * 0x20 + recipient) == kind * 0x20
    ensures Recipient(direction + kind * 0x20 + recipient) == recipient
    ensures RequestType(direction + kind * 0x20 + recipient) in
              {USB_REQ_TYPE_STANDARD, USB_REQ_TYPE_CLASS, USB_REQ_TYPE_VENDOR, USB_REQ_TYPE_MASK}
  {
    var bm := direction + kind * 0x20 + recipient;
    assert bm % 0x80 == kind * 0x20 + recipient;
    assert bm % 0x20 == recipient;
  }
}
