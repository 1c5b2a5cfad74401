/**
  The standard control-request dispatcher of Core/Src/usbd_core.c
  (HAL_PCD_SetupStageCallback). Given a setup packet and the device handle it
  decides the single EP0 action -- a transmit of some bytes, or the stall at
  the end of the function -- and the updated handle.

  The handle of Core/Inc/usbd_core.h has only `configuration` and
  `alt_settings`, but the dispatcher stores the address it is given in
  `hdev->address`; the model's handle has that field too.
 */
module CoreDispatch {
  import opened UsbTypes

  const USB_DEV_MAX_INTERFACES := 2
  const USB_MAX_STRING_DESCRIPTORS := 4
  /** sizeof(DeviceDescriptor) and sizeof(ConfigDescriptor) in Core/Src/usbd_desc.c */
  const DEVICE_DESCRIPTOR_SIZE := 18
  const CONFIG_DESCRIPTOR_SIZE := 118

  datatype Handle = Handle(address: byte, configuration: byte, altSettings: seq<byte>)

  /** alt_settings[USB_DEV_MAX_INTERFACES] */
  predicate ValidHandle(h: Handle)
  {
    |h.altSettings| == USB_DEV_MAX_INTERFACES
  }

  /**
    The descriptor tables the dispatcher sends from. StringDescriptorPtr and
    StringDescriptorLen are declared but not defined in the code this model
    covers; `strings[i]` stands for the first StringDescriptorLen[i] bytes at
    StringDescriptorPtr[i].
   */
  datatype Descriptors = Descriptors(device: seq<byte>, config: seq<byte>, strings: seq<seq<byte>>)

  predicate ValidDescriptors(d: Descriptors)
  {
    && |d.device| == DEVICE_DESCRIPTOR_SIZE
    && |d.config| == CONFIG_DESCRIPTOR_SIZE
    && |d.strings| == USB_MAX_STRING_DESCRIPTORS
    && forall i :: 0 <= i < |d.strings| ==> |d.strings[i]| < 0x1_0000
  }

  /** The one thing that happens on EP0 for a setup packet. */
  datatype Action = Transmit(data: seq<byte>) | Stall

  /** The requests that answer with a zero-length or two-zero-byte reply for these recipients. */
  predicate StatusRecipient(recipient: byte)
  {
    // The middle case label of the source is USB_REQ_SET_INTERFACE (0x0B), not a recipient code.
    recipient == USB_REQ_RECIPIENT_DEVICE || recipient == USB_REQ_SET_INTERFACE
    || recipient == USB_REQ_RECIPIENT_ENDPOINT
  }

  /** The first MIN(wLength, |desc|) bytes of a descriptor. */
  function Reply(desc: seq<byte>, wLength: u16): (r: seq<byte>)
    ensures |r| == Min(wLength, |desc|) && r == desc[..|r|]
  {
    desc[..Min(wLength, |desc|)]
  }

  function GetDescriptor(req: SetupPacket, d: Descriptors): Action
    requires ValidDescriptors(d)
  {
    if Recipient(req.bmRequestType) != USB_REQ_RECIPIENT_DEVICE then Stall
    else if HiByte(req.wValue) == USB_DESC_TYPE_DEVICE then Transmit(Reply(d.device, req.wLength))
    else if HiByte(req.wValue) == USB_DESC_TYPE_CONFIGURATION then
      (if LoByte(req.wValue) == 1 then Transmit(Reply(d.config, req.wLength)) else Stall)
    else if HiByte(req.wValue) == USB_DESC_TYPE_STRING then
      (if LoByte(req.wValue) < USB_MAX_STRING_DESCRIPTORS
       then Transmit(Reply(d.strings[LoByte(req.wValue)], req.wLength))
       else Stall)
    else Stall
  }

  /** The standard-request branch (type bits 00). */
  function StandardRequest(req: SetupPacket, h: Handle, d: Descriptors): (Action, Handle)
    requires ValidHandle(h) && ValidDescriptors(d)
  {
    var recipient := Recipient(req.bmRequestType);
    match req.bRequest
    case 0x00 => // GET_STATUS
      (if StatusRecipient(recipient) then Transmit([0, 0]) else Stall, h)
    case 0x01 => // CLEAR_FEATURE
      (if StatusRecipient(recipient) then Transmit([]) else Stall, h)
    case 0x03 => // SET_FEATURE
      (if StatusRecipient(recipient) then Transmit([]) else Stall, h)
    case 0x05 => // SET_ADDRESS
      if recipient == USB_REQ_RECIPIENT_DEVICE && req.wValue <= 127 && req.wIndex == 0 && req.wLength == 0
      then (Transmit([]), h.(address := req.wValue))
      else (Stall, h)
    case 0x06 => // GET_DESCRIPTOR
      (GetDescriptor(req, d), h)
    case 0x08 => // GET_CONFIGURATION
      if req.wValue == 0 && req.wIndex == 0 && req.wLength == 1
      then (Transmit([h.configuration]), h)
      else (Stall, h)
    case 0x09 => // SET_CONFIGURATION
      if HiByte(req.wValue) == 0 && req.wIndex == 0 && req.wLength == 1
      then (Transmit([]), h.(configuration := LoByte(req.wValue)))
      else (Stall, h)
    case 0x0A => // GET_INTERFACE
      if req.wValue == 0 && req.wLength == 1 && req.wIndex < USB_DEV_MAX_INTERFACES
      then (Transmit([h.altSettings[req.wIndex]]), h)
      else (Stall, h)
    case 0x0B => // SET_INTERFACE
      if req.wLength == 0 && req.wIndex < USB_DEV_MAX_INTERFACES
      then (Transmit([]), h.(altSettings := h.altSettings[req.wIndex := LoByte(req.wValue)]))
      else (Stall, h)
    case _ => // SET_DESCRIPTOR, SYNCH_FRAME and every other code
      (Stall, h)
  }

  /**
    HAL_PCD_SetupStageCallback: one setup packet, one EP0 action and the new
    handle.
   */
  function SetupStage(req: SetupPacket, h: Handle, d: Descriptors): (r: (Action, Handle))
    requires ValidHandle(h) && ValidDescriptors(d)
    ensures ValidHandle(r.1)
    // Only a standard request can be answered; class, vendor and reserved types stall.
    ensures RequestType(req.bmRequestType) != USB_REQ_TYPE_STANDARD ==> r == (Stall, h)
    // Only SET_ADDRESS, SET_CONFIGURATION and SET_INTERFACE touch the handle, each its own field.
    ensures r.1.address != h.address ==> req.bRequest == USB_REQ_SET_ADDRESS
    ensures r.1.configuration != h.configuration ==> req.bRequest == USB_REQ_SET_CONFIGURATION
    ensures r.1.altSettings != h.altSettings ==> req.bRequest == USB_REQ_SET_INTERFACE
    ensures r.0 == Stall ==> r.1 == h
    // SET_DESCRIPTOR and SYNCH_FRAME are never supported.
    ensures req.bRequest in {USB_REQ_SET_DESCRIPTOR, USB_REQ_SYNCH_FRAME} ==> r == (Stall, h)
    // A reply never carries more bytes than the host asked for, except the fixed two-byte status.
    ensures r.0.Transmit? && req.bRequest != USB_REQ_GET_STATUS ==> |r.0.data| <= req.wLength
  {
    if RequestType(req.bmRequestType) == USB_REQ_TYPE_STANDARD then StandardRequest(req, h, d)
    else (Stall, h)
  }

  /** A standard request: type bits 00. */
  predicate IsStandard(req: SetupPacket)
  {
    RequestType(req.bmRequestType) == USB_REQ_TYPE_STANDARD
  }

  /**
    SET_ADDRESS is answered with a zero-length reply exactly when it is sent to
    the device with an address of at most 127, wIndex 0 and wLength 0; the
    address is then stored, and otherwise the request stalls.
   */
  lemma SetAddressRule(req: SetupPacket, h: Handle, d: Descriptors)
    requires ValidHandle(h) && ValidDescriptors(d)
    requires IsStandard(req) && req.bRequest == USB_REQ_SET_ADDRESS
    ensures var r := SetupStage(req, h, d);
      if Recipient(req.bmRequestType) == USB_REQ_RECIPIENT_DEVICE && req.wValue <= 127
         && req.wIndex == 0 && req.wLength == 0
      then r == (Transmit([]), h.(address := req.wValue))
      else r == (Stall, h)
  {
  }

  /**
    GET_DESCRIPTOR to the device replies with MIN(wLength, size) bytes of the
    device descriptor (18 bytes), of configuration 1 (118 bytes) or of string
    descriptor 0..3; any other type or index stalls.
   */
  lemma GetDescriptorRule(req: SetupPacket, h: Handle, d: Descriptors)
    requires ValidHandle(h) && ValidDescriptors(d)
    requires IsStandard(req) && req.bRequest == USB_REQ_GET_DESCRIPTOR
    ensures var r := SetupStage(req, h, d);
      && r.1 == h
      && (r.0.Transmit? <==>
            Recipient(req.bmRequestType) == USB_REQ_RECIPIENT_DEVICE
            && (HiByte(req.wValue) == USB_DESC_TYPE_DEVICE
                || (HiByte(req.wValue) == USB_DESC_TYPE_CONFIGURATION && LoByte(req.wValue) == 1)
                || (HiByte(req.wValue) == USB_DESC_TYPE_STRING && LoByte(req.wValue) < USB_MAX_STRING_DESCRIPTORS)))
      && (r.0.Transmit? && HiByte(req.wValue) == USB_DESC_TYPE_DEVICE ==>
            |r.0.data| == Min(req.wLength, DEVICE_DESCRIPTOR_SIZE) && r.0.data == d.device[..|r.0.data|])
      && (r.0.Transmit? && HiByte(req.wValue) == USB_DESC_TYPE_CONFIGURATION ==>
            |r.0.data| == Min(req.wLength, CONFIG_DESCRIPTOR_SIZE) && r.0.data == d.config[..|r.0.data|])
      && (r.0.Transmit? && HiByte(req.wValue) == USB_DESC_TYPE_STRING ==>
            |r.0.data| == Min(req.wLength, |d.strings[LoByte(req.wValue)]|)
            && r.0.data == d.strings[LoByte(req.wValue)][..|r.0.data|])
  {
    assert SetupStage(req, h, d) == (GetDescriptor(req, d), h);
  }

  /**
    GET_STATUS answers two zero bytes, CLEAR_FEATURE and SET_FEATURE a
    zero-length reply, for recipient codes 0, 0x0B and 2 only; none of them
    changes the handle.
   */
  lemma StatusFeatureRule(req: SetupPacket, h: Handle, d: Descriptors)
    requires ValidHandle(h) && ValidDescriptors(d)
    requires IsStandard(req)
    requires req.bRequest in {USB_REQ_GET_STATUS, USB_REQ_CLEAR_FEATURE, USB_REQ_SET_FEATURE}
    ensures var r := SetupStage(req, h, d);
      && r.1 == h
      && (r.0.Transmit? <==> Recipient(req.bmRequestType) in {0x00, 0x0B, 0x02})
      && (r.0.Transmit? ==> r.0.data == if req.bRequest == USB_REQ_GET_STATUS then [0, 0] else [])
  {
  }

  /**
    SET_CONFIGURATION with high byte 0, wIndex 0 and wLength 1 stores the low
    byte, and a following GET_CONFIGURATION (wValue 0, wIndex 0, wLength 1)
    sends back that byte.
   */
  lemma SetThenGetConfiguration(setReq: SetupPacket, getReq: SetupPacket, h: Handle, d: Descriptors)
    requires ValidHandle(h) && ValidDescriptors(d)
    requires IsStandard(setReq) && setReq.bRequest == USB_REQ_SET_CONFIGURATION
    requires HiByte(setReq.wValue) == 0 && setReq.wIndex == 0 && setReq.wLength == 1
    requires IsStandard(getReq) && getReq.bRequest == USB_REQ_GET_CONFIGURATION
    requires getReq.wValue == 0 && getReq.wIndex == 0 && getReq.wLength == 1
    ensures var r := SetupStage(setReq, h, d);
      && r == (Transmit([]), h.(configuration := LoByte(setReq.wValue)))
      && SetupStage(getReq, r.1, d) == (Transmit([LoByte(setReq.wValue)]), r.1)
  {
  }

  /**
    SET_INTERFACE (wLength 0) for interface 0 or 1 stores (uint8_t)wValue as
    that interface's alternate setting and a following GET_INTERFACE (wValue
    0, wLength 1) for the same interface sends it back; an interface number
    of 2 or more is refused by both, so alt_settings is never indexed out of
    bounds.
   */
  lemma SetThenGetInterface(setReq: SetupPacket, getReq: SetupPacket, h: Handle, d: Descriptors)
    requires ValidHandle(h) && ValidDescriptors(d)
    requires IsStandard(setReq) && setReq.bRequest == USB_REQ_SET_INTERFACE && setReq.wLength == 0
    requires IsStandard(getReq) && getReq.bRequest == USB_REQ_GET_INTERFACE
    requires getReq.wValue == 0 && getReq.wLength == 1 && getReq.wIndex == setReq.wIndex
    ensures setReq.wIndex >= USB_DEV_MAX_INTERFACES ==>
      SetupStage(setReq, h, d) == (Stall, h) && SetupStage(getReq, h, d) == (Stall, h)
    ensures setReq.wIndex < USB_DEV_MAX_INTERFACES ==>
      var r := SetupStage(setReq, h, d);
      && r.0 == Transmit([])
      && r.1.altSettings[setReq.wIndex] == LoByte(setReq.wValue)
      && SetupStage(getReq, r.1, d) == (Transmit([LoByte(setReq.wValue)]), r.1)
  {
  }

  // ---------------------------------------------------------------------------
  // Findings: two rules of the dispatcher that depart from USB 2.0.

  /**
    As written, GET_STATUS addressed to an interface (bmRequestType 0x81, say)
    stalls, while the same request with the reserved recipient code 0x0B is
    answered, because the middle case label is a request code.
   */
  lemma InterfaceStatusStalls(req: SetupPacket, h: Handle, d: Descriptors)
    requires ValidHandle(h) && ValidDescriptors(d)
    requires IsStandard(req) && req.bRequest == USB_REQ_GET_STATUS
    ensures Recipient(req.bmRequestType) == USB_REQ_RECIPIENT_INTERFACE ==> SetupStage(req, h, d) == (Stall, h)
    ensures Recipient(req.bmRequestType) == 0x0B ==> SetupStage(req, h, d) == (Transmit([0, 0]), h)
  {
  }

  /**
    As written, the SET_CONFIGURATION that a host sends (wLength 0, as section
    9.4.7 of USB 2.0 specifies) stalls and leaves the configuration unset.
   */
  lemma StandardSetConfigurationStalls(req: SetupPacket, h: Handle, d: Descriptors)
    requires ValidHandle(h) && ValidDescriptors(d)
    requires IsStandard(req) && req.bRequest == USB_REQ_SET_CONFIGURATION && req.wLength == 0
    ensures SetupStage(req, h, d) == (Stall, h)
  {
  }

  /** Recipients of section 9.4 of USB 2.0: device, interface, endpoint. */
  predicate StandardRecipient(recipient: byte)
  {
    recipient == USB_REQ_RECIPIENT_DEVICE || recipient == USB_REQ_RECIPIENT_INTERFACE
    || recipient == USB_REQ_RECIPIENT_ENDPOINT
  }

  /**
    The dispatcher with both corrections: GET_STATUS, CLEAR_FEATURE and
    SET_FEATURE take the interface recipient (1) in place of the code 0x0B, and
    SET_CONFIGURATION takes wLength 0. Every other request is decided as the
    code decides it.
   */
  function SetupStageIntended(req: SetupPacket, h: Handle, d: Descriptors): (r: (Action, Handle))
    requires ValidHandle(h) && ValidDescriptors(d)
    ensures ValidHandle(r.1)
    // GET_STATUS is answered for every recipient USB 2.0 defines, and only for those.
    ensures IsStandard(req) && req.bRequest == USB_REQ_GET_STATUS ==>
      r == (if StandardRecipient(Recipient(req.bmRequestType)) then Transmit([0, 0]) else Stall, h)
    // CLEAR_FEATURE and SET_FEATURE take the same recipients, with a zero-length reply.
    ensures IsStandard(req) && req.bRequest in {USB_REQ_CLEAR_FEATURE, USB_REQ_SET_FEATURE} ==>
      r == (if StandardRecipient(Recipient(req.bmRequestType)) then Transmit([]) else Stall, h)
    // A SET_CONFIGURATION as USB 2.0 shapes it stores the configuration value ...
    ensures IsStandard(req) && req.bRequest == USB_REQ_SET_CONFIGURATION ==>
      r == if HiByte(req.wValue) == 0 && req.wIndex == 0 && req.wLength == 0
           then (Transmit([]), h.(configuration := LoByte(req.wValue)))
           else (Stall, h)
    // ... and the requests that were right before are decided as before.
    ensures !(IsStandard(req) && req.bRequest in
              {USB_REQ_GET_STATUS, USB_REQ_CLEAR_FEATURE, USB_REQ_SET_FEATURE, USB_REQ_SET_CONFIGURATION})
            ==> r == SetupStage(req, h, d)
  {
    if IsStandard(req) && req.bRequest in {USB_REQ_GET_STATUS, USB_REQ_CLEAR_FEATURE, USB_REQ_SET_FEATURE} then
      if StandardRecipient(Recipient(req.bmRequestType))
      then (Transmit(if req.bRequest == USB_REQ_GET_STATUS then [0, 0] else []), h)
      else (Stall, h)
    else if IsStandard(req) && req.bRequest == USB_REQ_SET_CONFIGURATION then
      if HiByte(req.wValue) == 0 && req.wIndex == 0 && req.wLength == 0
      then (Transmit([]), h.(configuration := LoByte(req.wValue)))
      else (Stall, h)
    else
      SetupStage(req, h, d)
  }

  /**
    With the corrections, a standard SET_CONFIGURATION(c) with wLength 0 is
    accepted, and a following GET_CONFIGURATION returns c.
   */
  lemma IntendedConfigurationWorks(c: byte, h: Handle, d: Descriptors)
    requires ValidHandle(h) && ValidDescriptors(d)
    ensures var r := SetupStageIntended(SetupPacket(0x00, USB_REQ_SET_CONFIGURATION, c, 0, 0), h, d);
      && r.0 == Transmit([])
      && SetupStageIntended(SetupPacket(0x80, USB_REQ_GET_CONFIGURATION, 0, 0, 1), r.1, d).0 == Transmit([c])
  {
    var setReq := SetupPacket(0x00, USB_REQ_SET_CONFIGURATION, c, 0, 0);
    assert IsStandard(setReq) && HiByte(c) == 0 && LoByte(c) == c;
    var h2 := h.(configuration := c);
    assert SetupStageIntended(setReq, h, d) == (Transmit([]), h2);
    var getReq := SetupPacket(0x80, USB_REQ_GET_CONFIGURATION, 0, 0, 1);
    assert IsStandard(getReq);
    assert SetupStageIntended(getReq, h2, d) == SetupStage(getReq, h2, d);
  }

  /** With the corrections, a GET_STATUS to interface 0 is answered with two zero bytes. */
  lemma IntendedInterfaceStatusWorks(h: Handle, d: Descriptors)
    requires ValidHandle(h) && ValidDescriptors(d)
    ensures SetupStageIntended(SetupPacket(0x81, USB_REQ_GET_STATUS, 0, 0, 2), h, d) == (Transmit([0, 0]), h)
  {
    assert IsStandard(SetupPacket(0x81, USB_REQ_GET_STATUS, 0, 0, 2));
    assert Recipient(0x81) == USB_REQ_RECIPIENT_INTERFACE;
  }
}
