/**
  The earlier control-request dispatcher of Core/Src/usbd.c. It has the same
  nested-switch shape as the one of Core/Src/usbd_core.c, but keeps a
  Default/Address/Configured state and a device address, answers several
  requests with empty or length-only transmits, and never stalls: a request it
  does not handle simply gets no EP0 action at all.
 */
module DraftDispatch {
  import opened UsbTypes

  const USB_DEV_STATE_DEFAULT := 0x00
  const USB_DEV_STATE_ADDRESS := 0x01
  const USB_DEV_STATE_CONFIGURED := 0x02

  /** USB_HandleTypeDef: uint8_t state, uint8_t dev_addr. */
  datatype Handle = Handle(state: byte, devAddr: byte)

  /** The state byte holds one of the three USB_DEV_STATE_* values. */
  predicate ValidState(h: Handle)
  {
    h.state in {USB_DEV_STATE_DEFAULT, USB_DEV_STATE_ADDRESS, USB_DEV_STATE_CONFIGURED}
  }

  /**
    What happens on EP0. `TransmitUnbacked(n)` is HAL_PCD_EP_Transmit with a
    NULL buffer and a length n that is not zero; `NoAction` is falling off the
    end of the function without a transmit or a stall.
   */
  datatype Action = Transmit(data: seq<byte>) | TransmitUnbacked(len: nat) | NoAction

  predicate StatusRecipient(recipient: byte)
  {
    // As in usbd_core.c, the middle case label is USB_REQ_SET_INTERFACE (0x0B).
    recipient == USB_REQ_RECIPIENT_DEVICE || recipient == USB_REQ_SET_INTERFACE
    || recipient == USB_REQ_RECIPIENT_ENDPOINT
  }

  /**
    GET_DESCRIPTOR: every descriptor it recognises is "sent" from a NULL buffer
    with length MIN(wLength, 0), which is a zero-length reply.
   */
  function GetDescriptor(req: SetupPacket): Action
  {
    var kind := HiByte(req.wValue);
    var index := LoByte(req.wValue);
    if Recipient(req.bmRequestType) != USB_REQ_RECIPIENT_DEVICE then NoAction
    else if kind == USB_DESC_TYPE_DEVICE then Transmit([])
    else if kind == USB_DESC_TYPE_CONFIGURATION && index == 1 then Transmit([])
    else if kind == USB_DESC_TYPE_STRING && index == 0 then Transmit([])  // language codes
    else if kind == USB_DESC_TYPE_STRING && index <= 3 then Transmit([])
    else NoAction
  }

  function StandardRequest(req: SetupPacket, h: Handle): (Action, Handle)
  {
    var recipient := Recipient(req.bmRequestType);
    match req.bRequest
    case 0x00 => // GET_STATUS
      (if StatusRecipient(recipient) then Transmit([0, 0]) else NoAction, h)
    case 0x01 => // CLEAR_FEATURE
      (if StatusRecipient(recipient) then Transmit([]) else NoAction, h)
    case 0x03 => // SET_FEATURE
      (if StatusRecipient(recipient) then Transmit([]) else NoAction, h)
    case 0x05 => // SET_ADDRESS
      if recipient == USB_REQ_RECIPIENT_DEVICE && req.wValue <= 127 && req.wValue == 0 && req.wLength == 0
      then (Transmit([]), Handle(USB_DEV_STATE_ADDRESS, req.wValue))
      else (NoAction, h)
    case 0x06 => // GET_DESCRIPTOR
      (GetDescriptor(req), h)
    case 0x08 => // GET_CONFIGURATION
      if req.wValue == 0 && req.wIndex == 0 && req.wLength == 1
      then (Transmit([if h.state == USB_DEV_STATE_CONFIGURED then 1 else 0]), h)
      else (NoAction, h)
    case 0x09 => // SET_CONFIGURATION
      if HiByte(req.wValue) == 0 && req.wIndex == 0 && req.wLength == 1
      then (TransmitUnbacked(1),
            h.(state := if LoByte(req.wValue) == 0 then USB_DEV_STATE_ADDRESS else USB_DEV_STATE_CONFIGURED))
      else (NoAction, h)
    case _ => // SET_DESCRIPTOR, GET_INTERFACE, SET_INTERFACE, SYNCH_FRAME, others
      (NoAction, h)
  }

  /** HAL_PCD_SetupStageCallback of usbd.c. */
  function SetupStage(req: SetupPacket, h: Handle): (r: (Action, Handle))
    // The state stays one of the three values.
    ensures ValidState(h) ==> ValidState(r.1)
    // Only SET_ADDRESS and SET_CONFIGURATION change the state; only SET_ADDRESS the address.
    ensures r.1.state != h.state ==>
      req.bRequest in {USB_REQ_SET_ADDRESS, USB_REQ_SET_CONFIGURATION}
    ensures r.1.devAddr != h.devAddr ==> req.bRequest == USB_REQ_SET_ADDRESS
    // Class, vendor and reserved request types are ignored.
    ensures RequestType(req.bmRequestType) != USB_REQ_TYPE_STANDARD ==> r == (NoAction, h)
    // Nothing is ever answered for these requests, and nothing changes.
    ensures (req.bRequest in {USB_REQ_SET_DESCRIPTOR, USB_REQ_GET_INTERFACE, USB_REQ_SET_INTERFACE,
                              USB_REQ_SYNCH_FRAME}) ==> r == (NoAction, h)
    // Every transmit this dispatcher makes carries at most two bytes.
    ensures r.0.Transmit? ==> |r.0.data| <= 2
    ensures r.0 == NoAction ==> r.1 == h
  {
    if RequestType(req.bmRequestType) == USB_REQ_TYPE_STANDARD then StandardRequest(req, h)
    else (NoAction, h)
  }

  predicate IsStandard(req: SetupPacket)
  {
    RequestType(req.bmRequestType) == USB_REQ_TYPE_STANDARD
  }

  /**
    SET_ADDRESS is acted on only for the device recipient with wValue 0 and
    wLength 0 (wIndex is not looked at); it then sets the address to 0 and the
    state to ADDRESS and replies with zero length. Any other SET_ADDRESS gets
    no action.
   */
  lemma SetAddressRule(req: SetupPacket, h: Handle)
    requires IsStandard(req) && req.bRequest == USB_REQ_SET_ADDRESS
    ensures var r := SetupStage(req, h);
      if Recipient(req.bmRequestType) == USB_REQ_RECIPIENT_DEVICE && req.wValue == 0 && req.wLength == 0
      then r == (Transmit([]), Handle(USB_DEV_STATE_ADDRESS, 0))
      else r == (NoAction, h)
  {
  }

  /**
    GET_DESCRIPTOR answers a zero-length reply for the device descriptor,
    configuration index 1 and string indexes 0..3, and nothing otherwise.
   */
  lemma GetDescriptorRule(req: SetupPacket, h: Handle)
    requires IsStandard(req) && req.bRequest == USB_REQ_GET_DESCRIPTOR
    ensures var r := SetupStage(req, h);
      && r.1 == h
      && (r.0 != NoAction ==> r.0 == Transmit([]))
      && (r.0 == Transmit([]) <==>
            Recipient(req.bmRequestType) == USB_REQ_RECIPIENT_DEVICE
            && (HiByte(req.wValue) == USB_DESC_TYPE_DEVICE
                || (HiByte(req.wValue) == USB_DESC_TYPE_CONFIGURATION && LoByte(req.wValue) == 1)
                || (HiByte(req.wValue) == USB_DESC_TYPE_STRING && LoByte(req.wValue) <= 3)))
  {
  }

  /**
    SET_CONFIGURATION (high byte 0, wIndex 0, wLength 1) moves to ADDRESS for
    configuration 0 and to CONFIGURED otherwise, and a following
    GET_CONFIGURATION reports 1 exactly when the device is CONFIGURED.
   */
  lemma SetThenGetConfiguration(setReq: SetupPacket, getReq: SetupPacket, h: Handle)
    requires IsStandard(setReq) && setReq.bRequest == USB_REQ_SET_CONFIGURATION
    requires HiByte(setReq.wValue) == 0 && setReq.wIndex == 0 && setReq.wLength == 1
    requires IsStandard(getReq) && getReq.bRequest == USB_REQ_GET_CONFIGURATION
    requires getReq.wValue == 0 && getReq.wIndex == 0 && getReq.wLength == 1
    ensures var r := SetupStage(setReq, h);
      && r.1.state == (if LoByte(setReq.wValue) == 0 then USB_DEV_STATE_ADDRESS else USB_DEV_STATE_CONFIGURED)
      && r.1.devAddr == h.devAddr
      && SetupStage(getReq, r.1).0 == Transmit([if LoByte(setReq.wValue) == 0 then 0 else 1])
  {
  }

  // ---------------------------------------------------------------------------
  // Finding: SET_ADDRESS compares wValue with 0 where usbd_core.c compares wIndex.

  /**
    As written, a host's SET_ADDRESS to any nonzero address (5, say) gets no
    reply at all and leaves the device in its state.
   */
  lemma NonzeroAddressIgnored(req: SetupPacket, h: Handle)
    requires IsStandard(req) && req.bRequest == USB_REQ_SET_ADDRESS && req.wValue != 0
    ensures SetupStage(req, h) == (NoAction, h)
  {
  }

  /**
    SET_ADDRESS with the condition the draft evidently meant: wIndex == 0 in
    place of the second wValue test. Every other request is decided as before.
   */
  function SetupStageIntended(req: SetupPacket, h: Handle): (r: (Action, Handle))
    ensures ValidState(h) ==> ValidState(r.1)
    // Any address of at most 127 sent to the device with wIndex 0 and wLength 0 is taken.
    ensures IsStandard(req) && req.bRequest == USB_REQ_SET_ADDRESS
            && Recipient(req.bmRequestType) == USB_REQ_RECIPIENT_DEVICE
            && req.wValue <= 127 && req.wIndex == 0 && req.wLength == 0
            ==> r == (Transmit([]), Handle(USB_DEV_STATE_ADDRESS, req.wValue))
    ensures !(IsStandard(req) && req.bRequest == USB_REQ_SET_ADDRESS) ==> r == SetupStage(req, h)
  {
    if IsStandard(req) && req.bRequest == USB_REQ_SET_ADDRESS then
      if Recipient(req.bmRequestType) == USB_REQ_RECIPIENT_DEVICE
         && req.wValue <= 127 && req.wIndex == 0 && req.wLength == 0
      then (Transmit([]), Handle(USB_DEV_STATE_ADDRESS, req.wValue))
      else (NoAction, h)
    else
      SetupStage(req, h)
  }
}
