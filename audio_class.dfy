/**
  The audio streaming class of USB/Src/usbd_audio.c: the handle
  USBD_AUDIO_HandleTypeDef as a class whose fields the callbacks update in
  place. Calls into the HAL and the device library are returned as a list of
  effects in the order the source makes them; the DMA counter NDTR, the frame
  number and the received packet size are inputs.
 */
module AudioClass {
  import opened UsbTypes
  import opened AudioConfig
  import opened AudioVolume
  import opened AudioFeedback
  import opened AudioRing

  /** A call the class makes into the HAL or the low-level driver. */
  datatype Effect =
    | OpenEndpoint(ep: byte, maxPacket: nat)          // USBD_LL_OpenEP, isochronous
    | CloseEndpoint(ep: byte)                         // USBD_LL_CloseEP
    | FlushEndpoint(ep: byte)                         // USBD_LL_FlushEP
    | PrepareReceive(ep: byte, offset: nat, len: nat) // USBD_LL_PrepareReceive into &buffer[offset]
    | TransmitFeedback(ep: byte, data: seq<byte>)     // USBD_LL_Transmit of the feedback value
    | StartI2s(halfWords: nat)                        // HAL_I2S_Transmit_DMA(&hi2s2, buffer, halfWords)
    | StopI2s                                         // HAL_I2S_DMAStop(&hi2s2)
    | WriteSdMode(high: bool)                         // HAL_GPIO_WritePin(SD_MODE), amplifier on when high

  /** How Setup ends on EP0. */
  datatype Reply =
    | SendData(data: seq<byte>) // USBD_CtlSendData
    | PrepareRx(len: nat)       // USBD_CtlPrepareRx into setup_data
    | Ack                       // USBD_OK without a data stage
    | Stall                     // USBD_CtlError

  /** (bmRequest & 0x7F) == 0x21: a class request to an interface, in either direction. */
  predicate IsClassInterface(req: SetupPacket)
  {
    req.bmRequestType % 0x80 == 0x21
  }

  /** (bmRequest & 0x60) == 0: a standard request, any recipient. */
  predicate IsStandardRequest(req: SetupPacket)
  {
    RequestType(req.bmRequestType) == USB_REQ_TYPE_STANDARD
  }

  /** The Feature Unit control selector, HIBYTE(wValue). */
  function Selector(req: SetupPacket): byte
  {
    HiByte(req.wValue)
  }

  predicate IsSetCurMute(req: SetupPacket)
  {
    IsClassInterface(req) && req.bRequest == AUDIO_REQ_SET_CUR && Selector(req) == AUDIO_CONTROL_MUTE
  }

  predicate IsSetCurVolume(req: SetupPacket)
  {
    IsClassInterface(req) && req.bRequest == AUDIO_REQ_SET_CUR && Selector(req) == AUDIO_CONTROL_VOLUME
  }

  /** SET_INTERFACE that Setup acts on: Configured state and an alternate setting of at most 1. */
  predicate AcceptsSetInterface(req: SetupPacket, configured: bool)
  {
    IsStandardRequest(req) && req.bRequest == USB_REQ_SET_INTERFACE && configured
    && LoByte(req.wValue) <= USBD_MAX_NUM_INTERFACES
  }

  /** The one request that stops playback: an accepted SET_INTERFACE to alternate setting 0. */
  predicate StopsPlay(req: SetupPacket, configured: bool)
  {
    AcceptsSetInterface(req, configured) && LoByte(req.wValue) == 0
  }

  /** What USBD_FindDesc hands back: nothing (NULL), or a descriptor whose bLength it holds. */
  predicate FoundDescriptor(desc: seq<byte>)
  {
    desc == [] || desc[0] <= |desc|
  }

  /**
    The requests Setup answers without USBD_CtlError: Mute and Volume SET_CUR
    and GET_CUR, Volume GET_MIN/GET_MAX/GET_RES, and among standard requests
    GET_STATUS and GET_INTERFACE when configured, CLEAR_FEATURE, GET_DESCRIPTOR
    unless it asks for an interface descriptor that is not found, and an
    accepted SET_INTERFACE.
   */
  predicate Supported(req: SetupPacket, configured: bool, acHeader: seq<byte>)
  {
    || (IsClassInterface(req) && req.bRequest in {AUDIO_REQ_SET_CUR, AUDIO_REQ_GET_CUR}
        && Selector(req) in {AUDIO_CONTROL_MUTE, AUDIO_CONTROL_VOLUME})
    || (IsClassInterface(req) && req.bRequest in {AUDIO_REQ_GET_MIN, AUDIO_REQ_GET_MAX, AUDIO_REQ_GET_RES}
        && Selector(req) == AUDIO_CONTROL_VOLUME)
    || (IsStandardRequest(req) && req.bRequest == USB_REQ_GET_STATUS && configured)
    || (IsStandardRequest(req) && req.bRequest == USB_REQ_CLEAR_FEATURE)
    || (IsStandardRequest(req) && req.bRequest == USB_REQ_GET_DESCRIPTOR
        && (HiByte(req.wValue) != USB_DESC_TYPE_INTERFACE || acHeader != []))
    || (IsStandardRequest(req) && req.bRequest == USB_REQ_GET_INTERFACE && configured)
    || AcceptsSetInterface(req, configured)
  }

  /**
    The EP0 outcome of USBD_AUDIO_Setup for a request, given whether the
    device is configured, the current mute, volume and alternate setting, and
    the class-specific AC header descriptor USBD_FindDesc returns.
   */
  function SetupReply(req: SetupPacket, configured: bool, mute: byte, volume: int16, altSetting: u32,
                      acHeader: seq<byte>): (r: Reply)
    requires FoundDescriptor(acHeader)
    // Exactly the supported requests escape the stall.
    ensures r != Stall <==> Supported(req, configured, acHeader)
    // Only SET_CUR opens a data stage, and it asks for the host's wLength bytes.
    ensures r.PrepareRx? <==> IsSetCurMute(req) || IsSetCurVolume(req)
    ensures r.PrepareRx? ==> r.len == req.wLength
    // GET_CUR reports the current mute byte and the current volume.
    ensures IsClassInterface(req) && req.bRequest == AUDIO_REQ_GET_CUR && Selector(req) == AUDIO_CONTROL_MUTE
            ==> r == SendData([mute])
    ensures IsClassInterface(req) && req.bRequest == AUDIO_REQ_GET_CUR && Selector(req) == AUDIO_CONTROL_VOLUME
            ==> r.SendData? && |r.data| == 2 && Int16FromBytes(r.data[0], r.data[1]) == volume
    // Every reply but a descriptor is at most two bytes; a descriptor is at most wLength bytes.
    ensures r.SendData? && req.bRequest != USB_REQ_GET_DESCRIPTOR ==> 1 <= |r.data| <= 2
    ensures r.SendData? && req.bRequest == USB_REQ_GET_DESCRIPTOR ==> |r.data| <= req.wLength
  {
    if IsClassInterface(req) then
      if req.bRequest == AUDIO_REQ_SET_CUR && Selector(req) == AUDIO_CONTROL_MUTE then PrepareRx(req.wLength)
      else if req.bRequest == AUDIO_REQ_SET_CUR && Selector(req) == AUDIO_CONTROL_VOLUME then PrepareRx(req.wLength)
      else if req.bRequest == AUDIO_REQ_GET_CUR && Selector(req) == AUDIO_CONTROL_MUTE then SendData([mute])
      else if req.bRequest == AUDIO_REQ_GET_CUR && Selector(req) == AUDIO_CONTROL_VOLUME then SendData(Int16Bytes(volume))
      else if req.bRequest == AUDIO_REQ_GET_MIN && Selector(req) == AUDIO_CONTROL_VOLUME then
        SendData(Int16Bytes(USBD_AUDIO_VOL_MIN))
      else if req.bRequest == AUDIO_REQ_GET_MAX && Selector(req) == AUDIO_CONTROL_VOLUME then
        SendData(Int16Bytes(USBD_AUDIO_VOL_MAX))
      else if req.bRequest == AUDIO_REQ_GET_RES && Selector(req) == AUDIO_CONTROL_VOLUME then
        SendData(Int16Bytes(USBD_AUDIO_VOL_RES))
      else Stall
    else if IsStandardRequest(req) then
      if req.bRequest == USB_REQ_GET_STATUS then
        if configured then SendData([0, 0]) else Stall
      else if req.bRequest == USB_REQ_CLEAR_FEATURE then Ack
      else if req.bRequest == USB_REQ_GET_DESCRIPTOR then
        if HiByte(req.wValue) == USB_DESC_TYPE_INTERFACE then
          if acHeader != [] then SendData(acHeader[..Min(acHeader[0], req.wLength)]) else Stall
        else Ack
      else if req.bRequest == USB_REQ_GET_INTERFACE then
        if configured then SendData([altSetting % 0x100]) else Stall
      else if req.bRequest == USB_REQ_SET_INTERFACE then
        if configured && LoByte(req.wValue) <= USBD_MAX_NUM_INTERFACES then Ack else Stall
      else Stall
    else Stall
  }

  /**
    The volume range goes out as little-endian int16 values: GET_MIN gives
    00 A0 (-96 dB), GET_MAX gives 00 00 (0 dB) and GET_RES gives 00 03 (3 dB),
    whatever the current state.
   */
  lemma VolumeRangeReplies(req: SetupPacket, configured: bool, mute: byte, volume: int16, altSetting: u32,
                           acHeader: seq<byte>)
    requires FoundDescriptor(acHeader)
    requires IsClassInterface(req) && Selector(req) == AUDIO_CONTROL_VOLUME
    ensures req.bRequest == AUDIO_REQ_GET_MIN ==>
      SetupReply(req, configured, mute, volume, altSetting, acHeader) == SendData([0x00, 0xA0])
    ensures req.bRequest == AUDIO_REQ_GET_MAX ==>
      SetupReply(req, configured, mute, volume, altSetting, acHeader) == SendData([0x00, 0x00])
    ensures req.bRequest == AUDIO_REQ_GET_RES ==>
      SetupReply(req, configured, mute, volume, altSetting, acHeader) == SendData([0x00, 0x03])
  {
    VolumeRangeBytes();
  }

  /**
    The two bytes of a SET_CUR volume data stage, once EP0RxReady has stored
    them as the volume, come back unchanged from GET_CUR.
   */
  lemma VolumeRoundTrip(getReq: SetupPacket, configured: bool, mute: byte, lo: byte, hi: byte, altSetting: u32,
                        acHeader: seq<byte>)
    requires FoundDescriptor(acHeader)
    requires IsClassInterface(getReq) && getReq.bRequest == AUDIO_REQ_GET_CUR
    requires Selector(getReq) == AUDIO_CONTROL_VOLUME
    ensures SetupReply(getReq, configured, mute, Int16FromBytes(lo, hi), altSetting, acHeader) == SendData([lo, hi])
  {
    Int16BytesRoundTrip(lo, hi);
  }

  // ---------------------------------------------------------------------------
  // Finding: SET_CUR prepares a receive of wLength bytes into the 64-byte setup_data.

  /**
    As written, a SET_CUR with wLength above USB_MAX_EP0_SIZE (65, say) is
    accepted, and the data stage it opens is longer than setup_data.
   */
  lemma SetCurOverrunsSetupData(req: SetupPacket, configured: bool, mute: byte, volume: int16, altSetting: u32,
                                acHeader: seq<byte>)
    requires FoundDescriptor(acHeader)
    requires IsSetCurMute(req) || IsSetCurVolume(req)
    requires req.wLength > USB_MAX_EP0_SIZE
    ensures SetupReply(req, configured, mute, volume, altSetting, acHeader) == PrepareRx(req.wLength)
    ensures req.wLength > USB_MAX_EP0_SIZE
  {
  }

  /**
    SetupReply with the data stage bounded by the size of setup_data, as
    MIN(wLength, USB_MAX_EP0_SIZE); every other request is answered as before.
   */
  function SetupReplyIntended(req: SetupPacket, configured: bool, mute: byte, volume: int16, altSetting: u32,
                              acHeader: seq<byte>): (r: Reply)
    requires FoundDescriptor(acHeader)
    ensures r.PrepareRx? ==> r.len <= USB_MAX_EP0_SIZE && r.len <= req.wLength
    ensures r.PrepareRx? ==> r.len == Min(req.wLength, USB_MAX_EP0_SIZE)
    ensures r != Stall <==> Supported(req, configured, acHeader)
    ensures !(IsSetCurMute(req) || IsSetCurVolume(req)) ==>
      r == SetupReply(req, configured, mute, volume, altSetting, acHeader)
  {
    var r := SetupReply(req, configured, mute, volume, altSetting, acHeader);
    if r.PrepareRx? then PrepareRx(Min(req.wLength, USB_MAX_EP0_SIZE)) else r
  }

  /** USBD_AUDIO_HandleTypeDef. */
  class AudioHandle {
    var altSetting: u32
    /** AUDIO_TOTAL_BUF_SIZE bytes of ring plus one packet of slack. */
    const buffer: array<byte>
    var playing: byte
    var rdPtr: u16
    var wrPtr: u16
    var fbFnsof: u16
    var fbValue: u32
    var fbValueNorm: u32
    var mute: byte
    var volume: int16
    var setupReq: SetupPacket
    /** USB_MAX_EP0_SIZE bytes for the data stage of SET_CUR. */
    const setupData: array<byte>

    /** The sizes of the two arrays and the ranges the callbacks keep the fields in. */
    ghost predicate Valid()
      reads this
    {
      && buffer.Length == AUDIO_BUFFER_SIZE
      && setupData.Length == USB_MAX_EP0_SIZE
      && wrPtr < AUDIO_TOTAL_BUF_SIZE
      && rdPtr <= AUDIO_TOTAL_BUF_SIZE
      && playing <= 1
      && altSetting < 0x100
      && fbFnsof < 0x4000
    }

    /**
      The handle as USBD_static_malloc returns it the first time: the static
      pool of USB/Src/usbd_conf.c, zero-initialised.
     */
    constructor ()
      ensures Valid()
      ensures fresh(buffer) && fresh(setupData)
      ensures altSetting == 0 && playing == 0 && rdPtr == 0 && wrPtr == 0
      ensures fbFnsof == 0 && fbValue == 0 && fbValueNorm == 0 && mute == 0 && volume == 0
      ensures setupReq == SetupPacket(0, 0, 0, 0, 0)
      ensures forall k :: 0 <= k < buffer.Length ==> buffer[k] == 0
      ensures forall k :: 0 <= k < setupData.Length ==> setupData[k] == 0
    {
      altSetting := 0;
      buffer := new byte[AUDIO_BUFFER_SIZE](_ => 0);
      playing := 0;
      rdPtr := 0;
      wrPtr := 0;
      fbFnsof := 0;
      fbValue := 0;
      fbValueNorm := 0;
      mute := 0;
      volume := 0;
      setupReq := SetupPacket(0, 0, 0, 0, 0);
      setupData := new byte[USB_MAX_EP0_SIZE](_ => 0);
    }

    /**
      USBD_AUDIO_Init after the allocation: opens the two isochronous
      endpoints, flushes the feedback endpoint, resets the fields and arms the
      OUT endpoint for the first packet at the start of the buffer.
     */
    method Init() returns (effects: seq<Effect>)
      requires Valid()
      modifies this
      ensures Valid()
      ensures altSetting == 0 && playing == 0 && wrPtr == 0 && rdPtr == 0
      ensures mute == 0 && volume == USBD_AUDIO_VOL_MAX
      ensures fbFnsof == 0 && fbValueNorm == NOMINAL_FEEDBACK && fbValue == NOMINAL_FEEDBACK
      ensures unchanged(this`setupReq)
      ensures effects == [OpenEndpoint(AUDIO_OUT_EP, AUDIO_OUT_PACKET), OpenEndpoint(AUDIO_IN_EP, 3),
                          FlushEndpoint(AUDIO_IN_EP), PrepareReceive(AUDIO_OUT_EP, 0, AUDIO_OUT_PACKET)]
    {
      effects := [OpenEndpoint(AUDIO_OUT_EP, AUDIO_OUT_PACKET), OpenEndpoint(AUDIO_IN_EP, 3),
                  FlushEndpoint(AUDIO_IN_EP)];
      altSetting := 0;
      playing := 0;
      wrPtr := 0;
      rdPtr := 0;
      mute := 0;
      volume := USBD_AUDIO_VOL_MAX;
      fbFnsof := 0;
      fbValueNorm := NOMINAL_FEEDBACK;
      fbValue := fbValueNorm;
      effects := effects + [PrepareReceive(AUDIO_OUT_EP, 0, AUDIO_OUT_PACKET)];
    }

    /** USBD_AUDIO_StopPlay: stops the I2S DMA, turns the amplifier off and empties the ring. */
    method StopPlay() returns (effects: seq<Effect>)
      requires Valid()
      modifies this
      ensures Valid()
      ensures playing == 0 && wrPtr == 0 && rdPtr == 0
      ensures unchanged(this`altSetting, this`fbFnsof, this`fbValue, this`fbValueNorm)
      ensures unchanged(this`mute, this`volume, this`setupReq)
      ensures effects == [StopI2s, WriteSdMode(false)]
    {
      effects := [StopI2s, WriteSdMode(false)];
      playing := 0;
      wrPtr := 0;
      rdPtr := 0;
    }

    /**
      USBD_AUDIO_DeInit once the endpoints are closed: the class data pointer
      is cleared before StopPlay is called, so StopPlay returns USBD_FAIL at
      its NULL check and does nothing. Playback is left running.
     */
    method DeInit() returns (effects: seq<Effect>)
      requires Valid()
      ensures effects == [FlushEndpoint(AUDIO_OUT_EP), FlushEndpoint(AUDIO_IN_EP),
                          CloseEndpoint(AUDIO_OUT_EP), CloseEndpoint(AUDIO_IN_EP)]
      ensures StopI2s !in effects && WriteSdMode(false) !in effects
    {
      effects := [FlushEndpoint(AUDIO_OUT_EP), FlushEndpoint(AUDIO_IN_EP),
                  CloseEndpoint(AUDIO_OUT_EP), CloseEndpoint(AUDIO_IN_EP)];
    }

    /** DeInit with StopPlay called while the handle is still reachable, as evidently intended. */
    method DeInitIntended() returns (effects: seq<Effect>)
      requires Valid()
      modifies this
      ensures Valid()
      ensures playing == 0 && wrPtr == 0 && rdPtr == 0
      ensures effects == [FlushEndpoint(AUDIO_OUT_EP), FlushEndpoint(AUDIO_IN_EP),
                          CloseEndpoint(AUDIO_OUT_EP), CloseEndpoint(AUDIO_IN_EP), StopI2s, WriteSdMode(false)]
    {
      effects := [FlushEndpoint(AUDIO_OUT_EP), FlushEndpoint(AUDIO_IN_EP),
                  CloseEndpoint(AUDIO_OUT_EP), CloseEndpoint(AUDIO_IN_EP)];
      var stop := StopPlay();
      effects := effects + stop;
    }

    /**
      USBD_AUDIO_Setup: answers the request as SetupReply says, remembers a
      SET_CUR for its data stage, and on an accepted SET_INTERFACE stores the
      alternate setting, stopping playback for alternate setting 0.
     */
    method Setup(req: SetupPacket, configured: bool, acHeader: seq<byte>) returns (reply: Reply, effects: seq<Effect>)
      requires Valid()
      requires FoundDescriptor(acHeader)
      modifies this
      ensures Valid()
      ensures reply == SetupReply(req, configured, old(mute), old(volume), old(altSetting), acHeader)
      ensures setupReq == (if IsSetCurMute(req) || IsSetCurVolume(req) then req else old(setupReq))
      ensures altSetting == (if AcceptsSetInterface(req, configured) then LoByte(req.wValue) else old(altSetting))
      ensures StopsPlay(req, configured) ==>
        playing == 0 && wrPtr == 0 && rdPtr == 0 && effects == [StopI2s, WriteSdMode(false)]
      ensures !StopsPlay(req, configured) ==> unchanged(this`playing, this`wrPtr, this`rdPtr) && effects == []
      ensures unchanged(this`mute, this`volume, this`fbFnsof, this`fbValue, this`fbValueNorm)
    {
      effects := [];
      if IsClassInterface(req) {
        if req.bRequest == AUDIO_REQ_SET_CUR && Selector(req) == AUDIO_CONTROL_MUTE {
          setupReq := req;
          reply := PrepareRx(req.wLength);
        } else if req.bRequest == AUDIO_REQ_SET_CUR && Selector(req) == AUDIO_CONTROL_VOLUME {
          setupReq := req;
          reply := PrepareRx(req.wLength);
        } else if req.bRequest == AUDIO_REQ_GET_CUR && Selector(req) == AUDIO_CONTROL_MUTE {
          reply := SendData([mute]);
        } else if req.bRequest == AUDIO_REQ_GET_CUR && Selector(req) == AUDIO_CONTROL_VOLUME {
          reply := SendData(Int16Bytes(volume));
        } else if req.bRequest == AUDIO_REQ_GET_MIN && Selector(req) == AUDIO_CONTROL_VOLUME {
          reply := SendData(Int16Bytes(USBD_AUDIO_VOL_MIN));
        } else if req.bRequest == AUDIO_REQ_GET_MAX && Selector(req) == AUDIO_CONTROL_VOLUME {
          reply := SendData(Int16Bytes(USBD_AUDIO_VOL_MAX));
        } else if req.bRequest == AUDIO_REQ_GET_RES && Selector(req) == AUDIO_CONTROL_VOLUME {
          reply := SendData(Int16Bytes(USBD_AUDIO_VOL_RES));
        } else {
          reply := Stall;
        }
      } else if IsStandardRequest(req) {
        reply := Stall;
        if req.bRequest == USB_REQ_GET_STATUS {
          if configured {
            reply := SendData([0, 0]);
          }
        } else if req.bRequest == USB_REQ_CLEAR_FEATURE {
          reply := Ack;
        } else if req.bRequest == USB_REQ_GET_DESCRIPTOR {
          if HiByte(req.wValue) == USB_DESC_TYPE_INTERFACE {
            if acHeader != [] {
              reply := SendData(acHeader[..Min(acHeader[0], req.wLength)]);
            }
          } else {
            reply := Ack;
          }
        } else if req.bRequest == USB_REQ_GET_INTERFACE {
          if configured {
            reply := SendData([altSetting % 0x100]);
          }
        } else if req.bRequest == USB_REQ_SET_INTERFACE {
          if configured {
            if LoByte(req.wValue) <= USBD_MAX_NUM_INTERFACES {
              altSetting := LoByte(req.wValue);
              if altSetting == 0 {
                effects := StopPlay();
              }
              reply := Ack;
            }
          }
        }
      } else {
        reply := Stall;
      }
    }

    /**
      USBD_AUDIO_EP0_RxReady: applies the data stage of the remembered SET_CUR,
      the first byte of setup_data as the mute flag (the amplifier is switched
      off while muted), or its first two bytes as the little-endian volume.
     */
    method EP0RxReady() returns (effects: seq<Effect>)
      requires Valid()
      modifies this
      ensures Valid()
      ensures IsSetCurMute(setupReq) ==>
        mute == setupData[0] && volume == old(volume) && effects == [WriteSdMode(setupData[0] == 0)]
      ensures IsSetCurVolume(setupReq) ==>
        volume == Int16FromBytes(setupData[0], setupData[1]) && mute == old(mute) && effects == []
      ensures !IsSetCurMute(setupReq) && !IsSetCurVolume(setupReq) ==>
        unchanged(this`mute, this`volume) && effects == []
      ensures unchanged(this`altSetting, this`playing, this`rdPtr, this`wrPtr, this`setupReq)
      ensures unchanged(this`fbFnsof, this`fbValue, this`fbValueNorm)
    {
      effects := [];
      if IsClassInterface(setupReq) {
        if setupReq.bRequest == AUDIO_REQ_SET_CUR && Selector(setupReq) == AUDIO_CONTROL_MUTE {
          mute := setupData[0];
          effects := [WriteSdMode(mute == 0)];
        } else if setupReq.bRequest == AUDIO_REQ_SET_CUR && Selector(setupReq) == AUDIO_CONTROL_VOLUME {
          volume := Int16FromBytes(setupData[0], setupData[1]);
        }
      }
    }

    /**
      USBD_AUDIO_DataOut for a packet of packetSize bytes received at wrPtr:
      the volume pass over its stereo frames in place, the advance of the write
      pointer with the wrap copy, the start of playback once the ring is half
      full, and the re-arm of the OUT endpoint at the new write pointer.
     */
    method DataOut(epnum: byte, packetSize: nat) returns (effects: seq<Effect>)
      requires Valid()
      requires packetSize <= AUDIO_OUT_PACKET
      modifies this, buffer
      ensures Valid()
      ensures epnum != AUDIO_OUT_EP ==> unchanged(this) && unchanged(buffer) && effects == []
      ensures epnum == AUDIO_OUT_EP ==>
        && buffer[..] == Received(old(buffer[..]), old(wrPtr), packetSize, old(volume))
        && wrPtr == Advance(old(wrPtr), packetSize)
        && playing == (if old(playing) == 0 && wrPtr >= AUDIO_TOTAL_BUF_SIZE / 2 then 1 else old(playing))
        && effects == (if old(playing) == 0 && wrPtr >= AUDIO_TOTAL_BUF_SIZE / 2
                       then [StartI2s(AUDIO_TOTAL_BUF_SIZE / 2), WriteSdMode(true)] else [])
                      + [PrepareReceive(AUDIO_OUT_EP, wrPtr, AUDIO_OUT_PACKET)]
      ensures unchanged(this`altSetting, this`rdPtr, this`fbFnsof, this`fbValue, this`fbValueNorm)
      ensures unchanged(this`mute, this`volume, this`setupReq)
    {
      effects := [];
      if epnum != AUDIO_OUT_EP {
        return;
      }
      ghost var before := buffer[..];
      assert packetSize / 2 / 2 == packetSize / 4;
      ScaleFrames(wrPtr, packetSize / 2 / 2);
      ghost var scaled := buffer[..];
      assert scaled == Attenuated(before, old(wrPtr), packetSize / 4, Gain(volume));
      wrPtr := wrPtr + packetSize;
      if wrPtr >= AUDIO_TOTAL_BUF_SIZE {
        var overflow := wrPtr - AUDIO_TOTAL_BUF_SIZE;
        CopyWrapTail(overflow);
        assert buffer[..] == WrapCopied(scaled, overflow);
        wrPtr := overflow;
      }
      if playing == 0 && wrPtr >= AUDIO_TOTAL_BUF_SIZE / 2 {
        effects := [StartI2s(AUDIO_TOTAL_BUF_SIZE / 2), WriteSdMode(true)];
        playing := 1;
      }
      effects := effects + [PrepareReceive(AUDIO_OUT_EP, wrPtr, AUDIO_OUT_PACKET)];
    }

    /**
      The volume loop of DataOut: each of `frames` stereo frames from `start`
      on has its left and right sample replaced, in place, by
      ApplyVolumeControl at the current volume.
     */
    method ScaleFrames(start: nat, frames: nat)
      requires start + 4 * frames <= buffer.Length
      modifies buffer
      ensures buffer[..] == Attenuated(old(buffer[..]), start, frames, Gain(volume))
    {
      ghost var before := buffer[..];
      var i := 0;
      while i < frames
        invariant 0 <= i <= frames
        invariant buffer[..] == Attenuated(before, start, i, Gain(volume))
      {
        AttenuatedStep(before, start, i, Gain(volume));
        ScaleFrameAt(start + 4 * i);
        i := i + 1;
      }
    }

    /** One stereo frame of the volume loop: the left sample at f, then the right sample at f + 2. */
    method ScaleFrameAt(f: nat)
      requires f + 3 < buffer.Length
      modifies buffer
      ensures buffer[..] == ScaleFrame(old(buffer[..]), f, Gain(volume))
    {
      var left := ApplyVolumeControl(Int16FromBytes(buffer[f], buffer[f + 1]), volume);
      StoreSampleAt(f, left);
      var right := ApplyVolumeControl(Int16FromBytes(buffer[f + 2], buffer[f + 3]), volume);
      StoreSampleAt(f + 2, right);
    }

    /** An int16_t store into the buffer at byte offset o, low byte first. */
    method StoreSampleAt(o: nat, v: int16)
      requires o + 1 < buffer.Length
      modifies buffer
      ensures buffer[..] == StoreSample(old(buffer[..]), o, v)
    {
      var bytes := Int16Bytes(v);
      buffer[o], buffer[o + 1] := bytes[0], bytes[1];
    }

    /**
      The wrap copy of DataOut: the `overflow` bytes a packet wrote past the
      end of the ring move to its start.
     */
    method CopyWrapTail(overflow: nat)
      requires AUDIO_TOTAL_BUF_SIZE + overflow <= buffer.Length
      modifies buffer
      ensures buffer[..] == WrapCopied(old(buffer[..]), overflow)
    {
      ghost var before := buffer[..];
      var j := 0;
      while j < overflow
        invariant 0 <= j <= overflow
        invariant buffer[..] == WrapCopied(before, j)
      {
        buffer[j] := buffer[AUDIO_TOTAL_BUF_SIZE + j];
        j := j + 1;
      }
    }

    /**
      USBD_AUDIO_SOF: takes the read pointer from the DMA counter NDTR (half
      words still to send) and, when more than FEEDBACK_PERIOD frames have
      passed since the last report, computes and sends the new feedback value.
     */
    method SOF(ndtr: nat, fnsof: FrameNumber) returns (effects: seq<Effect>)
      requires Valid()
      requires ndtr * 2 <= AUDIO_TOTAL_BUF_SIZE
      modifies this
      ensures Valid()
      ensures rdPtr == AUDIO_TOTAL_BUF_SIZE - ndtr * 2
      ensures FrameInterval(fnsof, old(fbFnsof)) > FEEDBACK_PERIOD ==>
        && fbFnsof == fnsof
        && fbValue == FeedbackValue(fbValueNorm, WritableSamples(rdPtr, wrPtr))
        && effects == [TransmitFeedback(AUDIO_IN_EP, FeedbackBytes(fbValue))]
      ensures FrameInterval(fnsof, old(fbFnsof)) <= FEEDBACK_PERIOD ==>
        unchanged(this`fbFnsof, this`fbValue) && effects == []
      ensures unchanged(this`altSetting, this`playing, this`wrPtr, this`fbValueNorm)
      ensures unchanged(this`mute, this`volume, this`setupReq)
    {
      effects := [];
      rdPtr := AUDIO_TOTAL_BUF_SIZE - ndtr * 2;
      var interval := FrameInterval(fnsof, fbFnsof);
      if interval > FEEDBACK_PERIOD {
        var writable := WritableSamples(rdPtr, wrPtr);
        fbValue := FeedbackValue(fbValueNorm, writable);
        fbFnsof := fnsof;
        effects := [TransmitFeedback(AUDIO_IN_EP, FeedbackBytes(fbValue))];
      }
    }

    /**
      USBD_AUDIO_IsoOUTIncomplete: for the OUT endpoint number, flushes it and
      re-arms it at the write pointer; the receive window lies inside the buffer.
     */
    method IsoOutIncomplete(epnum: byte) returns (effects: seq<Effect>)
      requires Valid()
      ensures epnum == AUDIO_OUT_EP % 0x10 ==>
        effects == [FlushEndpoint(epnum), PrepareReceive(epnum, wrPtr, AUDIO_OUT_PACKET)]
        && wrPtr + AUDIO_OUT_PACKET <= buffer.Length
      ensures epnum != AUDIO_OUT_EP % 0x10 ==> effects == []
    {
      effects := [];
      if epnum == AUDIO_OUT_EP % 0x10 {
        effects := [FlushEndpoint(epnum), PrepareReceive(epnum, wrPtr, AUDIO_OUT_PACKET)];
      }
    }
  }
}
