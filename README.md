# USB audio speaker firmware: verified model

This project is a Dafny model of the firmware of a USB full-speed speaker built on an STM32
microcontroller. It covers four parts of that firmware.

- **The USB Audio Class 1.0 streaming class** (`USB/Src/usbd_audio.c`, `USB/Inc/usbd_audio.h`).
  The class handle `USBD_AUDIO_HandleTypeDef` becomes the class `AudioClass.AudioHandle`. Its
  callbacks become methods that update the handle's fields and its byte array `buffer` in place:
  - `Init` and `StopPlay`;
  - `Setup`, for Feature Unit Mute/Volume requests and the standard interface requests;
  - `EP0RxReady`, for the SET_CUR data stage;
  - `DataOut`: the in-place volume pass over the received packet, the ring write pointer and its
    wrap copy, and the start of playback at half full;
  - `SOF`: the explicit rate feedback in 10.14 fixed point;
  - `IsoOutIncomplete`.

  Calls into the HAL and the device library (I2S DMA, the amplifier's SD_MODE pin, endpoint
  open/close/flush/receive/transmit) come back as a list of `Effect`s in call order. Hardware
  registers are method inputs: the DMA counter NDTR, the frame number FNSOF and the received
  packet size.

  The pure parts are separate modules:
  - `AudioVolume`: the volume shift of `USBD_AUDIO_ApplyVolumeControl`;
  - `AudioFeedback`: the writable-space and feedback arithmetic of `USBD_AUDIO_SOF`;
  - `AudioRing`: the effect of `DataOut` on the buffer, as functions of the old buffer;
  - `AudioConfig`: the header constants and the little-endian `int16_t` encoding.
- **The standard control-request dispatcher** of `Core/Src/usbd_core.c`, in `CoreDispatch`.
  Given a setup packet (section 9.3 of USB 2.0) and the device handle, `SetupStage` gives the one
  EP0 action (a transmit or the trailing stall) and the new handle. `UsbTypes` holds the
  `LOBYTE`/`HIBYTE`/`MIN`/`MAX` macros and the masks of `Core/Inc/usbd_core.h`.
- **The earlier dispatcher** of `Core/Src/usbd.c`, in `DraftDispatch`, kept separate so the two
  rule sets can be compared. It has a Default/Address/Configured state and never stalls.
- **The ST7789 LCD frame-buffer sync** of `LCD/Src/lcd_st7789.c`, in `Lcd`.
  - The class `Display` holds the frame buffer and the two byte counters.
  - `Sync` and `TxComplete` stream the buffer in DMA chunks of at most 0xFFFF bytes.
  - `DrawRect` paints a rectangle in place.
  - `ChunksCover` proves that a whole refresh sends every byte exactly once, in order.

Some choices in the model:
- Integers are unbounded; the model writes the C widths out. `int16_t` is a subset type, and the
  conversion of an out-of-range `int` result back to `int16_t` is two's-complement truncation
  (`Wrap16`, the GCC behaviour).
- `>>` on a negative `int16_t` is arithmetic and rounds toward minus infinity (`Sar`).
- The core is little-endian, so `int16_t` stores are low byte first.
- The masks `& 0x60`, `& 0x1F` and `& 0x7F` are written with `%`.
- `USB_MAX_EP0_SIZE` is the ST device library's 64; `usbd_def.h` is not part of this model.

Three details of the code that the model keeps as they are:
- `SOF` has no transmit-busy flag.
- An accepted SET_INTERFACE to alternate setting 1 only stores the setting; it does not arm the
  OUT endpoint.
- Neither dispatcher splits a reply into EP0 packets or sends a zero-length packet.

The arithmetic of the audio class is kept exactly as written, including the two defects listed
under "## Findings" (the odd volume step and the 0x3FFF frame wrap). So `DataOut` and `SOF` use
`ApplyVolumeControl` and `FrameInterval`. The corrected definitions (`ApplyVolumeControlIntended`,
`FrameIntervalIntended` and the other `...Intended` members) stand beside them with the intended
properties proved.

## Model

| member | source | states |
|---|---|---|
| UsbTypes.LoByte | Core/Inc/usbd_core.h:6-8 | LOBYTE(x) is a byte that agrees with x modulo 256 |
| UsbTypes.HiByte | Core/Inc/usbd_core.h:10-12 | HIBYTE(x) is the byte h with 256*h <= x < 256*(h+1) |
| UsbTypes.Word | Core/Inc/usbd_core.h:6-12 | joining two bytes gives the word whose LOBYTE and HIBYTE are those bytes |
| UsbTypes.SplitJoin | Core/Inc/usbd_core.h:6-12 | HIBYTE(x)*256 + LOBYTE(x) == x for every 16-bit x |
| UsbTypes.Min | Core/Inc/usbd_core.h:14-16 | MIN(a, b) is at most both arguments and equals one of them |
| UsbTypes.Max | Core/Inc/usbd_core.h:18-20 | MAX(a, b) is at least both arguments and equals one of them |
| UsbTypes.MinMaxSymmetric | Core/Inc/usbd_core.h:14-20 | MIN and MAX are symmetric in their arguments |
| UsbTypes.RequestType | Core/Src/usbd_core.c:10 | `bmRequestType & 0x60` is one of the four type codes 0x00, 0x20, 0x40, 0x60 |
| UsbTypes.Recipient | Core/Src/usbd_core.c:11 | `bmRequestType & 0x1F` is below 0x20 and differs from bmRequestType by a multiple of 0x20 |
| UsbTypes.MasksIndependent | Core/Inc/usbd_core.h:22-30 | for any direction bit, type field and recipient field, `& 0x60` gives back exactly the type and `& 0x1F` exactly the recipient; the type is one of the four codes |
| AudioConfig.Int16FromBytes | USB/Src/usbd_audio.c:663-667 | a sample read through the int16_t pointer has the little-endian word as its bit pattern, and is negative exactly when the high byte's top bit is set |
| AudioConfig.AsInt16 | USB/Inc/usbd_audio.h:44-46 | the (int16_t) cast of a 16-bit pattern agrees with it modulo 2^16 |
| AudioConfig.Int16Bits | USB/Src/usbd_audio.c:501-513 | the 16-bit pattern of an int16_t value casts back to that value |
| AudioConfig.Int16Bytes | USB/Src/usbd_audio.c:496-514 | the two bytes an int16_t store writes, low byte first, read back as the same value |
| AudioConfig.Int16BytesRoundTrip | USB/Src/usbd_audio.c:603 | reading two stored bytes as an int16_t and storing it again gives the same two bytes |
| AudioConfig.VolumeRangeBytes | USB/Inc/usbd_audio.h:44-46 | VOL_MIN, VOL_MAX and VOL_RES are stored as the bytes 00 A0, 00 00 and 00 03 |
| AudioConfig.ConfigurationConstants | USB/Inc/usbd_audio.h:44-108 | AUDIO_OUT_PACKET is (48000/1000 + 1)*2*2, one stereo frame more than a nominal millisecond; the packet count is even and above 3; the ring size is packet times count and fits in uint16; the buffer has exactly one packet of slack; -96 dB < 0 dB and the 3 dB resolution is positive |
| AudioVolume.Sar | USB/Src/usbd_audio.c:324-329 | an arithmetic right shift keeps the sign, never grows the magnitude, and leaves a value inside [-2^14, 2^14) after one or more bits |
| AudioVolume.SarToSign | USB/Src/usbd_audio.c:326-329 | a shift of 15 or more bits leaves only the sign, 0 or -1 |
| AudioVolume.Wrap16 | USB/Src/usbd_audio.c:327 | storing an int result in an int16_t keeps it modulo 2^16, and keeps it unchanged when it is in range |
| AudioVolume.ClampVolume | USB/Src/usbd_audio.c:316-321 | the volume is clamped into [VOL_MIN, VOL_MAX]: unchanged inside, VOL_MAX above, VOL_MIN below |
| AudioVolume.Shifts | USB/Src/usbd_audio.c:323 | the step count is the attenuation divided by the 3 dB resolution, rounded to nearest with halves up, and at most 32 |
| AudioVolume.Attenuate | USB/Src/usbd_audio.c:324-331 | no steps keep the sample; an even step count never amplifies; 30 or more even steps leave only the sign |
| AudioVolume.ApplyVolumeControl | USB/Src/usbd_audio.c:315-333 | within half a step of VOL_MAX the sample is returned unchanged; an even step count is an arithmetic shift by half of it and never amplifies; at VOL_MIN only the sign survives |
| AudioVolume.OddStepWraps | USB/Src/usbd_audio.c:325-327 | as written, volume -768 turns the sample 32767 into -16386 |
| AudioVolume.OddStepLouder | USB/Src/usbd_audio.c:325-327 | as written, one 3 dB step of attenuation makes every sample from 2 to 21845 louder than 0 dB does |
| AudioVolume.AttenuateIntended | USB/Src/usbd_audio.c:324-330 | the intended step never amplifies a non-negative sample, and an odd step lies between its two neighbouring even steps |
| AudioVolume.IntendedStep | USB/Src/usbd_audio.c:324-330 | with the intended step, one more step never makes a non-negative sample louder |
| AudioVolume.IntendedMonotone | USB/Src/usbd_audio.c:324-330 | with the intended step, more steps never make a non-negative sample louder |
| AudioVolume.ApplyVolumeControlIntended | USB/Src/usbd_audio.c:315-332 | the corrected volume control: unchanged near 0 dB, never amplifies, and equal to the code's result for every even step count |
| AudioVolume.IntendedVolumeMonotone | USB/Src/usbd_audio.c:315-332 | with the correction, turning the volume up never makes a non-negative sample quieter |
| AudioFeedback.FrameDistance | USB/Src/usbd_audio.c:720-723 | the distance from the last frame number forward to the current one on the 14-bit counter, below 0x4000 |
| AudioFeedback.FrameInterval | USB/Src/usbd_audio.c:721-723 | fnsof_interval as written is the frame distance without a wrap, and one less than it across a wrap |
| AudioFeedback.WrapDelaysFeedback | USB/Src/usbd_audio.c:721-724 | from frame 0x3FFE to frame 3 five frames pass, but the interval is 4, so no report is sent |
| AudioFeedback.FrameIntervalIntended | USB/Src/usbd_audio.c:721-723 | with the modulus 0x4000 the interval is the frame distance, zero only for the same frame |
| AudioFeedback.WritableSamples | USB/Src/usbd_audio.c:725-727 | writable_samples is at most a ring of stereo frames, and 0 when the pointers meet |
| AudioFeedback.WritableIsRingDistance | USB/Src/usbd_audio.c:725-727 | writable_samples is the distance from wr_ptr forward to rd_ptr modulo the ring size, in whole 4-byte frames; with rd_ptr at the ring size (NDTR 0) and wr_ptr 0 it is the whole ring, 392 frames, not the distance 0 |
| AudioFeedback.FeedbackFactor | USB/Src/usbd_audio.c:728 | the 2.14 factor is positive and within TOTAL/8 of 1.0 |
| AudioFeedback.FeedbackValue | USB/Src/usbd_audio.c:730 | from the nominal 48<<14, fb_value is 48*factor; it is above nominal exactly when more than TOTAL/8 frames are free, and nominal exactly at TOTAL/8 |
| AudioFeedback.FeedbackMonotone | USB/Src/usbd_audio.c:725-730 | from the nominal rate, fb_value is nondecreasing in writable_samples |
| AudioFeedback.HalfFullIsNominal | USB/Src/usbd_audio.c:717-730 | when rd_ptr is half a ring ahead of wr_ptr, writable_samples is TOTAL/8 and fb_value is exactly 48<<14 |
| AudioFeedback.FeedbackBytes | USB/Src/usbd_audio.c:733 | the feedback is sent as three bytes which, put back together little-endian, are fb_value modulo 2^24 |
| AudioFeedback.NominalFeedbackBytes | USB/Src/usbd_audio.c:730-733 | the nominal value goes on the wire as 00 00 0C |
| AudioRing.StoreSample | USB/Src/usbd_audio.c:666-667 | an int16_t store at byte offset o reads back as the stored value, and no other byte changes |
| AudioRing.ScaleFrame | USB/Src/usbd_audio.c:663-667 | one loop iteration changes only the four bytes of its stereo frame |
| AudioRing.Attenuated | USB/Src/usbd_audio.c:661-672 | the volume pass keeps the buffer's length and leaves every byte outside the packet's whole frames as it was |
| AudioRing.AttenuatedSamples | USB/Src/usbd_audio.c:661-672 | after the volume pass, every left and right sample of the packet holds ApplyVolumeControl of its old value |
| AudioRing.AttenuatedStep | USB/Src/usbd_audio.c:662-672 | the pass over n + 1 frames is one more loop iteration applied to the pass over n frames |
| AudioRing.WrapCopied | USB/Src/usbd_audio.c:679-682 | the wrap copy moves buffer[TOTAL, TOTAL+overflow) to buffer[0, overflow), and no byte from overflow on changes |
| AudioRing.Advance | USB/Src/usbd_audio.c:675-697 | the new wr_ptr is (wr_ptr + packet_size) mod TOTAL, stays on the ring, and the re-armed receive window of AUDIO_OUT_PACKET bytes lies inside the buffer |
| AudioRing.Received | USB/Src/usbd_audio.c:661-684 | DataOut's buffer update keeps the buffer's size |
| AudioRing.ReceivedOnRing | USB/Src/usbd_audio.c:661-684 | on the ring, the packet after the volume pass sits contiguously from the old wr_ptr, wrapping at the end, and every other ring byte keeps its value |
| AudioRing.PacketByteOnRing | USB/Src/usbd_audio.c:675-684 | byte p of the processed packet lands at ring position p mod TOTAL |
| AudioRing.OtherByteOnRing | USB/Src/usbd_audio.c:675-684 | a ring byte outside the packet's window, wrapped or not, keeps its value |
| AudioClass.SetupReply | USB/Src/usbd_audio.c:476-571 | a request escapes the stall exactly when it is supported; only Mute/Volume SET_CUR open a data stage, of wLength bytes; GET_CUR returns the current mute byte and the current volume; replies are 1-2 bytes, a descriptor at most wLength |
| AudioClass.VolumeRangeReplies | USB/Src/usbd_audio.c:499-515 | GET_MIN, GET_MAX and GET_RES for Volume send 00 A0, 00 00 and 00 03 whatever the state |
| AudioClass.VolumeRoundTrip | USB/Src/usbd_audio.c:602-604 | the two bytes a SET_CUR Volume data stage stores come back unchanged from GET_CUR |
| AudioClass.SetCurOverrunsSetupData | USB/Src/usbd_audio.c:478-487 | as written, a SET_CUR with wLength above 64 is accepted with a data stage longer than setup_data |
| AudioClass.SetupReplyIntended | USB/Src/usbd_audio.c:478-487 | with the bound, a data stage is MIN(wLength, 64) bytes, the same requests are accepted, and all other replies are as before |
| AudioClass.AudioHandle.constructor | USB/Inc/usbd_audio.h:106-119 | the handle starts zero-filled, with buffer and setup_data of their declared sizes |
| AudioClass.AudioHandle.Init | USB/Src/usbd_audio.c:386-410 | opens both endpoints, flushes the feedback endpoint, resets every field (volume to VOL_MAX, feedback to 48<<14) and arms the OUT endpoint at offset 0 |
| AudioClass.AudioHandle.StopPlay | USB/Src/usbd_audio.c:340-357 | stops the I2S DMA, turns the amplifier off, and sets playing, wr_ptr and rd_ptr to 0; nothing else changes |
| AudioClass.AudioHandle.DeInit | USB/Src/usbd_audio.c:431-452 | as written, flushes and closes the endpoints but never stops playback, because StopPlay finds the class data already NULL |
| AudioClass.AudioHandle.DeInitIntended | USB/Src/usbd_audio.c:431-452 | with StopPlay reached, DeInit also stops the DMA, turns off the amplifier and empties the ring |
| AudioClass.AudioHandle.Setup | USB/Src/usbd_audio.c:464-573 | answers as SetupReply; stores setup_req only for SET_CUR; an accepted SET_INTERFACE stores the alternate setting; StopPlay runs exactly for an accepted SET_INTERFACE to 0; mute, volume and feedback are untouched |
| AudioClass.AudioHandle.EP0RxReady | USB/Src/usbd_audio.c:581-607 | after SET_CUR Mute, mute is setup_data[0] and the amplifier pin follows it; after SET_CUR Volume, volume is the little-endian int16 of setup_data[0..1]; nothing else changes |
| AudioClass.AudioHandle.DataOut | USB/Src/usbd_audio.c:643-701 | for the OUT endpoint: the buffer becomes Received of the old one; wr_ptr advances modulo the ring; playing goes 0 to 1 exactly when wr_ptr reaches half the ring and is never cleared; the OUT endpoint is re-armed at wr_ptr; other endpoints change nothing |
| AudioClass.AudioHandle.ScaleFrames | USB/Src/usbd_audio.c:661-672 | the volume loop leaves the buffer equal to the volume pass over its frames |
| AudioClass.AudioHandle.ScaleFrameAt | USB/Src/usbd_audio.c:663-667 | one loop iteration scales the left sample, then the right one |
| AudioClass.AudioHandle.StoreSampleAt | USB/Src/usbd_audio.c:666-667 | an int16_t store into the buffer |
| AudioClass.AudioHandle.CopyWrapTail | USB/Src/usbd_audio.c:679-682 | the wrap loop leaves the buffer equal to WrapCopied of the old one |
| AudioClass.AudioHandle.SOF | USB/Src/usbd_audio.c:709-737 | rd_ptr is TOTAL - 2*NDTR; when the interval exceeds 4 frames, fb_value is FeedbackValue of the writable space, fb_fnsof is the new frame and its three bytes are sent; otherwise neither changes and nothing is sent |
| AudioClass.AudioHandle.IsoOutIncomplete | USB/Src/usbd_audio.c:763-779 | for the OUT endpoint number, flushes it and re-arms it at wr_ptr inside the buffer; otherwise does nothing |
| CoreDispatch.SetupStage | Core/Src/usbd_core.c:6-138 | class, vendor and reserved types stall; only SET_ADDRESS, SET_CONFIGURATION and SET_INTERFACE change the handle, each its own field; a stall changes nothing; SET_DESCRIPTOR and SYNCH_FRAME stall; alt_settings keeps 2 entries; replies other than GET_STATUS are at most wLength |
| CoreDispatch.SetAddressRule | Core/Src/usbd_core.c:47-58 | SET_ADDRESS succeeds exactly for the device recipient with wValue <= 127, wIndex 0, wLength 0; it then stores the address and replies zero-length, else stalls |
| CoreDispatch.GetDescriptorRule | Core/Src/usbd_core.c:60-86 | GET_DESCRIPTOR transmits exactly for the device descriptor, configuration 1 and strings 0..3, with MIN(wLength, 18), MIN(wLength, 118) or MIN(wLength, string length) bytes, each reply being that prefix of its descriptor |
| CoreDispatch.StatusFeatureRule | Core/Src/usbd_core.c:16-45 | GET_STATUS sends 00 00, CLEAR_FEATURE and SET_FEATURE a zero-length reply, exactly for recipient codes 0, 0x0B and 2, without changing the handle |
| CoreDispatch.SetThenGetConfiguration | Core/Src/usbd_core.c:92-105 | an accepted SET_CONFIGURATION stores LOBYTE(wValue) and a following GET_CONFIGURATION returns it |
| CoreDispatch.SetThenGetInterface | Core/Src/usbd_core.c:107-124 | SET_INTERFACE stores (uint8_t)wValue for interface 0 or 1 and GET_INTERFACE returns it; both stall for interface 2 or more |
| CoreDispatch.InterfaceStatusStalls | Core/Src/usbd_core.c:16-25 | as written, GET_STATUS to an interface stalls while the reserved recipient 0x0B is answered |
| CoreDispatch.StandardSetConfigurationStalls | Core/Src/usbd_core.c:99-105 | as written, a SET_CONFIGURATION with wLength 0, as hosts send it, stalls |
| CoreDispatch.SetupStageIntended | Core/Src/usbd_core.c:16-105 | with both corrections, GET_STATUS is answered exactly for the device, interface and endpoint recipients, CLEAR_FEATURE and SET_FEATURE get a zero-length reply for exactly the same recipients, SET_CONFIGURATION with wLength 0 stores the configuration, and every other request is decided as SetupStage decides it |
| CoreDispatch.IntendedConfigurationWorks | Core/Src/usbd_core.c:92-105 | with the corrections, SET_CONFIGURATION(c) with wLength 0 is accepted and GET_CONFIGURATION then returns c |
| CoreDispatch.IntendedInterfaceStatusWorks | Core/Src/usbd_core.c:16-25 | with the corrections, GET_STATUS to interface 0 is answered with 00 00 |
| DraftDispatch.SetupStage | Core/Src/usbd.c:48-182 | the state stays one of the three values and changes only in SET_ADDRESS and SET_CONFIGURATION; only SET_ADDRESS changes the address; class, vendor and reserved types, SET_DESCRIPTOR, GET/SET_INTERFACE and SYNCH_FRAME get no action; transmits are at most 2 bytes |
| DraftDispatch.SetAddressRule | Core/Src/usbd.c:89-101 | SET_ADDRESS acts exactly for the device recipient with wValue 0 and wLength 0, setting address 0 and state ADDRESS with a zero-length reply; otherwise no action |
| DraftDispatch.GetDescriptorRule | Core/Src/usbd.c:103-135 | GET_DESCRIPTOR replies zero-length exactly for the device descriptor, configuration 1 and strings 0..3, and never changes the handle |
| DraftDispatch.SetThenGetConfiguration | Core/Src/usbd.c:141-162 | SET_CONFIGURATION moves to ADDRESS for 0 and to CONFIGURED otherwise; a following GET_CONFIGURATION reports 1 exactly when CONFIGURED |
| DraftDispatch.NonzeroAddressIgnored | Core/Src/usbd.c:92 | as written, every SET_ADDRESS to a nonzero address gets no action |
| DraftDispatch.SetupStageIntended | Core/Src/usbd.c:89-101 | with wIndex == 0 in place of wValue == 0, any address up to 127 is taken; every other request is decided as before |
| Lcd.Chunks | LCD/Src/lcd_st7789.c:196-202 | the remaining DMA chunks: none exactly when no byte is unsynced, the first starting at the first unsent byte, each inside the frame buffer |
| Lcd.ChunkSize | LCD/Src/lcd_st7789.c:198 | a chunk is min(nBytesUnsync, 0xFFFF): at most both, equal to one of them, non-empty when bytes remain |
| Lcd.ChunksCover | LCD/Src/lcd_st7789.c:197-201 | the remaining chunks send every byte from FRAME_BUFFER_BYTES - nBytesUnsync to the end exactly once and in order; each is non-empty and at most 0xFFFF bytes, and all but the last are full |
| Lcd.RefreshSendsAll | LCD/Src/lcd_st7789.c:191-217 | a whole refresh sends [0, FRAME_BUFFER_BYTES) in order, in ceil(FRAME_BUFFER_BYTES / 0xFFFF) chunks |
| Lcd.ChunkCount | LCD/Src/lcd_st7789.c:197-201 | the number of chunks left is ceil(nBytesUnsync / 0xFFFF) |
| Lcd.RefreshWindow | LCD/Src/lcd_st7789.c:193 | the window opened for a refresh starts at (0, 0) and holds (TFT_WIDTH+1)*(TFT_HEIGHT+1) pixels |
| Lcd.WindowOneTooLarge | LCD/Src/lcd_st7789.c:193 | as written, the refresh window holds (TFT_WIDTH+1)*(TFT_HEIGHT+1) pixels, more than the frame buffer |
| Lcd.RefreshWindowIntended | LCD/Src/lcd_st7789.c:193 | the corrected window starts at (0, 0) and holds exactly TFT_WIDTH*TFT_HEIGHT pixels |
| Lcd.PixelInFrame | LCD/Src/lcd_st7789.c:208 | a pixel (i, j) on the panel has index j*TFT_WIDTH+i inside the frame buffer |
| Lcd.RectPixelsMembers | LCD/Src/lcd_st7789.c:206-210 | the painted set is exactly the indices j*TFT_WIDTH+i with x <= i < x+w and y <= j < y+h |
| Lcd.Display.constructor | LCD/Src/lcd_st7789.c:16-19 | the frame buffer and both counters start at zero |
| Lcd.Display.Sync | LCD/Src/lcd_st7789.c:183-203 | nothing while a chunk is in flight; ends the write when nothing is left; otherwise sends the first of the remaining chunks (window set only for the first chunk of a refresh) and keeps nBytesSyncing + nBytesUnsync |
| Lcd.Display.TxComplete | LCD/Src/lcd_st7789.c:214-217 | clears the chunk in flight and starts the next one as Sync does |
| Lcd.Display.DrawRect | LCD/Src/lcd_st7789.c:205-212 | writes color to exactly the rectangle's pixels, leaves every other pixel, and marks the whole buffer unsynced |

## Left out

- HAL and device-library calls are not executed. They are returned as effects, and only their
  arguments are modelled. This covers HAL_I2S, HAL_GPIO, `USBD_LL_*`, `USBD_CtlSendData`,
  `USBD_CtlPrepareRx`, `USBD_CtlError`, `HAL_PCD_EP_Transmit`,
  `HAL_PCD_EP_SetStall`, HAL_SPI and setwindow's command bytes.
- `HAL_PCD_SetAddress` (Core/Src/usbd_core.c:52, Core/Src/usbd.c:95) is not returned as an
  action by either dispatcher. The address each dispatcher stores in its handle stands for that
  hardware call.
- `USBD_FindDesc` is a parameter of `Setup`: the AC header descriptor it returns, or nothing.
- The `haudio == NULL` early returns are not modelled; the handle always exists. The
  `USBD_malloc` failure (USBD_EMEM) and `USBD_free` are also left out. The constructor stands for
  the zero-filled static pool the allocator returns.
- `AUDIO_WaitForSamples` and the float sample capture in `DataOut` (USB/Src/usbd_audio.c:296-306,
  669-671) are left out: a busy-wait shared with the interrupt, and floating point.
- `USBD_AUDIO_EP0_TxReady`, `USBD_AUDIO_DataIn` and `USBD_AUDIO_IsoINIncomplete` are not
  modelled. The first two do nothing; the third only flushes the feedback endpoint.
- The descriptor tables, their getters, `USBD_AUDIO_GetEpPcktSze` and the `USE_USBD_COMPOSITE`
  variant are left out: constant data and a build variant.
- Each callback is one atomic step. Races are not modelled: DataOut against SOF on the pointers,
  and DrawRect against a DMA transfer in flight.
- Replies are whole byte sequences. EP0 packet splitting and zero-length packets are not modelled.
- `CoreDispatch` takes the descriptors as a parameter.
  - Device and configuration descriptors are 18 and 118 bytes, as `Core/Src/usbd_desc.c`
    defines them. The sizes declared in `Core/Inc/usbd_desc.h` (119 and 64) are not used.
  - `StringDescriptorPtr`/`StringDescriptorLen` are defined in no file of the repository; they
    are abstract strings.
- `LCD_Init` and the SPI/GPIO helpers are left out: a fixed hardware command sequence.
- `TFT_WIDTH`/`TFT_HEIGHT` are parameters; the header that defines them is not part of this model.
- The frame buffer is held as the `uint16_t` pixels `LCD_DrawRect` writes. DMA chunks are byte
  offsets into it; the pixel byte order is not modelled.
- AudioClass.AudioHandle.DataOut: requires packet_size <= AUDIO_OUT_PACKET. The source does not
  check it; the endpoint is armed for at most that many bytes, so the driver cannot report more.
- AudioClass.AudioHandle.SOF: requires NDTR*2 <= AUDIO_TOTAL_BUF_SIZE. The DMA is started with
  AUDIO_TOTAL_BUF_SIZE/2 half-words, so its counter never exceeds that; a larger value would make
  rd_ptr underflow.
- AudioClass.AudioHandle.Setup: requires that a found descriptor's bLength is at most its length.
  This is the contract of `USBD_FindDesc`, which is not part of this model.
- Lcd.Display.DrawRect: requires x+w <= 255, y+h <= 255 and the rectangle on the panel. The
  source has no such check; past 255 its `uint8_t` counters wrap and the loop never ends. A
  rectangle past the right edge paints the first pixels of the next row, and only rows past the
  bottom edge write outside the frame buffer. The model covers neither case.
- Lcd.Display.constructor: requires 2*TFT_WIDTH*TFT_HEIGHT < 2^32, so that the uint32_t byte
  counters can hold the buffer size.

## Findings

| source | as written | input that shows it | evidently intended | confidence | as-written member | corrected member |
|---|---|---|---|---|---|---|
| USB/Src/usbd_audio.c:325-327 | the odd step computes s + (s >> 1): 1.5 times the even step above it, stored back in int16_t | volume -768 (one 3 dB step), sample 32767: 49150 wraps to -16386; samples 2..21845 come out louder than at 0 dB | (sample >> (k+1)) * 1.5, between the two neighbouring even steps, so more attenuation is never louder | not executed | AudioVolume.OddStepWraps | AudioVolume.IntendedVolumeMonotone |
| USB/Src/usbd_audio.c:721-723 | across a wrap of the 14-bit frame counter the interval adds 0x3FFF | fb_fnsof 0x3FFE, FNSOF 3: 5 frames have passed but the interval is 4, so the report is skipped | the modulus 0x4000 | not executed | AudioFeedback.WrapDelaysFeedback | AudioFeedback.FrameIntervalIntended |
| USB/Src/usbd_audio.c:478-487 | SET_CUR prepares a receive of wLength bytes into the 64-byte setup_data | SET_CUR Volume with wLength 65 | MIN(wLength, USB_MAX_EP0_SIZE) | not executed | AudioClass.SetCurOverrunsSetupData | AudioClass.SetupReplyIntended |
| USB/Src/usbd_audio.c:446-452 | DeInit clears the class data pointer before calling StopPlay, which then returns at its NULL check | DeInit while playing: I2S DMA and amplifier stay on | StopPlay before the pointer is cleared | not executed | AudioClass.AudioHandle.DeInit | AudioClass.AudioHandle.DeInitIntended |
| Core/Src/usbd_core.c:16-45 | the middle recipient case label is USB_REQ_SET_INTERFACE (0x0B), not USB_REQ_RECIPIENT_INTERFACE | GET_STATUS with bmRequestType 0x81 stalls; bmRequestType 0x8B is answered | recipient 1 (interface) | not executed | CoreDispatch.InterfaceStatusStalls | CoreDispatch.IntendedInterfaceStatusWorks |
| Core/Src/usbd_core.c:99-105 | SET_CONFIGURATION is accepted only with wLength == 1 | SET_CONFIGURATION(1) with wLength 0 (section 9.4.7 of USB 2.0) stalls | wLength == 0 | not executed | CoreDispatch.StandardSetConfigurationStalls | CoreDispatch.IntendedConfigurationWorks |
| Core/Src/usbd.c:92 | SET_ADDRESS tests wValue == 0 where usbd_core.c tests wIndex == 0 | SET_ADDRESS(5) gets no reply and the device keeps its state | wIndex == 0 | not executed | DraftDispatch.NonzeroAddressIgnored | DraftDispatch.SetupStageIntended |
| LCD/Src/lcd_st7789.c:193 | the refresh window ends at (TFT_WIDTH, TFT_HEIGHT), but CASET/RASET end addresses are inclusive (LCD_Init's own window is 0..0xEF by 0..0x13F) | a 240 by 320 panel: the window holds 241*321 pixels for a 240*320-pixel buffer | (TFT_WIDTH-1, TFT_HEIGHT-1) | not executed | Lcd.WindowOneTooLarge | Lcd.RefreshWindowIntended |
