/**
  What USBD_AUDIO_DataOut does to the bytes of the handle's buffer, as
  functions of the buffer before the call: the in-place volume pass over the
  received packet, the copy of the part that ran past the ring back to its
  start, and the new write pointer.
 */
module AudioRing {
  import opened UsbTypes
  import opened AudioConfig
  import opened AudioVolume

  /** The int16_t stored little-endian at byte offset o. */
  function SampleAt(s: seq<byte>, o: nat): int16
    requires o + 1 < |s|
  {
    Int16FromBytes(s[o], s[o + 1])
  }

  /** s with the two bytes of v stored little-endian at byte offset o. */
  function StoreSample(s: seq<byte>, o: nat, v: int16): (r: seq<byte>)
    requires o + 1 < |s|
    ensures |r| == |s|
    ensures SampleAt(r, o) == v
    ensures forall k :: 0 <= k < |s| && k != o && k != o + 1 ==> r[k] == s[k]
  {
    var b := Int16Bytes(v);
    s[o := b[0]][o + 1 := b[1]]
  }

  /** The per-sample operation of DataOut's volume pass: ApplyVolumeControl at the current volume. */
  function Gain(volume: int16): int16 -> int16
  {
    x => ApplyVolumeControl(x, volume)
  }

  /**
    One iteration of the volume loop with per-sample operation g: the left
    sample at byte f, then the right one at f + 2.
   */
  function ScaleFrame(s: seq<byte>, f: nat, g: int16 -> int16): (r: seq<byte>)
    requires f + 3 < |s|
    ensures |r| == |s|
    ensures forall k :: 0 <= k < |s| && !(f <= k < f + 4) ==> r[k] == s[k]
  {
    var left := StoreSample(s, f, g(SampleAt(s, f)));
    StoreSample(left, f + 2, g(SampleAt(left, f + 2)))
  }

  /** One loop iteration stores g of the left sample in its two bytes ... */
  lemma ScaleFrameLeft(s: seq<byte>, f: nat, g: int16 -> int16)
    requires f + 3 < |s|
    ensures var b := Int16Bytes(g(SampleAt(s, f)));
      ScaleFrame(s, f, g)[f] == b[0] && ScaleFrame(s, f, g)[f + 1] == b[1]
  {
  }

  /** ... and g of the right sample, which the left store did not touch, in the next two. */
  lemma ScaleFrameRight(s: seq<byte>, f: nat, g: int16 -> int16)
    requires f + 3 < |s|
    ensures var b := Int16Bytes(g(SampleAt(s, f + 2)));
      ScaleFrame(s, f, g)[f + 2] == b[0] && ScaleFrame(s, f, g)[f + 3] == b[1]
  {
    var left := StoreSample(s, f, g(SampleAt(s, f)));
    assert SampleAt(left, f + 2) == SampleAt(s, f + 2);
  }

  /** The byte offset of the j-th sample of a pass starting at `start`: ptr[j] of the loop. */
  function Slot(start: nat, j: nat): nat
  {
    start + 2 * j
  }

  /**
    The buffer after the volume pass over `frames` stereo frames (4 bytes,
    left then right) starting at byte `start`: every int16_t sample in that
    range replaced by g of its value, every other byte as before. DataOut's
    pass has g == Gain(volume). The loop that computes it one frame at a time is
    AudioClass.AudioHandle.ScaleFrames, and AttenuatedStep is its step.
   */
  function Attenuated(s: seq<byte>, start: nat, frames: nat, g: int16 -> int16): (r: seq<byte>)
    requires start + 4 * frames <= |s|
    ensures |r| == |s|
    ensures r[..start] == s[..start] && r[start + 4 * frames..] == s[start + 4 * frames..]
  {
    seq(|s|, k requires 0 <= k < |s| =>
      if start <= k < start + 4 * frames then
        var o := SampleOwner(start, k);
        if o + 1 < |s| then Int16Bytes(g(SampleAt(s, o)))[k - o]  // the test always holds
        else s[k]
      else s[k])
  }

  /** The offset of the sample that byte k belongs to, for samples laid end to end from `start`. */
  function SampleOwner(start: nat, k: nat): (o: nat)
    requires start <= k
    ensures start <= o <= k < o + 2
    decreases k - start
  {
    if k < start + 2 then start else SampleOwner(start + 2, k)
  }

  /** Both bytes of the j-th sample belong to that sample. */
  lemma {:induction false} OwnerOfSlot(start: nat, j: nat)
    ensures SampleOwner(start, start + 2 * j) == start + 2 * j
    ensures SampleOwner(start, start + 2 * j + 1) == start + 2 * j
    decreases j
  {
    if j > 0 {
      OwnerOfSlot(start + 2, j - 1);
    }
  }

  /** Attenuated's ensures for one byte outside the frames. */
  lemma AttenuatedOutside(s: seq<byte>, start: nat, frames: nat, g: int16 -> int16, k: nat)
    requires start + 4 * frames <= |s| && k < |s| && !(start <= k < start + 4 * frames)
    ensures Attenuated(s, start, frames, g)[k] == s[k]
  {
  }

  /** The low byte of the j-th sample after the pass. */
  lemma AttenuatedLow(s: seq<byte>, start: nat, frames: nat, g: int16 -> int16, j: nat)
    requires start + 4 * frames <= |s| && j < 2 * frames
    ensures Attenuated(s, start, frames, g)[start + 2 * j]
      == Int16Bytes(g(SampleAt(s, start + 2 * j)))[0]
  {
    OwnerOfSlot(start, j);
  }

  /** The high byte of the j-th sample after the pass. */
  lemma AttenuatedHigh(s: seq<byte>, start: nat, frames: nat, g: int16 -> int16, j: nat)
    requires start + 4 * frames <= |s| && j < 2 * frames
    ensures Attenuated(s, start, frames, g)[start + 2 * j + 1]
      == Int16Bytes(g(SampleAt(s, start + 2 * j)))[1]
  {
    OwnerOfSlot(start, j);
  }

  /**
    Every sample of the pass, the left (even j) and right (odd j) alike, holds
    g of the sample that was there before; for DataOut's pass, ApplyVolumeControl.
   */
  lemma AttenuatedSamples(s: seq<byte>, start: nat, frames: nat, volume: int16)
    requires start + 4 * frames <= |s|
    ensures forall j :: 0 <= j < 2 * frames ==>
      SampleAt(Attenuated(s, start, frames, Gain(volume)), Slot(start, j))
        == ApplyVolumeControl(SampleAt(s, Slot(start, j)), volume)
  {
    forall j | 0 <= j < 2 * frames
      ensures SampleAt(Attenuated(s, start, frames, Gain(volume)), Slot(start, j))
        == ApplyVolumeControl(SampleAt(s, Slot(start, j)), volume)
    {
      AttenuatedLow(s, start, frames, Gain(volume), j);
      AttenuatedHigh(s, start, frames, Gain(volume), j);
    }
  }

  /**
    One more frame of the pass is one more loop iteration: the pass over
    frames + 1 frames is ScaleFrame applied to the pass over the first
    `frames`.
   */
  lemma AttenuatedStep(s: seq<byte>, start: nat, frames: nat, g: int16 -> int16)
    requires start + 4 * (frames + 1) <= |s|
    ensures Attenuated(s, start, frames + 1, g)
      == ScaleFrame(Attenuated(s, start, frames, g), start + 4 * frames, g)
  {
    var r := Attenuated(s, start, frames + 1, g);
    var a := Attenuated(s, start, frames, g);
    var f := start + 4 * frames;
    var b := ScaleFrame(a, f, g);
    NewLeftBytes(s, start, frames, g);
    NewRightBytes(s, start, frames, g);
    forall k | 0 <= k < |s|
      ensures r[k] == b[k]
    {
      if f <= k < f + 4 {
      } else if start <= k < f {
        OldFrameByte(s, start, frames, g, k);
      } else {
        AttenuatedOutside(s, start, frames + 1, g, k);
        AttenuatedOutside(s, start, frames, g, k);
      }
    }
  }

  /** A byte of an earlier frame is the same in the pass over frames and over frames + 1. */
  lemma OldFrameByte(s: seq<byte>, start: nat, frames: nat, g: int16 -> int16, k: nat)
    requires start + 4 * (frames + 1) <= |s| && start <= k < start + 4 * frames
    ensures Attenuated(s, start, frames + 1, g)[k] == Attenuated(s, start, frames, g)[k]
  {
  }

  /** The two bytes of the left sample of the newly scaled frame are the same in the pass and in ScaleFrame. */
  lemma NewLeftBytes(s: seq<byte>, start: nat, frames: nat, g: int16 -> int16)
    requires start + 4 * (frames + 1) <= |s|
    ensures var f := start + 4 * frames;
      var r := Attenuated(s, start, frames + 1, g);
      var b := ScaleFrame(Attenuated(s, start, frames, g), f, g);
      r[f] == b[f] && r[f + 1] == b[f + 1]
  {
    var f := start + 4 * frames;
    var a := Attenuated(s, start, frames, g);
    UnscaledSample(s, start, frames, g, f);
    ScaleFrameLeft(a, f, g);
    assert start + 2 * (2 * frames) == f;
    AttenuatedLow(s, start, frames + 1, g, 2 * frames);
    AttenuatedHigh(s, start, frames + 1, g, 2 * frames);
  }

  /** The two bytes of the right sample of the newly scaled frame are the same in the pass and in ScaleFrame. */
  lemma NewRightBytes(s: seq<byte>, start: nat, frames: nat, g: int16 -> int16)
    requires start + 4 * (frames + 1) <= |s|
    ensures var f := start + 4 * frames;
      var r := Attenuated(s, start, frames + 1, g);
      var b := ScaleFrame(Attenuated(s, start, frames, g), f, g);
      r[f + 2] == b[f + 2] && r[f + 3] == b[f + 3]
  {
    var f := start + 4 * frames;
    var a := Attenuated(s, start, frames, g);
    UnscaledSample(s, start, frames, g, f + 2);
    ScaleFrameRight(a, f, g);
    assert start + 2 * (2 * frames + 1) == f + 2;
    AttenuatedLow(s, start, frames + 1, g, 2 * frames + 1);
    AttenuatedHigh(s, start, frames + 1, g, 2 * frames + 1);
  }

  /** A sample after the frames of the pass still has its old value. */
  lemma UnscaledSample(s: seq<byte>, start: nat, frames: nat, g: int16 -> int16, o: nat)
    requires start + 4 * frames <= o && o + 1 < |s|
    ensures SampleAt(Attenuated(s, start, frames, g), o) == SampleAt(s, o)
  {
    AttenuatedOutside(s, start, frames, g, o);
    AttenuatedOutside(s, start, frames, g, o + 1);
  }

  /** The wrap step: the first `overflow` bytes past the ring are copied to its start. */
  function WrapCopied(s: seq<byte>, overflow: nat): (r: seq<byte>)
    requires AUDIO_TOTAL_BUF_SIZE + overflow <= |s|
    ensures |r| == |s|
    ensures r[..overflow] == s[AUDIO_TOTAL_BUF_SIZE..AUDIO_TOTAL_BUF_SIZE + overflow]
    ensures r[overflow..] == s[overflow..]
  {
    seq(|s|, k requires 0 <= k < |s| => if k < overflow then s[AUDIO_TOTAL_BUF_SIZE + k] else s[k])
  }

  /**
    wr_ptr after a packet: advanced by the packet size and rolled back by the
    ring size once it reaches the end. It stays on the ring, and the receive
    window of one packet re-armed there lies inside the buffer.
   */
  function Advance(wrPtr: nat, packetSize: nat): (r: nat)
    requires wrPtr < AUDIO_TOTAL_BUF_SIZE && packetSize <= AUDIO_OUT_PACKET
    ensures r < AUDIO_TOTAL_BUF_SIZE
    ensures r == (wrPtr + packetSize) % AUDIO_TOTAL_BUF_SIZE
    ensures r + AUDIO_OUT_PACKET <= AUDIO_BUFFER_SIZE
  {
    if wrPtr + packetSize >= AUDIO_TOTAL_BUF_SIZE then wrPtr + packetSize - AUDIO_TOTAL_BUF_SIZE
    else wrPtr + packetSize
  }

  /** The buffer after DataOut has processed a packet of packetSize bytes received at wrPtr. */
  function Received(s: seq<byte>, wrPtr: nat, packetSize: nat, volume: int16): (r: seq<byte>)
    requires |s| == AUDIO_BUFFER_SIZE
    requires wrPtr < AUDIO_TOTAL_BUF_SIZE && packetSize <= AUDIO_OUT_PACKET
    ensures |r| == |s|
  {
    var a := Attenuated(s, wrPtr, packetSize / 4, Gain(volume));
    if wrPtr + packetSize >= AUDIO_TOTAL_BUF_SIZE then WrapCopied(a, wrPtr + packetSize - AUDIO_TOTAL_BUF_SIZE)
    else a
  }

  /**
    Read as a ring of AUDIO_TOTAL_BUF_SIZE bytes, the buffer after DataOut
    holds the whole packet, volume pass applied, contiguously from the old
    write pointer (wrapping at the end of the ring), and every other byte of
    the ring is as before.
   */
  lemma ReceivedOnRing(s: seq<byte>, wrPtr: nat, packetSize: nat, volume: int16)
    requires |s| == AUDIO_BUFFER_SIZE
    requires wrPtr < AUDIO_TOTAL_BUF_SIZE && packetSize <= AUDIO_OUT_PACKET
    ensures var r := Received(s, wrPtr, packetSize, volume);
      && (forall p :: wrPtr <= p < wrPtr + packetSize ==>
            r[p % AUDIO_TOTAL_BUF_SIZE] == Attenuated(s, wrPtr, packetSize / 4, Gain(volume))[p])
      && (forall k :: (0 <= k < AUDIO_TOTAL_BUF_SIZE && !(wrPtr <= k < wrPtr + packetSize)
                       && k + AUDIO_TOTAL_BUF_SIZE >= wrPtr + packetSize) ==> r[k] == s[k])
  {
    var a := Attenuated(s, wrPtr, packetSize / 4, Gain(volume));
    forall p | wrPtr <= p < wrPtr + packetSize
      ensures Received(s, wrPtr, packetSize, volume)[p % AUDIO_TOTAL_BUF_SIZE] == a[p]
    {
      PacketByteOnRing(s, wrPtr, packetSize, volume, p);
    }
    forall k | 0 <= k < AUDIO_TOTAL_BUF_SIZE && !(wrPtr <= k < wrPtr + packetSize)
          && k + AUDIO_TOTAL_BUF_SIZE >= wrPtr + packetSize
      ensures Received(s, wrPtr, packetSize, volume)[k] == s[k]
    {
      OtherByteOnRing(s, wrPtr, packetSize, volume, k);
    }
  }

  /** Byte p of the attenuated packet lands at p modulo the ring size. */
  lemma PacketByteOnRing(s: seq<byte>, wrPtr: nat, packetSize: nat, volume: int16, p: nat)
    requires |s| == AUDIO_BUFFER_SIZE
    requires wrPtr < AUDIO_TOTAL_BUF_SIZE && packetSize <= AUDIO_OUT_PACKET
    requires wrPtr <= p < wrPtr + packetSize
    ensures Received(s, wrPtr, packetSize, volume)[p % AUDIO_TOTAL_BUF_SIZE]
      == Attenuated(s, wrPtr, packetSize / 4, Gain(volume))[p]
  {
    var r := Received(s, wrPtr, packetSize, volume);
    if p < AUDIO_TOTAL_BUF_SIZE {
      assert p % AUDIO_TOTAL_BUF_SIZE == p;
      if wrPtr + packetSize >= AUDIO_TOTAL_BUF_SIZE {
        var overflow := wrPtr + packetSize - AUDIO_TOTAL_BUF_SIZE;
        assert r[p] == r[overflow..][p - overflow];
      }
    } else {
      var overflow := wrPtr + packetSize - AUDIO_TOTAL_BUF_SIZE;
      assert p % AUDIO_TOTAL_BUF_SIZE == p - AUDIO_TOTAL_BUF_SIZE;
      assert r[p - AUDIO_TOTAL_BUF_SIZE] == r[..overflow][p - AUDIO_TOTAL_BUF_SIZE];
    }
  }

  /** A ring byte outside the packet's window, wrapped or not, keeps its value. */
  lemma OtherByteOnRing(s: seq<byte>, wrPtr: nat, packetSize: nat, volume: int16, k: nat)
    requires |s| == AUDIO_BUFFER_SIZE
    requires wrPtr < AUDIO_TOTAL_BUF_SIZE && packetSize <= AUDIO_OUT_PACKET
    requires k < AUDIO_TOTAL_BUF_SIZE && !(wrPtr <= k < wrPtr + packetSize)
    requires k + AUDIO_TOTAL_BUF_SIZE >= wrPtr + packetSize
    ensures Received(s, wrPtr, packetSize, volume)[k] == s[k]
  {
    var r := Received(s, wrPtr, packetSize, volume);
    var a := Attenuated(s, wrPtr, packetSize / 4, Gain(volume));
    AttenuatedOutside(s, wrPtr, packetSize / 4, Gain(volume), k);
    if wrPtr + packetSize >= AUDIO_TOTAL_BUF_SIZE {
      var overflow := wrPtr + packetSize - AUDIO_TOTAL_BUF_SIZE;
      assert r[k] == r[overflow..][k - overflow];
    }
  }
}
