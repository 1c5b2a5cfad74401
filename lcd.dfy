/**
  The frame buffer of the ST7789 display driver in LCD/Src/lcd_st7789.c:
  LCD_DrawRect paints into the buffer in place, and LCD_Sync with the SPI
  transfer-complete callback streams the buffer to the panel in DMA chunks of
  at most 0xFFFF bytes, one chunk per interrupt. The panel size
  (TFT_WIDTH, TFT_HEIGHT) is a parameter; GPIO and SPI calls are returned as
  effects.
 */
module Lcd {
  import opened UsbTypes

  /** uint32_t */
  type u32 = x: int | 0 <= x < 0x1_0000_0000

  /** A call the driver makes into the HAL. */
  datatype LcdEffect =
    | BeginWrite                                  // begin_tft_write: chip select low
    | EndWrite                                    // end_tft_write: chip select high
    | SetWindow(x0: int, y0: int, x1: int, y1: int) // setwindow: CASET, RASET, RAMWR
    | DataMode                                    // D/C high: what follows is pixel data
    | TransmitDma(offset: nat, size: nat)         // HAL_SPI_Transmit_DMA(frameBuffer + offset, size)

  /** The largest chunk one DMA transfer takes: its size is a uint16_t. */
  const MAX_CHUNK := 0xFFFF

  /** min(unsync, 0xFFFF): the size of the next chunk. */
  function ChunkSize(unsync: nat): (r: nat)
    ensures r <= MAX_CHUNK && r <= unsync
    ensures r == unsync || r == MAX_CHUNK
    ensures unsync > 0 ==> r > 0
  {
    if unsync > MAX_CHUNK then MAX_CHUNK else unsync
  }

  /** A chunk of the frame buffer: its byte offset and its size. */
  datatype Chunk = Chunk(offset: nat, size: nat)

  /**
    The chunks that finish a refresh of a `total`-byte buffer of which the
    last `unsync` bytes are still to send.
   */
  function Chunks(total: nat, unsync: nat): (r: seq<Chunk>)
    requires unsync <= total
    ensures r == [] <==> unsync == 0
    ensures r != [] ==> r[0].offset == total - unsync
    ensures r != [] ==> r[0].size == ChunkSize(unsync) && r[0].offset + r[0].size <= total
    decreases unsync
  {
    if unsync == 0 then []
    else [Chunk(total - unsync, ChunkSize(unsync))] + Chunks(total, unsync - ChunkSize(unsync))
  }

  /** The byte offsets lo, lo + 1, ..., hi - 1 in order. */
  function Range(lo: nat, hi: nat): (r: seq<nat>)
    requires lo <= hi
    ensures |r| == hi - lo
    ensures forall k :: 0 <= k < |r| ==> r[k] == lo + k
    decreases hi - lo
  {
    if lo == hi then [] else [lo] + Range(lo + 1, hi)
  }

  /** The byte offsets a list of chunks sends, in the order it sends them. */
  function Sent(chunks: seq<Chunk>): seq<nat>
  {
    if chunks == [] then [] else Range(chunks[0].offset, chunks[0].offset + chunks[0].size) + Sent(chunks[1..])
  }

  lemma RangeSplit(lo: nat, mid: nat, hi: nat)
    requires lo <= mid <= hi
    ensures Range(lo, mid) + Range(mid, hi) == Range(lo, hi)
  {
  }

  /**
    The chunks of a refresh are contiguous and in order: together they send
    every byte from offset total - unsync to the end of the buffer exactly
    once, each chunk is non-empty and at most MAX_CHUNK bytes, and all but
    the last are full.
   */
  lemma {:induction false} ChunksCover(total: nat, unsync: nat)
    requires unsync <= total
    ensures Sent(Chunks(total, unsync)) == Range(total - unsync, total)
    ensures forall k :: 0 <= k < |Chunks(total, unsync)| ==> 0 < Chunks(total, unsync)[k].size <= MAX_CHUNK
    ensures forall k :: 0 <= k < |Chunks(total, unsync)| - 1 ==> Chunks(total, unsync)[k].size == MAX_CHUNK
    decreases unsync
  {
    if unsync > 0 {
      var size := ChunkSize(unsync);
      var rest := Chunks(total, unsync - size);
      ChunksCover(total, unsync - size);
      assert Chunks(total, unsync) == [Chunk(total - unsync, size)] + rest;
      assert ([Chunk(total - unsync, size)] + rest)[1..] == rest;
      RangeSplit(total - unsync, total - unsync + size, total);
      if unsync - size > 0 {
        assert size == MAX_CHUNK;
      }
    }
  }

  /** A whole refresh sends the buffer byte by byte from offset 0, in ceil(total / 0xFFFF) chunks. */
  lemma RefreshSendsAll(total: nat)
    ensures Sent(Chunks(total, total)) == Range(0, total)
    ensures |Chunks(total, total)| == (total + MAX_CHUNK - 1) / MAX_CHUNK
  {
    ChunksCover(total, total);
    ChunkCount(total, total);
  }

  lemma {:induction false} ChunkCount(total: nat, unsync: nat)
    requires unsync <= total
    ensures |Chunks(total, unsync)| == (unsync + MAX_CHUNK - 1) / MAX_CHUNK
    decreases unsync
  {
    if unsync > 0 {
      ChunkCount(total, unsync - ChunkSize(unsync));
    }
  }

  /**
    The window setwindow opens for a refresh, as written: (0, 0) to
    (TFT_WIDTH, TFT_HEIGHT).
   */
  function RefreshWindow(width: nat, height: nat): (r: LcdEffect)
    ensures r.SetWindow? && r.x0 == 0 && r.y0 == 0
    ensures WindowPixels(r) == (width + 1) * (height + 1)
  {
    SetWindow(0, 0, width, height)
  }

  /**
    The number of pixels a window takes before RAMWR wraps: the ST7789 column
    and row address set commands take inclusive end addresses, as LCD_Init's
    own 0..0xEF by 0..0x13F window for a 240 by 320 panel shows.
   */
  function WindowPixels(window: LcdEffect): int
    requires window.SetWindow?
  {
    (window.x1 - window.x0 + 1) * (window.y1 - window.y0 + 1)
  }

  /**
    As written, the refresh window is one column wider and one row taller
    than the frame buffer, so the pixels the buffer sends land one pixel
    further right on every row.
   */
  lemma WindowOneTooLarge(width: nat, height: nat)
    ensures WindowPixels(RefreshWindow(width, height)) == width * height + width + height + 1
    ensures WindowPixels(RefreshWindow(width, height)) > width * height
  {
    assert (width + 1) * (height + 1) == width * height + width + height + 1;
  }

  /** The evidently intended window: the last column and row are TFT_WIDTH - 1 and TFT_HEIGHT - 1. */
  function RefreshWindowIntended(width: nat, height: nat): (r: LcdEffect)
    requires width > 0 && height > 0
    ensures r.SetWindow? && WindowPixels(r) == width * height
    ensures r.x0 == 0 && r.y0 == 0
  {
    SetWindow(0, 0, width - 1, height - 1)
  }

  /** The address of pixel (i, j) in the uint16_t view of frameBuffer: row-major, j * TFT_WIDTH + i. */
  function PixelIndex(width: nat, i: nat, j: nat): nat
  {
    j * width + i
  }

  /** A pixel inside the panel has an address inside the frame buffer. */
  lemma PixelInFrame(width: nat, height: nat, i: nat, j: nat)
    requires i < width && j < height
    ensures PixelIndex(width, i, j) < width * height
  {
    assert j * width <= (height - 1) * width by {
      MulMono(j, height - 1, width);
    }
  }

  lemma MulMono(a: nat, b: nat, c: nat)
    requires a <= b
    ensures a * c <= b * c
  {
  }

  /** The addresses of rows y .. y + h - 1 of column i. */
  ghost function ColumnPixels(width: nat, i: nat, y: nat, h: nat): set<nat>
  {
    if h == 0 then {} else ColumnPixels(width, i, y, h - 1) + {PixelIndex(width, i, y + h - 1)}
  }

  /** The addresses of the w by h rectangle at (x, y), column by column. */
  ghost function RectPixels(width: nat, x: nat, y: nat, w: nat, h: nat): set<nat>
  {
    if w == 0 then {} else RectPixels(width, x, y, w - 1, h) + ColumnPixels(width, x + w - 1, y, h)
  }

  /** The rectangle is exactly the addresses j * TFT_WIDTH + i with x <= i < x + w and y <= j < y + h. */
  lemma {:induction false} RectPixelsMembers(width: nat, x: nat, y: nat, w: nat, h: nat, p: nat)
    ensures p in RectPixels(width, x, y, w, h) <==>
      exists i: nat, j: nat :: x <= i < x + w && y <= j < y + h && p == PixelIndex(width, i, j)
  {
    if w > 0 {
      RectPixelsMembers(width, x, y, w - 1, h, p);
      ColumnPixelsMembers(width, x + w - 1, y, h, p);
    }
  }

  lemma {:induction false} ColumnPixelsMembers(width: nat, i: nat, y: nat, h: nat, p: nat)
    ensures p in ColumnPixels(width, i, y, h) <==> exists j: nat :: y <= j < y + h && p == PixelIndex(width, i, j)
  {
    if h > 0 {
      ColumnPixelsMembers(width, i, y, h - 1, p);
    }
  }

  /** The driver's globals: the frame buffer and the two byte counters. */
  class Display {
    /** TFT_WIDTH and TFT_HEIGHT */
    const width: nat
    const height: nat
    /** frameBuffer as the uint16_t pixels LCD_DrawRect writes; FRAME_BUFFER_BYTES is twice its length. */
    const frameBuffer: array<u16>
    /** The size of the chunk the DMA is sending; 0 when none is in flight. */
    var nBytesSyncing: u32
    /** The bytes at the end of the buffer not yet handed to the DMA. */
    var nBytesUnsync: u32

    /** FRAME_BUFFER_BYTES: TFT_WIDTH * TFT_HEIGHT * sizeof(uint16_t). */
    function FrameBufferBytes(): nat
    {
      2 * frameBuffer.Length
    }

    ghost predicate Valid()
      reads this
    {
      && frameBuffer.Length == width * height
      && FrameBufferBytes() < 0x1_0000_0000
      && nBytesUnsync <= FrameBufferBytes()
      && nBytesSyncing <= MAX_CHUNK
    }

    /** Every address in s is a pixel of the buffer and holds c. */
    ghost predicate Painted(s: set<nat>, c: u16)
      reads frameBuffer
    {
      forall p :: p in s ==> p < frameBuffer.Length && frameBuffer[p] == c
    }

    /** Every pixel outside s holds what it held in before. */
    ghost predicate Kept(s: set<nat>, before: seq<u16>)
      requires |before| == frameBuffer.Length
      reads frameBuffer
    {
      forall p :: 0 <= p < frameBuffer.Length && p !in s ==> frameBuffer[p] == before[p]
    }

    /** The zero-initialised globals. */
    constructor (width: nat, height: nat)
      requires 2 * (width * height) < 0x1_0000_0000
      ensures Valid()
      ensures this.width == width && this.height == height && fresh(frameBuffer)
      ensures nBytesSyncing == 0 && nBytesUnsync == 0
      ensures forall p :: 0 <= p < frameBuffer.Length ==> frameBuffer[p] == 0
    {
      this.width := width;
      this.height := height;
      frameBuffer := new u16[width * height](_ => 0);
      nBytesSyncing := 0;
      nBytesUnsync := 0;
    }

    /**
      LCD_Sync: nothing while a chunk is in flight; with nothing left to
      send, ends the write; otherwise sends the next chunk, opening the
      window first when the chunk is the first of a refresh. The chunk is the
      first of Chunks for the bytes left, and the bytes left afterwards have
      the rest of them.
     */
    method Sync() returns (effects: seq<LcdEffect>)
      requires Valid()
      modifies this
      ensures Valid()
      ensures old(nBytesSyncing) > 0 ==> unchanged(this) && effects == []
      ensures old(nBytesSyncing) == 0 && old(nBytesUnsync) == 0 ==> unchanged(this) && effects == [EndWrite]
      ensures old(nBytesSyncing) == 0 && old(nBytesUnsync) > 0 ==>
        && nBytesSyncing == ChunkSize(old(nBytesUnsync))
        && nBytesSyncing + nBytesUnsync == old(nBytesUnsync)
        && effects == (if old(nBytesUnsync) == FrameBufferBytes()
                       then [BeginWrite, RefreshWindow(width, height), DataMode] else [])
                      + [TransmitDma(FrameBufferBytes() - old(nBytesUnsync), nBytesSyncing)]
        && [Chunk(FrameBufferBytes() - old(nBytesUnsync), nBytesSyncing)] + Chunks(FrameBufferBytes(), nBytesUnsync)
           == Chunks(FrameBufferBytes(), old(nBytesUnsync))
    {
      effects := [];
      if nBytesSyncing > 0 {
        return;
      }
      if nBytesUnsync == 0 {
        effects := [EndWrite];
        return;
      }
      if nBytesUnsync == FrameBufferBytes() {
        effects := [BeginWrite, RefreshWindow(width, height), DataMode];
      }
      var offset := FrameBufferBytes() - nBytesUnsync;
      var size := if nBytesUnsync > 0xFFFF then 0xFFFF else nBytesUnsync;
      nBytesSyncing := size;
      nBytesUnsync := nBytesUnsync - size;
      effects := effects + [TransmitDma(offset, size)];
    }

    /** HAL_SPI_TxCpltCallback: the chunk in flight is done; Sync starts the next one. */
    method TxComplete() returns (effects: seq<LcdEffect>)
      requires Valid()
      modifies this
      ensures Valid()
      ensures old(nBytesUnsync) == 0 ==> nBytesSyncing == 0 && nBytesUnsync == 0 && effects == [EndWrite]
      ensures old(nBytesUnsync) > 0 ==>
        && nBytesSyncing == ChunkSize(old(nBytesUnsync))
        && nBytesSyncing + nBytesUnsync == old(nBytesUnsync)
        && effects == (if old(nBytesUnsync) == FrameBufferBytes()
                       then [BeginWrite, RefreshWindow(width, height), DataMode] else [])
                      + [TransmitDma(FrameBufferBytes() - old(nBytesUnsync), nBytesSyncing)]
        && [Chunk(FrameBufferBytes() - old(nBytesUnsync), nBytesSyncing)] + Chunks(FrameBufferBytes(), nBytesUnsync)
           == Chunks(FrameBufferBytes(), old(nBytesUnsync))
    {
      nBytesSyncing := 0;
      effects := Sync();
    }

    /**
      LCD_DrawRect: paints the w by h rectangle at (x, y) with color, column
      by column, and marks the whole buffer for the next refresh. The uint8_t
      loop counters stay in range because x + w and y + h are at most 255.
     */
    method DrawRect(x: byte, y: byte, w: byte, h: byte, color: u16)
      requires Valid()
      requires x + w <= 255 && y + h <= 255
      requires x + w <= width && y + h <= height
      modifies this, frameBuffer
      ensures Valid()
      ensures nBytesUnsync == FrameBufferBytes() && nBytesSyncing == old(nBytesSyncing)
      ensures forall p :: p in RectPixels(width, x, y, w, h) ==> p < frameBuffer.Length && frameBuffer[p] == color
      ensures forall p :: 0 <= p < frameBuffer.Length && p !in RectPixels(width, x, y, w, h) ==>
        frameBuffer[p] == old(frameBuffer[p])
    {
      ghost var before := frameBuffer[..];
      var i: nat := x;
      assert RectPixels(width, x, y, i - x, h) == {};
      while i < x + w
        invariant x <= i <= x + w
        invariant unchanged(this)
        invariant Painted(RectPixels(width, x, y, i - x, h), color)
        invariant Kept(RectPixels(width, x, y, i - x, h), before)
      {
        var j: nat := y;
        assert RectPixels(width, x, y, i - x, h) + ColumnPixels(width, i, y, j - y) == RectPixels(width, x, y, i - x, h);
        while j < y + h
          invariant y <= j <= y + h
          invariant unchanged(this)
          invariant Painted(RectPixels(width, x, y, i - x, h) + ColumnPixels(width, i, y, j - y), color)
          invariant Kept(RectPixels(width, x, y, i - x, h) + ColumnPixels(width, i, y, j - y), before)
        {
          PixelInFrame(width, height, i, j);
          frameBuffer[PixelIndex(width, i, j)] := color;
          assert ColumnPixels(width, i, y, j + 1 - y) == ColumnPixels(width, i, y, j - y) + {PixelIndex(width, i, j)};
          j := j + 1;
        }
        assert RectPixels(width, x, y, i + 1 - x, h) == RectPixels(width, x, y, i - x, h) + ColumnPixels(width, i, y, h);
        i := i + 1;
      }
      nBytesUnsync := FrameBufferBytes();
    }
  }
}
