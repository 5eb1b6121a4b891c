/** The stateful SSD1306 SPI driver: the framebuffer `vram`, the level of the
    DC line and the bytes sent over SPI, kept as a ghost trace of bus events.
    Chip select, the reset line, delays and SPI transactions are not modelled. */
module Ssd1306 {
  import opened Ssd1306Spec

  class Driver {
    const geometry: Geometry
    const palette: Palette
    const opcodes: Opcodes

    /** The framebuffer; null until `Start` obtains it. */
    var vram: array?<bv8>

    /** Level of the DC line: true (high) selects data, false (low) commands. */
    var dataMode: bool

    /** Every byte clocked out over SPI so far, with the DC level it went with. */
    ghost var bus: seq<BusEvent>

    /** The colour codes are distinct, as the labels of one `switch` must be,
        and a buffer, once obtained, has the length fixed by the geometry. */
    ghost predicate Valid()
      reads this
    {
      && palette.Distinct()
      && (vram != null ==> vram.Length == BufferSize(geometry))
    }

    /** The buffer has been obtained. */
    ghost predicate Ready()
      reads this
    {
      Valid() && vram != null
    }

    constructor (g: Geometry, p: Palette, ops: Opcodes)
      requires p.Distinct()
      ensures geometry == g && palette == p && opcodes == ops
      ensures vram == null && !dataMode && bus == []
      ensures Valid()
    {
      geometry, palette, opcodes := g, p, ops;
      vram := null;
      dataMode := false;
      bus := [];
    }

    /** `SPI.transfer(b)`: one byte on the bus at the current DC level. */
    method SpiTransfer(b: bv8)
      modifies this`bus
      ensures bus == old(bus) + [BusEvent(dataMode, b)]
    {
      bus := bus + [BusEvent(dataMode, b)];
    }

    /** `digitalWrite(dc, level)`. */
    method SetDc(high: bool)
      modifies this`dataMode
      ensures dataMode == high
    {
      dataMode := high;
    }

    /** Sends a single command byte. */
    method Command1(c: bv8)
      modifies this`bus, this`dataMode
      ensures !dataMode
      ensures bus == old(bus) + Events(false, [c])
    {
      SetDc(false);
      SpiTransfer(c);
    }

    /** Sends the first `n` entries of table `c`, in index order, as commands. */
    method CommandList(c: seq<bv8>, n: nat)
      requires n <= |c|
      modifies this`bus, this`dataMode
      ensures !dataMode
      ensures bus == old(bus) + Events(false, c[..n])
    {
      SetDc(false);
      var next := 0;
      var left := n;
      while left > 0
        invariant 0 <= next <= n && left == n - next
        invariant !dataMode
        invariant bus == old(bus) + Events(false, c[..next])
      {
        SpiTransfer(c[next]);
        assert c[..next + 1] == c[..next] + [c[next]];
        EventsAppend(false, c[..next], [c[next]]);
        next := next + 1;
        left := left - 1;
      }
    }

    /** The stand-alone single command, in its own transaction. */
    method Command(c: bv8)
      modifies this`bus, this`dataMode
      ensures !dataMode
      ensures bus == old(bus) + Events(false, [c])
    {
      SetDc(false);
      SpiTransfer(c);
    }

    /** Zero-fills the buffer, whatever it held; no bus traffic. */
    method Clear()
      requires Ready()
      modifies vram
      ensures vram[..] == Zeros(BufferSize(geometry))
    {
      forall i | 0 <= i < vram.Length {
        vram[i] := 0;
      }
    }

    /** Sets, clears or toggles the bit of pixel (x, y), as the colour says;
        a colour matching no case leaves the buffer alone. No bounds check:
        callers must pass an on-screen pixel. */
    method Pixel(x: Coord, y: Coord, color: Word)
      requires Ready() && InBounds(geometry, x, y)
      modifies vram
      ensures vram[..] == Plot(geometry, old(vram[..]), x, y, OpFor(palette, color))
    {
      IndexInBuffer(geometry, x, y);
      var i := ByteIndex(geometry, x, y);
      var k := BitOf(y);
      if color == palette.white {
        vram[i] := Apply(SetBit, vram[i], k);
      } else if color == palette.black {
        vram[i] := Apply(ClearBit, vram[i], k);
      } else if color == palette.inverse {
        vram[i] := Apply(ToggleBit, vram[i], k);
      }
    }

    /** `pixel` with the bounds check it lacks: off-screen pixels are ignored. */
    method PixelChecked(x: Coord, y: Coord, color: Word) returns (drawn: bool)
      requires Ready()
      modifies vram
      ensures drawn == InBounds(geometry, x, y)
      ensures drawn ==> vram[..] == Plot(geometry, old(vram[..]), x, y, OpFor(palette, color))
      ensures !drawn ==> vram[..] == old(vram[..])
    {
      drawn := 0 <= x < geometry.width && 0 <= y < geometry.height;
      if drawn {
        Pixel(x, y, color);
      }
    }

    /** The command part of a flush: table `dlist1`, then the column end
        address `WIDTH - 1`. */
    method SendAddressWindow()
      modifies this`bus, this`dataMode
      ensures !dataMode
      ensures bus == old(bus) + Events(false, FlushHeader(geometry, opcodes))
    {
      var dlist1: seq<bv8> := [opcodes.pageAddr, 0x00, 0xFF, opcodes.columnAddr, 0x00];
      CommandList(dlist1, |dlist1|);
      Command1(LowByte(geometry.width - 1));
      EventsAppend(false, dlist1, [LowByte(geometry.width - 1)]);
    }

    /** Flush as written: the address window, then `count` data transfers of
        `*ptr` with `ptr` left at the start of the buffer. */
    method Afisare()
      requires Ready()
      modifies this`bus, this`dataMode
      ensures dataMode
      ensures bus == old(bus) + AfisareStream(geometry, opcodes, vram[..])
      ensures vram[..] == old(vram[..])
    {
      SendAddressWindow();
      ghost var header := bus;
      ghost var v := vram[..];

      var count := FlushCount(geometry);
      var ptr := 0;
      SetDc(true);
      while count > 0
        invariant 0 <= count <= FlushCount(geometry)
        invariant dataMode
        invariant bus == header + Events(true, RepeatFirst(v, FlushCount(geometry) - count))
      {
        ghost var sent := RepeatFirst(v, FlushCount(geometry) - count);
        SpiTransfer(vram[ptr]);
        assert RepeatFirst(v, FlushCount(geometry) - count + 1) == sent + [v[0]];
        EventsAppend(true, sent, [v[0]]);
        count := count - 1;
      }
    }

    /** Flush as evidently intended: `ptr` walks the whole buffer. */
    method AfisareIntended()
      requires Ready()
      modifies this`bus, this`dataMode
      ensures dataMode
      ensures bus == old(bus) + IntendedFlushStream(geometry, opcodes, vram[..])
      ensures vram[..] == old(vram[..])
    {
      SendAddressWindow();
      ghost var header := bus;
      ghost var v := vram[..];

      var count := vram.Length;
      var ptr := 0;
      SetDc(true);
      while count > 0
        invariant 0 <= ptr <= |v| && count == |v| - ptr
        invariant dataMode
        invariant bus == header + Events(true, v[..ptr])
      {
        SpiTransfer(vram[ptr]);
        assert v[..ptr + 1] == v[..ptr] + [vram[ptr]];
        EventsAppend(true, v[..ptr], [vram[ptr]]);
        ptr := ptr + 1;
        count := count - 1;
      }
      assert v[..ptr] == v;
    }

    /** Sets the contrast: the opcode, then the level, both as commands. */
    method Contrast(level: bv8)
      modifies this`bus, this`dataMode
      ensures !dataMode
      ensures bus == old(bus) + Events(false, [SETCONTRAST, level])
      ensures vram == old(vram) && (vram != null ==> vram[..] == old(vram[..]))
    {
      Command1(SETCONTRAST);
      Command1(level);
      EventsAppend(false, [SETCONTRAST], [level]);
    }

    /** Start-up: obtain the buffer unless one is held (`obtained` says
        whether `malloc` succeeds), clear it, flush it, then send the
        initialisation commands. */
    method Start(obtained: bool)
      requires Valid()
      modifies this, vram
      ensures Valid()
      ensures old(vram) == null && !obtained ==> vram == null && bus == old(bus)
      ensures old(vram) != null ==> vram == old(vram)
      ensures old(vram) == null && obtained ==> fresh(vram)
      ensures old(vram) == null && !obtained ==> dataMode == old(dataMode)
      ensures old(vram) != null || obtained ==> !dataMode
      ensures old(vram) != null || obtained ==>
                Ready() && vram[..] == Zeros(BufferSize(geometry)) &&
                bus == old(bus) + AfisareStream(geometry, opcodes, Zeros(BufferSize(geometry)))
                                + Events(false, InitBytes(geometry, opcodes))
    {
      if vram == null {
        if !obtained {
          return;
        }
        vram := new bv8[BufferSize(geometry)];
      }
      Clear();
      Afisare();
      // The reset pulse and chip select are not modelled.
      SendInitSequence();
    }

    /** The register set-up `start` sends after the reset pulse. */
    method SendInitSequence()
      modifies this`bus, this`dataMode
      ensures !dataMode
      ensures bus == old(bus) + Events(false, InitBytes(geometry, opcodes))
    {
      ghost var head, middle, tail := InitHead(geometry, opcodes), InitMiddle(opcodes), InitTail(opcodes);
      SendInitHead();
      SendInitMiddle();
      EventsAppend(false, head, middle);
      SendInitTail();
      EventsAppend(false, head + middle, tail);
      assert head + middle + tail == InitBytes(geometry, opcodes);
    }

    /** Table `init1`, the multiplex ratio, table `init2`, the charge pump. */
    method SendInitHead()
      modifies this`bus, this`dataMode
      ensures !dataMode
      ensures bus == old(bus) + Events(false, InitHead(geometry, opcodes))
    {
      CommandList(INIT1, |INIT1|);
      assert INIT1[..|INIT1|] == INIT1;
      ghost var sent := INIT1;

      Command1(LowByte(geometry.height - 1));
      EventsAppend(false, sent, [LowByte(geometry.height - 1)]);
      sent := sent + [LowByte(geometry.height - 1)];

      CommandList(Init2(opcodes), 4);
      assert Init2(opcodes)[..4] == Init2(opcodes);
      EventsAppend(false, sent, Init2(opcodes));
      sent := sent + Init2(opcodes);

      Command1(0x14);
      EventsAppend(false, sent, [0x14]);
    }

    /** Tables `init3` and `init4b`, then the contrast level. */
    method SendInitMiddle()
      modifies this`bus, this`dataMode
      ensures !dataMode
      ensures bus == old(bus) + Events(false, InitMiddle(opcodes))
    {
      CommandList(Init3(opcodes), 4);
      assert Init3(opcodes)[..4] == Init3(opcodes);
      ghost var sent := Init3(opcodes);

      CommandList(INIT4B, |INIT4B|);
      assert INIT4B[..|INIT4B|] == INIT4B;
      EventsAppend(false, sent, INIT4B);
      sent := sent + INIT4B;

      Command1(0xCF);
      EventsAppend(false, sent, [0xCF]);
    }

    /** The pre-charge period, then table `init5`. */
    method SendInitTail()
      modifies this`bus, this`dataMode
      ensures !dataMode
      ensures bus == old(bus) + Events(false, InitTail(opcodes))
    {
      Command1(SETPRECHARGE);
      ghost var sent: seq<bv8> := [SETPRECHARGE];

      Command1(0xF1);
      EventsAppend(false, sent, [0xF1]);
      sent := sent + [0xF1];

      CommandList(Init5(opcodes), 6);
      assert Init5(opcodes)[..6] == Init5(opcodes);
      EventsAppend(false, sent, Init5(opcodes));
    }
  }
}
