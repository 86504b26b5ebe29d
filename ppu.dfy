/** The picture processing unit's memory-mapped register file: nine 8-bit
    registers at fixed I/O addresses, with their reset values. Rendering and
    video timing are not part of this model. */
module Ppu {
  import opened Wrappers

  // Bits of the LCD control register (LCDC).
  const LcdDisplayEnable: bv8 := 0x80
  const WindowTileMapDisplaySelect: bv8 := 0x40
  const WindowDisplayEnable: bv8 := 0x20
  const BgWindowTileDataSelect: bv8 := 0x10
  const BgTileMapDisplaySelect: bv8 := 0x08
  const ObjSize: bv8 := 0x04
  const ObjDisplayEnable: bv8 := 0x02
  const BgDisplay: bv8 := 0x01

  // The register addresses.
  const LcdcAddr: bv16 := 0xFF40
  const ScyAddr: bv16 := 0xFF42
  const ScxAddr: bv16 := 0xFF43
  const LyAddr: bv16 := 0xFF44
  const BgpAddr: bv16 := 0xFF47
  const Obp0Addr: bv16 := 0xFF48
  const Obp1Addr: bv16 := 0xFF49
  const WyAddr: bv16 := 0xFF4A
  const WxAddr: bv16 := 0xFF4B

  /** The addresses that have a register behind them. */
  predicate IsMapped(addr: bv16)
  {
    addr in {LcdcAddr, ScyAddr, ScxAddr, LyAddr, BgpAddr, Obp0Addr, Obp1Addr, WyAddr, WxAddr}
  }

  /** A fatal error: the address has no register behind it. */
  datatype PpuError = ReadNotImplemented(addr: bv16) | WriteNotImplemented(addr: bv16)

  /** The LCD control value at reset: display on, tile data at 0x8000 and
      background on; every other control bit clear. */
  function LcdCtrlReset(): (r: bv8)
    ensures r == 0x91
    ensures r & LcdDisplayEnable != 0 && r & BgWindowTileDataSelect != 0 && r & BgDisplay != 0
    ensures r & (WindowTileMapDisplaySelect | WindowDisplayEnable | BgTileMapDisplaySelect | ObjSize | ObjDisplayEnable) == 0
  {
    LcdDisplayEnable | BgWindowTileDataSelect | BgDisplay
  }

  class Ppu {
    var lcdc: bv8
    var scx: bv8
    var scy: bv8
    var ly: bv8
    var bgp: bv8   // background palette
    var obp0: bv8  // object palette 0
    var obp1: bv8  // object palette 1
    var windowY: bv8
    var windowX: bv8

    /** The registers at power-on. */
    constructor ()
      ensures lcdc == LcdCtrlReset()
      ensures scx == 0 && scy == 0 && ly == 0 && windowY == 0 && windowX == 0
      ensures bgp == 0xFC && obp0 == 0xFF && obp1 == 0xFF
    {
      lcdc := LcdCtrlReset();
      scx, scy, ly := 0, 0, 0;
      windowY, windowX := 0, 0;
      bgp, obp0, obp1 := 0xFC, 0xFF, 0xFF;
    }

    /** The register at `addr`; an unmapped address is a fatal error. */
    function Read(addr: bv16): (r: Result<bv8, PpuError>)
      reads this
      ensures r.Ok? <==> IsMapped(addr)
      ensures r.Err? ==> r.error == ReadNotImplemented(addr)
    {
      if addr == LcdcAddr then Ok(lcdc)
      else if addr == ScyAddr then Ok(scy)
      else if addr == ScxAddr then Ok(scx)
      else if addr == LyAddr then Ok(ly)
      else if addr == BgpAddr then Ok(bgp)
      else if addr == Obp0Addr then Ok(obp0)
      else if addr == Obp1Addr then Ok(obp1)
      else if addr == WyAddr then Ok(windowY)
      else if addr == WxAddr then Ok(windowX)
      else Err(ReadNotImplemented(addr))
    }

    /** Stores `val` in the register at `addr`: afterwards that register reads
        back `val` and every other register reads as before. An unmapped
        address is a fatal error and changes nothing. */
    method Write(addr: bv16, val: bv8) returns (r: Outcome<PpuError>)
      modifies this
      ensures r.Pass? <==> IsMapped(addr)
      ensures r.Fail? ==> r.error == WriteNotImplemented(addr) && unchanged(this)
      ensures r.Pass? ==> Read(addr) == Ok(val)
      ensures forall other: bv16 :: other != addr ==> Read(other) == old(Read(other))
    {
      r := Pass;
      if addr == LcdcAddr { lcdc := val; }
      else if addr == ScyAddr { scy := val; }
      else if addr == ScxAddr { scx := val; }
      else if addr == LyAddr { ly := val; }
      else if addr == BgpAddr { bgp := val; }
      else if addr == Obp0Addr { obp0 := val; }
      else if addr == Obp1Addr { obp1 := val; }
      else if addr == WyAddr { windowY := val; }
      else if addr == WxAddr { windowX := val; }
      else { r := Fail(WriteNotImplemented(addr)); }
    }

    /** Advancing video time does nothing to the registers. */
    method CycleFlush(cycleCount: bv32)
      modifies this
      ensures unchanged(this)
    {
    }
  }

  /** The gaps inside the register block (0xFF41 and 0xFF45-0xFF46) and its
      two outer neighbours have no register behind them. */
  lemma UnmappedNeighbours(p: Ppu)
    ensures p.Read(0xFF41).Err? && p.Read(0xFF45).Err? && p.Read(0xFF46).Err?
    ensures p.Read(0xFF3F).Err? && p.Read(0xFF4C).Err?
  {
  }
}
