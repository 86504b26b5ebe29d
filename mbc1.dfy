/** The MBC1 memory bank controller: it owns the cartridge RAM and the bank
    selectors, and maps the CPU's ROM windows (0x0000-0x3FFF fixed,
    0x4000-0x7FFF switchable) and RAM window (from 0xA000) onto the ROM image
    and the RAM buffer. */
module Mbc1 {
  import opened Wrappers

  const RomBankSize: nat := 0x4000
  const RamBankSize: nat := 0x2000
  /** The ROM distance selected by one step of the upper selector (32 banks). */
  const UpperRomStride: nat := 512 * 1024

  /** What the cartridge header says about the controller's RAM. */
  datatype RamInfo = RamInfo(size: nat)
  datatype MbcInfo = MbcInfo(ramInfo: Option<RamInfo>)

  /** A fatal error: the address is outside the controller's windows. */
  datatype MbcError = AddressOutOfRange(addr: bv16) | IllegalAddress(addr: bv16)

  /** The low ROM-bank selector as the controller applies it: a selector whose
      low nibble is zero is bumped to the next bank by setting bit 0; any
      other selector is used as it is. */
  function EffectiveRomBank0(b: bv8): (r: bv8)
    ensures r & 0x0F != 0
    ensures b & 0x0F != 0 ==> r == b
    ensures r & 0xFE == b & 0xFE
  {
    if b & 0x0F == 0 then b | 0x01 else b
  }

  /** The number of the physical bank the switchable window shows: the
      effective low selector, plus 32 banks per step of the upper selector
      while `ramSelect` is 0. */
  function SwitchableBank(romBank0: bv8, romBank1: bv8, ramSelect: bv8): nat
  {
    EffectiveRomBank0(romBank0) as nat + (if ramSelect == 0 then 32 * romBank1 as nat else 0)
  }

  /** Where the switchable ROM window starts in the image: the start of the
      selected bank, which is never the fixed bank 0. */
  function RomOffset(romBank0: bv8, romBank1: bv8, ramSelect: bv8): (r: nat)
    ensures r == SwitchableBank(romBank0, romBank1, ramSelect) * RomBankSize
    ensures r >= RomBankSize
  {
    var bank0 := EffectiveRomBank0(romBank0) as nat;
    var bank1 := if ramSelect == 0 then romBank1 as nat else 0;
    bank0 * RomBankSize + bank1 * UpperRomStride
  }

  /** Where the RAM window starts in the RAM buffer: bank `romBank1` when
      `ramSelect` is exactly 1, bank 0 otherwise. */
  function RamOffset(romBank1: bv8, ramSelect: bv8): (r: nat)
    ensures r % RamBankSize == 0
    ensures r / RamBankSize == (if ramSelect == 1 then romBank1 as nat else 0)
  {
    if ramSelect == 1 then romBank1 as nat * 8 * 1024 else 0
  }

  class Mbc1 {
    var ramWriteProtected: bool
    var romBank0: bv8
    var romBank1: bv8
    var ramSelect: bv8
    var romOffset: nat
    var ramOffset: nat
    const ram: array<bv8>

    /** Both offsets agree with the current selectors. */
    ghost predicate OffsetsCurrent()
      reads this
    {
      romOffset == RomOffset(romBank0, romBank1, ramSelect) && ramOffset == RamOffset(romBank1, ramSelect)
    }

    /** A controller at power-on: RAM write-protected, every selector and
        offset 0, and a zeroed RAM buffer of the size the header gives (empty
        when the cartridge has no RAM). */
    constructor (info: MbcInfo)
      ensures ramWriteProtected
      ensures romBank0 == 0 && romBank1 == 0 && ramSelect == 0
      ensures romOffset == 0 && ramOffset == 0
      ensures fresh(ram) && ram.Length == (if info.ramInfo.Some? then info.ramInfo.value.size else 0)
      ensures forall i :: 0 <= i < ram.Length ==> ram[i] == 0
    {
      ramWriteProtected := true;
      romBank0, romBank1, ramSelect := 0, 0, 0;
      romOffset, ramOffset := 0, 0;
      var size := if info.ramInfo.Some? then info.ramInfo.value.size else 0;
      ram := new bv8[size](_ => 0);
    }

    /** A byte of the ROM image as the CPU sees it through the two ROM
        windows; every other address is a fatal error. */
    function Read(rom: seq<bv8>, addr: bv16): (r: Result<bv8, MbcError>)
      reads this
      requires addr <= 0x3FFF ==> addr as nat < |rom|
      requires 0x4000 <= addr <= 0x7FFF ==> addr as nat - 0x4000 + romOffset < |rom|
      ensures r.Ok? <==> addr <= 0x7FFF
      ensures r.Err? ==> r.error == AddressOutOfRange(addr)
      ensures addr <= 0x3FFF ==> r.Ok? && r.value == rom[addr]
      ensures 0x4000 <= addr <= 0x7FFF ==> r.Ok? && r.value == rom[romOffset + (addr - 0x4000) as nat]
    {
      if addr <= 0x3FFF then Ok(rom[addr])
      else if addr <= 0x7FFF then Ok(rom[addr as nat - 0x4000 + romOffset])
      else Err(AddressOutOfRange(addr))
    }

    /** A write to one of the four control registers. 0x0000-0x1FFF sets the
        RAM write-protect flag to whether the value is exactly 0x0A,
        0x2000-0x3FFF, 0x4000-0x5FFF and 0x6000-0x7FFF set the low ROM
        selector, the upper selector and the RAM/ROM mode selector; then both
        offsets are recomputed. Any other address is a fatal error that
        changes nothing. The RAM contents are never touched. */
    method Write(addr: bv16, val: bv8) returns (r: Outcome<MbcError>)
      modifies this
      ensures r.Pass? <==> addr <= 0x7FFF
      ensures r.Fail? ==> r.error == IllegalAddress(addr) && unchanged(this)
      ensures r.Pass? ==> OffsetsCurrent()
      ensures r.Pass? ==> ramWriteProtected == (if addr <= 0x1FFF then val == 0x0A else old(ramWriteProtected))
      ensures r.Pass? ==> romBank0 == (if 0x2000 <= addr <= 0x3FFF then val else old(romBank0))
      ensures r.Pass? ==> romBank1 == (if 0x4000 <= addr <= 0x5FFF then val else old(romBank1))
      ensures r.Pass? ==> ramSelect == (if 0x6000 <= addr <= 0x7FFF then val else old(ramSelect))
    {
      if addr <= 0x1FFF {
        ramWriteProtected := val == 0x0A;
      } else if addr <= 0x3FFF {
        romBank0 := val;
      } else if addr <= 0x5FFF {
        romBank1 := val;
      } else if addr <= 0x7FFF {
        ramSelect := val;
      } else {
        return Fail(IllegalAddress(addr));
      }
      UpdateRomOffset();
      UpdateRamOffset();
      r := Pass;
    }

    /** Recomputes the ROM offset from the selectors. */
    method UpdateRomOffset()
      modifies this`romOffset
      ensures romOffset == RomOffset(romBank0, romBank1, ramSelect)
    {
      var bank0 := if romBank0 & 0x0F == 0 then romBank0 | 0x01 else romBank0;
      var bank1 := if ramSelect == 0 then romBank1 else 0;
      romOffset := bank0 as nat * 0x4000 + bank1 as nat * 512 * 1024;
    }

    /** Recomputes the RAM offset from the selectors. */
    method UpdateRamOffset()
      modifies this`ramOffset
      ensures ramOffset == RamOffset(romBank1, ramSelect)
    {
      ramOffset := if ramSelect == 1 then romBank1 as nat * 8 * 1024 else 0;
    }

    /** The RAM byte behind CPU address `addr` of the RAM window. */
    function ReadRam(addr: bv16): (v: bv8)
      reads this, ram
      requires 0xA000 <= addr && (addr - 0xA000) as nat + ramOffset < ram.Length
      ensures v == ram[ramOffset + (addr - 0xA000) as nat]
    {
      ram[addr as nat - 0xA000 + ramOffset]
    }

    /** Stores `val` in the RAM byte behind `addr`, whatever the write
        protection says: afterwards `ReadRam(addr)` is `val` and every other
        RAM byte is unchanged. */
    method WriteRam(addr: bv16, val: bv8)
      requires 0xA000 <= addr && (addr - 0xA000) as nat + ramOffset < ram.Length
      modifies ram
      ensures ReadRam(addr) == val
      ensures ram[..] == old(ram[..])[ramOffset + (addr - 0xA000) as nat := val]
    {
      ram[addr as nat - 0xA000 + ramOffset] := val;
    }
  }

  /** With current offsets, the switchable window at 0x4000 + k reads byte k
      of the selected physical bank. */
  lemma SwitchableWindowShowsBank(m: Mbc1, rom: seq<bv8>, addr: bv16)
    requires m.OffsetsCurrent() && 0x4000 <= addr <= 0x7FFF
    requires SwitchableBank(m.romBank0, m.romBank1, m.ramSelect) * RomBankSize + (addr - 0x4000) as nat < |rom|
    ensures m.Read(rom, addr) == Ok(rom[SwitchableBank(m.romBank0, m.romBank1, m.ramSelect) * RomBankSize + (addr - 0x4000) as nat])
  {
  }

  /** The fixed window reads the same whatever the bank state. */
  lemma FixedWindowIgnoresBanks(m: Mbc1, n: Mbc1, rom: seq<bv8>, addr: bv16)
    requires addr <= 0x3FFF && addr as nat < |rom|
    ensures m.Read(rom, addr) == n.Read(rom, addr) == Ok(rom[addr])
  {
  }

  /** Writing 0x00 or 0x01 to the low ROM selector selects the same bank; with
      the upper selector out of play that bank is bank 1. */
  lemma ZeroBankAliasesToOne(romBank1: bv8, ramSelect: bv8)
    ensures RomOffset(0x00, romBank1, ramSelect) == RomOffset(0x01, romBank1, ramSelect)
    ensures ramSelect != 0 || romBank1 == 0 ==> RomOffset(0x00, romBank1, ramSelect) == 0x4000
  {
  }

  /** Only the low nibble is tested for zero: selector 0x10 selects bank 0x11,
      so bank 0x10 is unreachable through the low selector. */
  lemma UpperNibbleAliasing()
    ensures RomOffset(0x10, 0, 0) == 0x11 * RomBankSize
    ensures forall b: bv8 :: EffectiveRomBank0(b) != 0x10
  {
  }

  /** RAM-banking mode (selector 1) with bank 2 puts the RAM window at offset
      2 * 8 KiB; any mode selector other than 1 keeps RAM at offset 0, and any
      selector other than 0 keeps the upper bits out of the ROM offset. */
  lemma RamBankSelection(romBank1: bv8, ramSelect: bv8)
    ensures RamOffset(2, 1) == 2 * 8192
    ensures ramSelect != 1 ==> RamOffset(romBank1, ramSelect) == 0
    ensures ramSelect != 0 ==> RomOffset(0x01, romBank1, ramSelect) == RomBankSize
  {
  }

  /** With current offsets, the RAM window at 0xA000 + k reads byte k of RAM
      bank `romBank1` in RAM-banking mode (selector 1), of bank 0 otherwise. */
  lemma RamWindowShowsBank(m: Mbc1, addr: bv16)
    requires m.OffsetsCurrent() && 0xA000 <= addr
    requires (addr - 0xA000) as nat + m.ramOffset < m.ram.Length
    ensures var bank := if m.ramSelect == 1 then m.romBank1 as nat else 0;
      m.ReadRam(addr) == m.ram[bank * RamBankSize + (addr - 0xA000) as nat]
  {
  }

  /** The power-on offsets are not the ones the selectors give: at reset the
      switchable window shows bank 0 (offset 0), while after the first control
      write with the same selectors it shows bank 1. */
  lemma ResetOffsetIsStale()
    ensures RomOffset(0, 0, 0) == RomBankSize != 0
  {
  }
}
