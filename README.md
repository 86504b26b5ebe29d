# gbc_rs core, modelled in Dafny

This project models the core of `gbc_rs`, a Game Boy (Color) emulator written
in Rust, and proves properties of the model. It covers:

- the **instruction engine** (`src/gbc/cpu.rs`): fetching bytes and
  little-endian words at PC with 16-bit wrap-around, the base opcode table and
  the table behind the `0xCB` prefix, the operand kinds (accumulator,
  8-bit immediate, 16-bit immediate, high memory at `0xFF00 + n`), and the
  LD, LDH, JP, JR cc, XOR, CP and BIT instructions with their flag rules;
- the **MBC1 bank controller** (`src/gbc/mbc/mbc1.rs`): its control
  registers, the ROM and RAM offsets recomputed after every control write,
  and the ROM and RAM windows;
- the **cartridge header** (`src/gbc/cart.rs`): title, hardware type, ROM
  size and bank count;
- the **PPU register file** (`src/gbc/ppu.rs`): nine memory-mapped 8-bit
  registers with their reset values;
- the **constant tables** of `src/gbc/mod.rs`: clock rates and interrupt bits.

Layout, one module per Rust module:

| file | module | models |
|---|---|---|
| `wrappers.dfy` | `Wrappers` | `Option`, `Result` and `Outcome` (a result with no value) |
| `gbc.dfy` | `Gbc` | `CpuClock`, `Interrupt` |
| `cart.dfy` | `Cart` | `Cart`, `CartType` |
| `ppu.dfy` | `Ppu` | `LCDCtrl`, `Ppu` |
| `mbc1.dfy` | `Mbc1` | `Mbc1` and its `Mbc` implementation |
| `instructions.dfy` | `Instructions` | the meaning of each CPU step, as functions on a machine state |
| `cpu.dfy` | `Cpu` | the register file and the `Cpu` methods, executed in place |

The CPU is modelled twice, on purpose. `Instructions` gives every operation
of `cpu.rs` as a function from a `Machine` value (accumulator, PC, the flags
Z, N, H and C, and the 64 KiB address space) to the machine after it, and
proves what each instruction does. `Cpu` is the imperative engine: a
`Registers` object and a 65536-byte array stand for the register file and the
interconnect, and each method is proved to change them exactly as the
matching function says (`State() == Instructions.Jr(cond, src,
old(State()))` and so on). The MBC1 controller and the PPU are classes whose
methods update their fields in place. The title scan of the cartridge header
is a loop with invariants. Everything in `mod.rs` is a pure table.

u8 values are `bv8`, so 8-bit wrap-around is native. PC and other u16 values
are integers in `0..0xFFFF`, and every `wrapping_add`/`wrapping_sub` of the
source is written out with `Instructions.Wrapping`. The `usize` offsets of
the bank controller are `nat`. A Rust `panic!` on an unknown opcode or an
unmapped address is modelled as an error value (`Status`, `Result`,
`Outcome`) that names the opcode or the address. A panic caused by indexing
past the end of a slice is a precondition instead.

## Model

| member | source | states |
|---|---|---|
| Gbc.CpuClock.Value | src/gbc/mod.rs:29-34 | Normal speed is 2^22 Hz (4,194,304) and double speed is 2 × 4,194,304 Hz |
| Gbc.DoubleClockIsTwiceNormal | src/gbc/mod.rs:31-32 | double speed is exactly twice normal speed |
| Gbc.Interrupt.Flag | src/gbc/mod.rs:48-56 | each interrupt's flag has exactly one bit set, and that bit is within the low five bits |
| Gbc.FlagsDisjoint | src/gbc/mod.rs:50-54 | two interrupts share a flag bit if and only if they are the same interrupt |
| Gbc.FlagsCoverLowFiveBits | src/gbc/mod.rs:50-54 | the five flags together are exactly 0x1F |
| Cart.Cart.Name | src/gbc/cart.rs:16-32 | the title is the bytes from 0x0134 up to the first zero byte, never past 0x0142: it is at most 15 bytes long, has no zero byte, and is followed by a zero byte unless it is 15 bytes long |
| Cart.TitleByteIsNonZero | src/gbc/cart.rs:21-28 | byte k of a title is byte 0x0134 + k of the image, and it is not zero |
| Cart.TitleIsUnique | src/gbc/cart.rs:20-29 | the header determines the title: two byte sequences that both meet the title rule are equal |
| Cart.TitleShape | src/gbc/cart.rs:18-29 | a title is a prefix of header bytes 0x0134..0x0142, and it is empty when byte 0x0134 is zero |
| Cart.Cart.Type | src/gbc/cart.rs:34-39 | the type is RomMbc5RamBatt if and only if byte 0x0147 is 0x1B, and Unsupported otherwise |
| Cart.Cart.RomSize | src/gbc/cart.rs:41-46 | the size is 1,048,576 bytes if and only if byte 0x0148 is 0x05; any other code is an error naming that code |
| Cart.Cart.BankCount | src/gbc/cart.rs:48-50 | fails exactly when the ROM size fails, with the same error; otherwise the banks × 16 KiB equal the ROM size, which makes 64 banks |
| Ppu.LcdCtrlReset | src/gbc/ppu.rs:15-20 | the reset LCDC value is 0x91: display enable, tile-data select and background display set, the other five control bits clear |
| Ppu.Ppu.constructor | src/gbc/ppu.rs:43-55 | at reset LCDC is 0x91, SCX, SCY, LY, WY and WX are 0, BGP is 0xFC and OBP0 and OBP1 are 0xFF |
| Ppu.Ppu.Read | src/gbc/ppu.rs:72-85 | a read succeeds if and only if the address is one of the nine register addresses; otherwise it is an error naming the address |
| Ppu.Ppu.Write | src/gbc/ppu.rs:57-70 | a write succeeds if and only if the address is mapped; after it the register reads back the written value and every other address reads as before; a write to an unmapped address is an error and changes nothing |
| Ppu.Ppu.CycleFlush | src/gbc/ppu.rs:87-88 | flushing cycles changes no register |
| Ppu.UnmappedNeighbours | src/gbc/ppu.rs:72-84 | 0xFF41, 0xFF45, 0xFF46 and the neighbours 0xFF3F and 0xFF4C have no register |
| Mbc1.EffectiveRomBank0 | src/gbc/mbc/mbc1.rs:33-37 | the applied low selector never has a zero low nibble, equals the written selector when its low nibble is not zero, and differs from it at most in bit 0 |
| Mbc1.RomOffset | src/gbc/mbc/mbc1.rs:32-46 | the ROM offset is the start of the selected physical bank (the applied low selector plus 32 banks per step of the upper selector in ROM-banking mode), and never the fixed bank 0 |
| Mbc1.RamOffset | src/gbc/mbc/mbc1.rs:48-54 | the RAM offset is a whole number of 8 KiB banks: bank `rom_bank_1` when the mode selector is exactly 1, bank 0 otherwise |
| Mbc1.Mbc1.constructor | src/gbc/mbc/mbc1.rs:16-30 | a new controller is write-protected with all selectors and offsets 0, and owns a fresh zeroed RAM buffer of the header's RAM size, or empty when there is no RAM |
| Mbc1.Mbc1.Read | src/gbc/mbc/mbc1.rs:58-64 | reads succeed if and only if the address is below 0x8000: the fixed window reads `rom[addr]`, the switchable window reads `rom[rom_offset + addr - 0x4000]`; other addresses are an error naming the address |
| Mbc1.Mbc1.Write | src/gbc/mbc/mbc1.rs:66-76 | each of the four ranges sets exactly its own field (write protection becomes `val == 0x0A`); both offsets then agree with the selectors; an address above 0x7FFF is an error and changes nothing |
| Mbc1.Mbc1.UpdateRomOffset | src/gbc/mbc/mbc1.rs:32-46 | the ROM offset becomes the value `RomOffset` gives for the current selectors |
| Mbc1.Mbc1.UpdateRamOffset | src/gbc/mbc/mbc1.rs:48-54 | the RAM offset becomes the value `RamOffset` gives for the current selectors |
| Mbc1.Mbc1.ReadRam | src/gbc/mbc/mbc1.rs:78-80 | the RAM window reads the buffer at `ram_offset + addr - 0xA000` |
| Mbc1.Mbc1.WriteRam | src/gbc/mbc/mbc1.rs:82-84 | after a RAM write the same address reads back the value and every other RAM byte is unchanged; write protection is not consulted |
| Mbc1.SwitchableWindowShowsBank | src/gbc/mbc/mbc1.rs:61 | after a control write, address 0x4000 + k reads byte k of the selected physical bank |
| Mbc1.FixedWindowIgnoresBanks | src/gbc/mbc/mbc1.rs:60 | the fixed window reads the same byte whatever the bank state of the controller |
| Mbc1.ZeroBankAliasesToOne | src/gbc/mbc/mbc1.rs:33-37 | writing 0x00 or 0x01 to the low selector gives the same ROM offset, which is 0x4000 when the upper selector does not contribute |
| Mbc1.UpperNibbleAliasing | src/gbc/mbc/mbc1.rs:33 | only the low nibble is tested: selector 0x10 selects bank 0x11, and no selector selects bank 0x10 through the low selector |
| Mbc1.RamBankSelection | src/gbc/mbc/mbc1.rs:48-54 | RAM-banking mode with bank 2 puts the RAM window at 2 × 8192; any other mode keeps it at 0; outside ROM-banking mode the upper selector adds nothing to the ROM offset |
| Mbc1.RamWindowShowsBank | src/gbc/mbc/mbc1.rs:78-80 | after a control write, address 0xA000 + k reads byte k of the selected RAM bank |
| Mbc1.ResetOffsetIsStale | src/gbc/mbc/mbc1.rs:22 | the reset ROM offset 0 is not the offset the reset selectors give (0x4000) |
| Instructions.ConditionsArePairedNegations | src/gbc/cpu.rs:96-106 | Z and C hold exactly when their flag is set, and NZ and NC hold exactly when Z and C do not |
| Instructions.Wrapping | src/gbc/cpu.rs:224 | a u16 wrapping add (or subtract, for a negative amount) equals the plain sum when in range, and the sum minus or plus 0x10000 when it leaves the range by less than 0x10000 |
| Instructions.Word | src/gbc/cpu.rs:228-232 | the word's low byte is the first byte fetched and its high byte the second |
| Instructions.HiAddress | src/gbc/cpu.rs:69-83 | the high-memory address lies in 0xFF00..0xFFFF and its low byte is the fetched offset |
| Instructions.Fetch16AdvancesTwo | src/gbc/cpu.rs:221-232 | a 16-bit fetch moves PC by two, wrapping, and changes nothing else |
| Instructions.Fetch16IsLittleEndian | src/gbc/cpu.rs:228-232 | a 16-bit fetch returns `mem[pc]` as its low byte and `mem[pc + 1]` (wrapping) as its high byte |
| Instructions.Read8OnlyMovesPc | src/gbc/cpu.rs:55-75 | reading the accumulator changes nothing; reading an immediate or high-memory operand only moves PC past its byte |
| Instructions.JrMovesByRawOffset | src/gbc/cpu.rs:179-188 | a taken JR adds the offset to PC when bit 7 is clear and subtracts the whole unsigned offset byte when it is set, wrapping |
| Instructions.JrOnlyMovesPc | src/gbc/cpu.rs:179-188 | JR reads its offset before testing the condition; it changes only PC, which ends past the offset when the condition fails and at the jump target when it holds |
| Instructions.JrTargetAgreesWithSignedIff | src/gbc/cpu.rs:182-186 | the jump as written lands where a signed 8-bit offset would if and only if the offset is at most 0x80 |
| Instructions.JrBackwardExample | src/gbc/cpu.rs:182-186 | from PC 0x0150, offset 0xFE lands at 0x0052 as written, where a signed offset lands at 0x014E |
| Instructions.BitFlags | src/gbc/cpu.rs:190-195 | BIT b sets Z exactly when bit b of the operand is clear, clears N, sets H, and leaves A, C and memory unchanged |
| Instructions.XorFlags | src/gbc/cpu.rs:197-205 | XOR sets A to A xor operand, sets Z exactly when A equalled the operand, clears N, H and C, and leaves memory unchanged |
| Instructions.CompareHalfCarryIsBorrow | src/gbc/cpu.rs:217 | the half-carry test of CP holds exactly when the operand's low nibble exceeds A's low nibble (a borrow out of bit 3) |
| Instructions.CompareAfterRead | src/gbc/cpu.rs:207-219 | CP's flags from the accumulator and operand seen after the operand read, with the borrow form of H |
| Instructions.CompareFlags | src/gbc/cpu.rs:207-219 | CP leaves A unchanged, sets N, sets C exactly when A < operand, Z exactly when A == operand, and H exactly on a borrow out of bit 3 |
| Instructions.ExecuteFailsExactlyOnUnknownOpcodes | src/gbc/cpu.rs:120-165 | an instruction fails if and only if its opcode is outside the nine base opcodes or it is 0xCB followed by anything but 0x7F; the error names the opcode and only the opcode bytes have been consumed |
| Instructions.ExecuteNop | src/gbc/cpu.rs:124-125 | NOP moves PC by one and changes nothing else |
| Instructions.ExecuteJrNz | src/gbc/cpu.rs:127-128 | JR NZ passes its offset byte, then jumps when Z is clear; A, the flags and memory are unchanged |
| Instructions.ExecuteLdAImmediate | src/gbc/cpu.rs:130-131 | LD A,d8 loads the byte after the opcode into A and moves PC by two; flags unchanged |
| Instructions.ExecuteXorA | src/gbc/cpu.rs:133-134 | XOR A leaves A zero with Z set and N, H, C clear, and moves PC by one |
| Instructions.ExecuteJp | src/gbc/cpu.rs:136-137 | JP a16 sets PC to the little-endian word after the opcode; A, flags and memory unchanged |
| Instructions.ExecuteBit7A | src/gbc/cpu.rs:157-165 | CB 7F sets Z exactly when bit 7 of A is clear, clears N, sets H, keeps A and C, and moves PC by two |
| Instructions.ExecuteLdhStore | src/gbc/cpu.rs:142-143 | LDH (a8),A stores A at 0xFF00 + n and moves PC by two; registers and flags unchanged |
| Instructions.ExecuteLdhLoad | src/gbc/cpu.rs:145-146 | LDH A,(a8) loads A from 0xFF00 + n and moves PC by two; flags and memory unchanged |
| Instructions.ExecuteCpImmediate | src/gbc/cpu.rs:148-149 | CP d8 compares A with the byte after the opcode by the CP flag rules, keeps A, and moves PC by two |
| Cpu.Cpu.constructor | src/gbc/cpu.rs:109-114 | the CPU runs on the given register file and a 64 KiB address space |
| Cpu.Cpu.FetchU8 | src/gbc/cpu.rs:221-226 | returns the byte at PC and advances PC by one, as `Instructions.Fetch8` |
| Cpu.Cpu.FetchU16 | src/gbc/cpu.rs:228-232 | returns the little-endian word at PC and advances PC by two, as `Instructions.Fetch16` |
| Cpu.Cpu.Read | src/gbc/cpu.rs:55-75 | produces an operand's value, consuming its bytes, as `Instructions.Read8` |
| Cpu.Cpu.Write | src/gbc/cpu.rs:77-83 | stores into the accumulator or into high memory after fetching the offset, as `Instructions.Write8` |
| Cpu.Cpu.Load | src/gbc/cpu.rs:169-172 | reads the source before writing the destination, as `Instructions.Load` |
| Cpu.Cpu.Jump | src/gbc/cpu.rs:174-177 | sets PC to the fetched word, as `Instructions.Jump` |
| Cpu.Cpu.Jr | src/gbc/cpu.rs:179-188 | the conditional relative jump, as `Instructions.Jr` |
| Cpu.Cpu.Bit | src/gbc/cpu.rs:190-195 | the bit test, as `Instructions.Bit` |
| Cpu.Cpu.Xor | src/gbc/cpu.rs:197-205 | the exclusive or into A, as `Instructions.Xor` |
| Cpu.Cpu.Compare | src/gbc/cpu.rs:207-219 | the comparison with A, as `Instructions.Compare` |
| Cpu.Cpu.ExecuteCbInstruction | src/gbc/cpu.rs:155-167 | runs the instruction after the 0xCB prefix or reports its unknown opcode, as `Instructions.ExecuteCb` |
| Cpu.Cpu.ExecuteInstruction | src/gbc/cpu.rs:116-153 | runs the instruction at PC or reports its unknown opcode, as `Instructions.Execute` |

## Where the code differs from the hardware

The model follows the code as written. These places differ from the Game Boy
hardware or from the documented MBC1 behaviour, and the model states the
difference instead of correcting it:

- **JR offset.** The hardware adds the offset as a signed byte. The code
  subtracts the whole unsigned byte when bit 7 is set
  (`src/gbc/cpu.rs:182-186`), so offset 0xFE moves PC back by 0xFE, not by 2.
  `Instructions.JrTargetAgreesWithSignedIff` shows that the two agree only
  for offsets up to 0x80. `Instructions.JrBackwardExample` gives one concrete
  case.
- **RAM write protection.** On the hardware, RAM is enabled when the low
  nibble of the written value is 0xA. The code sets the flag to
  `val == 0x0A` (`src/gbc/mbc/mbc1.rs:68`): protected exactly when the value
  is 0x0A, with full-byte equality. The flag is stored, but neither
  `read_ram` nor `write_ram` consults it.
- **Zero-bank aliasing.** The hardware tests the five bank bits for zero.
  The code tests only the low nibble (`src/gbc/mbc/mbc1.rs:33`); see
  `Mbc1.UpperNibbleAliasing`.
- **No bank wrap-around.** The code never reduces a bank number modulo the
  number of banks in the image, so an out-of-range bank indexes past the
  buffer and panics. The model makes those indices preconditions of
  `Mbc1.Mbc1.Read`, `ReadRam` and `WriteRam`.
- **Reset offset.** A new controller has ROM offset 0, which shows bank 0 in
  the switchable window until the first control write. That write
  recomputes the offset to 0x4000 even when the selectors are still 0; see
  `Mbc1.ResetOffsetIsStale`.
- **Fatal-error diagnostics.** The unknown-opcode panics name only the
  opcode, not the program counter, so `Instructions.Status` carries only the
  opcode.

## Left out

- `src/main.rs`: window, file loading, frame channel and event loop are host I/O, and it calls APIs from another revision of the code.
- `src/gbc/disassembler.rs`: debug-only string formatting driven by opcode tables that are not part of this model.
- The `println!` trace of PC in `execute_instruction` (`src/gbc/cpu.rs:118`): output only.
- The interconnect is not part of this model: the address space is a plain 65536-byte array (`Cpu.Cpu.bus`), with no routing to devices and no dropping of writes to protected cartridge RAM.
- The register file (`registers.rs`) is not part of this model: `Cpu.Registers` holds only A, PC and the flags Z, N, H and C, which are all the implemented instructions use; its reset values are constructor parameters, and the other registers and 16-bit register pairs are omitted.
- `Src16`/`Dst16` for 16-bit registers and the unused `Dst16` trait: no implemented instruction uses them. The 16-bit immediate operand appears only in JP and is modelled as the word fetch inside `Jump`.
- Cycle counting, the stack, CALL/RET and interrupts: the code has none of them.
- The timer, sound and gamepad modules, and the `Mbc` trait and `MbcInfo` definitions of `src/gbc/mbc/mod.rs`, are not part of this model; `MbcInfo` is reduced to an optional RAM size.
- `Cart::name` returns the title as bytes. The UTF-8 conversion and its panic on invalid UTF-8 (`src/gbc/cart.rs:31`) are not modelled.
- Cart.Cart.Name: requires that the scan stays inside the image (`TitleReadable`); an image too short for the scan panics in the code on a slice index.
- Cart.Cart.Type and Cart.Cart.RomSize: require the header byte to exist; a shorter image panics in the code.
- Mbc1.Mbc1.Read, Mbc1.Mbc1.ReadRam and Mbc1.Mbc1.WriteRam: require the computed index to lie inside the ROM image or RAM buffer; the code panics on a slice index otherwise.
- The `bitflags!` machinery for LCDC: the register is a plain byte with named bit constants.
- The PPU timing constants `CLKS_SCREEN_REFRESH`, `HBLANK_CLKS` and `VBLANK_CLKS`: the code never uses them.
- Fatal errors are values, not aborts: the model returns the error (naming the opcode or address) and does not model the panic messages' text or the end of the emulation session.
