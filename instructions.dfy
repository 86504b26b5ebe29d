/** The meaning of the instructions the CPU implements, as functions from the
    machine state before an instruction (or one of its steps) to the state
    after it. The `Cpu` class executes instructions in place and is proved to
    agree with these functions. */
module Instructions {

  /** An unsigned 16-bit value (a u16 of the emulator). */
  type uint16 = x: int | 0 <= x < 0x1_0000

  /** `x + k` with wrap-around at 16 bits, as u16 `wrapping_add` (and, for
      negative `k`, `wrapping_sub`) compute it. */
  function Wrapping(x: uint16, k: int): (r: uint16)
    ensures 0 <= x + k < 0x1_0000 ==> r == x + k
    ensures 0x1_0000 <= x + k < 0x2_0000 ==> r == x + k - 0x1_0000
    ensures -0x1_0000 <= x + k < 0 ==> r == x + k + 0x1_0000
  {
    (x + k) % 0x1_0000
  }

  /** The 64 KiB address space, as read and written through the interconnect. */
  type Memory = m: seq<bv8> | |m| == 0x10000 witness seq(0x10000, _ => 0 as bv8)

  /** The accumulator, the program counter, the four flags (zero, subtract,
      half-carry, carry) and the address space. */
  datatype Machine = Machine(a: bv8, pc: uint16, z: bool, n: bool, h: bool, c: bool, mem: Memory)

  /** A byte produced by a step, and the machine after the step. */
  datatype ByteRead = ByteRead(next: Machine, value: bv8)

  /** A word produced by a step, and the machine after the step. */
  datatype WordRead = WordRead(next: Machine, value: uint16)

  /** How an instruction ended: it completed, or its opcode (after the 0xCB
      prefix, for the second kind) has no instruction, which is fatal. */
  datatype Status = Completed | OpcodeNotImplemented(opcode: bv8) | CbOpcodeNotImplemented(opcode: bv8)

  /** The machine after an instruction, and how the instruction ended. */
  datatype Step = Step(next: Machine, status: Status)

  /** Jump conditions on the zero and carry flags. */
  datatype Cond = Z | C | NZ | NC {
    predicate Holds(z: bool, c: bool)
    {
      match this
      case Z => z
      case C => c
      case NZ => !z
      case NC => !c
    }
  }

  /** NZ and NC are the negations of Z and C: for any flags exactly one of
      each pair holds. */
  lemma ConditionsArePairedNegations(z: bool, c: bool)
    ensures NZ.Holds(z, c) <==> !Z.Holds(z, c)
    ensures NC.Holds(z, c) <==> !C.Holds(z, c)
    ensures Z.Holds(z, c) == z && C.Holds(z, c) == c
  {
  }

  /** 8-bit operands: the accumulator, the byte after the opcode, and the
      high-memory byte at 0xFF00 plus the byte after the opcode. An
      immediate can only be read. */
  datatype Operand8 = A | Immediate8 | HiMem {
    predicate IsDestination() { !Immediate8? }
  }

  /** The 16-bit value whose low byte is `low` and whose high byte is `high`. */
  function Word(low: bv8, high: bv8): (w: uint16)
    ensures w % 0x100 == low as int && w / 0x100 == high as int
  {
    high as int * 0x100 + low as int
  }

  /** The address `offset` bytes into the high page: always in 0xFF00-0xFFFF,
      with `offset` as its low byte. */
  function HiAddress(offset: bv8): (addr: uint16)
    ensures 0xFF00 <= addr && addr % 0x100 == offset as int
  {
    0xFF00 + offset as int
  }

  /** Reads the byte at PC and advances PC by one, wrapping at 0xFFFF. */
  function Fetch8(m: Machine): ByteRead
  {
    ByteRead(m.(pc := Wrapping(m.pc, 1)), m.mem[m.pc])
  }

  /** Reads the byte at PC as the low byte and the next one as the high byte
      of a word. */
  function Fetch16(m: Machine): WordRead
  {
    var low := Fetch8(m);
    var high := Fetch8(low.next);
    WordRead(high.next, Word(low.value, high.value))
  }

  /** Produces the value of an operand; immediates and high memory consume the
      byte after the opcode. */
  function Read8(src: Operand8, m: Machine): ByteRead
  {
    match src
    case A => ByteRead(m, m.a)
    case Immediate8 => Fetch8(m)
    case HiMem =>
      var offset := Fetch8(m);
      ByteRead(offset.next, offset.next.mem[HiAddress(offset.value)])
  }

  /** Stores a value into an operand; high memory consumes its own offset
      byte first. */
  function Write8(dst: Operand8, m: Machine, v: bv8): Machine
    requires dst.IsDestination()
  {
    match dst
    case A => m.(a := v)
    case HiMem =>
      var offset := Fetch8(m);
      offset.next.(mem := offset.next.mem[HiAddress(offset.value) := v])
  }

  /** LD: the source is read, then the destination written; no flag changes. */
  function Load(dst: Operand8, src: Operand8, m: Machine): Machine
    requires dst.IsDestination()
  {
    var r := Read8(src, m);
    Write8(dst, r.next, r.value)
  }

  /** JP: PC becomes the 16-bit immediate. */
  function Jump(m: Machine): Machine
  {
    var target := Fetch16(m);
    target.next.(pc := target.value)
  }

  /** Where a taken relative jump lands: an offset with bit 7 clear is added
      to PC, an offset with bit 7 set is subtracted from it as an unsigned
      byte (wrapping in both cases). */
  function JrTarget(pc: uint16, offset: bv8): uint16
  {
    if offset & 0x80 != 0 then Wrapping(pc, -(offset as int)) else Wrapping(pc, offset as int)
  }

  /** A taken jump moves PC forward by the offset when bit 7 of the offset is
      clear, and backward by the whole unsigned offset byte when it is set. */
  lemma JrMovesByRawOffset(pc: uint16, offset: bv8)
    ensures offset < 0x80 ==> JrTarget(pc, offset) == Wrapping(pc, offset as int)
    ensures offset >= 0x80 ==> JrTarget(pc, offset) == Wrapping(pc, -(offset as int))
  {
  }

  /** JR cc: the offset is read first, then the condition is tested; a jump
      not taken leaves PC just past the offset. */
  function Jr(cond: Cond, src: Operand8, m: Machine): Machine
  {
    var offset := Read8(src, m);
    var m1 := offset.next;
    if cond.Holds(m1.z, m1.c) then m1.(pc := JrTarget(m1.pc, offset.value)) else m1
  }

  /** BIT b: Z tells whether bit `b` of the operand is clear; N cleared, H
      set, C kept. */
  function Bit(b: bv8, src: Operand8, m: Machine): Machine
    requires b < 8
  {
    var r := Read8(src, m);
    r.next.(z := (r.value >> b) & 0x01 == 0, n := false, h := true)
  }

  /** XOR: the accumulator becomes A xor the operand; Z tells whether it is
      zero, N, H and C are cleared. */
  function Xor(src: Operand8, m: Machine): Machine
  {
    var r := Read8(src, m);
    var result := r.next.a ^ r.value;
    r.next.(z := result == 0, n := false, h := false, c := false, a := result)
  }

  /** CP: compares A with the operand without changing A. */
  function Compare(src: Operand8, m: Machine): Machine
  {
    var r := Read8(src, m);
    var a := r.next.a;
    r.next.(n := true, c := a < r.value, z := a == r.value, h := (a - r.value) & 0x0F > a & 0x0F)
  }

  /** The opcodes of the base table (0xCB is the prefix of the second table). */
  predicate IsBaseOpcode(opcode: bv8)
  {
    opcode in {0x00, 0x20, 0x3E, 0xAF, 0xC3, 0xCB, 0xE0, 0xF0, 0xFE}
  }

  /** The opcodes of the table after the 0xCB prefix. */
  predicate IsCbOpcode(opcode: bv8)
  {
    opcode == 0x7F
  }

  /** Runs the instruction whose second opcode byte is at PC (the 0xCB prefix
      already consumed). */
  function ExecuteCb(m: Machine): Step
  {
    var op := Fetch8(m);
    if op.value == 0x7F then Step(Bit(7, A, op.next), Completed)  // BIT 7,A
    else Step(op.next, CbOpcodeNotImplemented(op.value))
  }

  /** Runs the instruction at PC. On an unknown opcode only the opcode fetches
      have happened. */
  function Execute(m: Machine): Step
  {
    var op := Fetch8(m);
    var m1 := op.next;
    var opcode := op.value;
    if opcode == 0x00 then Step(m1, Completed)                           // NOP
    else if opcode == 0x20 then Step(Jr(NZ, Immediate8, m1), Completed)  // JR NZ,r8
    else if opcode == 0x3E then Step(Load(A, Immediate8, m1), Completed) // LD A,d8
    else if opcode == 0xAF then Step(Xor(A, m1), Completed)              // XOR A
    else if opcode == 0xC3 then Step(Jump(m1), Completed)                // JP a16
    else if opcode == 0xCB then ExecuteCb(m1)                            // CB prefix
    else if opcode == 0xE0 then Step(Load(HiMem, A, m1), Completed)      // LDH (a8),A
    else if opcode == 0xF0 then Step(Load(A, HiMem, m1), Completed)      // LDH A,(a8)
    else if opcode == 0xFE then Step(Compare(Immediate8, m1), Completed) // CP d8
    else Step(m1, OpcodeNotImplemented(opcode))
  }

  // ---------------------------------------------------------------------
  // Properties of the steps and operations, for every machine state.

  /** A word fetch moves PC past both bytes, wrapping at 0xFFFF. */
  lemma Fetch16AdvancesTwo(m: Machine)
    ensures Fetch16(m).next == m.(pc := Wrapping(m.pc, 2))
  {
  }

  /** A word fetch is little-endian: the byte at PC is the low byte, the next
      one (wrapping) the high byte. */
  lemma Fetch16IsLittleEndian(m: Machine)
    ensures Fetch16(m).value == Word(m.mem[m.pc], m.mem[Wrapping(m.pc, 1)])
  {
  }

  /** Reading an operand changes nothing but PC, which moves past the bytes
      the operand consumes (none for A, one otherwise). */
  lemma Read8OnlyMovesPc(src: Operand8, m: Machine)
    ensures Read8(src, m).next == m.(pc := if src.A? then m.pc else Wrapping(m.pc, 1))
  {
  }

  /** The half-carry rule of CP is a borrow out of bit 3: it holds exactly
      when the low nibble of the operand exceeds the low nibble of A. */
  lemma CompareHalfCarryIsBorrow(a: bv8, v: bv8)
    ensures ((a - v) & 0x0F > a & 0x0F) <==> (a & 0x0F < v & 0x0F)
  {
  }

  /** A xor v is zero exactly when A equals v. */
  lemma XorIsZeroIffEqual(a: bv8, v: bv8)
    ensures a ^ v == 0 <==> a == v
  {
  }

  /** XOR: A becomes A xor the operand; Z is set exactly when A equalled the
      operand; N, H and C are cleared; PC moves past the operand and memory
      is unchanged. */
  lemma XorFlags(src: Operand8, m: Machine)
    ensures var r := Read8(src, m); var x := Xor(src, m);
      x.a == m.a ^ r.value && x.z == (m.a == r.value) && !x.n && !x.h && !x.c &&
      x.pc == r.next.pc && x.mem == m.mem
  {
    var r := Read8(src, m);
    Read8OnlyMovesPc(src, m);
    XorIsZeroIffEqual(m.a, r.value);
  }

  /** CP in terms of the state after the operand read. */
  lemma CompareAfterRead(src: Operand8, m: Machine)
    ensures var r := Read8(src, m); var a := r.next.a;
      Compare(src, m) == r.next.(n := true, c := a < r.value, z := a == r.value, h := a & 0x0F < r.value & 0x0F)
  {
    var r := Read8(src, m);
    var a := r.next.a;
    assert (a - r.value) & 0x0F > a & 0x0F <==> a & 0x0F < r.value & 0x0F by {
      CompareHalfCarryIsBorrow(a, r.value);
    }
  }

  /** CP: A is unchanged; N is set, C tells A < operand, Z tells A ==
      operand, H tells a borrow out of bit 3; nothing else but PC changes. */
  lemma CompareFlags(src: Operand8, m: Machine)
    ensures var r := Read8(src, m);
      Compare(src, m) == m.(pc := r.next.pc, n := true, c := m.a < r.value, z := m.a == r.value, h := m.a & 0x0F < r.value & 0x0F)
  {
    CompareAfterRead(src, m);
    Read8OnlyMovesPc(src, m);
  }

  /** BIT b: Z is set exactly when bit b of the operand is clear; N is
      cleared, H set, and A, C and memory are unchanged. */
  lemma BitFlags(b: bv8, src: Operand8, m: Machine)
    requires b < 8
    ensures var r := Read8(src, m);
      Bit(b, src, m) == m.(pc := r.next.pc, z := r.value & (1 << b) == 0, n := false, h := true)
  {
    Read8OnlyMovesPc(src, m);
  }

  /** JR cc changes only PC: past the offset when the condition fails, to the
      jump target when it holds. */
  lemma JrOnlyMovesPc(cond: Cond, src: Operand8, m: Machine)
    ensures var r := Read8(src, m);
      Jr(cond, src, m) == m.(pc := if cond.Holds(m.z, m.c) then JrTarget(r.next.pc, r.value) else r.next.pc)
  {
    Read8OnlyMovesPc(src, m);
  }

  /** The relative jump as the architecture defines it: PC plus the offset
      read as a signed byte. */
  function SignedJrTarget(pc: uint16, offset: bv8): uint16
  {
    Wrapping(pc, if offset >= 0x80 then offset as int - 0x100 else offset as int)
  }

  /** The jump as implemented agrees with the signed jump only for forward
      offsets and for 0x80; every other backward offset lands elsewhere. */
  lemma JrTargetAgreesWithSignedIff(pc: uint16, offset: bv8)
    ensures JrTarget(pc, offset) == SignedJrTarget(pc, offset) <==> offset <= 0x80
  {
    var o := offset as int;
    if offset >= 0x80 {
      assert JrTarget(pc, offset) == (pc - o) % 0x1_0000;
      assert SignedJrTarget(pc, offset) == (pc + o - 0x100) % 0x1_0000;
      if offset != 0x80 {
        assert 0x80 < o < 0x100;
      }
    }
  }

  /** Offset 0xFE after a jump instruction ending at 0x0150: the signed jump
      lands at 0x014E, the jump as implemented at 0x0052. */
  lemma JrBackwardExample()
    ensures SignedJrTarget(0x0150, 0xFE) == 0x014E
    ensures JrTarget(0x0150, 0xFE) == 0x0052
  {
  }

  // ---------------------------------------------------------------------
  // The instructions of the opcode tables.

  /** The opcode at PC. */
  function Opcode(m: Machine): bv8
  {
    m.mem[m.pc]
  }

  /** The byte `k` places after PC (wrapping): the operand bytes. */
  function At(m: Machine, k: nat): bv8
  {
    m.mem[Wrapping(m.pc, k)]
  }

  /** Exactly the opcodes of the two tables run; any other opcode is a fatal
      error naming it, after which only the opcode bytes have been consumed. */
  lemma ExecuteFailsExactlyOnUnknownOpcodes(m: Machine)
    ensures !Execute(m).status.Completed? <==> !IsBaseOpcode(Opcode(m)) || (Opcode(m) == 0xCB && !IsCbOpcode(At(m, 1)))
    ensures !IsBaseOpcode(Opcode(m)) ==> Execute(m) == Step(m.(pc := Wrapping(m.pc, 1)), OpcodeNotImplemented(Opcode(m)))
    ensures Opcode(m) == 0xCB && !IsCbOpcode(At(m, 1)) ==>
      Execute(m) == Step(m.(pc := Wrapping(m.pc, 2)), CbOpcodeNotImplemented(At(m, 1)))
  {
  }

  /** NOP (0x00) changes nothing but PC, which moves by one. */
  lemma ExecuteNop(m: Machine)
    requires Opcode(m) == 0x00
    ensures Execute(m) == Step(m.(pc := Wrapping(m.pc, 1)), Completed)
  {
  }

  /** JR NZ,r8 (0x20): PC always passes the offset byte; when Z is clear it
      then moves by the offset. A, the flags and memory are unchanged. */
  lemma ExecuteJrNz(m: Machine)
    requires Opcode(m) == 0x20
    ensures var past := Wrapping(m.pc, 2);
      Execute(m) == Step(m.(pc := if !m.z then JrTarget(past, At(m, 1)) else past), Completed)
  {
    JrOnlyMovesPc(NZ, Immediate8, m.(pc := Wrapping(m.pc, 1)));
  }

  /** LD A,d8 (0x3E): A becomes the byte after the opcode; PC moves by two,
      the flags are unchanged. */
  lemma ExecuteLdAImmediate(m: Machine)
    requires Opcode(m) == 0x3E
    ensures Execute(m) == Step(m.(pc := Wrapping(m.pc, 2), a := At(m, 1)), Completed)
  {
  }

  /** XOR A (0xAF): A becomes 0 and Z is set; N, H and C are cleared; PC
      moves by one. */
  lemma ExecuteXorA(m: Machine)
    requires Opcode(m) == 0xAF
    ensures Execute(m) == Step(m.(pc := Wrapping(m.pc, 1), a := 0, z := true, n := false, h := false, c := false), Completed)
  {
  }

  /** JP a16 (0xC3): PC becomes the little-endian word after the opcode; A,
      the flags and memory are unchanged. */
  lemma ExecuteJp(m: Machine)
    requires Opcode(m) == 0xC3
    ensures Execute(m) == Step(m.(pc := Word(At(m, 1), At(m, 2))), Completed)
  {
    Fetch16IsLittleEndian(m.(pc := Wrapping(m.pc, 1)));
  }

  /** BIT 7,A (0xCB 0x7F): Z is set exactly when bit 7 of A is clear; N is
      cleared, H set; A and C are unchanged; PC moves by two. */
  lemma ExecuteBit7A(m: Machine)
    requires Opcode(m) == 0xCB && At(m, 1) == 0x7F
    ensures Execute(m) == Step(m.(pc := Wrapping(m.pc, 2), z := m.a & 0x80 == 0, n := false, h := true), Completed)
  {
  }

  /** LDH (a8),A (0xE0): A is stored at 0xFF00 plus the byte after the
      opcode; PC moves by two; registers and flags are unchanged. */
  lemma ExecuteLdhStore(m: Machine)
    requires Opcode(m) == 0xE0
    ensures Execute(m) == Step(m.(pc := Wrapping(m.pc, 2), mem := m.mem[HiAddress(At(m, 1)) := m.a]), Completed)
  {
  }

  /** LDH A,(a8) (0xF0): A is loaded from 0xFF00 plus the byte after the
      opcode; PC moves by two; flags and memory are unchanged. */
  lemma ExecuteLdhLoad(m: Machine)
    requires Opcode(m) == 0xF0
    ensures Execute(m) == Step(m.(pc := Wrapping(m.pc, 2), a := m.mem[HiAddress(At(m, 1))]), Completed)
  {
  }

  /** CP d8 (0xFE): compares A with the byte after the opcode, A unchanged;
      PC moves by two. */
  lemma ExecuteCpImmediate(m: Machine)
    requires Opcode(m) == 0xFE
    ensures var v := At(m, 1);
      Execute(m) == Step(m.(pc := Wrapping(m.pc, 2), n := true, c := m.a < v, z := m.a == v, h := m.a & 0x0F < v & 0x0F), Completed)
  {
    CompareFlags(Immediate8, m.(pc := Wrapping(m.pc, 1)));
  }
}
