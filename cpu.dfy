/** The instruction engine: a register file and a CPU that fetches, decodes
    and executes one instruction at a time against the address space. Every
    method is proved to change the state exactly as the corresponding function
    of `Instructions` says, so the properties proved there hold of it. */
module Cpu {
  import Instructions

  /** The registers the implemented instructions use: the accumulator, the
      program counter and the four flags. */
  class Registers {
    var a: bv8
    var pc: Instructions.uint16
    var z: bool
    var n: bool
    var h: bool
    var c: bool

    constructor (a: bv8, pc: Instructions.uint16, z: bool, n: bool, h: bool, c: bool)
      ensures this.a == a && this.pc == pc
      ensures this.z == z && this.n == n && this.h == h && this.c == c
    {
      this.a, this.pc := a, pc;
      this.z, this.n, this.h, this.c := z, n, h, c;
    }
  }

  class Cpu {
    const regs: Registers
    /** The address space as the interconnect presents it. */
    const bus: array<bv8>

    ghost predicate Valid()
    {
      bus.Length == 0x1_0000
    }

    /** The machine state: the registers and the contents of the bus. */
    ghost function State(): Instructions.Machine
      reads regs, bus
      requires Valid()
    {
      Instructions.Machine(regs.a, regs.pc, regs.z, regs.n, regs.h, regs.c, bus[..])
    }

    constructor (regs: Registers, bus: array<bv8>)
      requires bus.Length == 0x1_0000
      ensures this.regs == regs && this.bus == bus && Valid()
    {
      this.regs, this.bus := regs, bus;
    }

    method FetchU8() returns (v: bv8)
      requires Valid()
      modifies regs
      ensures Instructions.ByteRead(State(), v) == Instructions.Fetch8(old(State()))
    {
      var pc := regs.pc;
      v := bus[pc];
      regs.pc := Instructions.Wrapping(pc, 1);
    }

    method FetchU16() returns (w: Instructions.uint16)
      requires Valid()
      modifies regs
      ensures Instructions.WordRead(State(), w) == Instructions.Fetch16(old(State()))
    {
      var low := FetchU8();
      var high := FetchU8();
      w := high as int * 0x100 + low as int;
    }

    /** Produces the value of an operand. */
    method Read(src: Instructions.Operand8) returns (v: bv8)
      requires Valid()
      modifies regs
      ensures Instructions.ByteRead(State(), v) == Instructions.Read8(src, old(State()))
    {
      match src
      case A =>
        v := regs.a;
      case Immediate8 =>
        v := FetchU8();
      case HiMem =>
        var offset := FetchU8();
        var address := 0xFF00 + offset as int;
        v := bus[address];
    }

    /** Stores a value into an operand. */
    method Write(dst: Instructions.Operand8, value: bv8)
      requires Valid() && dst.IsDestination()
      modifies regs, bus
      ensures State() == Instructions.Write8(dst, old(State()), value)
    {
      match dst
      case A =>
        regs.a := value;
      case HiMem =>
        var offset := FetchU8();
        var address := 0xFF00 + offset as int;
        bus[address] := value;
    }

    method Load(dst: Instructions.Operand8, src: Instructions.Operand8)
      requires Valid() && dst.IsDestination()
      modifies regs, bus
      ensures State() == Instructions.Load(dst, src, old(State()))
    {
      var value := Read(src);
      Write(dst, value);
    }

    method Jump()
      requires Valid()
      modifies regs
      ensures State() == Instructions.Jump(old(State()))
    {
      var newPc := FetchU16();
      regs.pc := newPc;
    }

    method Jr(cond: Instructions.Cond, src: Instructions.Operand8)
      requires Valid()
      modifies regs
      ensures State() == Instructions.Jr(cond, src, old(State()))
    {
      var offset := Read(src);
      ghost var fetched := State();
      if cond.Holds(regs.z, regs.c) {
        var target := Instructions.JrTarget(regs.pc, offset);
        if offset & 0x80 != 0 {
          regs.pc := Instructions.Wrapping(regs.pc, -(offset as int));
        } else {
          regs.pc := Instructions.Wrapping(regs.pc, offset as int);
        }
        assert State() == fetched.(pc := target);
      }
    }

    method Bit(bit: bv8, src: Instructions.Operand8)
      requires Valid() && bit < 8
      modifies regs
      ensures State() == Instructions.Bit(bit, src, old(State()))
    {
      var value := Read(src);
      value := value >> bit;
      regs.z := value & 0x01 == 0;
      regs.n := false;
      regs.h := true;
    }

    method Xor(src: Instructions.Operand8)
      requires Valid()
      modifies regs
      ensures State() == Instructions.Xor(src, old(State()))
    {
      var value := Read(src);
      var result := regs.a ^ value;
      regs.z := result == 0;
      regs.n := false;
      regs.h := false;
      regs.c := false;
      regs.a := result;
    }

    method Compare(src: Instructions.Operand8)
      requires Valid()
      modifies regs
      ensures State() == Instructions.Compare(src, old(State()))
    {
      var value := Read(src);
      regs.n := true;
      regs.c := regs.a < value;
      regs.z := regs.a == value;
      regs.h := (regs.a - value) & 0x0F > regs.a & 0x0F;
    }

    /** Runs the instruction after a 0xCB prefix. */
    method ExecuteCbInstruction() returns (status: Instructions.Status)
      requires Valid()
      modifies regs
      ensures Instructions.Step(State(), status) == Instructions.ExecuteCb(old(State()))
    {
      var opcode := FetchU8();
      if opcode == 0x7F {
        Bit(7, Instructions.A);
        status := Instructions.Completed;
      } else {
        status := Instructions.CbOpcodeNotImplemented(opcode);
      }
    }

    /** Runs the instruction at PC. */
    method ExecuteInstruction() returns (status: Instructions.Status)
      requires Valid()
      modifies regs, bus
      ensures Instructions.Step(State(), status) == Instructions.Execute(old(State()))
    {
      var opcode := FetchU8();
      status := Instructions.Completed;
      if opcode == 0x00 {
      } else if opcode == 0x20 {
        Jr(Instructions.NZ, Instructions.Immediate8);
      } else if opcode == 0x3E {
        Load(Instructions.A, Instructions.Immediate8);
      } else if opcode == 0xAF {
        Xor(Instructions.A);
      } else if opcode == 0xC3 {
        Jump();
      } else if opcode == 0xCB {
        status := ExecuteCbInstruction();
      } else if opcode == 0xE0 {
        Load(Instructions.HiMem, Instructions.A);
      } else if opcode == 0xF0 {
        Load(Instructions.A, Instructions.HiMem);
      } else if opcode == 0xFE {
        Compare(Instructions.Immediate8);
      } else {
        status := Instructions.OpcodeNotImplemented(opcode);
      }
    }
  }
}
