/** The constant tables of the `gbc` module: the CPU clock rates and the bit
    masks of the five interrupt sources. */
module Gbc {

  /** The speed the CPU runs at. */
  datatype CpuClock = Normal | Double {

    /** Clock rate in Hz; the double-speed mode runs at twice the normal rate,
        and the normal rate is 2^22 Hz. */
    function Value(): (r: nat)
      ensures Normal? ==> r == 0x40_0000
      ensures Double? ==> r == 2 * 4194304
    {
      match this
      case Normal => 4_194_304
      case Double => 8_388_608
    }
  }

  /** The five interrupt sources. */
  datatype Interrupt = VBlank | LcdStat | TimerOverflow | Serial | Joypad {

    /** The bit of this source in the interrupt-flag and interrupt-enable
        registers: exactly one bit is set, and it is one of the low five. */
    function Flag(): (r: bv8)
      ensures r != 0 && r & (r - 1) == 0
      ensures r & 0x1F == r
    {
      match this
      case VBlank => 0x01
      case LcdStat => 0x02
      case TimerOverflow => 0x04
      case Serial => 0x08
      case Joypad => 0x10
    }
  }

  /** Distinct interrupt sources never share a bit. */
  lemma FlagsDisjoint(i: Interrupt, j: Interrupt)
    ensures i != j <==> i.Flag() & j.Flag() == 0
  {
  }

  /** The five flags together cover exactly the low five bits. */
  lemma FlagsCoverLowFiveBits()
    ensures VBlank.Flag() | LcdStat.Flag() | TimerOverflow.Flag() | Serial.Flag() | Joypad.Flag() == 0x1F
  {
  }

  /** Double speed is exactly twice normal speed. */
  lemma DoubleClockIsTwiceNormal()
    ensures Double.Value() == 2 * Normal.Value()
  {
  }
}
