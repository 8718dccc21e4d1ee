/** The places where this interpreter departs from the textbook CHIP-8
    semantics, stated as facts about the model. */
module Quirks {
  import opened Word
  import opened Opcode
  import opened Alu

  /** `5xy0` decodes the same whatever its low nibble. */
  lemma {:induction false} SkipEqRegIgnoresN(x: u4, y: u4, n: u4)
    ensures Decode(Join(Nibbles(0x5, x, y, n))) == SkipEqReg(x, y)
  {
    SplitJoin(Nibbles(0x5, x, y, n));
  }

  /** `9xy0` decodes the same whatever its low nibble. */
  lemma {:induction false} SkipNeRegIgnoresN(x: u4, y: u4, n: u4)
    ensures Decode(Join(Nibbles(0x9, x, y, n))) == SkipNeReg(x, y)
  {
    SplitJoin(Nibbles(0x9, x, y, n));
  }

  /** `0xE0` clears the screen and `0xEE` returns for every `x`, not only `x == 0`. */
  lemma {:induction false} SystemIgnoresX(x: u4)
    ensures Decode(Join(Nibbles(0x0, x, 0xE, 0x0))) == Cls
    ensures Decode(Join(Nibbles(0x0, x, 0xE, 0xE))) == Ret
  {
    SplitJoin(Nibbles(0x0, x, 0xE, 0x0));
    SplitJoin(Nibbles(0x0, x, 0xE, 0xE));
  }

  /** `8xy6` and `8xyE` ignore `y`: the source register is `Vx`. */
  lemma {:induction false} ShiftsIgnoreY(x: u4, y: u4)
    ensures Decode(Join(Nibbles(0x8, x, y, 0x6))) == ShiftRight(x)
    ensures Decode(Join(Nibbles(0x8, x, y, 0xE))) == ShiftLeft(x)
  {
    SplitJoin(Nibbles(0x8, x, y, 0x6));
    SplitJoin(Nibbles(0x8, x, y, 0xE));
  }

  /** `8xF4`: the carry is written to VF before the addition, so the addend is the fresh carry, not the old VF. */
  lemma AddReadsFreshFlag(v: Regs, x: u4)
    requires x != VF
    ensures AddCarry(v, x, VF)[x] == (v[x] as int + Flag(v[x] as int + v[VF] > 0xFF)) % 0x100
    ensures AddCarry(v, x, VF)[VF] == Flag(v[x] as int + v[VF] > 0xFF)
  {
  }

  /** `8Fy4`: the sum overwrites the carry, so VF ends as `carry + Vy` modulo 256. */
  lemma AddIntoFlagLosesCarry(v: Regs, y: u4)
    requires y != VF
    ensures AddCarry(v, VF, y)[VF] == (Flag(v[VF] as int + v[y] > 0xFF) + v[y] as int) % 0x100
  {
  }

  /** `8xF5`: the subtrahend is the fresh flag, not the old VF. */
  lemma SubReadsFreshFlag(v: Regs, x: u4)
    requires x != VF
    ensures SubBorrow(v, x, VF)[x] == (v[x] as int - Flag(v[x] > v[VF])) % 0x100
  {
  }

  /** `8xx7` writes the difference to `Vy`, which is `Vx`: both it and VF end as zero. */
  lemma SubRevSameRegister(v: Regs, x: u4)
    ensures SubReverse(v, x, x)[x] == 0 && SubReverse(v, x, x)[VF] == 0
  {
  }

  /** `8F06`: VF is shifted after it received the low bit, so it always ends as 0. */
  lemma ShiftRightFlagRegister(v: Regs)
    ensures Alu.ShiftRight(v, VF)[VF] == 0
  {
  }

  /** `8F0E`: VF ends as twice the bit shifted out, 0 or 2, not the bit itself. */
  lemma ShiftLeftFlagRegister(v: Regs)
    ensures Alu.ShiftLeft(v, VF)[VF] == 2 * (v[VF] / 0x80)
  {
  }
}
