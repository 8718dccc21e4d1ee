/** What one cycle of a register instruction does: `6xkk`, `7xkk`, the `8xyN`
    family and `Cxkk`.  Each changes only the register file and advances the
    program counter by 2.  The flag-setting lemmas assume neither operand is
    VF; module `Quirks` covers the cases where one is. */
module Registers {
  import opened Word
  import opened Opcode
  import opened Alu
  import opened Machine
  import opened Cpu

  /** The state after a register instruction: new registers, next instruction. */
  predicate OnlyRegs(s: State, r: State)
  {
    Valid(s) && r == s.(v := r.v, pc := After(s, 2))
  }

  /** All registers but `Vx` (and VF, when `flag` holds) keep their values. */
  predicate OthersKept(s: State, r: State, x: u4, flag: bool)
  {
    forall j :: 0 <= j < 16 && j != x && (flag ==> j != VF) ==> r.v[j] == s.v[j]
  }

  /** `6xkk` loads `kk` into `Vx`. */
  lemma LoadImmStep(s: State, x: u4, kk: u8, rnd: u8)
    requires At(s, LoadImm(x, kk))
    ensures Step(s, rnd) == s.(v := s.v[x := kk], pc := After(s, 2))
  {
  }

  /** `7xkk` adds modulo 256 and leaves VF alone (unless `x` is VF itself). */
  lemma AddImmStep(s: State, x: u4, kk: u8, rnd: u8)
    requires At(s, AddImm(x, kk))
    ensures OnlyRegs(s, Step(s, rnd)) && OthersKept(s, Step(s, rnd), x, false)
    ensures (Step(s, rnd).v[x] as int - s.v[x] - kk) % 0x100 == 0
  {
  }

  /** `8xy0` copies `Vy` into `Vx`. */
  lemma MoveStep(s: State, x: u4, y: u4, rnd: u8)
    requires At(s, Move(x, y))
    ensures Step(s, rnd) == s.(v := s.v[x := s.v[y]], pc := After(s, 2))
  {
  }

  /** `8xy1`: every bit of the new `Vx` is the OR of the bits of `Vx` and `Vy`. */
  lemma OrStep(s: State, x: u4, y: u4, rnd: u8)
    requires At(s, Or(x, y))
    ensures OnlyRegs(s, Step(s, rnd)) && OthersKept(s, Step(s, rnd), x, false)
    ensures forall k :: 0 <= k < 8 ==>
      Bit(Step(s, rnd).v[x], k) == if Bit(s.v[x], k) == 1 || Bit(s.v[y], k) == 1 then 1 else 0
  {
    forall k | 0 <= k < 8
      ensures Bit(Step(s, rnd).v[x], k) == if Bit(s.v[x], k) == 1 || Bit(s.v[y], k) == 1 then 1 else 0
    {
      OrBitsBit(s.v[x], s.v[y], 8, k);
    }
  }

  /** `8xy2`: every bit of the new `Vx` is the AND of the bits of `Vx` and `Vy`. */
  lemma AndStep(s: State, x: u4, y: u4, rnd: u8)
    requires At(s, And(x, y))
    ensures OnlyRegs(s, Step(s, rnd)) && OthersKept(s, Step(s, rnd), x, false)
    ensures forall k :: 0 <= k < 8 ==>
      Bit(Step(s, rnd).v[x], k) == if Bit(s.v[x], k) == 1 && Bit(s.v[y], k) == 1 then 1 else 0
  {
    forall k | 0 <= k < 8
      ensures Bit(Step(s, rnd).v[x], k) == if Bit(s.v[x], k) == 1 && Bit(s.v[y], k) == 1 then 1 else 0
    {
      AndBitsBit(s.v[x], s.v[y], 8, k);
    }
  }

  /** `8xy3`: every bit of the new `Vx` is set exactly when the bits of `Vx` and `Vy` differ. */
  lemma XorStep(s: State, x: u4, y: u4, rnd: u8)
    requires At(s, Xor(x, y))
    ensures OnlyRegs(s, Step(s, rnd)) && OthersKept(s, Step(s, rnd), x, false)
    ensures forall k :: 0 <= k < 8 ==>
      Bit(Step(s, rnd).v[x], k) == if Bit(s.v[x], k) != Bit(s.v[y], k) then 1 else 0
  {
    forall k | 0 <= k < 8
      ensures Bit(Step(s, rnd).v[x], k) == if Bit(s.v[x], k) != Bit(s.v[y], k) then 1 else 0
    {
      XorBitsBit(s.v[x], s.v[y], 8, k);
    }
  }

  /** `8xy4`: `Vx` gets the sum modulo 256 and VF the carry. */
  lemma AddRegStep(s: State, x: u4, y: u4, rnd: u8)
    requires At(s, AddReg(x, y)) && x != VF && y != VF
    ensures OnlyRegs(s, Step(s, rnd)) && OthersKept(s, Step(s, rnd), x, true)
    ensures Step(s, rnd).v[x] == (s.v[x] as int + s.v[y]) % 0x100
    ensures Step(s, rnd).v[VF] == 1 <==> s.v[x] as int + s.v[y] > 0xFF
    ensures Step(s, rnd).v[VF] == 0 <==> s.v[x] as int + s.v[y] <= 0xFF
  {
  }

  /** `8xy5`: `Vx` gets the difference modulo 256 and VF is 1 exactly when `Vx > Vy` (strictly). */
  lemma SubRegStep(s: State, x: u4, y: u4, rnd: u8)
    requires At(s, SubReg(x, y)) && x != VF && y != VF
    ensures OnlyRegs(s, Step(s, rnd)) && OthersKept(s, Step(s, rnd), x, true)
    ensures Step(s, rnd).v[x] == (s.v[x] as int - s.v[y]) % 0x100
    ensures Step(s, rnd).v[VF] == 1 <==> s.v[x] > s.v[y]
    ensures Step(s, rnd).v[VF] == 0 <==> s.v[x] <= s.v[y]
  {
  }

  /** `8xy7`: the difference `Vy - Vx` lands in `Vy`; `Vx` keeps its value when `x != y`. */
  lemma SubRevStep(s: State, x: u4, y: u4, rnd: u8)
    requires At(s, SubRev(x, y)) && x != VF && y != VF
    ensures OnlyRegs(s, Step(s, rnd)) && OthersKept(s, Step(s, rnd), y, true)
    ensures Step(s, rnd).v[y] == (s.v[y] as int - s.v[x]) % 0x100
    ensures x != y ==> Step(s, rnd).v[x] == s.v[x]
    ensures Step(s, rnd).v[VF] == 1 <==> s.v[y] > s.v[x]
    ensures Step(s, rnd).v[VF] == 0 <==> s.v[y] <= s.v[x]
  {
  }

  /** `8xy6`: `Vx` is halved and VF holds the bit shifted out; `y` plays no part. */
  lemma ShiftRightStep(s: State, x: u4, rnd: u8)
    requires At(s, ShiftRight(x)) && x != VF
    ensures OnlyRegs(s, Step(s, rnd)) && OthersKept(s, Step(s, rnd), x, true)
    ensures Step(s, rnd).v[x] == s.v[x] / 2 && Step(s, rnd).v[VF] == s.v[x] % 2
  {
  }

  /** `8xyE`: `Vx` is doubled modulo 256 and VF holds the bit shifted out. */
  lemma ShiftLeftStep(s: State, x: u4, rnd: u8)
    requires At(s, ShiftLeft(x)) && x != VF
    ensures OnlyRegs(s, Step(s, rnd)) && OthersKept(s, Step(s, rnd), x, true)
    ensures Step(s, rnd).v[x] == (2 * s.v[x] as int) % 0x100 && Step(s, rnd).v[VF] == s.v[x] / 0x80
  {
  }

  /** `Cxkk`: `Vx` gets the random byte masked by `kk`, bit by bit. */
  lemma RandomStep(s: State, x: u4, kk: u8, rnd: u8)
    requires At(s, Random(x, kk))
    ensures OnlyRegs(s, Step(s, rnd)) && OthersKept(s, Step(s, rnd), x, false)
    ensures Step(s, rnd).v[x] <= kk
    ensures forall k :: 0 <= k < 8 ==>
      Bit(Step(s, rnd).v[x], k) == if Bit(kk, k) == 1 && Bit(rnd, k) == 1 then 1 else 0
  {
    forall k | 0 <= k < 8
      ensures Bit(Step(s, rnd).v[x], k) == if Bit(kk, k) == 1 && Bit(rnd, k) == 1 then 1 else 0
    {
      AndBitsBit(kk, rnd, 8, k);
    }
  }
}
