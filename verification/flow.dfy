/** What one cycle does to the program counter and the stack: skips, jumps,
    subroutine call and return, the key wait and unknown words. */
module Flow {
  import opened Word
  import opened Opcode
  import opened Machine
  import opened Cpu

  /** `3xkk` skips the next instruction exactly when `Vx == kk`; nothing else changes. */
  lemma SkipEqImmStep(s: State, x: u4, kk: u8, rnd: u8)
    requires At(s, SkipEqImm(x, kk))
    ensures s.v[x] == kk ==> Step(s, rnd) == s.(pc := After(s, 4))
    ensures s.v[x] != kk ==> Step(s, rnd) == s.(pc := After(s, 2))
  {
  }

  /** `4xkk` skips the next instruction exactly when `Vx != kk`. */
  lemma SkipNeImmStep(s: State, x: u4, kk: u8, rnd: u8)
    requires At(s, SkipNeImm(x, kk))
    ensures s.v[x] != kk ==> Step(s, rnd) == s.(pc := After(s, 4))
    ensures s.v[x] == kk ==> Step(s, rnd) == s.(pc := After(s, 2))
  {
  }

  /** `5xy0` skips the next instruction exactly when `Vx == Vy`. */
  lemma SkipEqRegStep(s: State, x: u4, y: u4, rnd: u8)
    requires At(s, SkipEqReg(x, y))
    ensures s.v[x] == s.v[y] ==> Step(s, rnd) == s.(pc := After(s, 4))
    ensures s.v[x] != s.v[y] ==> Step(s, rnd) == s.(pc := After(s, 2))
  {
  }

  /** `9xy0` skips the next instruction exactly when `Vx != Vy`. */
  lemma SkipNeRegStep(s: State, x: u4, y: u4, rnd: u8)
    requires At(s, SkipNeReg(x, y))
    ensures s.v[x] != s.v[y] ==> Step(s, rnd) == s.(pc := After(s, 4))
    ensures s.v[x] == s.v[y] ==> Step(s, rnd) == s.(pc := After(s, 2))
  {
  }

  /** `Ex9E` skips exactly when the key named by `Vx` is held. */
  lemma SkipKeyStep(s: State, x: u4, rnd: u8)
    requires At(s, SkipKey(x)) && s.v[x] < |s.key|
    ensures s.key[s.v[x]] != 0 ==> Step(s, rnd) == s.(pc := After(s, 4))
    ensures s.key[s.v[x]] == 0 ==> Step(s, rnd) == s.(pc := After(s, 2))
  {
  }

  /** `ExA1` skips exactly when the key named by `Vx` is not held. */
  lemma SkipNoKeyStep(s: State, x: u4, rnd: u8)
    requires At(s, SkipNoKey(x)) && s.v[x] < |s.key|
    ensures s.key[s.v[x]] == 0 ==> Step(s, rnd) == s.(pc := After(s, 4))
    ensures s.key[s.v[x]] != 0 ==> Step(s, rnd) == s.(pc := After(s, 2))
  {
  }

  /** `1nnn` lands on `nnn`: the stored `nnn - 2` and the advance cancel. */
  lemma JumpStep(s: State, a: u12, rnd: u8)
    requires At(s, Jump(a))
    ensures Step(s, rnd) == s.(pc := a)
  {
  }

  /** `Bnnn` lands on `nnn + V0`, wrapped to 16 bits and not to 12. */
  lemma JumpV0Step(s: State, a: u12, rnd: u8)
    requires At(s, JumpV0(a))
    ensures Step(s, rnd) == s.(pc := Short(a as int + s.v[0]))
  {
  }

  /** `2nnn` pushes the address of the call itself, bumps `sp` and lands on `nnn`. */
  lemma CallStep(s: State, a: u12, rnd: u8)
    requires At(s, Call(a)) && s.sp < 16
    ensures Step(s, rnd) == s.(stack := s.stack[s.sp := s.pc], sp := s.sp + 1, pc := a)
  {
  }

  /** `00EE` pops the saved address and continues after it. */
  lemma RetStep(s: State, rnd: u8)
    requires At(s, Ret) && s.sp > 0
    ensures Step(s, rnd) == s.(sp := s.sp - 1, pc := Short(s.stack[s.sp - 1] as int + 2))
  {
  }

  /** A call whose target is a return comes back to the instruction after the call
      with the stack pointer restored; only the pushed stack slot is left behind. */
  lemma {:induction false} CallThenReturn(s: State, a: u12, rnd: u8, rnd': u8)
    requires At(s, Call(a)) && s.sp < 16
    requires At(Step(s, rnd), Ret)
    ensures Step(Step(s, rnd), rnd') == s.(stack := s.stack[s.sp := s.pc], pc := After(s, 2))
  {
    CallStep(s, a, rnd);
    RetStep(Step(s, rnd), rnd');
  }

  /** A cycle writes the stack only at slot `sp`: `2nnn` stores there, and nothing else stores. */
  lemma StepStackFrame(s: State, rnd: u8)
    requires Valid(s) && CanStep(s)
    ensures forall j :: 0 <= j < 16 && j != s.sp as int ==> Step(s, rnd).stack[j] == s.stack[j]
  {
  }

  /** `Fx0A` with no key pressed re-executes itself: the cycle changes nothing. */
  lemma WaitKeyBlocks(s: State, x: u4, rnd: u8)
    requires At(s, WaitKey(x)) && s.key[KeySlot] >= NoKey
    ensures Step(s, rnd) == s
  {
  }

  /** `Fx0A` with key `k` pressed stores `k` in `Vx` and moves on. */
  lemma WaitKeyTakes(s: State, x: u4, rnd: u8)
    requires At(s, WaitKey(x)) && s.key[KeySlot] < NoKey
    ensures Step(s, rnd) == s.(v := s.v[x := s.key[KeySlot]], pc := After(s, 2))
  {
  }

  /** A word no branch recognises only advances the program counter. */
  lemma UnknownStep(s: State, w: u16, rnd: u8)
    requires At(s, Unknown(w))
    ensures Step(s, rnd) == s.(pc := After(s, 2))
  {
  }
}
