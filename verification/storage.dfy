/** What one cycle of an `I`, memory or timer instruction does: `Annn`,
    `Fx07`, `Fx15`, `Fx18`, `Fx1E`, `Fx29`, `Fx33`, `Fx55` and `Fx65`. */
module Storage {
  import opened Word
  import opened Opcode
  import opened Machine
  import opened Cpu
  import Transfer

  /** `Annn` points `I` at `nnn`. */
  lemma LoadIStep(s: State, a: u12, rnd: u8)
    requires At(s, LoadI(a))
    ensures Step(s, rnd) == s.(i := a, pc := After(s, 2))
  {
  }

  /** `Fx1E` adds `Vx` to `I` modulo 65536 and sets no flag. */
  lemma AddIStep(s: State, x: u4, rnd: u8)
    requires At(s, AddI(x))
    ensures Step(s, rnd) == s.(i := Step(s, rnd).i, pc := After(s, 2))
    ensures Step(s, rnd).i == (s.i as int + s.v[x]) % 0x1_0000
  {
  }

  /** `Fx29` points `I` at the glyph of digit `Vx`: `I = 5 * Vx`, and for a digit
      below 16 the five bytes there are that digit's glyph. */
  lemma FontCharStep(s: State, x: u4, rnd: u8)
    requires At(s, FontChar(x))
    ensures Step(s, rnd) == s.(i := 5 * (s.v[x] as int), pc := After(s, 2))
    ensures FontLoaded(s.memory) && s.v[x] < 16 ==>
      forall a :: Step(s, rnd).i <= a < Step(s, rnd).i + 5 ==> Step(s, rnd).memory[a] == Font[a]
  {
  }

  /** `Fx07` copies the delay timer into `Vx`. */
  lemma GetDelayStep(s: State, x: u4, rnd: u8)
    requires At(s, GetDelay(x))
    ensures Step(s, rnd) == s.(v := s.v[x := s.delay], pc := After(s, 2))
  {
  }

  /** `Fx15` sets the delay timer from `Vx`. */
  lemma SetDelayStep(s: State, x: u4, rnd: u8)
    requires At(s, SetDelay(x))
    ensures Step(s, rnd) == s.(delay := s.v[x], pc := After(s, 2))
  {
  }

  /** `Fx18` sets the sound timer from `Vx`. */
  lemma SetSoundStep(s: State, x: u4, rnd: u8)
    requires At(s, SetSound(x))
    ensures Step(s, rnd) == s.(sound := s.v[x], pc := After(s, 2))
  {
  }

  /** `Fx33` writes the hundreds, tens and ones digit of `Vx` at `I`, `I+1`, `I+2`
      and changes no other byte. */
  lemma BcdStep(s: State, x: u4, rnd: u8)
    requires At(s, Bcd(x)) && s.i + 2 < 0x1000
    ensures Step(s, rnd) == s.(memory := Step(s, rnd).memory, pc := After(s, 2))
    ensures Step(s, rnd).memory[s.i] == s.v[x] / 100
    ensures Step(s, rnd).memory[s.i + 1] == (s.v[x] / 10) % 10
    ensures Step(s, rnd).memory[s.i + 2] == s.v[x] % 10
    ensures forall a :: 0 <= a < 0x1000 && !(s.i <= a <= s.i + 2) ==> Step(s, rnd).memory[a] == s.memory[a]
  {
  }

  /** `Fx55` copies `V0..Vx` to `I..I+x` and changes no other byte, nor `I`. */
  lemma StoreRegsStep(s: State, x: u4, rnd: u8)
    requires At(s, StoreRegs(x)) && s.i + x < 0x1000
    ensures Step(s, rnd) == s.(memory := Step(s, rnd).memory, pc := After(s, 2))
    ensures forall a :: 0 <= a < 0x1000 ==>
      Step(s, rnd).memory[a] == if s.i <= a <= s.i + x then s.v[a - s.i] else s.memory[a]
  {
  }

  /** `Fx65` loads `V0..Vx` from `I..I+x` and leaves the other registers and `I` alone. */
  lemma LoadRegsStep(s: State, x: u4, rnd: u8)
    requires At(s, LoadRegs(x)) && s.i + x < 0x1000
    ensures Step(s, rnd) == s.(v := Step(s, rnd).v, pc := After(s, 2))
    ensures forall j :: 0 <= j < 16 ==>
      Step(s, rnd).v[j] == if j <= x then s.memory[s.i + j] else s.v[j]
  {
  }

  /** `Fx55` followed by `Fx65` with the same `x` restores every register. */
  lemma {:induction false} StoreThenLoadStep(s: State, x: u4, rnd: u8, rnd': u8)
    requires At(s, StoreRegs(x)) && s.i + x < 0x1000
    requires At(Step(s, rnd), LoadRegs(x))
    ensures Step(Step(s, rnd), rnd').v == s.v
    ensures Step(Step(s, rnd), rnd').memory == Step(s, rnd).memory
  {
    var t := Step(s, rnd);
    assert t == s.(memory := Transfer.StoreFrom(s.memory, s.v, s.i, x, 0), pc := After(s, 2));
    assert Step(t, rnd').v == Transfer.LoadFrom(s.v, t.memory, s.i, x, 0);
    Transfer.StoreThenLoad(s.memory, s.v, s.i, x);
  }
}
