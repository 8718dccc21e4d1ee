/** Short programs run from start-up, with their outcome worked out. */
module Scenarios {
  import opened Word
  import opened Opcode
  import opened Alu
  import opened Machine
  import opened Cpu
  import opened Program
  import Flow
  import Registers

  /** `call 0x204; jump 0x202; return`. */
  const CallRom: seq<u8> := [0x22, 0x04, 0x12, 0x02, 0x00, 0xEE]

  /** `V0 := 10; V1 := 5; V0 += V1`. */
  const AddRom: seq<u8> := [0x60, 0x0A, 0x61, 0x05, 0x80, 0x14]

  /** `V0 := 250; V1 := 10; V0 += V1`, which carries. */
  const CarryRom: seq<u8> := [0x60, 0xFA, 0x61, 0x0A, 0x80, 0x14]

  /** The six bytes `60 v0 61 v1 80 14` at the program counter, which is `0x200`. */
  predicate AddLoaded(s: State, v0: u8, v1: u8)
  {
    Valid(s) && s.pc == 0x200
    && s.memory[0x200] == 0x60 && s.memory[0x201] == v0 && s.memory[0x202] == 0x61
    && s.memory[0x203] == v1 && s.memory[0x204] == 0x80 && s.memory[0x205] == 0x14
  }

  /** Three cycles of `6xkk, 6xkk, 8xy4`: V0 ends as the 8-bit sum, VF as its carry. */
  lemma {:induction false} AddThree(s0: State, v0: u8, v1: u8, rnds: seq<u8>)
    requires AddLoaded(s0, v0, v1) && |rnds| == 3
    ensures Run(s0, rnds).Done?
    ensures Run(s0, rnds).s.pc == 0x206
    ensures Run(s0, rnds).s.v[0] == (v0 as int + v1) % 0x100
    ensures Run(s0, rnds).s.v[1] == v1
    ensures Run(s0, rnds).s.v[VF] == Flag(v0 as int + v1 > 0xFF)
  {
    var s1 := s0.(v := s0.v[0 := v0], pc := 0x202);
    var s2 := s1.(v := s1.v[1 := v1], pc := 0x204);
    LoadsFirst(s0, v0, rnds[0]);
    RunThrough(s0, s1, rnds);
    LoadsSecond(s1, v1, rnds[1]);
    RunThrough(s1, s2, rnds[1..]);
    var s3 := Step(s2, rnds[2]);
    AddsThird(s2, rnds[2]);
    RunThrough(s2, s3, rnds[2..]);
    assert rnds[2..][1..] == [];
  }

  lemma LoadsFirst(s: State, v0: u8, rnd: u8)
    requires Valid(s) && s.pc == 0x200 && s.memory[0x200] == 0x60 && s.memory[0x201] == v0
    ensures At(s, LoadImm(0, v0))
    ensures Step(s, rnd) == s.(v := s.v[0 := v0], pc := 0x202)
  {
    assert Decode(0x6000 + v0) == LoadImm(0, v0);
    Registers.LoadImmStep(s, 0, v0, rnd);
  }

  lemma LoadsSecond(s: State, v1: u8, rnd: u8)
    requires Valid(s) && s.pc == 0x202 && s.memory[0x202] == 0x61 && s.memory[0x203] == v1
    ensures At(s, LoadImm(1, v1))
    ensures Step(s, rnd) == s.(v := s.v[1 := v1], pc := 0x204)
  {
    assert Decode(0x6100 + v1) == LoadImm(1, v1);
    Registers.LoadImmStep(s, 1, v1, rnd);
  }

  lemma AddsThird(s: State, rnd: u8)
    requires Valid(s) && s.pc == 0x204 && s.memory[0x204] == 0x80 && s.memory[0x205] == 0x14
    ensures At(s, AddReg(0, 1))
    ensures Step(s, rnd).pc == 0x206 && Step(s, rnd).v[1] == s.v[1]
    ensures Step(s, rnd).v[0] == (s.v[0] as int + s.v[1]) % 0x100
    ensures Step(s, rnd).v[VF] == Flag(s.v[0] as int + s.v[1] > 0xFF)
  {
    assert Decode(0x8014) == AddReg(0, 1);
    Registers.AddRegStep(s, 0, 1, rnd);
  }

  /** 10 + 5: V0 = 15, V1 = 5, no carry. */
  lemma AddScenario(rom: seq<u8>, rnds: seq<u8>)
    requires rom == AddRom && |rnds| == 3
    ensures Run(Boot(rom), rnds).Done?
    ensures Run(Boot(rom), rnds).s.v[0] == 15 && Run(Boot(rom), rnds).s.v[1] == 5
    ensures Run(Boot(rom), rnds).s.v[VF] == 0
  {
    AddThree(Boot(rom), 0x0A, 0x05, rnds);
    var t := Run(Boot(rom), rnds).s;
    assert t.v[0] == (0x0A + 0x05) % 0x100;
    assert t.v[VF] == Flag(0x0A + 0x05 > 0xFF);
  }

  /** 250 + 10: V0 = 4 and the carry is set. */
  lemma CarryScenario(rom: seq<u8>, rnds: seq<u8>)
    requires rom == CarryRom && |rnds| == 3
    ensures Run(Boot(rom), rnds).Done?
    ensures Run(Boot(rom), rnds).s.v[0] == 4 && Run(Boot(rom), rnds).s.v[VF] == 1
  {
    AddThree(Boot(rom), 0xFA, 0x0A, rnds);
    var t := Run(Boot(rom), rnds).s;
    assert t.v[0] == (0xFA + 0x0A) % 0x100;
    assert t.v[VF] == Flag(0xFA + 0x0A > 0xFF);
  }

  /** `call 0x204; jump 0x202; return`: the call comes back to the self-jump,
      which then holds the program counter at `0x202`. */
  lemma CallScenario(rom: seq<u8>, rnds: seq<u8>)
    requires rom == CallRom && |rnds| == 3
    ensures Run(Boot(rom), rnds).Done?
    ensures Run(Boot(rom), rnds).s.pc == 0x202 && Run(Boot(rom), rnds).s.sp == 0
    ensures Run(Boot(rom), rnds).s.stack[0] == 0x200
  {
    var s0 := Boot(rom);
    assert s0.memory[0x200] == rom[0] && s0.memory[0x201] == rom[1] && s0.memory[0x202] == rom[2];
    assert s0.memory[0x203] == rom[3] && s0.memory[0x204] == rom[4] && s0.memory[0x205] == rom[5];
    CallThree(s0, rnds);
  }

  /** Three cycles of `call 0x204`, `00EE`, `jump 0x202` from `0x200` with an empty stack. */
  lemma {:induction false} CallThree(s0: State, rnds: seq<u8>)
    requires Valid(s0) && s0.pc == 0x200 && s0.sp == 0 && |rnds| == 3
    requires s0.memory[0x200] == 0x22 && s0.memory[0x201] == 0x04 && s0.memory[0x202] == 0x12
    requires s0.memory[0x203] == 0x02 && s0.memory[0x204] == 0x00 && s0.memory[0x205] == 0xEE
    ensures Run(s0, rnds).Done?
    ensures Run(s0, rnds).s.pc == 0x202 && Run(s0, rnds).s.sp == 0
    ensures Run(s0, rnds).s.stack[0] == 0x200
  {
    var s1 := s0.(stack := s0.stack[0 := 0x200], sp := 1, pc := 0x204);
    var s2 := s1.(sp := 0, pc := 0x202);
    var s3 := s2;
    assert Decode(0x2204) == Call(0x204);
    Flow.CallStep(s0, 0x204, rnds[0]);
    RunThrough(s0, s1, rnds);
    ReturnsSecond(s1);
    Flow.RetStep(s1, rnds[1]);
    RunThrough(s1, s2, rnds[1..]);
    JumpsThird(s2);
    Flow.JumpStep(s2, 0x202, rnds[2]);
    RunThrough(s2, s3, rnds[2..]);
    assert rnds[2..][1..] == [];
  }

  lemma ReturnsSecond(s: State)
    requires Valid(s) && s.pc == 0x204 && s.memory[0x204] == 0x00 && s.memory[0x205] == 0xEE
    ensures At(s, Ret)
  {
    assert Decode(0x00EE) == Ret;
  }

  lemma JumpsThird(s: State)
    requires Valid(s) && s.pc == 0x202 && s.memory[0x202] == 0x12 && s.memory[0x203] == 0x02
    ensures At(s, Jump(0x202))
  {
    assert Decode(0x1202) == Jump(0x202);
  }

  /** Both timers at 5 reach 0 after five ticks and stay there after a sixth. */
  lemma TimerScenario(s: State)
    requires s.delay == 5 && s.sound == 5
    ensures Ticks(s, 4).delay == 1 && Ticks(s, 5).delay == 0 && Ticks(s, 6).delay == 0
    ensures Ticks(s, 4).sound == 1 && Ticks(s, 5).sound == 0 && Ticks(s, 6).sound == 0
  {
    TicksSaturate(s, 4);
    TicksSaturate(s, 5);
    TicksSaturate(s, 6);
  }
}
