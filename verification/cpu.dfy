/** One cycle of the interpreter: fetch, decode, execute, then the uniform `pc += 2`.

    Instructions that set the program counter store their target minus 2, and
    the key wait rewinds by 2, so that the single advance at the end of the
    cycle lands on the right address.  The random byte of `Cxkk` is a
    parameter.  An access the interpreter would make outside memory, the
    stack or the key array is excluded by a precondition. */
module Cpu {
  import opened Word
  import opened Opcode
  import opened Alu
  import opened Display
  import opened Machine
  import Transfer

  /** The two bytes at `pc`, most significant first. */
  function Fetch(s: State): (w: u16)
    requires s.pc + 1 < 0x1000
    ensures w / 0x100 == s.memory[s.pc] && w % 0x100 == s.memory[s.pc + 1]
  {
    0x100 * (s.memory[s.pc] as int) + s.memory[Short(s.pc as int + 1)]
  }

  /** The bytes `Dxyn` reads: `n` bytes from `I`. */
  function Sprite(s: State, n: u4): (sprite: seq<u8>)
    requires n == 0 || s.i + n <= 0x1000
    ensures |sprite| == n
    ensures forall j :: 0 <= j < n ==> sprite[j] == s.memory[s.i + j]
  {
    if n == 0 then [] else s.memory[s.i .. s.i + n]
  }

  /** The accesses an instruction makes stay inside memory, the stack and the key array. */
  predicate Executable(s: State, ins: Instr)
  {
    match ins
    case Ret => s.sp > 0
    case Call(_) => s.sp < 16
    case Draw(_, _, n) => n == 0 || s.i + n <= 0x1000
    case SkipKey(x) => s.v[x] < |s.key|
    case SkipNoKey(x) => s.v[x] < |s.key|
    case Bcd(_) => s.i + 2 < 0x1000
    case StoreRegs(x) => s.i + x < 0x1000
    case LoadRegs(x) => s.i + x < 0x1000
    case _ => true
  }

  /** Skipping the next instruction: an extra 2 on top of the uniform advance. */
  function Skip(s: State, cond: bool): State
  {
    if cond then s.(pc := Short(s.pc as int + 2)) else s
  }

  /** `Dxyn`: the coordinates are read before VF is cleared, then VF records a collision. */
  function DrawSprite(s: State, x: u4, y: u4, n: u4): State
    requires n == 0 || s.i + n <= 0x1000
  {
    Redraw(s, Display.Draw(s.gfx, Sprite(s, n), s.v[x], s.v[y]))
  }

  function Redraw(s: State, c: Canvas): State
  {
    s.(v := s.v[VF := Flag(c.hit)], gfx := c.gfx)
  }

  /** The instructions that only read and write the registers. */
  predicate IsArith(ins: Instr)
  {
    ins.LoadImm? || ins.AddImm? || ins.Move? || ins.Or? || ins.And? || ins.Xor? || ins.AddReg?
    || ins.SubReg? || ins.ShiftRight? || ins.SubRev? || ins.ShiftLeft? || ins.Random?
  }

  /** The instructions that touch the screen, the timers, `I` or memory. */
  predicate IsDevice(ins: Instr)
  {
    ins.Draw? || ins.GetDelay? || ins.SetDelay? || ins.SetSound? || ins.LoadI? || ins.AddI?
    || ins.FontChar? || ins.Bcd? || ins.StoreRegs? || ins.LoadRegs?
  }

  /** `6xkk`, `7xkk`, the `8xy_` family and `Cxkk` on the register file. */
  function Arith(v: Regs, ins: Instr, rnd: u8): Regs
  {
    match ins
    case LoadImm(x, kk) => v[x := kk]
    case AddImm(x, kk) => v[x := Byte(v[x] as int + kk)]
    case Move(x, y) => v[x := v[y]]
    case Or(x, y) => v[x := Or8(v[x], v[y])]
    case And(x, y) => v[x := And8(v[x], v[y])]
    case Xor(x, y) => v[x := Xor8(v[x], v[y])]
    case AddReg(x, y) => AddCarry(v, x, y)
    case SubReg(x, y) => SubBorrow(v, x, y)
    case ShiftRight(x) => Alu.ShiftRight(v, x)
    case SubRev(x, y) => SubReverse(v, x, y)
    case ShiftLeft(x) => Alu.ShiftLeft(v, x)
    case Random(x, kk) => v[x := And8(kk, rnd)]
    case _ => v
  }

  /** The instructions that move the program counter or the stack pointer, and the
      screen clear `00E0`, which shares the system family with `00EE`. */
  function Control(s: State, ins: Instr): (r: State)
    requires Valid(s) && Executable(s, ins)
    ensures Valid(r)
  {
    match ins
    case Cls => s.(gfx := Blank())
    case Ret => s.(sp := Byte(s.sp as int - 1), pc := s.stack[Byte(s.sp as int - 1)])
    case Jump(a) => s.(pc := Short(a as int - 2))
    case Call(a) => s.(stack := s.stack[s.sp := s.pc], sp := Byte(s.sp as int + 1), pc := Short(a as int - 2))
    case SkipEqImm(x, kk) => Skip(s, s.v[x] == kk)
    case SkipNeImm(x, kk) => Skip(s, s.v[x] != kk)
    case SkipEqReg(x, y) => Skip(s, s.v[x] == s.v[y])
    case SkipNeReg(x, y) => Skip(s, s.v[x] != s.v[y])
    case JumpV0(a) => s.(pc := Short(Short(a as int + s.v[0]) - 2))
    case SkipKey(x) => Skip(s, s.key[s.v[x]] != 0)
    case SkipNoKey(x) => Skip(s, s.key[s.v[x]] == 0)
    case WaitKey(x) =>
      if s.key[KeySlot] < NoKey then s.(v := s.v[x := s.key[KeySlot]])
      else s.(pc := Short(s.pc as int - 2))
    case _ => s
  }

  /** The instructions that touch the screen, the timers, `I` or memory. */
  function Device(s: State, ins: Instr): State
    requires Executable(s, ins)
  {
    match ins
    case Draw(x, y, n) => DrawSprite(s, x, y, n)
    case GetDelay(x) => s.(v := s.v[x := s.delay])
    case SetDelay(x) => s.(delay := s.v[x])
    case SetSound(x) => s.(sound := s.v[x])
    case LoadI(a) => s.(i := a)
    case AddI(x) => s.(i := Short(s.i as int + s.v[x]))
    case FontChar(x) => s.(i := Short(s.v[x] as int * 5))
    case Bcd(x) => s.(memory := Transfer.Bcd(s.memory, s.i, s.v[x]))
    case StoreRegs(x) => s.(memory := Transfer.StoreFrom(s.memory, s.v, s.i, x, 0))
    case LoadRegs(x) => s.(v := Transfer.LoadFrom(s.v, s.memory, s.i, x, 0))
    case _ => s
  }

  /** The effect of one instruction, before the uniform advance of `pc`; an unknown word changes nothing. */
  function Exec(s: State, ins: Instr, rnd: u8): (r: State)
    requires Valid(s) && Executable(s, ins)
    ensures Valid(r)
  {
    if IsArith(ins) then s.(v := Arith(s.v, ins, rnd))
    else if IsDevice(ins) then Device(s, ins)
    else Control(s, ins)
  }

  /** The instruction at `pc` can be fetched and executed without leaving memory, the stack or the key array. */
  predicate CanStep(s: State)
  {
    s.pc + 1 < 0x1000 && Executable(s, Decode(Fetch(s)))
  }

  /** The uniform advance to the next instruction. */
  function Advance(t: State): State
  {
    t.(pc := Short(t.pc as int + 2))
  }

  /** `emulate_cycle` without the host input polling that follows it. */
  function Step(s: State, rnd: u8): (r: State)
    requires Valid(s) && CanStep(s)
    ensures Valid(r)
    ensures r.key == s.key
  {
    Advance(Exec(s, Decode(Fetch(s)), rnd))
  }

  /** The word at `pc` can be fetched and decodes to `ins`. */
  predicate At(s: State, ins: Instr)
  {
    Valid(s) && s.pc + 1 < 0x1000 && Decode(Fetch(s)) == ins
  }

  /** The address `d` bytes after the current instruction, wrapped to 16 bits. */
  function After(s: State, d: int): u16
  {
    Short(s.pc as int + d)
  }
}
