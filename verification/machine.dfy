/** The interpreter state, its start-up value, ROM loading and the 60 Hz timer tick. */
module Machine {
  import opened Word
  import opened Alu
  import opened Display

  type Memory = m: seq<u8> | |m| == 0x1000 witness seq(0x1000, _ => 0)
  type CallStack = s: seq<u16> | |s| == 16 witness seq(16, _ => 0)

  /** Slots `0x0`..`0xF` are nonzero while the key is held; slot `0x10` is the key
      pressed during the last cycle, or `0x10` when there was none. */
  type Keys = k: seq<nat> | |k| == 17 witness seq(17, _ => 0)

  const KeySlot := 0x10
  const NoKey := 0x10

  /** The first instruction of a program. */
  const ProgramStart := 0x200

  datatype State = State(
    memory: Memory,
    v: Regs,
    i: u16,
    pc: u16,
    stack: CallStack,
    sp: u8,
    gfx: Screen,
    key: Keys,
    delay: u8,
    sound: u8)

  /** The stack pointer never passes the top of the 16-entry stack: a call with a
      full stack or a return with an empty one is an out-of-range index. */
  predicate Valid(s: State)
  {
    s.sp <= 16
  }

  /** The sixteen 5-byte hexadecimal digit glyphs, loaded at address 0. */
  const Font: seq<u8> := [
    0xF0, 0x90, 0x90, 0x90, 0xF0,  // 0
    0x20, 0x60, 0x20, 0x20, 0x70,  // 1
    0xF0, 0x10, 0xF0, 0x80, 0xF0,  // 2
    0xF0, 0x10, 0xF0, 0x10, 0xF0,  // 3
    0x90, 0x90, 0xF0, 0x10, 0x10,  // 4
    0xF0, 0x80, 0xF0, 0x10, 0xF0,  // 5
    0xF0, 0x80, 0xF0, 0x90, 0xF0,  // 6
    0xF0, 0x10, 0x20, 0x40, 0x40,  // 7
    0xF0, 0x90, 0xF0, 0x90, 0xF0,  // 8
    0xF0, 0x90, 0xF0, 0x10, 0xF0,  // 9
    0xF0, 0x90, 0xF0, 0x90, 0x90,  // A
    0xE0, 0x90, 0xE0, 0x90, 0xE0,  // B
    0xF0, 0x80, 0x80, 0x80, 0xF0,  // C
    0xE0, 0x90, 0x90, 0x90, 0xE0,  // D
    0xF0, 0x80, 0xF0, 0x80, 0xF0,  // E
    0xF0, 0x80, 0xF0, 0x80, 0x80   // F
  ]

  /** Memory at start-up: the font at `0x000..0x04F`, zero elsewhere. */
  predicate FontLoaded(m: Memory)
  {
    forall a :: 0 <= a < |Font| ==> m[a] == Font[a]
  }

  /** The state built at start-up. */
  function Init(): (s: State)
    ensures Valid(s) && Binary(s.gfx) && FontLoaded(s.memory)
    ensures forall p :: 0 <= p < 64 * 32 ==> s.gfx[p] == 0
    ensures forall a :: |Font| <= a < 0x1000 ==> s.memory[a] == 0
    ensures s.pc == ProgramStart && s.sp == 0 && s.i == 0 && s.delay == 0 && s.sound == 0
    ensures forall j :: 0 <= j < 16 ==> s.v[j] == 0 && s.stack[j] == 0
    ensures forall k :: 0 <= k < 17 ==> s.key[k] == if k == KeySlot then NoKey else 0
  {
    State(
      Font + seq(0x1000 - |Font|, _ => 0),
      seq(16, _ => 0),
      0,
      ProgramStart,
      seq(16, _ => 0),
      0,
      Blank(),
      seq(17, k => if k == KeySlot then NoKey else 0),
      0,
      0)
  }

  /** The copy loop of `load`, from ROM byte `k` on. */
  function CopyRom(m: Memory, rom: seq<u8>, k: nat): (r: Memory)
    requires k <= |rom| <= 0x1000 - ProgramStart
    ensures forall a :: 0 <= a < 0x1000 ==>
      r[a] == if ProgramStart + k <= a < ProgramStart + |rom| then rom[a - ProgramStart] else m[a]
    decreases |rom| - k
  {
    if k == |rom| then m
    else CopyRom(m[ProgramStart + k := rom[k]], rom, k + 1)
  }

  /** `load`: the ROM bytes land at `0x200`, in order; nothing else changes.  A ROM
      longer than the 3584 bytes above `0x200` would index past memory. */
  function Load(s: State, rom: seq<u8>): (r: State)
    requires |rom| <= 0x1000 - ProgramStart
    ensures r == s.(memory := r.memory)
    ensures forall k :: 0 <= k < |rom| ==> r.memory[ProgramStart + k] == rom[k]
    ensures forall a :: 0 <= a < 0x1000 && !(ProgramStart <= a < ProgramStart + |rom|) ==> r.memory[a] == s.memory[a]
  {
    s.(memory := CopyRom(s.memory, rom, 0))
  }

  /** The start-up state with a program loaded. */
  function Boot(rom: seq<u8>): (s: State)
    requires |rom| <= 0x1000 - ProgramStart
    ensures Valid(s) && Binary(s.gfx) && FontLoaded(s.memory)
    ensures forall p :: 0 <= p < 64 * 32 ==> s.gfx[p] == 0
    ensures forall k :: 0 <= k < |rom| ==> s.memory[ProgramStart + k] == rom[k]
    ensures forall a :: |Font| <= a < 0x1000 && !(ProgramStart <= a < ProgramStart + |rom|) ==> s.memory[a] == 0
    ensures s.pc == ProgramStart && s.sp == 0 && s.i == 0 && s.delay == 0 && s.sound == 0
    ensures forall j :: 0 <= j < 16 ==> s.v[j] == 0 && s.stack[j] == 0
    ensures forall k :: 0 <= k < 17 ==> s.key[k] == if k == KeySlot then NoKey else 0
  {
    Load(Init(), rom)
  }

  /** One 60 Hz tick: each nonzero timer counts down by one; nothing else changes. */
  function Tick(s: State): (r: State)
    ensures r == s.(delay := r.delay, sound := r.sound)
    ensures r.delay <= s.delay && r.sound <= s.sound
    ensures s.delay > 0 ==> r.delay + 1 == s.delay as int
    ensures s.sound > 0 ==> r.sound + 1 == s.sound as int
  {
    var delay := if s.delay > 0 then s.delay - 1 else s.delay;
    var sound := if s.sound > 0 then s.sound - 1 else s.sound;
    s.(delay := delay, sound := sound)
  }

  /** `k` ticks in a row: the timers never grow and nothing else changes. */
  function Ticks(s: State, k: nat): (r: State)
    ensures r == s.(delay := r.delay, sound := r.sound)
    ensures r.delay <= s.delay && r.sound <= s.sound
  {
    if k == 0 then s else Tick(Ticks(s, k - 1))
  }

  function Max(a: int, b: int): int
  {
    if a < b then b else a
  }

  /** The timers saturate at zero: after `k` ticks each is its old value minus `k`,
      or zero if that is negative; nothing else changes. */
  lemma {:induction false} TicksSaturate(s: State, k: nat)
    ensures Ticks(s, k).delay == Max(s.delay as int - k, 0)
    ensures Ticks(s, k).sound == Max(s.sound as int - k, 0)
    ensures Ticks(s, k) == s.(delay := Ticks(s, k).delay, sound := Ticks(s, k).sound)
  {
    if k > 0 {
      TicksSaturate(s, k - 1);
    }
  }
}
