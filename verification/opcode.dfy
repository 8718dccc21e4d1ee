/** Splitting a fetched 16-bit word into its fields and decoding it.

    The interpreter tests the fields in one cascade of `if`s; here the
    cascade produces a tagged instruction, and execution is a separate
    step (module `Cpu`).  Decoding looks only at the fields the cascade
    tests: `5xy0` and `9xy0` ignore the low nibble, `00E0`/`00EE` ignore
    `x`, the `Ex`/`Fx` families look only at `kk`, and an unrecognised word
    becomes `Unknown`.
 */
module Opcode {
  import opened Word

  /** `op` (bits 15-12), `x` (11-8), `y` (7-4), `n` (3-0), `kk` (7-0), `nnn` (11-0). */
  datatype Fields = Fields(op: u4, x: u4, y: u4, n: u4, kk: u8, nnn: u12)

  /** The fields of `w`: the four nibbles rebuild `w`, and `kk`/`nnn` are its low byte and low twelve bits. */
  function Split(w: u16): (f: Fields)
    ensures w == 0x1000 * (f.op as int) + 0x100 * (f.x as int) + 0x10 * (f.y as int) + f.n
    ensures f.kk == 0x10 * (f.y as int) + f.n && f.nnn == 0x100 * (f.x as int) + f.kk
  {
    var hi, lo := w / 0x100, w % 0x100;
    Fields(hi / 0x10, hi % 0x10, lo / 0x10, lo % 0x10, lo, 0x100 * (hi % 0x10) + lo)
  }

  datatype Instr =
    | Cls                          // 00E0
    | Ret                          // 00EE
    | Jump(addr: u12)              // 1nnn
    | Call(addr: u12)              // 2nnn
    | SkipEqImm(x: u4, kk: u8)     // 3xkk
    | SkipNeImm(x: u4, kk: u8)     // 4xkk
    | SkipEqReg(x: u4, y: u4)      // 5xy0
    | LoadImm(x: u4, kk: u8)       // 6xkk
    | AddImm(x: u4, kk: u8)        // 7xkk
    | Move(x: u4, y: u4)           // 8xy0
    | Or(x: u4, y: u4)             // 8xy1
    | And(x: u4, y: u4)            // 8xy2
    | Xor(x: u4, y: u4)            // 8xy3
    | AddReg(x: u4, y: u4)         // 8xy4
    | SubReg(x: u4, y: u4)         // 8xy5
    | ShiftRight(x: u4)            // 8xy6
    | SubRev(x: u4, y: u4)         // 8xy7
    | ShiftLeft(x: u4)             // 8xyE
    | SkipNeReg(x: u4, y: u4)      // 9xy0
    | LoadI(addr: u12)             // Annn
    | JumpV0(addr: u12)            // Bnnn
    | Random(x: u4, kk: u8)        // Cxkk
    | Draw(x: u4, y: u4, n: u4)    // Dxyn
    | SkipKey(x: u4)               // Ex9E
    | SkipNoKey(x: u4)             // ExA1
    | GetDelay(x: u4)              // Fx07
    | WaitKey(x: u4)               // Fx0A
    | SetDelay(x: u4)              // Fx15
    | SetSound(x: u4)              // Fx18
    | AddI(x: u4)                  // Fx1E
    | FontChar(x: u4)              // Fx29
    | Bcd(x: u4)                   // Fx33
    | StoreRegs(x: u4)             // Fx55
    | LoadRegs(x: u4)              // Fx65
    | Unknown(word: u16)           // anything else: only the program counter advances

  /** The low bytes the `Fx` family recognises. */
  const MiscCodes: set<int> := {0x07, 0x0A, 0x15, 0x18, 0x1E, 0x29, 0x33, 0x55, 0x65}

  /** The field combinations the cascade recognises: every `op` from 1 to D, and
      in families `0`, `8`, `E` and `F` only the listed `kk` or `n` values. */
  predicate Recognised(f: Fields)
  {
    if f.op == 0x0 then f.kk == 0xE0 || f.kk == 0xEE
    else if f.op == 0x8 then f.n <= 0x7 || f.n == 0xE
    else if f.op == 0xE then f.kk == 0x9E || f.kk == 0xA1
    else if f.op == 0xF then f.kk in MiscCodes
    else true
  }

  /** The dispatch over `op`; the families `0`, `8`, `E` and `F` dispatch again on `kk` or `n`. */
  function Decode(w: u16): (r: Instr)
    ensures r.Unknown? ==> r.word == w
    ensures r.Unknown? <==> !Recognised(Split(w))
  {
    Dispatch(Split(w), w)
  }

  /** The cascade over the fields `f` of the word `w`. */
  function Dispatch(f: Fields, w: u16): (r: Instr)
    ensures r.Unknown? ==> r.word == w
    ensures r.Unknown? <==> !Recognised(f)
  {
    if f.op == 0x0 then DecodeSystem(f, w)
    else if f.op == 0x1 then Jump(f.nnn)
    else if f.op == 0x2 then Call(f.nnn)
    else if f.op == 0x3 then SkipEqImm(f.x, f.kk)
    else if f.op == 0x4 then SkipNeImm(f.x, f.kk)
    else if f.op == 0x5 then SkipEqReg(f.x, f.y)
    else if f.op == 0x6 then LoadImm(f.x, f.kk)
    else if f.op == 0x7 then AddImm(f.x, f.kk)
    else if f.op == 0x8 then DecodeArith(f, w)
    else if f.op == 0x9 then SkipNeReg(f.x, f.y)
    else if f.op == 0xA then LoadI(f.nnn)
    else if f.op == 0xB then JumpV0(f.nnn)
    else if f.op == 0xC then Random(f.x, f.kk)
    else if f.op == 0xD then Draw(f.x, f.y, f.n)
    else if f.op == 0xE then DecodeKeys(f, w)
    else DecodeMisc(f, w)
  }

  /** `0nnn`: only `00E0` and `00EE` are recognised, by their low byte alone. */
  function DecodeSystem(f: Fields, w: u16): (r: Instr)
    ensures r.Unknown? ==> r.word == w
    ensures r.Unknown? <==> f.kk != 0xE0 && f.kk != 0xEE
  {
    if f.kk == 0xE0 then Cls
    else if f.kk == 0xEE then Ret
    else Unknown(w)
  }

  /** `8xyN`: the low nibble selects the operation; the shifts ignore `y`. */
  function DecodeArith(f: Fields, w: u16): (r: Instr)
    ensures r.Unknown? ==> r.word == w
    ensures r.Unknown? <==> !(f.n <= 0x7 || f.n == 0xE)
  {
    if f.n == 0x0 then Move(f.x, f.y)
    else if f.n == 0x1 then Or(f.x, f.y)
    else if f.n == 0x2 then And(f.x, f.y)
    else if f.n == 0x3 then Xor(f.x, f.y)
    else if f.n == 0x4 then AddReg(f.x, f.y)
    else if f.n == 0x5 then SubReg(f.x, f.y)
    else if f.n == 0x6 then ShiftRight(f.x)
    else if f.n == 0x7 then SubRev(f.x, f.y)
    else if f.n == 0xE then ShiftLeft(f.x)
    else Unknown(w)
  }

  /** `ExKK`: the low byte selects the key test. */
  function DecodeKeys(f: Fields, w: u16): (r: Instr)
    ensures r.Unknown? ==> r.word == w
    ensures r.Unknown? <==> f.kk != 0x9E && f.kk != 0xA1
  {
    if f.kk == 0x9E then SkipKey(f.x)
    else if f.kk == 0xA1 then SkipNoKey(f.x)
    else Unknown(w)
  }

  /** `FxKK`: the low byte selects the timer, key-wait, `I` or memory operation. */
  function DecodeMisc(f: Fields, w: u16): (r: Instr)
    ensures r.Unknown? ==> r.word == w
    ensures r.Unknown? <==> f.kk !in MiscCodes
  {
    if f.kk == 0x07 then GetDelay(f.x)
    else if f.kk == 0x0A then WaitKey(f.x)
    else if f.kk == 0x15 then SetDelay(f.x)
    else if f.kk == 0x18 then SetSound(f.x)
    else if f.kk == 0x1E then AddI(f.x)
    else if f.kk == 0x29 then FontChar(f.x)
    else if f.kk == 0x33 then Bcd(f.x)
    else if f.kk == 0x55 then StoreRegs(f.x)
    else if f.kk == 0x65 then LoadRegs(f.x)
    else Unknown(w)
  }

  /** The fields agree with each other: `kk` is `y n` and `nnn` is `x kk`. */
  predicate Consistent(f: Fields)
  {
    f.kk == 0x10 * (f.y as int) + f.n && f.nnn == 0x100 * (f.x as int) + f.kk
  }

  /** The word whose nibbles are `op x y n`. */
  function Join(f: Fields): u16
  {
    0x1000 * (f.op as int) + 0x100 * (f.x as int) + 0x10 * (f.y as int) + f.n
  }

  /** Splitting inverts joining. */
  lemma SplitJoin(f: Fields)
    requires Consistent(f)
    ensures Split(Join(f)) == f
  {
    var hi := 0x10 * (f.op as int) + f.x;
    assert Join(f) == 0x100 * hi + f.kk;
    DivMod(0x100, hi, f.kk);
    DivMod(0x10, f.op, f.x);
    DivMod(0x10, f.y, f.n);
  }

  /** Dividing `b * q + r` by `b` gives back `q` and `r`. */
  lemma DivMod(b: int, q: int, r: int)
    requires b == 0x10 || b == 0x100
    requires 0 <= r < b
    ensures (b * q + r) / b == q && (b * q + r) % b == r
  {
  }

  /** ... and joining inverts splitting. */
  lemma JoinSplit(w: u16)
    ensures Consistent(Split(w)) && Join(Split(w)) == w
  {
  }

  /** The consistent fields with nibbles `op x y n`. */
  function Nibbles(op: u4, x: u4, y: u4, n: u4): (f: Fields)
    ensures Consistent(f) && f.op == op && f.x == x && f.y == y && f.n == n
  {
    Fields(op, x, y, n, 0x10 * (y as int) + n, 0x100 * (x as int) + 0x10 * (y as int) + n)
  }

  /** The consistent fields with opcode `op` and address `a` in `nnn`. */
  function Wide(op: u4, a: u12): (f: Fields)
    ensures Consistent(f) && f.op == op && f.nnn == a
  {
    Nibbles(op, a / 0x100, (a % 0x100) / 0x10, a % 0x10)
  }

  /** The consistent fields with opcode `op`, register `x` and byte `kk`. */
  function Imm(op: u4, x: u4, kk: u8): (f: Fields)
    ensures Consistent(f) && f.op == op && f.x == x && f.kk == kk
  {
    Nibbles(op, x, kk / 0x10, kk % 0x10)
  }

  /** The fields of the canonical word of `ins`; a nibble the instruction does not use is 0. */
  function Layout(ins: Instr): Fields
  {
    match ins
    case Cls => Imm(0x0, 0, 0xE0)
    case Ret => Imm(0x0, 0, 0xEE)
    case Jump(a) => Wide(0x1, a)
    case Call(a) => Wide(0x2, a)
    case SkipEqImm(x, kk) => Imm(0x3, x, kk)
    case SkipNeImm(x, kk) => Imm(0x4, x, kk)
    case SkipEqReg(x, y) => Nibbles(0x5, x, y, 0x0)
    case LoadImm(x, kk) => Imm(0x6, x, kk)
    case AddImm(x, kk) => Imm(0x7, x, kk)
    case Move(x, y) => Nibbles(0x8, x, y, 0x0)
    case Or(x, y) => Nibbles(0x8, x, y, 0x1)
    case And(x, y) => Nibbles(0x8, x, y, 0x2)
    case Xor(x, y) => Nibbles(0x8, x, y, 0x3)
    case AddReg(x, y) => Nibbles(0x8, x, y, 0x4)
    case SubReg(x, y) => Nibbles(0x8, x, y, 0x5)
    case ShiftRight(x) => Nibbles(0x8, x, 0, 0x6)
    case SubRev(x, y) => Nibbles(0x8, x, y, 0x7)
    case ShiftLeft(x) => Nibbles(0x8, x, 0, 0xE)
    case SkipNeReg(x, y) => Nibbles(0x9, x, y, 0x0)
    case LoadI(a) => Wide(0xA, a)
    case JumpV0(a) => Wide(0xB, a)
    case Random(x, kk) => Imm(0xC, x, kk)
    case Draw(x, y, n) => Nibbles(0xD, x, y, n)
    case SkipKey(x) => Imm(0xE, x, 0x9E)
    case SkipNoKey(x) => Imm(0xE, x, 0xA1)
    case GetDelay(x) => Imm(0xF, x, 0x07)
    case WaitKey(x) => Imm(0xF, x, 0x0A)
    case SetDelay(x) => Imm(0xF, x, 0x15)
    case SetSound(x) => Imm(0xF, x, 0x18)
    case AddI(x) => Imm(0xF, x, 0x1E)
    case FontChar(x) => Imm(0xF, x, 0x29)
    case Bcd(x) => Imm(0xF, x, 0x33)
    case StoreRegs(x) => Imm(0xF, x, 0x55)
    case LoadRegs(x) => Imm(0xF, x, 0x65)
    case Unknown(w) => Split(w)
  }

  /** The canonical word of an instruction; an unrecognised word stands for itself. */
  function Encode(ins: Instr): u16
  {
    Join(Layout(ins))
  }

  /** Every instruction the cascade recognises decodes back from its canonical word. */
  lemma DecodeEncode(ins: Instr)
    requires !ins.Unknown?
    ensures Decode(Encode(ins)) == ins
  {
    SplitJoin(Layout(ins));
    DispatchLayout(ins, Encode(ins));
  }

  /** The cascade picks `ins` back out of its layout, whatever the word beside it. */
  lemma DispatchLayout(ins: Instr, w: u16)
    requires !ins.Unknown?
    ensures Dispatch(Layout(ins), w) == ins
  {
    if ins.Cls? || ins.Ret? {
      DispatchSystem(ins, w);
    } else if ins.Move? || ins.Or? || ins.And? || ins.Xor? || ins.AddReg? || ins.SubReg?
      || ins.ShiftRight? || ins.SubRev? || ins.ShiftLeft? {
      DispatchArith(ins, w);
    } else if ins.SkipKey? || ins.SkipNoKey? {
      DispatchKeys(ins, w);
    } else if ins.GetDelay? || ins.WaitKey? || ins.SetDelay? || ins.SetSound? || ins.AddI?
      || ins.FontChar? || ins.Bcd? || ins.StoreRegs? || ins.LoadRegs? {
      DispatchMisc(ins, w);
    } else {
      DispatchPlain(ins, w);
    }
  }

  lemma DispatchSystem(ins: Instr, w: u16)
    requires ins.Cls? || ins.Ret?
    ensures Dispatch(Layout(ins), w) == ins
  {
    SystemByte(Layout(ins), w);
  }

  /** Family `0` is settled by `kk` alone. */
  lemma SystemByte(f: Fields, w: u16)
    requires f.op == 0x0
    ensures f.kk == 0xE0 ==> Dispatch(f, w) == Cls
    ensures f.kk == 0xEE ==> Dispatch(f, w) == Ret
  {
  }

  lemma DispatchArith(ins: Instr, w: u16)
    requires ins.Move? || ins.Or? || ins.And? || ins.Xor? || ins.AddReg? || ins.SubReg?
      || ins.ShiftRight? || ins.SubRev? || ins.ShiftLeft?
    ensures Dispatch(Layout(ins), w) == ins
  {
  }

  lemma DispatchKeys(ins: Instr, w: u16)
    requires ins.SkipKey? || ins.SkipNoKey?
    ensures Dispatch(Layout(ins), w) == ins
  {
  }

  lemma DispatchMisc(ins: Instr, w: u16)
    requires ins.GetDelay? || ins.WaitKey? || ins.SetDelay? || ins.SetSound? || ins.AddI?
      || ins.FontChar? || ins.Bcd? || ins.StoreRegs? || ins.LoadRegs?
    ensures Dispatch(Layout(ins), w) == ins
  {
  }

  /** The families the first dispatch settles on its own. */
  lemma DispatchPlain(ins: Instr, w: u16)
    requires ins.Jump? || ins.Call? || ins.SkipEqImm? || ins.SkipNeImm? || ins.SkipEqReg?
      || ins.LoadImm? || ins.AddImm? || ins.SkipNeReg? || ins.LoadI? || ins.JumpV0?
      || ins.Random? || ins.Draw?
    ensures Dispatch(Layout(ins), w) == ins
  {
  }

  /** The other direction of `DecodeEncode`: a recognised word decodes to an
      instruction whose canonical word has the same `op` nibble. */
  lemma DecodeFamily(w: u16)
    ensures !Decode(w).Unknown? ==> Layout(Decode(w)).op == Split(w).op
  {
    DispatchFamily(Split(w), w);
  }

  /** The cascade picks the instruction family by `op`. */
  lemma DispatchFamily(f: Fields, w: u16)
    ensures !Dispatch(f, w).Unknown? ==> Layout(Dispatch(f, w)).op == f.op
  {
    if f.op == 0x0 { SystemFields(f, w); }
    else if f.op == 0x8 { ArithFields(f, w); }
    else if f.op == 0xE { KeysFields(f, w); }
    else if f.op == 0xF { MiscFields(f, w); }
    else if f.op == 0x1 { assert Layout(Jump(f.nnn)) == Wide(0x1, f.nnn); }
    else if f.op == 0x2 { assert Layout(Call(f.nnn)) == Wide(0x2, f.nnn); }
    else if f.op == 0x3 { assert Layout(SkipEqImm(f.x, f.kk)) == Imm(0x3, f.x, f.kk); }
    else if f.op == 0x4 { assert Layout(SkipNeImm(f.x, f.kk)) == Imm(0x4, f.x, f.kk); }
    else if f.op == 0x5 { assert Layout(SkipEqReg(f.x, f.y)) == Nibbles(0x5, f.x, f.y, 0x0); }
    else if f.op == 0x6 { assert Layout(LoadImm(f.x, f.kk)) == Imm(0x6, f.x, f.kk); }
    else if f.op == 0x7 { assert Layout(AddImm(f.x, f.kk)) == Imm(0x7, f.x, f.kk); }
    else if f.op == 0x9 { assert Layout(SkipNeReg(f.x, f.y)) == Nibbles(0x9, f.x, f.y, 0x0); }
    else if f.op == 0xA { assert Layout(LoadI(f.nnn)) == Wide(0xA, f.nnn); }
    else if f.op == 0xB { assert Layout(JumpV0(f.nnn)) == Wide(0xB, f.nnn); }
    else if f.op == 0xC { assert Layout(Random(f.x, f.kk)) == Imm(0xC, f.x, f.kk); }
    else if f.op == 0xD { assert Layout(Draw(f.x, f.y, f.n)) == Nibbles(0xD, f.x, f.y, f.n); }
  }

  /** `00E0` and `00EE` are told apart by the low byte, which their canonical word keeps. */
  lemma SystemFields(f: Fields, w: u16)
    ensures var r := DecodeSystem(f, w); !r.Unknown? ==> Layout(r).op == 0x0 && Layout(r).kk == f.kk
  {
    var r := DecodeSystem(f, w);
    if !r.Unknown? {
      SystemLayout(r);
    }
  }

  /** The canonical words of `00E0` and `00EE`. */
  lemma SystemLayout(ins: Instr)
    requires ins.Cls? || ins.Ret?
    ensures Layout(ins).op == 0x0 && Layout(ins).kk == if ins.Cls? then 0xE0 else 0xEE
  {}

  /** The `8xyN` operation keeps `x` and the selecting nibble `N`, and `y` except in the shifts. */
  lemma ArithFields(f: Fields, w: u16)
    ensures var r := DecodeArith(f, w); !r.Unknown? ==> Layout(r).op == 0x8 && Layout(r).x == f.x && Layout(r).n == f.n
    ensures var r := DecodeArith(f, w); !r.Unknown? && !r.ShiftRight? && !r.ShiftLeft? ==> Layout(r).y == f.y
  {
    var r := DecodeArith(f, w);
    if !r.Unknown? {
      ArithLayout(r);
    }
  }

  /** The canonical words of the `8xyN` operations; the shifts leave `y` at 0. */
  lemma ArithLayout(ins: Instr)
    requires ins.Move? || ins.Or? || ins.And? || ins.Xor? || ins.AddReg? || ins.SubReg?
          || ins.ShiftRight? || ins.SubRev? || ins.ShiftLeft?
    ensures Layout(ins).op == 0x8 && Layout(ins).x == ins.x
    ensures !ins.ShiftRight? && !ins.ShiftLeft? ==> Layout(ins).y == ins.y
    ensures Layout(ins).n ==
      if ins.Move? then 0x0
      else if ins.Or? then 0x1
      else if ins.And? then 0x2
      else if ins.Xor? then 0x3
      else if ins.AddReg? then 0x4
      else if ins.SubReg? then 0x5
      else if ins.ShiftRight? then 0x6
      else if ins.SubRev? then 0x7
      else 0xE
  {}

  /** The key tests keep `x` and the selecting low byte. */
  lemma KeysFields(f: Fields, w: u16)
    ensures var r := DecodeKeys(f, w); !r.Unknown? ==> Layout(r).op == 0xE && Layout(r).x == f.x && Layout(r).kk == f.kk
  {
    var r := DecodeKeys(f, w);
    if !r.Unknown? {
      KeysLayout(r);
    }
  }

  /** The canonical words of `Ex9E` and `ExA1`. */
  lemma KeysLayout(ins: Instr)
    requires ins.SkipKey? || ins.SkipNoKey?
    ensures Layout(ins).op == 0xE && Layout(ins).x == ins.x
    ensures Layout(ins).kk == if ins.SkipKey? then 0x9E else 0xA1
  {}

  /** The `Fx` operations keep `x` and the selecting low byte. */
  lemma MiscFields(f: Fields, w: u16)
    ensures var r := DecodeMisc(f, w); !r.Unknown? ==> Layout(r).op == 0xF && Layout(r).x == f.x && Layout(r).kk == f.kk
  {
    var r := DecodeMisc(f, w);
    if !r.Unknown? {
      MiscLayout(r);
    }
  }

  /** The canonical words of the `Fx` operations. */
  lemma MiscLayout(ins: Instr)
    requires ins.GetDelay? || ins.WaitKey? || ins.SetDelay? || ins.SetSound? || ins.AddI?
          || ins.FontChar? || ins.Bcd? || ins.StoreRegs? || ins.LoadRegs?
    ensures Layout(ins).op == 0xF && Layout(ins).x == ins.x
    ensures Layout(ins).kk ==
      if ins.GetDelay? then 0x07
      else if ins.WaitKey? then 0x0A
      else if ins.SetDelay? then 0x15
      else if ins.SetSound? then 0x18
      else if ins.AddI? then 0x1E
      else if ins.FontChar? then 0x29
      else if ins.Bcd? then 0x33
      else if ins.StoreRegs? then 0x55
      else 0x65
  {}
}
