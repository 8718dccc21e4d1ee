/** What one cycle of `00E0` or `Dxyn` does to the screen and VF, and the
    facts about drawing the same sprite twice. */
module Graphics {
  import opened Word
  import opened Opcode
  import opened Alu
  import opened Display
  import opened Machine
  import opened Cpu

  /** `00E0` turns every pixel off and changes nothing else. */
  lemma ClsStep(s: State, rnd: u8)
    requires At(s, Cls)
    ensures Step(s, rnd) == s.(gfx := Step(s, rnd).gfx, pc := After(s, 2))
    ensures forall p :: 0 <= p < 64 * 32 ==> Step(s, rnd).gfx[p] == 0
  {
  }

  /** `Dxyn` flips exactly the pixels the sprite covers at the old `(Vx, Vy)` (read
      before VF is cleared, so `x == F` uses the old VF), sets VF exactly when a
      set bit met a lit pixel, and changes no other register or state. */
  lemma DrawStep(s: State, x: u4, y: u4, n: u4, rnd: u8)
    requires At(s, Draw(x, y, n)) && (n == 0 || s.i + n <= 0x1000)
    ensures Step(s, rnd) == s.(v := s.v[VF := Step(s, rnd).v[VF]], gfx := Step(s, rnd).gfx, pc := After(s, 2))
    ensures forall p :: 0 <= p < 64 * 32 ==>
      Step(s, rnd).gfx[p] == if Covered(Sprite(s, n), s.v[x], s.v[y], p) then Flip(s.gfx[p]) else s.gfx[p]
    ensures Step(s, rnd).v[VF] == 1 <==> Collides(s.gfx, Sprite(s, n), s.v[x], s.v[y])
    ensures Step(s, rnd).v[VF] == 0 <==> !Collides(s.gfx, Sprite(s, n), s.v[x], s.v[y])
  {
    var c := Display.Draw(s.gfx, Sprite(s, n), s.v[x], s.v[y]);
    assert Exec(s, Draw(x, y, n), rnd) == Redraw(s, c);
  }

  /** Executing the same `Dxyn` twice in a row restores the screen when neither
      coordinate register is VF (otherwise the first draw moves the sprite).  The
      second draw reports a collision exactly when the sprite covers a pixel that
      was off before the first draw. */
  lemma {:induction false} DrawTwiceStep(s: State, x: u4, y: u4, n: u4, rnd: u8, rnd': u8)
    requires At(s, Draw(x, y, n)) && (n == 0 || s.i + n <= 0x1000) && x != VF && y != VF
    requires At(Step(s, rnd), Draw(x, y, n))
    ensures Step(Step(s, rnd), rnd').gfx == s.gfx
    ensures Step(Step(s, rnd), rnd').v[VF] == 1 <==>
      exists p :: 0 <= p < 64 * 32 && Covered(Sprite(s, n), s.v[x], s.v[y], p) && s.gfx[p] == 0
  {
    var t := Step(s, rnd);
    DrawStep(s, x, y, n, rnd);
    DrawStep(t, x, y, n, rnd');
    assert Sprite(t, n) == Sprite(s, n);
    assert t.gfx == Display.Draw(s.gfx, Sprite(s, n), s.v[x], s.v[y]).gfx;
    DrawTwiceRestores(s.gfx, Sprite(s, n), s.v[x], s.v[y]);
    SecondDrawCollides(s.gfx, Sprite(s, n), s.v[x], s.v[y]);
  }

  /** Every cycle keeps every pixel 0 or 1. */
  lemma StepKeepsBinary(s: State, rnd: u8)
    requires Valid(s) && CanStep(s) && Binary(s.gfx)
    ensures Binary(Step(s, rnd).gfx)
  {
    var ins := Decode(Fetch(s));
    if ins.Draw? {
      DrawKeepsBinary(s.gfx, Sprite(s, ins.n), s.v[ins.x], s.v[ins.y]);
    }
  }
}
