/** The 64x32 monochrome framebuffer and the sprite-drawing loop of `Dxyn`.

    The screen is a flat row-major sequence of 2048 cells; cell `x + 64 * y`
    is pixel `(x, y)`.  A sprite is `n` bytes, one row per byte, the most
    significant bit leftmost.  Drawing XORs every set sprite bit into the
    pixel at the wrapped coordinates and records whether a set bit landed on
    a pixel that was already 1.
 */
module Display {
  import opened Word

  type Screen = g: seq<u8> | |g| == 64 * 32 witness seq(64 * 32, _ => 0)

  /** The cleared screen of `00E0` and of start-up. */
  function Blank(): (g: Screen)
    ensures forall p :: 0 <= p < |g| ==> g[p] == 0
  {
    seq(64 * 32, _ => 0)
  }

  /** Every cell holds 0 or 1. */
  predicate Binary(g: Screen)
  {
    forall p :: 0 <= p < |g| ==> g[p] == 0 || g[p] == 1
  }

  /** `gfx[pos] ^= 1`: the cell with its lowest bit inverted. */
  function Flip(c: u8): (r: u8)
    ensures r / 2 == c / 2 && r % 2 != c % 2
  {
    XorBitsZero(c / 2, 7);
    Xor8(c, 1)
  }

  lemma FlipFlip(c: u8)
    ensures Flip(Flip(c)) == c
  {
  }

  /** An inverted cell is lit exactly when the cell was 0. */
  lemma FlipLit(c: u8)
    ensures Flip(c) == 1 <==> c == 0
  {
  }

  /** The cell written for sprite bit `(row, col)` drawn at `(xx, yy)`, both coordinates wrapped. */
  function PixelIndex(xx: int, yy: int, row: int, col: int): (p: int)
    ensures 0 <= p < 64 * 32
  {
    (xx + col) % 64 + ((yy + row) % 32) * 64
  }

  /** The sprite column that lands on cell `p` when drawn at x-coordinate `xx`. */
  function ColOf(xx: int, p: int): int
  {
    (p % 64 - xx) % 64
  }

  /** The sprite row that lands on cell `p` when drawn at y-coordinate `yy`. */
  function RowOf(yy: int, p: int): int
  {
    (p / 64 - yy) % 32
  }

  /** `pixel & (0x80 >> col) != 0`: bit `col` of a sprite row, counted from the left. */
  predicate BitSet(bits: u8, col: int)
    requires 0 <= col < 8
  {
    And8(bits, Shr(0x80, col)) != 0
  }

  /** The mask `0x80 >> col` picks bit `7 - col`: sprite columns run from the most significant bit. */
  lemma BitSetIsBit(bits: u8, col: int)
    requires 0 <= col < 8
    ensures BitSet(bits, col) <==> Bit(bits, 7 - col) == 1
  {
    assert Pow2(7) == 0x80 && Pow2(8) == 0x100;
    ShrPow2(7, col);
    AndPow2(bits, 7 - col, 8);
  }

  /** Wrapping is a bijection between sprite positions and cells: the position is recovered from the cell. */
  lemma IndexInverse(xx: int, yy: int, row: int, col: int)
    requires 0 <= row < 32 && 0 <= col < 64
    ensures ColOf(xx, PixelIndex(xx, yy, row, col)) == col
    ensures RowOf(yy, PixelIndex(xx, yy, row, col)) == row
  {
    var a := (xx + col) % 64;
    var b := (yy + row) % 32;
    var p := a + b * 64;
    assert p % 64 == a && p / 64 == b;
  }

  /** ... and every cell is the image of the position recovered from it. */
  lemma IndexOnto(xx: int, yy: int, p: int)
    requires 0 <= p < 64 * 32
    ensures PixelIndex(xx, yy, RowOf(yy, p), ColOf(xx, p)) == p
  {
    assert (xx + ColOf(xx, p)) % 64 == p % 64;
    assert (yy + RowOf(yy, p)) % 32 == p / 64;
  }

  /** The state of the drawing loop: the screen and whether a collision has been seen. */
  datatype Canvas = Canvas(gfx: Screen, hit: bool)

  /** One set sprite bit landing on cell `p`. */
  function Plot(c: Canvas, p: int): Canvas
    requires 0 <= p < 64 * 32
  {
    Canvas(c.gfx[p := Flip(c.gfx[p])], c.hit || c.gfx[p] == 1)
  }

  /** The inner loop over the columns `col..7` of one sprite row; a collision once seen stays seen. */
  function DrawRow(c: Canvas, xx: int, yy: int, row: int, bits: u8, col: nat): (r: Canvas)
    requires col <= 8
    ensures c.hit ==> r.hit
    decreases 8 - col
  {
    if col == 8 then c
    else
      var c' := if BitSet(bits, col) then Plot(c, PixelIndex(xx, yy, row, col)) else c;
      DrawRow(c', xx, yy, row, bits, col + 1)
  }

  /** The outer loop over the sprite rows `row..|sprite|-1`; a collision once seen stays seen. */
  function DrawRows(c: Canvas, sprite: seq<u8>, xx: int, yy: int, row: nat): (r: Canvas)
    requires row <= |sprite|
    ensures c.hit ==> r.hit
    decreases |sprite| - row
  {
    if row == |sprite| then c
    else DrawRows(DrawRow(c, xx, yy, row, sprite[row], 0), sprite, xx, yy, row + 1)
  }

  /** Cell `p` receives a set bit from the columns `col..7` of row `row`. */
  predicate InRow(xx: int, yy: int, row: int, bits: u8, col: int, p: int)
  {
    var k := ColOf(xx, p);
    RowOf(yy, p) == row && col <= k < 8 && BitSet(bits, k)
  }

  /** Cell `p` receives a set bit from the rows `row..|sprite|-1`. */
  predicate InRows(sprite: seq<u8>, xx: int, yy: int, row: int, p: int)
  {
    var k := ColOf(xx, p);
    var j := RowOf(yy, p);
    row <= j < |sprite| && k < 8 && BitSet(sprite[j], k)
  }

  /** Cell `p` receives a set bit of the sprite drawn at `(xx, yy)`. */
  predicate Covered(sprite: seq<u8>, xx: int, yy: int, p: int)
  {
    InRows(sprite, xx, yy, 0, p)
  }

  /** Some set sprite bit lands on a pixel that is 1. */
  predicate Collides(g: Screen, sprite: seq<u8>, xx: int, yy: int)
  {
    exists j, k :: 0 <= j < |sprite| && 0 <= k < 8 && BitSet(sprite[j], k) && g[PixelIndex(xx, yy, j, k)] == 1
  }

  /** The pixels after the columns `col..7` of row `row` are drawn. */
  lemma {:induction false} DrawRowGfx(c: Canvas, xx: int, yy: int, row: int, bits: u8, col: nat)
    requires col <= 8 && 0 <= row < 32
    ensures forall p :: 0 <= p < 64 * 32 ==>
      DrawRow(c, xx, yy, row, bits, col).gfx[p] == if InRow(xx, yy, row, bits, col, p) then Flip(c.gfx[p]) else c.gfx[p]
    decreases 8 - col
  {
    if col < 8 {
      var q := PixelIndex(xx, yy, row, col);
      IndexInverse(xx, yy, row, col);
      var c' := if BitSet(bits, col) then Plot(c, q) else c;
      DrawRowGfx(c', xx, yy, row, bits, col + 1);
      var d := DrawRow(c, xx, yy, row, bits, col);
      assert d == DrawRow(c', xx, yy, row, bits, col + 1);
      forall p | 0 <= p < 64 * 32
        ensures d.gfx[p] == if InRow(xx, yy, row, bits, col, p) then Flip(c.gfx[p]) else c.gfx[p]
      {
        if p != q {
          IndexOnto(xx, yy, p);
          assert c'.gfx[p] == c.gfx[p];
          assert InRow(xx, yy, row, bits, col, p) == InRow(xx, yy, row, bits, col + 1, p);
        }
      }
    }
  }

  /** The collision flag after the columns `col..7` of row `row` are drawn. */
  lemma {:induction false} DrawRowHit(c: Canvas, xx: int, yy: int, row: int, bits: u8, col: nat)
    requires col <= 8 && 0 <= row < 32
    ensures DrawRow(c, xx, yy, row, bits, col).hit <==>
      c.hit || exists k :: col <= k < 8 && BitSet(bits, k) && c.gfx[PixelIndex(xx, yy, row, k)] == 1
    decreases 8 - col
  {
    if col < 8 {
      var q := PixelIndex(xx, yy, row, col);
      var c' := if BitSet(bits, col) then Plot(c, q) else c;
      DrawRowHit(c', xx, yy, row, bits, col + 1);
      var d := DrawRow(c, xx, yy, row, bits, col);
      assert d == DrawRow(c', xx, yy, row, bits, col + 1);
      forall k | col + 1 <= k < 8
        ensures c'.gfx[PixelIndex(xx, yy, row, k)] == c.gfx[PixelIndex(xx, yy, row, k)]
      {
        IndexInverse(xx, yy, row, k);
        IndexInverse(xx, yy, row, col);
      }
      if d.hit && !c.hit && !(BitSet(bits, col) && c.gfx[q] == 1) {
        var k :| col + 1 <= k < 8 && BitSet(bits, k) && c'.gfx[PixelIndex(xx, yy, row, k)] == 1;
        assert c.gfx[PixelIndex(xx, yy, row, k)] == 1;
      }
      if !d.hit {
        forall k | col <= k < 8 && BitSet(bits, k)
          ensures c.gfx[PixelIndex(xx, yy, row, k)] != 1
        {
          if k > col {
            assert c'.gfx[PixelIndex(xx, yy, row, k)] != 1;
          }
        }
      }
    }
  }

  /** The pixels after the rows `row..|sprite|-1` are drawn. */
  lemma {:induction false} DrawRowsGfx(c: Canvas, sprite: seq<u8>, xx: int, yy: int, row: nat)
    requires row <= |sprite| <= 32
    ensures forall p :: 0 <= p < 64 * 32 ==>
      DrawRows(c, sprite, xx, yy, row).gfx[p] == if InRows(sprite, xx, yy, row, p) then Flip(c.gfx[p]) else c.gfx[p]
    decreases |sprite| - row
  {
    if row < |sprite| {
      var c' := DrawRow(c, xx, yy, row, sprite[row], 0);
      DrawRowGfx(c, xx, yy, row, sprite[row], 0);
      DrawRowsGfx(c', sprite, xx, yy, row + 1);
      assert DrawRows(c, sprite, xx, yy, row) == DrawRows(c', sprite, xx, yy, row + 1);
    }
  }

  /** The collision flag after the rows `row..|sprite|-1` are drawn. */
  lemma {:induction false} DrawRowsHit(c: Canvas, sprite: seq<u8>, xx: int, yy: int, row: nat)
    requires row <= |sprite| <= 32
    ensures DrawRows(c, sprite, xx, yy, row).hit <==>
      c.hit || exists j, k :: row <= j < |sprite| && 0 <= k < 8 && BitSet(sprite[j], k) && c.gfx[PixelIndex(xx, yy, j, k)] == 1
    decreases |sprite| - row
  {
    if row < |sprite| {
      var c' := DrawRow(c, xx, yy, row, sprite[row], 0);
      DrawRowGfx(c, xx, yy, row, sprite[row], 0);
      DrawRowHit(c, xx, yy, row, sprite[row], 0);
      DrawRowsHit(c', sprite, xx, yy, row + 1);
      var d := DrawRows(c, sprite, xx, yy, row);
      assert d == DrawRows(c', sprite, xx, yy, row + 1);
      forall j, k | row + 1 <= j < |sprite| && 0 <= k < 8
        ensures c'.gfx[PixelIndex(xx, yy, j, k)] == c.gfx[PixelIndex(xx, yy, j, k)]
      {
        IndexInverse(xx, yy, j, k);
      }
      if d.hit && !c.hit && !(exists k :: 0 <= k < 8 && BitSet(sprite[row], k) && c.gfx[PixelIndex(xx, yy, row, k)] == 1) {
        var j, k :| row + 1 <= j < |sprite| && 0 <= k < 8 && BitSet(sprite[j], k) && c'.gfx[PixelIndex(xx, yy, j, k)] == 1;
        assert c.gfx[PixelIndex(xx, yy, j, k)] == 1;
      }
      if !d.hit {
        forall j, k | row <= j < |sprite| && 0 <= k < 8 && BitSet(sprite[j], k)
          ensures c.gfx[PixelIndex(xx, yy, j, k)] != 1
        {
          if j > row {
            assert c'.gfx[PixelIndex(xx, yy, j, k)] != 1;
          }
        }
      }
    }
  }

  /** `Dxyn`'s drawing loop: every cell covered by a set sprite bit is inverted,
      every other cell is kept, and a collision is reported exactly when some
      set bit lands on a pixel that was 1. */
  function Draw(g: Screen, sprite: seq<u8>, xx: u8, yy: u8): (c: Canvas)
    requires |sprite| < 16
    ensures forall p :: 0 <= p < 64 * 32 ==> c.gfx[p] == if Covered(sprite, xx, yy, p) then Flip(g[p]) else g[p]
    ensures c.hit <==> Collides(g, sprite, xx, yy)
  {
    DrawRowsGfx(Canvas(g, false), sprite, xx, yy, 0);
    DrawRowsHit(Canvas(g, false), sprite, xx, yy, 0);
    DrawRows(Canvas(g, false), sprite, xx, yy, 0)
  }

  lemma DrawKeepsBinary(g: Screen, sprite: seq<u8>, xx: u8, yy: u8)
    requires |sprite| < 16 && Binary(g)
    ensures Binary(Draw(g, sprite, xx, yy).gfx)
  {
    var d := Draw(g, sprite, xx, yy).gfx;
    forall p | 0 <= p < |d|
      ensures d[p] == 0 || d[p] == 1
    {
      assert d[p] == g[p] || d[p] == Flip(g[p]);
    }
  }

  /** Drawing the same sprite at the same place twice restores the screen. */
  lemma DrawTwiceRestores(g: Screen, sprite: seq<u8>, xx: u8, yy: u8)
    requires |sprite| < 16
    ensures Draw(Draw(g, sprite, xx, yy).gfx, sprite, xx, yy).gfx == g
  {
    var d := Draw(Draw(g, sprite, xx, yy).gfx, sprite, xx, yy).gfx;
    forall p | 0 <= p < |g|
      ensures d[p] == g[p]
    {
      FlipFlip(g[p]);
    }
  }

  /** The collision flag, stated over cells instead of sprite bits. */
  lemma CollidesCovered(g: Screen, sprite: seq<u8>, xx: u8, yy: u8)
    requires |sprite| < 16
    ensures Collides(g, sprite, xx, yy) <==> exists p :: 0 <= p < 64 * 32 && Covered(sprite, xx, yy, p) && g[p] == 1
  {
    if Collides(g, sprite, xx, yy) {
      var j, k :| 0 <= j < |sprite| && 0 <= k < 8 && BitSet(sprite[j], k) && g[PixelIndex(xx, yy, j, k)] == 1;
      IndexInverse(xx, yy, j, k);
      assert Covered(sprite, xx, yy, PixelIndex(xx, yy, j, k));
    }
    if exists p :: 0 <= p < 64 * 32 && Covered(sprite, xx, yy, p) && g[p] == 1 {
      var p :| 0 <= p < 64 * 32 && Covered(sprite, xx, yy, p) && g[p] == 1;
      IndexOnto(xx, yy, p);
      var j, k := RowOf(yy, p), ColOf(xx, p);
      assert BitSet(sprite[j], k) && g[PixelIndex(xx, yy, j, k)] == 1;
    }
  }

  /** The second of two identical draws collides exactly when the sprite covers
      a pixel that was 0 before the first draw: the first draw turned exactly
      those covered pixels to 1. */
  lemma SecondDrawCollides(g: Screen, sprite: seq<u8>, xx: u8, yy: u8)
    requires |sprite| < 16
    ensures Draw(Draw(g, sprite, xx, yy).gfx, sprite, xx, yy).hit <==>
      exists p :: 0 <= p < 64 * 32 && Covered(sprite, xx, yy, p) && g[p] == 0
  {
    var g1 := Draw(g, sprite, xx, yy).gfx;
    CollidesCovered(g1, sprite, xx, yy);
    forall p | 0 <= p < 64 * 32 && Covered(sprite, xx, yy, p)
      ensures g1[p] == 1 <==> g[p] == 0
    {
      assert g1[p] == Flip(g[p]);
      FlipLit(g[p]);
    }
  }
}
