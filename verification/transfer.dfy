/** The instructions that move bytes between the registers and memory at `I`:
    `Fx33` (decimal digits), `Fx55` (store `V0..Vx`) and `Fx65` (load `V0..Vx`). */
module Transfer {
  import opened Word
  import opened Alu
  import opened Machine

  /** `Fx33`: the hundreds, tens and ones digit of `b` at `base`, `base + 1`, `base + 2`. */
  function Bcd(m: Memory, base: u16, b: u8): (r: Memory)
    requires base + 2 < 0x1000
    ensures r[base] < 10 && r[base + 1] < 10 && r[base + 2] < 10
    ensures 100 * (r[base] as int) + 10 * (r[base + 1] as int) + r[base + 2] == b
    ensures forall a :: 0 <= a < 0x1000 && !(base <= a <= base + 2) ==> r[a] == m[a]
  {
    m[base := Byte(b / 100)][Short(base + 1) := Byte((b / 10) % 10)][Short(base + 2) := Byte((b % 100) % 10)]
  }

  /** `Fx55`'s loop from register `k` on: `V[j]` goes to `base + j` for `k <= j <= x`. */
  function StoreFrom(m: Memory, v: Regs, base: u16, x: u4, k: nat): (r: Memory)
    requires base + x < 0x1000 && k <= x + 1
    ensures forall a :: 0 <= a < 0x1000 ==>
      r[a] == if base + k <= a <= base + x then v[a - base] else m[a]
    decreases x + 1 - k
  {
    if k > x then m
    else StoreFrom(m[Short(base + k) := v[k]], v, base, x, k + 1)
  }

  /** `Fx65`'s loop from register `k` on: `V[j]` gets the byte at `base + j` for `k <= j <= x`. */
  function LoadFrom(v: Regs, m: Memory, base: u16, x: u4, k: nat): (r: Regs)
    requires base + x < 0x1000 && k <= x + 1
    ensures forall j :: 0 <= j < 16 ==>
      r[j] == if k <= j <= x then m[base + j] else v[j]
    decreases x + 1 - k
  {
    if k > x then v
    else LoadFrom(v[k := m[base + k]], m, base, x, k + 1)
  }

  /** Storing `V0..Vx` and loading them back from the same place restores every register. */
  lemma StoreThenLoad(m: Memory, v: Regs, base: u16, x: u4)
    requires base + x < 0x1000
    ensures LoadFrom(v, StoreFrom(m, v, base, x, 0), base, x, 0) == v
  {
    var r := LoadFrom(v, StoreFrom(m, v, base, x, 0), base, x, 0);
    assert forall j :: 0 <= j < 16 ==> r[j] == v[j];
  }
}
