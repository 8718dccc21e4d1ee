/** The register file and the `8xyN` arithmetic family.

    Every flag-setting operation first writes VF and only then computes the
    result from the register file as it is after that write, so the result
    differs from the textbook one when `x` or `y` names VF itself.  The
    contracts below state the textbook meaning for the ordinary case; the
    VF cases are stated in the `Quirks` module.
 */
module Alu {
  import opened Word

  /** `V0` .. `VF`; `VF` is index 15. */
  type Regs = v: seq<u8> | |v| == 16 witness seq(16, _ => 0)

  const VF: u4 := 0xF

  /** `8xy4`: VF and Vx together hold the 9-bit sum of Vx and Vy. */
  function AddCarry(v: Regs, x: u4, y: u4): (r: Regs)
    ensures x != VF && y != VF ==> 0x100 * (r[VF] as int) + r[x] == v[x] as int + v[y]
    ensures x != VF && y != VF ==> (r[VF] == 1 <==> v[x] as int + v[y] > 0xFF) && r[x] == (v[x] as int + v[y]) % 0x100
    ensures forall j :: 0 <= j < 16 && j != x && j != VF ==> r[j] == v[j]
  {
    var v1 := v[VF := Flag(v[y] > 0xFF - v[x])];
    v1[x := Byte(v1[x] + v1[y])]
  }

  /** `8xy5`: Vx := Vx - Vy modulo 256, VF := 1 exactly when Vx > Vy. */
  function SubBorrow(v: Regs, x: u4, y: u4): (r: Regs)
    ensures x != VF && y != VF ==> (r[VF] == 1 <==> v[x] > v[y]) && (r[VF] == 0 <==> v[x] <= v[y])
    ensures x != VF && y != VF ==> (r[x] as int + v[y]) % 0x100 == v[x]
    ensures x != VF && y != VF && v[x] >= v[y] ==> r[x] == v[x] as int - v[y]
    ensures forall j :: 0 <= j < 16 && j != x && j != VF ==> r[j] == v[j]
  {
    var v1 := v[VF := Flag(v[x] > v[y])];
    v1[x := Byte(v1[x] - v1[y])]
  }

  /** `8xy7`: the result goes to Vy (not Vx): Vy := Vy - Vx modulo 256, VF := 1 exactly when Vy > Vx. */
  function SubReverse(v: Regs, x: u4, y: u4): (r: Regs)
    ensures x != VF && y != VF ==> (r[VF] == 1 <==> v[y] > v[x]) && (r[VF] == 0 <==> v[y] <= v[x])
    ensures x != VF && y != VF ==> (r[y] as int + v[x]) % 0x100 == v[y]
    ensures x != VF && y != VF && x != y ==> r[x] == v[x]
    ensures forall j :: 0 <= j < 16 && j != y && j != VF ==> r[j] == v[j]
  {
    var v1 := v[VF := Flag(v[y] > v[x])];
    v1[y := Byte(v1[y] - v1[x])]
  }

  /** `8xy6`: VF receives the bit shifted out of Vx; the two together rebuild the old Vx. */
  function ShiftRight(v: Regs, x: u4): (r: Regs)
    ensures x != VF ==> 2 * (r[x] as int) + r[VF] == v[x] && r[VF] < 2
    ensures forall j :: 0 <= j < 16 && j != x && j != VF ==> r[j] == v[j]
  {
    AndOneIsLowBit(v[x]);
    var v1 := v[VF := And8(v[x], 1)];
    v1[x := v1[x] / 2]
  }

  /** `8xyE`: VF receives the bit shifted out of Vx; VF and the new Vx hold twice the old Vx. */
  function ShiftLeft(v: Regs, x: u4): (r: Regs)
    ensures x != VF ==> 0x100 * (r[VF] as int) + r[x] == 2 * (v[x] as int) && r[VF] < 2
    ensures forall j :: 0 <= j < 16 && j != x && j != VF ==> r[j] == v[j]
  {
    var v1 := v[VF := v[x] / 0x80];
    v1[x := Byte(v1[x] * 2)]
  }
}
