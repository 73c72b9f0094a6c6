/** Fixed-width machine integers of the C++ sources, and the usual option type. */
module Machine {

  type byte = x: int | 0 <= x < 0x100
  type u16 = x: int | 0 <= x < 0x1_0000
  type u32 = x: int | 0 <= x < 0x1_0000_0000

  datatype Option<+T> = None | Some(value: T)

  /** `static_cast<uint16_t>`: keeps the low 16 bits. */
  function Wrap16(x: int): u16 {
    x % 0x1_0000
  }

  /** `static_cast<uint32_t>`: keeps the low 32 bits. */
  function Wrap32(x: int): u32 {
    x % 0x1_0000_0000
  }

  /** Wrapping keeps parity. */
  lemma WrapParity(x: int)
    ensures Wrap32(x) % 2 == x % 2
  {
    var q, r: int := x / 0x1_0000_0000, Wrap32(x);
    assert x == 0x1_0000_0000 * q + r;
    hide Wrap32;
    EvenOffset(r, 0x8000_0000 * q);
  }

  lemma EvenOffset(r: int, k: int)
    ensures (2 * k + r) % 2 == r % 2
  {
  }

  /** `static_cast<int16_t>(a - b)` on two 16-bit unsigned values: their signed distance modulo 2^16. */
  function Delta16(a: u16, b: u16): int {
    var d := a - b;
    if d >= 0x8000 then d - 0x1_0000 else if d < -0x8000 then d + 0x1_0000 else d
  }

  /** `static_cast<int32_t>(a - b)` on two 32-bit unsigned values: their signed distance modulo 2^32. */
  function Delta32(a: u32, b: u32): int {
    var d := a - b;
    if d >= 0x8000_0000 then d - 0x1_0000_0000 else if d < -0x8000_0000 then d + 0x1_0000_0000 else d
  }

  /** A number above all of a finite set. */
  lemma {:induction false} UnusedId(used: set<nat>) returns (id: nat)
    ensures forall k :: k in used ==> k < id
  {
    id := 0;
    if used != {} {
      var k :| k in used;
      var rest := UnusedId(used - {k});
      id := if k < rest then rest else k + 1;
      assert forall j :: j in used ==> j == k || j in used - {k};
    }
  }
}
