/** Values and machine arithmetic shared by the other modules. */
module Basics {

  datatype Option<+T> = None | Some(value: T)

  const TWO31: int := 0x8000_0000
  const TWO32: int := 0x1_0000_0000
  const TWO63: int := 0x8000_0000_0000_0000
  const TWO64: int := 0x1_0000_0000_0000_0000

  /** Addition and subtraction of Go `uint32` values, which wrap around. */
  function Add32(a: nat, b: nat): (r: nat)
  {
    if a + b < TWO32 then a + b else a + b - TWO32
  }

  function Sub32(a: nat, b: nat): (r: nat)
    requires b < TWO32
  {
    if a >= b then a - b else a + TWO32 - b
  }

  function Min(a: nat, b: nat): nat {
    if a < b then a else b
  }

  function Max(a: nat, b: nat): nat {
    if a > b then a else b
  }

  /** The Go `int64` that a mathematical integer is stored as. */
  function Wrap64(x: int): (r: int)
    ensures -TWO63 <= r < TWO63
    ensures -TWO63 <= x < TWO63 ==> r == x
  {
    (x + 0x8000_0000_0000_0000) % 0x1_0000_0000_0000_0000 - 0x8000_0000_0000_0000
  }

  /** Addition of Go `int64` values. */
  function Add64(a: int, b: int): int {
    Wrap64(a + b)
  }

  /** Wrapping after every addition is the same as wrapping the exact sum once. */
  lemma WrapOnce(x: int, y: int)
    ensures Wrap64(Wrap64(x) + y) == Wrap64(x + y)
  {
    var q := (x + TWO63) / TWO64;
    assert Wrap64(x) == x - TWO64 * q;
    WrapShift(x + y, q);
  }

  lemma WrapShift(x: int, q: int)
    ensures Wrap64(x - TWO64 * q) == Wrap64(x)
  {
    var a := x + TWO63;
    var k, r := a / TWO64, a % TWO64;
    assert a - TWO64 * q == TWO64 * (k - q) + r;
    RemainderUnique(a - TWO64 * q, k - q, r);
  }

  lemma RemainderUnique(a: int, k: int, r: int)
    requires a == TWO64 * k + r && 0 <= r < TWO64
    ensures a % TWO64 == r
  {
    var k' := a / TWO64;
    assert a == TWO64 * k' + a % TWO64;
    assert TWO64 * (k - k') == a % TWO64 - r;
    assert k == k';
  }
}
