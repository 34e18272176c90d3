/** Small shared vocabulary: optional values and 32-bit integers. */
module Common {
  datatype Option<+T> = None | Some(value: T)

  /** A handle given out by libssh or malloc; no handle is ever given out twice. */
  type Handle = nat

  type Byte = x: int | 0 <= x < 256

  const INT_MAX := 0x7fff_ffff
  const INT_MIN := -0x8000_0000
  const UINT_MAX := 0xffff_ffff

  predicate IsInt(x: int) { INT_MIN <= x <= INT_MAX }

  /** Narrowing of a wider integer to int: the representative modulo 2^32. */
  function Wrap32(x: int): (r: int)
    ensures IsInt(r) && (IsInt(x) ==> r == x)
    ensures (r - x) % 0x1_0000_0000 == 0
  {
    (x + 0x8000_0000) % 0x1_0000_0000 - 0x8000_0000
  }

  /** Two ints that agree modulo 2^32 are equal. */
  lemma WrapUnique(x: int, y: int)
    requires (x - y) % 0x1_0000_0000 == 0
    ensures Wrap32(x) == Wrap32(y)
  {
    var k := (x - y) / 0x1_0000_0000;
    assert x == y + k * 0x1_0000_0000;
    ModShift(y + 0x8000_0000, k);
  }

  /** Narrowing early or late makes no difference to a sum, nor to a multiple. */
  lemma WrapAdd(x: int, y: int)
    ensures Wrap32(Wrap32(x) + y) == Wrap32(x + y)
  {
    WrapUnique(Wrap32(x) + y, x + y);
  }

  lemma WrapThousand(x: int, y: int)
    ensures Wrap32(Wrap32(x) * 1000 + y) == Wrap32(x * 1000 + y)
  {
    hide Wrap32;
    var k := (Wrap32(x) - x) / 0x1_0000_0000;
    assert Wrap32(x) * 1000 + y - (x * 1000 + y) == 0 + (1000 * k) * 0x1_0000_0000;
    ModShift(0, 1000 * k);
    WrapUnique(Wrap32(x) * 1000 + y, x * 1000 + y);
  }

  lemma ModShift(y: int, k: int)
    ensures (y + k * 0x1_0000_0000) % 0x1_0000_0000 == y % 0x1_0000_0000
  {
  }
}
