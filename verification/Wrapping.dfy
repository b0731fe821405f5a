/** Machine integers of the transport: octets, 16-bit ports and mux sequence
    numbers, 32-bit TCP sequence numbers. They are subset types of int, so every
    wrap-around is written out. */
module Wrapping {
  type byte = x: int | 0 <= x < 0x100
  type u16 = x: int | 0 <= x < 0x1_0000
  type u32 = x: int | 0 <= x < 0x1_0000_0000

  function Wrap16(x: int): u16 { x % 0x1_0000 }

  function Wrap32(x: int): u32 { x % 0x1_0000_0000 }

  lemma WrapAdd32(x: int, n: int)
    ensures Wrap32(Wrap32(x) + n) == Wrap32(x + n)
  {
  }

  /** Two unbounded offsets less than 2^32 apart have the same sequence number only if equal. */
  lemma NoAlias32(x: int, y: int)
    requires Wrap32(x) == Wrap32(y)
    requires -0x1_0000_0000 < x - y < 0x1_0000_0000
    ensures x == y
  {
  }

  lemma Apart32(x: int, y: int)
    requires 0 < x - y < 0x1_0000_0000
    ensures Wrap32(x) != Wrap32(y)
  {
  }

  /** The distance of two sequence numbers is that of the offsets behind them. */
  lemma WrapDistance(base: int, far: int, near: int)
    requires 0 <= far - near < 0x1_0000_0000
    ensures Wrap32(Wrap32(base + far) - Wrap32(base + near)) == far - near
  {
  }
}
