/** Small shared vocabulary. */
module Common {
  datatype Option<+T> = None | Some(value: T)

  function Min(a: int, b: int): int { if a <= b then a else b }

  const MAX_INT64: int := 0x7FFF_FFFF_FFFF_FFFF

  /** Two's-complement wrap-around of Go's 64-bit signed integers. */
  function Wrap64(x: int): int {
    (x + 0x8000_0000_0000_0000) % 0x1_0000_0000_0000_0000 - 0x8000_0000_0000_0000
  }

  lemma WrapExact(x: int)
    ensures Wrap64(x) == x <==> -0x8000_0000_0000_0000 <= x <= MAX_INT64
  {
  }

  lemma WrapAtMost(x: nat)
    ensures Wrap64(x) <= x
  {
  }

  lemma WrapMultiple(n: int)
    ensures Wrap64(0x1_0000_0000_0000_0000 * n) == 0
  {
    assert (0x1_0000_0000_0000_0000 * n + 0x8000_0000_0000_0000) % 0x1_0000_0000_0000_0000 == 0x8000_0000_0000_0000;
  }
}
