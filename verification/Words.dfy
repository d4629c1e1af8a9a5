/** Machine words and pages: the widths at which the source's integers wrap. */
module Words {

  const PAGE: nat := 4096
  const TWO31: nat := 0x8000_0000
  const TWO32: nat := 0x1_0000_0000
  const TWO63: nat := 0x8000_0000_0000_0000
  const TWO64: nat := 0x1_0000_0000_0000_0000

  /** Conversion to a signed 32-bit int. */
  function ToInt(x: int): int {
    if 0 - TWO31 <= x < TWO31 then x else (x + TWO31) % TWO32 - TWO31
  }

  /** The int congruent to x modulo 2^32. */
  lemma ToIntIs(x: int, y: int)
    ensures ToInt(x) == y <==> 0 - TWO31 <= y < TWO31 && (x - y) % TWO32 == 0
  {
  }

  /** How many of n pages a loop visits that keeps the page count in an int. */
  function Window(n: nat): (r: nat)
    ensures r <= n && (n < TWO31 <==> r == n)
  {
    if ToInt(n) < 0 then 0 else ToInt(n)
  }

  /** Unsigned 64-bit arithmetic. */
  function Wrap(x: int): nat {
    if 0 <= x < TWO64 then x else x % TWO64
  }

  /** The unsigned word congruent to x modulo 2^64. */
  lemma WrapIs(x: int, y: int)
    ensures Wrap(x) == y <==> 0 <= y < TWO64 && (x - y) % TWO64 == 0
  {
  }

  predicate U64(x: nat) {
    x < TWO64
  }

  predicate Aligned(x: int) {
    x % PAGE == 0
  }
}
