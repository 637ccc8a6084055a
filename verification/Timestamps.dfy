/**
`int(x.timestamp() * 1000)`: the milliseconds of an instant through two roundings to binary floating point.
Instants are microseconds since 1970; the product lies between 2^40 and 2^41, that is between November 2004
and September 2039, where a double counts it in units of 2^-12.
*/
module Timestamps {
  const MS: int := 1000

  const SECOND: int := 1_000_000

  /** The first instant, one millisecond above 2^40 ms: 2004-11-03T19:53:47.777Z. */
  const FIRST: int := 1_099_511_627_777_000

  /** The first whose seconds need 32 bits: 2038-01-19T03:14:08Z. */
  const LAST: int := 2_147_483_648 * SECOND

  predicate InRange(at: int) {
    FIRST <= at < LAST
  }

  function Abs(x: int): nat {
    if x < 0 then -x else x
  }

  /** n / d rounded to the nearest integer, to the even one of two. */
  function Nearest(n: nat, d: nat): nat
    requires d > 0
  {
    var q, rest := n / d, n % d;
    if 2 * rest > d || (2 * rest == d && q % 2 == 1) then q + 1 else q
  }

  lemma NearestIsNear(n: nat, d: nat)
    requires d > 0
    ensures 2 * Abs(Nearest(n, d) * d - n) <= d
  {
    var q := n / d;
    assert (q + 1) * d == q * d + d;
  }

  /** How many units a double has in one second: 2^22 below 2^31 seconds, 2^21 from there on. */
  function UnitsPerSecond(at: nat): nat {
    if at < LAST then 4_194_304 else 2_097_152
  }

  /** `at.timestamp()`, in those units. */
  function Seconds(at: nat): nat {
    Nearest(at * UnitsPerSecond(at), SECOND)
  }

  /** `int(at.timestamp() * 1000)` */
  function Milliseconds(at: nat): nat {
    Nearest(Seconds(at) * MS * 4096, UnitsPerSecond(at)) / 4096
  }

  /** Until January 2038 the two roundings never change the millisecond. */
  lemma MillisecondsAreFloors(at: nat)
    requires InRange(at)
    ensures Milliseconds(at) == at / MS
  {
    var units := UnitsPerSecond(at);
    var seconds, product := Seconds(at), Nearest(Seconds(at) * MS * 4096, units);
    NearestIsNear(at * units, SECOND);
    NearestIsNear(seconds * MS * 4096, units);
    hide Nearest;
    FloorOf(product, at / MS);
  }

  lemma FloorOf(product: nat, k: nat)
    requires 4096 * k <= product < 4096 * k + 4096
    ensures product / 4096 == k
  {
  }

  /** Afterwards they do: 2038-11-10T21:08:27.002Z counts as one millisecond earlier. */
  lemma MillisecondsCanFallShort()
    ensures Milliseconds(2_173_036_107_002_000) == 2_173_036_107_001
  {
  }
}
