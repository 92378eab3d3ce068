/** Python's built-in round(), taken over exact reals: to the nearest
    integer, and on an exact half to the even neighbour ("banker's
    rounding"). round(x, 1) is the same rule applied in tenths. */
module Rounding {

  /** The nearest integer to x; an exact half goes to the even one. */
  function RoundHalfEven(x: real): (n: int)
    ensures x - 0.5 <= n as real <= x + 0.5
    ensures (n as real == x - 0.5 || n as real == x + 0.5) ==> n % 2 == 0
  {
    var f := x.Floor;
    var d := x - f as real;
    if d < 0.5 then f
    else if d > 0.5 then f + 1
    else if f % 2 == 0 then f
    else f + 1
  }

  /** The two postconditions of RoundHalfEven determine it: no other integer
      is as near, or as near and even. */
  lemma RoundHalfEvenUnique(x: real, m: int)
    requires x - 0.5 <= m as real <= x + 0.5
    requires (m as real == x - 0.5 || m as real == x + 0.5) ==> m % 2 == 0
    ensures m == RoundHalfEven(x)
  {
  }

  /** An integer rounds to itself. */
  lemma RoundInteger(k: int)
    ensures RoundHalfEven(k as real) == k
  {
    RoundHalfEvenUnique(k as real, k);
  }

  /** Rounding a value in [lo, hi] with integer bounds stays in [lo, hi]. */
  lemma RoundWithin(x: real, lo: int, hi: int)
    requires lo as real <= x <= hi as real
    ensures lo <= RoundHalfEven(x) <= hi
  {
  }

  /** Python's round(x, 1), as a whole number of tenths: the nearest tenth,
      an exact half going to the even tenth. */
  function RoundTenths(x: real): (t: int)
    ensures x - 0.05 <= t as real / 10.0 <= x + 0.05
    ensures (t as real / 10.0 == x - 0.05 || t as real / 10.0 == x + 0.05) ==> t % 2 == 0
  {
    var t := RoundHalfEven(x * 10.0);
    assert t as real / 10.0 == x - 0.05 ==> t as real == x * 10.0 - 0.5;
    assert t as real / 10.0 == x + 0.05 ==> t as real == x * 10.0 + 0.5;
    t
  }
}
