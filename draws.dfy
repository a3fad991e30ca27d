/** The random choices the generator makes, taken as explicit inputs.
    `random.randint(lo, hi)` and Faker's `date_time_between(lo, hi)` both
    return some integer of the closed range [lo, hi]. The caller supplies
    the value drawn; a value outside the range, which the library never
    returns, stands for `lo`, so that every input is a legal draw. */
module Draws {

  /** The outcome of a draw `v` from the closed range [lo, hi]. */
  function RandInt(lo: int, hi: int, v: int): (n: int)
    requires lo <= hi
    ensures lo <= n <= hi
    ensures lo <= v <= hi ==> n == v
  {
    if lo <= v <= hi then v else lo
  }

  /** No value of the range is out of reach: the draws produce exactly the
      outcomes the library call can produce. */
  lemma RandIntOutcomes(lo: int, hi: int, n: int)
    requires lo <= hi
    ensures (exists v :: RandInt(lo, hi, v) == n) <==> lo <= n <= hi
  {
    if lo <= n <= hi {
      assert RandInt(lo, hi, n) == n;
    }
  }
}
