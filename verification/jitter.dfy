/**
 * The retry wait: `random.randint(RETRY_TIME_L_BOUND, RETRY_TIME_U_BOUND)`.
 * The random source is an oracle `seed`; every seed yields a wait inside
 * the bounds, and every wait inside the bounds is yielded by some seed.
 */
module Jitter {
  import opened Results

  function RandInt(lo: nat, hi: nat, seed: nat): (r: Result<nat>)
    ensures r.Ok? <==> lo <= hi
    ensures r.Ok? ==> lo <= r.value <= hi
  {
    if lo > hi then Err("empty range for randrange()") else Ok(lo + seed % (hi - lo + 1))
  }

  /** No wait in the range is out of reach of the random source. */
  lemma RandIntCovers(lo: nat, hi: nat, wait: nat)
    requires lo <= wait <= hi
    ensures exists seed: nat :: RandInt(lo, hi, seed) == Ok(wait)
  {
    var seed: nat := wait - lo;
    assert RandInt(lo, hi, seed) == Ok(wait);
  }
}
