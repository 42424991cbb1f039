/** Fence cookies of intel/intel_bufmgr_fake.c: the kernel hands out 1 to
    0x7fffffff and starts over, and FENCE_LTE compares two of them. */
module FenceOrder {

  const MAXFENCE := 0x7fff_ffff
  const FENCE_WINDOW := 0x100_0000

  /** The cookie of the n-th emitted fence, n >= 1. */
  function Cookie(n: nat): (c: int)
    requires n >= 1
    ensures 1 <= c <= MAXFENCE
  {
    (n - 1) % MAXFENCE + 1
  }

  predicate FenceLte(a: int, b: int)
  {
    if a == b then true
    else if a < b && b - a < FENCE_WINDOW then true
    else if a > b && MAXFENCE - a + b < FENCE_WINDOW then true
    else false
  }

  /** Within one round of the counter the distance of two cookies determines the distance of their emissions. */
  lemma CookieDistance(i: nat, j: nat)
    requires 1 <= i <= j && j - i < MAXFENCE
    ensures Cookie(j) - Cookie(i) == j - i || Cookie(j) - Cookie(i) == j - i - MAXFENCE
    ensures i < j ==> Cookie(i) != Cookie(j)
  {
    var qi, ri := (i - 1) / MAXFENCE, (i - 1) % MAXFENCE;
    var qj, rj := (j - 1) / MAXFENCE, (j - 1) % MAXFENCE;
    assert i - 1 == qi * MAXFENCE + ri && j - 1 == qj * MAXFENCE + rj;
    assert (qj - qi) * MAXFENCE == j - i - (rj - ri);
    assert qj - qi == 0 || qj - qi == 1;
  }

  /** FENCE_LTE on two emissions less than a counter round apart: it says "at or
      before" exactly as long as the later one is less than 2^24 ahead. */
  lemma FenceLteExact(i: nat, j: nat)
    requires i >= 1 && j >= 1
    requires -MAXFENCE < j - i < MAXFENCE
    ensures FenceLte(Cookie(i), Cookie(j)) <==>
      (0 <= j - i < FENCE_WINDOW) || (j < i && MAXFENCE - (i - j) < FENCE_WINDOW)
  {
    if i <= j {
      CookieDistance(i, j);
    } else {
      CookieDistance(j, i);
    }
  }

  /** While outstanding emissions span less than 2^24, FENCE_LTE is emission order. */
  lemma FenceLteIsOrder(i: nat, j: nat)
    requires i >= 1 && j >= 1
    requires -FENCE_WINDOW < j - i < FENCE_WINDOW
    ensures FenceLte(Cookie(i), Cookie(j)) <==> i <= j
  {
    FenceLteExact(i, j);
  }

  /** Two emissions 2^24 apart: the earlier one is not recognised as passed. */
  lemma FenceWindowIsTight(i: nat)
    requires i >= 1
    ensures !FenceLte(Cookie(i), Cookie(i + FENCE_WINDOW))
  {
    FenceLteExact(i, i + FENCE_WINDOW);
  }
}
