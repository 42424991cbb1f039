/** Masks of 32 bits as sums of powers of two. */
module BitMasks {
  import opened MmLayout
  import opened Arithmetic

  const BITS: nat := 32

  /** x & (1 << k) != 0 */
  function TestBit(x: nat, k: nat): bool
  {
    x / Pow2(k) % 2 == 1
  }

  /** The sum of the bits of `s` below `n`. */
  ghost function MaskBelow(s: set<nat>, n: nat): (m: nat)
    ensures m < Pow2(n)
  {
    if n == 0 then 0 else MaskBelow(s, n - 1) + if n - 1 in s then Pow2(n - 1) else 0
  }

  ghost function Mask(s: set<nat>): nat
  {
    MaskBelow(s, BITS)
  }

  lemma {:induction false} MaskBelowAdd(s: set<nat>, k: nat, n: nat)
    requires k !in s
    ensures MaskBelow(s + {k}, n) == MaskBelow(s, n) + if k < n then Pow2(k) else 0
  {
    if n > 0 {
      MaskBelowAdd(s, k, n - 1);
    }
  }

  /** Adding a bit that is not there does not carry. */
  lemma MaskAdd(s: set<nat>, k: nat)
    requires k !in s && k < BITS
    ensures Mask(s + {k}) == Mask(s) + Pow2(k)
  {
    MaskBelowAdd(s, k, BITS);
  }

  lemma MaskDrop(s: set<nat>, k: nat)
    requires k in s && k < BITS
    ensures Mask(s) >= Pow2(k) && Mask(s - {k}) == Mask(s) - Pow2(k)
  {
    MaskAdd(s - {k}, k);
    assert (s - {k}) + {k} == s;
  }

  lemma EvenMultiple(x: int, d: int, h: int)
    requires d > 0
    ensures (x + d * (2 * h)) / d % 2 == x / d % 2
  {
    var q := x / d;
    assert x == d * q + x % d;
    Distribute(d, q, 2 * h);
    DivUnique(x + d * (2 * h), d, q + 2 * h, x % d);
  }

  /** Higher bits are even multiples of a lower one. */
  lemma HighBits(x: nat, n: nat, k: nat)
    requires k < n
    ensures (x + Pow2(n)) / Pow2(k) % 2 == x / Pow2(k) % 2
  {
    var d, h := Pow2(k), Pow2(n - k - 1);
    Pow2Sum(k, n - k);
    assert Pow2(n) == d * (2 * h) by { assert Pow2(n - k) == 2 * h; }
    EvenMultiple(x, d, h);
  }

  lemma {:induction false} MaskBelowBit(s: set<nat>, n: nat, k: nat)
    requires k < n
    ensures TestBit(MaskBelow(s, n), k) <==> k in s
  {
    var low := MaskBelow(s, n - 1);
    if k == n - 1 {
      DivUnique(MaskBelow(s, n), Pow2(k), if k in s then 1 else 0, low);
    } else {
      MaskBelowBit(s, n - 1, k);
      HighBits(low, n - 1, k);
    }
  }

  /** The bit test answers membership. */
  lemma MaskBit(s: set<nat>, k: nat)
    requires k < BITS
    ensures TestBit(Mask(s), k) <==> k in s
  {
    MaskBelowBit(s, BITS, k);
  }

  // ----- generate_id

  /** __builtin_ctz(~n): the lowest clear bit at or above `k`. */
  function LowestClear(x: nat, k: nat): (r: nat)
    requires k <= BITS
    ensures k <= r <= BITS && (r < BITS ==> !TestBit(x, r)) && forall j :: k <= j < r ==> TestBit(x, j)
    decreases BITS - k
  {
    if k == BITS || !TestBit(x, k) then k else LowestClear(x, k + 1)
  }

  lemma {:induction false} FullBelow(s: set<nat>, n: nat)
    requires forall j :: 0 <= j < n ==> j in s
    ensures MaskBelow(s, n) == Pow2(n) - 1
  {
    if n > 0 {
      FullBelow(s, n - 1);
    }
  }

  lemma {:induction false} NotFullBelow(s: set<nat>, n: nat, k: nat)
    requires k < n && k !in s
    ensures MaskBelow(s, n) < Pow2(n) - 1
  {
    if k < n - 1 {
      NotFullBelow(s, n - 1, k);
    }
  }

  /** cs_id_source != ~0 exactly when a bit is clear, and the lowest one is found. */
  lemma FreeBit(s: set<nat>)
    ensures Mask(s) == Pow2(BITS) - 1 <==> forall j :: 0 <= j < BITS ==> j in s
    ensures Mask(s) != Pow2(BITS) - 1 ==> LowestClear(Mask(s), 0) < BITS && LowestClear(Mask(s), 0) !in s
    ensures forall j :: 0 <= j < LowestClear(Mask(s), 0) ==> j in s
  {
    var r := LowestClear(Mask(s), 0);
    forall j | 0 <= j < r ensures j in s {
      MaskBit(s, j);
    }
    if r < BITS {
      MaskBit(s, r);
      NotFullBelow(s, BITS, r);
    } else {
      FullBelow(s, BITS);
    }
  }
}
