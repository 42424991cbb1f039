/** The Lehmer generator of xf86drmRandom.c (Park, Miller and Stockmeyer, CACM
    36(7), 1993), computed by Schrage's decomposition. */
module Random {
  const A: int := 48271
  const M: int := 2147483647
  const Q: int := M / A
  const R: int := M % A
  /** 48271 * 1899818559 == 42704 * M + 1 */
  const A_INVERSE: int := 1899818559

  ghost predicate Legal(seed: int)
  {
    1 <= seed < M
  }

  /** The generator as it is defined. */
  function Step(seed: int): int
  {
    A * seed % M
  }

  /** A 64-bit unsigned value read as a signed one. */
  function ToSigned(x: int): int
    requires 0 <= x < 0x1_0000_0000_0000_0000
  {
    if x >= 0x8000_0000_0000_0000 then x - 0x1_0000_0000_0000_0000 else x
  }

  // ----- modular arithmetic

  lemma ModUnique(x: int, k: int, r: int)
    requires x == M * k + r && 0 <= r < M
    ensures x % M == r && x / M == k
  {
  }

  lemma ModAdd(x: int, k: int)
    ensures (x + M * k) % M == x % M
  {
    ModUnique(x + M * k, x / M + k, x % M);
  }

  lemma ModMul(x: int, y: int)
    ensures (x % M) * y % M == x * y % M
  {
    assert x == M * (x / M) + x % M;
    assert x * y == (x % M) * y + M * (x / M * y);
    ModAdd((x % M) * y, x / M * y);
  }

  // ----- one step

  /** The inverse multiplier undoes a step. */
  lemma StepBack(seed: int)
    ensures Step(seed) * A_INVERSE % M == seed % M
  {
    ModMul(A * seed, A_INVERSE);
    assert A * seed * A_INVERSE == seed + M * (42704 * seed);
    ModAdd(seed, 42704 * seed);
  }

  lemma StepLegal(seed: int)
    requires Legal(seed)
    ensures Legal(Step(seed))
  {
    StepBack(seed);
    ModUnique(seed, 0, seed);
    if Step(seed) == 0 {
      ModUnique(0, 0, 0);
    }
  }

  /** Different states have different successors. */
  lemma StepInjective(x: int, y: int)
    requires Legal(x) && Legal(y) && Step(x) == Step(y)
    ensures x == y
  {
    StepBack(x);
    StepBack(y);
    ModUnique(x, 0, x);
    ModUnique(y, 0, y);
  }

  /** Schrage: with the seed split by Q, the difference that is computed stays
      inside (-M, M), is never 0, and is congruent to the product. */
  lemma Schrage(seed: int)
    requires Legal(seed)
    ensures var t := A * (seed % Q) - R * (seed / Q);
      && -M < t < M && 0 <= A * (seed % Q) < M && 0 <= R * (seed / Q) < M
      && t != 0 && Step(seed) == if t <= 0 then t + M else t
  {
    var hi, lo := seed / Q, seed % Q;
    assert Q == 44488 && R == 3399 && 0 <= lo <= Q - 1;
    assert 0 <= hi <= 48271;
    assert seed == Q * hi + lo;
    assert A * seed == M * hi + (A * lo - R * hi);
    var t := A * lo - R * hi;
    StepLegal(seed);
    if t < 0 {
      ModUnique(A * seed, hi - 1, t + M);
    } else {
      ModUnique(A * seed, hi, t);
    }
  }

  // ----- many steps

  function Iterate(n: nat, seed: int): int
  {
    if n == 0 then seed else Step(Iterate(n - 1, seed))
  }

  function Power(n: nat): int
  {
    if n == 0 then 1 else A * Power(n - 1)
  }

  lemma {:induction false} IterateLegal(n: nat, seed: int)
    requires Legal(seed)
    ensures Legal(Iterate(n, seed))
  {
    if n > 0 {
      IterateLegal(n - 1, seed);
      StepLegal(Iterate(n - 1, seed));
    }
  }

  /** n steps multiply by the n-th power of the multiplier. */
  lemma {:induction false} IterateIsPower(n: nat, seed: int)
    requires Legal(seed)
    ensures Iterate(n, seed) == Power(n) * seed % M
  {
    if n == 0 {
      ModUnique(seed, 0, seed);
    } else {
      IterateIsPower(n - 1, seed);
      var x := Power(n - 1) * seed;
      ModMul(x, A);
      assert Power(n) * seed == x * A;
    }
  }

  lemma {:induction false} IterateAdd(i: nat, j: nat, seed: int)
    ensures Iterate(i + j, seed) == Iterate(i, Iterate(j, seed))
  {
    if i > 0 {
      IterateAdd(i - 1, j, seed);
    }
  }

  lemma {:induction false} IterateInjective(n: nat, x: int, y: int)
    requires Legal(x) && Legal(y) && Iterate(n, x) == Iterate(n, y)
    ensures x == y
  {
    if n > 0 {
      IterateLegal(n - 1, x);
      IterateLegal(n - 1, y);
      StepInjective(Iterate(n - 1, x), Iterate(n - 1, y));
      IterateInjective(n - 1, x, y);
    }
  }

  // ----- orbits

  ghost function Below(n: nat): (s: set<int>)
    ensures |s| == n && forall x :: x in s <==> 0 <= x < n
  {
    if n == 0 then {} else Below(n - 1) + {n - 1}
  }

  ghost function Orbit(n: nat, seed: int): set<int>
  {
    set k | 0 <= k < n :: Iterate(k, seed)
  }

  ghost predicate AllDifferent(n: nat, seed: int)
  {
    forall i, j :: 0 <= i < j < n ==> Iterate(i, seed) != Iterate(j, seed)
  }

  lemma {:induction false} OrbitSize(n: nat, seed: int)
    requires AllDifferent(n, seed)
    ensures |Orbit(n, seed)| == n
  {
    if n > 0 {
      OrbitSize(n - 1, seed);
      assert Orbit(n, seed) == Orbit(n - 1, seed) + {Iterate(n - 1, seed)};
    }
  }

  lemma SubsetSize(a: set<int>, b: set<int>)
    requires a <= b
    ensures |a| <= |b|
  {
    assert b == a + (b - a);
  }

  /** There are fewer legal seeds than M, so an orbit repeats itself. */
  lemma Repeats(seed: int)
    requires Legal(seed)
    ensures !AllDifferent(M, seed)
  {
    if AllDifferent(M, seed) {
      OrbitSize(M, seed);
      forall x | x in Orbit(M, seed) ensures x in Below(M) - {0} {
        var k :| 0 <= k < M && Iterate(k, seed) == x;
        IterateLegal(k, seed);
      }
      SubsetSize(Orbit(M, seed), Below(M) - {0});
    }
  }

  /** Every orbit is a pure cycle: the seed itself comes back. */
  lemma PureCycle(seed: int) returns (n: nat)
    requires Legal(seed)
    ensures 1 <= n < M && Iterate(n, seed) == seed
  {
    Repeats(seed);
    var i, j :| 0 <= i < j < M && Iterate(i, seed) == Iterate(j, seed);
    n := j - i;
    IterateAdd(i, n, seed);
    IterateLegal(n, seed);
    IterateInjective(i, seed, Iterate(n, seed));
  }

  // ----- the published check value

  lemma {:induction false} PowerAdd(i: nat, j: nat)
    ensures Power(i + j) == Power(i) * Power(j)
  {
    if i > 0 {
      PowerAdd(i - 1, j);
    }
  }

  ghost predicate PowerIs(n: nat, r: int)
  {
    Power(n) % M == r
  }

  lemma Squared(n: nat, r: int, q: int, s: int)
    requires PowerIs(n, r) && r * r == M * q + s && 0 <= s < M
    ensures PowerIs(2 * n, s)
  {
    PowerAdd(n, n);
    ModMul(Power(n), Power(n));
    ModMul(Power(n), r);
    assert r * Power(n) == Power(n) * r;
    ModUnique(r * r, q, s);
  }

  lemma Stepped(n: nat, r: int, q: int, s: int)
    requires PowerIs(n, r) && A * r == M * q + s && 0 <= s < M
    ensures PowerIs(n + 1, s)
  {
    ModMul(Power(n), A);
    assert (Power(n) % M) * A == A * r;
    assert Power(n + 1) == Power(n) * A;
    ModUnique(A * r, q, s);
  }

  /** 10000 steps from 1 give the number the source keeps as `check`. */
  lemma CheckValue(n: nat)
    requires n == 10000
    ensures Iterate(n, 1) == 399268537
  {
    CheckPower(n);
    IterateIsPower(n, 1);
  }

  lemma CheckPower(n: nat)
    requires n == 10000
    ensures PowerIs(n, 399268537)
  {
    var k: nat := 1;
    FirstPower(k);
    Squared(k, 48271, 1, 182605794);
    k := 2 * k;
    Squared(k, 182605794, 15527417, 1914720637);
    k := 2 * k;
    Squared(k, 1914720637, 1707186512, 854716505);
    Stepped(2 * k, 854716505, 19212, 564586691);
    k := 2 * k + 1;
    Squared(k, 564586691, 148433321, 2136927794);
    Stepped(2 * k, 2136927794, 48033, 1559527823);
    k := 2 * k + 1;
    Squared(k, 1559527823, 1132547404, 1168816941);
    Stepped(2 * k, 1168816941, 26272, 1272185027);
    k := 2 * k + 1;
    Squared(k, 1272185027, 753651719, 837051536);
    k := 2 * k;
    Squared(k, 837051536, 326268036, 2071152004);
    k := 2 * k;
    Squared(k, 2071152004, 1997533545, 1451777401);
    k := 2 * k;
    Squared(k, 1451777401, 981454561, 2033250834);
    Stepped(2 * k, 2033250834, 45703, 605889173);
    k := 2 * k + 1;
    Squared(k, 605889173, 170945045, 1285444814);
    k := 2 * k;
    Squared(k, 1285444814, 769443982, 1211932242);
    k := 2 * k;
    Squared(k, 1211932242, 683953873, 1629331733);
    k := 2 * k;
    Squared(k, 1629331733, 1236201216, 399268537);
    k := 2 * k;
    assert k == n;
  }

  /** The 205th number after the seed 37. */
  lemma Draw205(n: nat, seed: int)
    requires n == 205 && seed == 37
    ensures Iterate(n, seed) == 2041419263
  {
    var k: nat := 1;
    FirstPower(k);
    Squared(k, 48271, 1, 182605794);
    Stepped(2 * k, 182605794, 4104, 1291394886);
    k := 2 * k + 1;
    Squared(k, 1291394886, 776583679, 407355683);
    k := 2 * k;
    Squared(k, 407355683, 77271206, 1203428207);
    k := 2 * k;
    Squared(k, 1203428207, 674389046, 1402304087);
    Stepped(2 * k, 1402304087, 31520, 1936030137);
    k := 2 * k + 1;
    Squared(k, 1936030137, 1745397547, 1675824860);
    Stepped(2 * k, 1675824860, 37669, 180318217);
    k := 2 * k + 1;
    Squared(k, 180318217, 15140818, 324855843);
    k := 2 * k;
    Squared(k, 324855843, 49141849, 1620397346);
    Stepped(2 * k, 1620397346, 36423, 403414085);
    k := 2 * k + 1;
    assert k == n;
    IterateIsPower(n, seed);
    ModMul(Power(n), seed);
    ModUnique(403414085 * 37, 6, 2041419263);
  }

  lemma FirstPower(k: nat)
    requires k == 1
    ensures PowerIs(k, A)
  {
    assert Power(k) == A * Power(k - 1);
    ModUnique(A, 0, A);
  }

  // ----- the generator

  class RandomState {
    var seed: int

    ghost predicate Valid()
      reads this
    {
      Legal(seed)
    }

    /** drmRandomCreate: a seed that is not legal is replaced by the closest one. */
    constructor (seed: int)
      requires 0 <= seed < 0x1_0000_0000_0000_0000
      ensures Valid()
      ensures Legal(seed) ==> this.seed == seed
      ensures !Legal(seed) ==> this.seed == if ToSigned(seed) <= 0 then 1 else M - 1
    {
      var s := ToSigned(seed);
      if s <= 0 {
        s := 1;
      }
      if s >= M {
        s := M - 1;
      }
      this.seed := s;
    }

    /** drmRandom */
    method Random() returns (x: int)
      requires Valid()
      modifies this
      ensures Valid() && x == seed == Step(old(seed))
    {
      Schrage(seed);
      StepLegal(seed);
      var hi := seed / Q;
      var lo := seed % Q;
      seed := A * lo - R * hi;
      if seed <= 0 {
        seed := seed + M;
      }
      x := seed;
    }

    /** `n` calls in a row. */
    method Draw(n: nat) returns (xs: seq<int>)
      requires Valid()
      modifies this
      ensures Valid() && |xs| == n && forall k :: 0 <= k < n ==> xs[k] == Iterate(k + 1, old(seed))
    {
      xs := [];
      while |xs| < n
        invariant Valid() && |xs| <= n && seed == Iterate(|xs|, old(seed))
        invariant forall k :: 0 <= k < |xs| ==> xs[k] == Iterate(k + 1, old(seed))
      {
        var x := Random();
        xs := xs + [x];
      }
    }
  }
}
