/** The self-organising hash table of xf86drmHash.c. */
module HashTables {
  import Random

  const HASH_SIZE: nat := 512

  // ----- HashHash

  /** The scatter table: drmRandom seeded with 37. */
  function Scatter(i: nat): int
  {
    Random.Iterate(i + 1, 37)
  }

  /** The loop of HashHash over the bytes of the key, lowest first. */
  function Mix(hash: int, tmp: nat): int
    decreases tmp
  {
    if tmp == 0 then hash else Mix(hash * 2 + Scatter(tmp % 256), tmp / 256)
  }

  function Hash(key: nat): (h: nat)
    ensures h < HASH_SIZE
  {
    Mix(0, key) % HASH_SIZE
  }

  /** HashHash with its table of 256 random numbers. */
  method HashHash(key: nat, scatter: seq<int>) returns (hash: int)
    requires |scatter| == 256 && forall i :: 0 <= i < 256 ==> scatter[i] == Scatter(i)
    ensures hash == Hash(key)
  {
    hash := 0;
    var tmp := key;
    while tmp != 0
      invariant Mix(hash, tmp) == Mix(0, key)
      decreases tmp
    {
      hash := hash * 2 + scatter[tmp % 256];
      tmp := tmp / 256;
    }
    hash := hash % HASH_SIZE;
  }

  /** Filling the table on the first call. */
  method FillScatter() returns (scatter: seq<int>)
    ensures |scatter| == 256 && forall i :: 0 <= i < 256 ==> scatter[i] == Scatter(i)
  {
    var state := new Random.RandomState(37);
    scatter := state.Draw(256);
  }

  class Bucket {
    const key: nat
    const value: int
    var next: Bucket?

    constructor (key: nat, value: int, next: Bucket?)
      ensures this.key == key && this.value == value && this.next == next
    {
      this.key := key;
      this.value := value;
      this.next := next;
    }
  }

  // ----- chains

  ghost function At(c: seq<Bucket>, i: nat): Bucket?
  {
    if i < |c| then c[i] else null
  }

  /** The buckets of a chain are linked in order. */
  ghost predicate Linked(c: seq<Bucket>)
    reads c
  {
    forall i :: 0 <= i < |c| ==> c[i].next == At(c, i + 1)
  }

  /** A chain holds keys of its hash, each once. */
  ghost predicate Placed(c: seq<Bucket>, h: nat)
  {
    && (forall i :: 0 <= i < |c| ==> Hash(c[i].key) == h)
    && (forall i, j :: 0 <= i < j < |c| ==> c[i].key != c[j].key)
  }

  /** Position of a key in a chain, its length if absent. */
  ghost function Find(c: seq<Bucket>, key: nat): (i: nat)
    ensures i <= |c| && (i < |c| ==> c[i].key == key) && forall j :: 0 <= j < i ==> c[j].key != key
  {
    if c == [] || c[0].key == key then 0
    else
      var i := Find(c[1..], key);
      assert forall j :: 1 <= j < |c| ==> c[j] == c[1..][j - 1];
      i + 1
  }

  /** Bucket `i` moved to the front. */
  ghost function ToFront(c: seq<Bucket>, i: nat): seq<Bucket>
    requires i < |c|
  {
    [c[i]] + c[..i] + c[i + 1..]
  }

  /** Moving to the front only permutes the chain. */
  lemma ToFrontPermutes(c: seq<Bucket>, i: nat)
    requires i < |c|
    ensures multiset(ToFront(c, i)) == multiset(c)
    ensures |ToFront(c, i)| == |c| && ToFront(c, i)[0] == c[i]
  {
    assert c == c[..i] + [c[i]] + c[i + 1..];
  }

  lemma ToFrontAt(c: seq<Bucket>, i: nat, k: nat)
    requires i < |c| && k < |c|
    ensures |ToFront(c, i)| == |c|
    ensures ToFront(c, i)[k] == if k == 0 then c[i] else if k <= i then c[k - 1] else c[k]
  {
  }

  lemma ToFrontPlaced(c: seq<Bucket>, i: nat, h: nat)
    requires i < |c| && Placed(c, h)
    ensures Placed(ToFront(c, i), h)
  {
    var d := ToFront(c, i);
    forall k | 0 <= k < |d| ensures Hash(d[k].key) == h {
      ToFrontAt(c, i, k);
    }
    forall j, k | 0 <= j < k < |d| ensures d[j].key != d[k].key {
      ToFrontAt(c, i, j);
      ToFrontAt(c, i, k);
    }
  }

  // ----- the table as a finite map

  /** `m` is the map the chains hold. */
  ghost predicate Holds(chains: seq<seq<Bucket>>, m: map<nat, int>)
    requires |chains| == HASH_SIZE
  {
    && (forall h, i :: 0 <= h < HASH_SIZE && 0 <= i < |chains[h]| ==>
        chains[h][i].key in m && m[chains[h][i].key] == chains[h][i].value)
    && (forall k :: k in m ==> Find(chains[Hash(k)], k) < |chains[Hash(k)]|)
  }

  ghost predicate AllPlaced(chains: seq<seq<Bucket>>)
  {
    |chains| == HASH_SIZE && forall h :: 0 <= h < HASH_SIZE ==> Placed(chains[h], h)
  }

  /** A key is in the map exactly when its chain has it. */
  lemma HoldsFind(chains: seq<seq<Bucket>>, m: map<nat, int>, key: nat)
    requires AllPlaced(chains) && Holds(chains, m)
    ensures var c := chains[Hash(key)];
      && (key in m <==> Find(c, key) < |c|) && (key in m ==> m[key] == c[Find(c, key)].value)
  {
    var c := chains[Hash(key)];
    if Find(c, key) < |c| {
      assert c[Find(c, key)].key in m;
    }
  }

  /** The place of a key in a chain without repetitions. */
  lemma FindAt(c: seq<Bucket>, h: nat, i: nat)
    requires Placed(c, h) && i < |c|
    ensures Find(c, c[i].key) == i
  {
    assert Find(c, c[i].key) <= i;
  }

  lemma FrontHolds(chains: seq<seq<Bucket>>, m: map<nat, int>, h: nat, i: nat)
    requires AllPlaced(chains) && Holds(chains, m) && h < HASH_SIZE && i < |chains[h]|
    ensures var d := chains[h := ToFront(chains[h], i)]; AllPlaced(d) && Holds(d, m)
  {
    var c := chains[h];
    var d: seq<seq<Bucket>> := chains[h := ToFront(c, i)];
    ToFrontPlaced(c, i, h);
    forall g, k | 0 <= g < HASH_SIZE && 0 <= k < |d[g]| ensures d[g][k].key in m && m[d[g][k].key] == d[g][k].value {
      if g == h {
        ToFrontAt(c, i, k);
        assert chains[h][if k == 0 then i else if k <= i then k - 1 else k].key in m;
      } else {
        assert chains[g][k].key in m;
      }
    }
    forall k | k in m ensures Find(d[Hash(k)], k) < |d[Hash(k)]| {
      if Hash(k) == h {
        var j := Find(c, k);
        var at := if j == i then 0 else if j < i then j + 1 else j;
        ToFrontAt(c, i, at);
        FindAt(d[h], h, at);
      }
    }
  }

  lemma InsertHolds(chains: seq<seq<Bucket>>, m: map<nat, int>, b: Bucket)
    requires AllPlaced(chains) && Holds(chains, m) && b.key !in m
    ensures var h := Hash(b.key); var d := chains[h := [b] + chains[h]];
      AllPlaced(d) && Holds(d, m[b.key := b.value])
  {
    var h := Hash(b.key);
    var c := chains[h];
    var d: seq<seq<Bucket>> := chains[h := [b] + c];
    var m2 := m[b.key := b.value];
    forall j | 0 <= j < |c| ensures c[j].key != b.key {
      assert chains[h][j].key in m;
    }
    assert Placed(d[h], h);
    forall g, k | 0 <= g < HASH_SIZE && 0 <= k < |d[g]| ensures d[g][k].key in m2 && m2[d[g][k].key] == d[g][k].value {
      if g != h || k > 0 {
        assert d[g][k] == chains[g][if g == h then k - 1 else k];
        assert chains[g][if g == h then k - 1 else k].key in m;
      }
    }
    forall k | k in m2 ensures Find(d[Hash(k)], k) < |d[Hash(k)]| {
      if k in m && Hash(k) == h {
        FindAt(d[h], h, Find(c, k) + 1);
      }
    }
  }

  lemma DeleteHolds(chains: seq<seq<Bucket>>, m: map<nat, int>, key: nat)
    requires AllPlaced(chains) && Holds(chains, m) && chains[Hash(key)] != [] && chains[Hash(key)][0].key == key
    ensures var h := Hash(key); var d := chains[h := chains[h][1..]]; AllPlaced(d) && Holds(d, m - {key})
  {
    var h := Hash(key);
    var c := chains[h];
    var d: seq<seq<Bucket>> := chains[h := c[1..]];
    assert Placed(d[h], h);
    forall g, k | 0 <= g < HASH_SIZE && 0 <= k < |d[g]|
      ensures d[g][k].key in m - {key} && m[d[g][k].key] == d[g][k].value
    {
      assert d[g][k] == chains[g][if g == h then k + 1 else k];
      assert chains[g][if g == h then k + 1 else k].key in m;
      assert Placed(chains[g], g) && Placed(c, h);
    }
    forall k | k in m - {key} ensures Find(d[Hash(k)], k) < |d[Hash(k)]| {
      if Hash(k) == h {
        var j := Find(c, k);
        assert c[1..][j - 1] == c[j];
        FindAt(d[h], h, j - 1);
      }
    }
  }

  ghost predicate InRepr(chains: seq<seq<Bucket>>, repr: set<Bucket>)
  {
    forall h, i :: 0 <= h < |chains| && 0 <= i < |chains[h]| ==> chains[h][i] in repr
  }

  // ----- iteration

  ghost function Concat(chains: seq<seq<Bucket>>): seq<Bucket>
  {
    if chains == [] then [] else chains[0] + Concat(chains[1..])
  }

  /** What drmHashNext has still to deliver when the cursor has `rest` of a
      chain left and `p0` is the next chain: chain 511 is never entered. */
  ghost function Remaining(chains: seq<seq<Bucket>>, rest: seq<Bucket>, p0: nat): seq<Bucket>
    requires |chains| == HASH_SIZE && p0 <= HASH_SIZE
  {
    if p0 == HASH_SIZE then [] else rest + Concat(chains[p0..HASH_SIZE - 1])
  }

  /** A whole sweep: chain 0 twice, the chains up to 510 once, chain 511 not at all. */
  ghost function SweepOf(chains: seq<seq<Bucket>>): seq<Bucket>
    requires |chains| == HASH_SIZE
  {
    chains[0] + Concat(chains[..HASH_SIZE - 1])
  }

  // ----- the table

  /** Bucket `h` is the head of chain `h`. */
  ghost predicate ChainAt(buckets: array<Bucket?>, chains: seq<seq<Bucket>>, repr: set<Bucket>, h: nat)
    requires h < |chains| == buckets.Length && InRepr(chains, repr)
    reads buckets, repr
  {
    buckets[h] == At(chains[h], 0) && Linked(chains[h])
  }

  /** The buckets in memory are the chains, and the chains hold the map. */
  ghost predicate TableOk(buckets: array<Bucket?>, chains: seq<seq<Bucket>>, contents: map<nat, int>, repr: set<Bucket>)
    reads buckets, repr
  {
    TableFacts(buckets, chains, contents, repr) == true
  }

  ghost predicate TableFacts(buckets: array<Bucket?>, chains: seq<seq<Bucket>>, contents: map<nat, int>,
      repr: set<Bucket>)
    reads buckets, repr
  {
    && buckets.Length == HASH_SIZE && AllPlaced(chains) == true && Holds(chains, contents) == true
    && InRepr(chains, repr) == true
    && (forall h :: 0 <= h < HASH_SIZE ==> ChainAt(buckets, chains, repr, h) == true)
  }

  /** Every chain but one is in place. */
  ghost predicate OthersInPlace(buckets: array<Bucket?>, chains: seq<seq<Bucket>>, repr: set<Bucket>, h: nat)
    requires |chains| == buckets.Length == HASH_SIZE && InRepr(chains, repr)
    reads buckets, repr
  {
    forall g :: 0 <= g < HASH_SIZE && g != h ==> Linked(chains[g]) == true && buckets[g] == At(chains[g], 0)
  }

  lemma OthersLinked(buckets: array<Bucket?>, chains: seq<seq<Bucket>>, m: map<nat, int>, repr: set<Bucket>, h: nat)
    requires TableOk(buckets, chains, m, repr)
    ensures OthersInPlace(buckets, chains, repr, h)
  {
    forall g | 0 <= g < HASH_SIZE && g != h ensures Linked(chains[g]) == true && buckets[g] == At(chains[g], 0) {
      assert ChainAt(buckets, chains, repr, g) == true;
    }
  }

  /** Give bucket list `h` a new head, and with it a new chain. */
  method Install(buckets: array<Bucket?>, h: nat, first: Bucket?, ghost chains: seq<seq<Bucket>>,
      ghost c: seq<Bucket>, ghost m: map<nat, int>, ghost repr: set<Bucket>)
    requires |chains| == buckets.Length == HASH_SIZE && h < HASH_SIZE && InRepr(chains, repr)
    requires AllPlaced(chains[h := c]) && Holds(chains[h := c], m) && InRepr(chains[h := c], repr)
    requires OthersInPlace(buckets, chains, repr, h) && Linked(c) && first == At(c, 0)
    modifies buckets
    ensures TableOk(buckets, chains[h := c], m, repr)
  {
    buckets[h] := first;
    ghost var d := chains[h := c];
    forall g | 0 <= g < HASH_SIZE ensures ChainAt(buckets, d, repr, g) == true {
      assert g != h ==> d[g] == chains[g];
    }
  }

  class HashTable {
    var hits: nat
    var partials: nat
    var misses: nat
    const buckets: array<Bucket?>
    var p0: nat
    var p1: Bucket?
    ghost var chains: seq<seq<Bucket>>
    ghost var contents: map<nat, int>
    ghost var repr: set<Bucket>

    ghost predicate Valid()
      reads this, buckets, repr
    {
      TableOk(buckets, chains, contents, repr)
    }

    ghost function Finds(): int
      reads this
    {
      hits + partials + misses
    }

    /** drmHashCreate */
    constructor ()
      ensures Valid() && contents == map[] && Finds() == 0 && fresh(buckets) && repr == {}
    {
      buckets := new Bucket?[HASH_SIZE](_ => null);
      hits, partials, misses := 0, 0, 0;
      p0, p1 := 0, null;
      chains := seq(HASH_SIZE, _ => []);
      contents := map[];
      repr := {};
    }

    /** HashFind: the bucket of `key` comes to the front of its chain; nothing else changes. */
    method HashFind(key: nat, hash: nat) returns (bucket: Bucket?)
      requires Valid() && hash == Hash(key)
      modifies this, buckets, repr
      ensures Valid() && contents == old(contents) && repr == old(repr) && Finds() == old(Finds()) + 1
      ensures bucket == null <==> key !in contents
      ensures bucket != null ==>
        chains[hash] != [] && chains[hash][0] == bucket && bucket.key == key && contents[key] == bucket.value
      ensures bucket == null ==> chains == old(chains)
      ensures bucket != null ==>
        var i := Find(old(chains)[hash], key);
        i < |old(chains)[hash]| && chains == old(chains)[hash := ToFront(old(chains)[hash], i)]
    {
      HoldsFind(chains, contents, key);
      var prev;
      ghost var i;
      prev, bucket, i := Scan(key, hash);
      if bucket == null {
        misses := misses + 1;
        return;
      }
      if prev != null {
        Organize(prev, bucket, hash, i);
        ToFrontPermutes(old(chains)[hash], i);
        partials := partials + 1;
      } else {
        FrontIsSame(chains, hash);
        hits := hits + 1;
      }
    }

    /** The search loop of HashFind. */
    method Scan(key: nat, hash: nat) returns (prev: Bucket?, bucket: Bucket?, ghost i: nat)
      requires Valid() && hash < HASH_SIZE
      ensures i == Find(chains[hash], key)
      ensures bucket == if i < |chains[hash]| then chains[hash][i] else null
      ensures prev == if i > 0 then chains[hash][i - 1] else null
    {
      ghost var c := chains[hash];
      assert ChainAt(buckets, chains, repr, hash) == true;
      i := 0;
      prev := null;
      bucket := buckets[hash];
      while bucket != null && bucket.key != key
        invariant i <= Find(c, key) && bucket == At(c, i)
        invariant prev == if i > 0 then c[i - 1] else null
        decreases |c| - i
      {
        prev := bucket;
        bucket := bucket.next;
        i := i + 1;
      }
    }

    /** Relink a bucket found further down to the front of its chain. */
    method Organize(prev: Bucket, bucket: Bucket, hash: nat, ghost i: nat)
      requires Valid() && hash < HASH_SIZE && 0 < i < |chains[hash]| && prev == chains[hash][i - 1]
      requires bucket == chains[hash][i]
      modifies this`chains, buckets, repr
      ensures Valid() && chains == old(chains)[hash := ToFront(old(chains)[hash], i)]
    {
      FrontHolds(chains, contents, hash, i);
      assert ChainAt(buckets, chains, repr, hash) == true;
      OthersApart(chains, hash, i - 1);
      OthersApart(chains, hash, i);
      OrganizeRepr(chains, repr, hash, i);
      Relink(prev, bucket, buckets[hash], chains[hash], hash, i);
      forall g | 0 <= g < HASH_SIZE && g != hash ensures Linked(chains[g]) == true && buckets[g] == At(chains[g], 0) {
        assert prev !in chains[g] && bucket !in chains[g];
        assert old(ChainAt(buckets, chains, repr, g)) == true;
      }
      Install(buckets, hash, bucket, chains, ToFront(chains[hash], i), contents, repr);
      chains := chains[hash := ToFront(chains[hash], i)];
    }

    static method Relink(prev: Bucket, bucket: Bucket, first: Bucket?, ghost c: seq<Bucket>, ghost h: nat, ghost i: nat)
      requires Placed(c, h) && Linked(c) && 0 < i < |c| && prev == c[i - 1] && bucket == c[i] && first == c[0]
      modifies prev, bucket
      ensures Linked(ToFront(c, i))
    {
      prev.next := bucket.next;
      bucket.next := first;
      ghost var d := ToFront(c, i);
      forall k | 0 <= k < |d| ensures d[k].next == At(d, k + 1) {
        ToFrontAt(c, i, k);
        if k + 1 < |d| {
          ToFrontAt(c, i, k + 1);
        }
      }
    }

    /** drmHashLookup */
    method Lookup(key: nat) returns (ret: int, value: int)
      requires Valid()
      modifies this, buckets, repr
      ensures Valid() && contents == old(contents) && repr == old(repr) && Finds() == old(Finds()) + 1
      ensures ret == if key in contents then 0 else 1
      ensures ret == 0 ==> value == contents[key]
      ensures multiset(chains[Hash(key)]) == multiset(old(chains)[Hash(key)])
      ensures forall h :: 0 <= h < HASH_SIZE && h != Hash(key) ==> chains[h] == old(chains)[h]
    {
      var bucket := HashFind(key, Hash(key));
      if bucket == null {
        return 1, 0;
      }
      ToFrontPermutes(old(chains)[Hash(key)], Find(old(chains)[Hash(key)], key));
      return 0, bucket.value;
    }

    /** drmHashInsert */
    method Insert(key: nat, value: int) returns (ret: int)
      requires Valid()
      modifies this, buckets, repr
      ensures Valid() && fresh(repr - old(repr)) && Finds() == old(Finds()) + 1
      ensures ret == if key in old(contents) then 1 else 0
      ensures contents == if ret == 0 then old(contents)[key := value] else old(contents)
    {
      var hash := Hash(key);
      var bucket := HashFind(key, hash);
      if bucket != null {
        return 1;
      }
      bucket := new Bucket(key, value, buckets[hash]);
      Push(bucket, hash);
      ret := 0;
    }

    method Push(bucket: Bucket, hash: nat)
      requires Valid() && hash == Hash(bucket.key) && bucket.next == buckets[hash] && bucket !in repr
      requires bucket.key !in contents
      modifies this`chains, this`contents, this`repr, buckets
      ensures Valid() && contents == old(contents)[bucket.key := bucket.value] && repr == old(repr) + {bucket}
    {
      InsertHolds(chains, contents, bucket);
      assert ChainAt(buckets, chains, repr, hash) == true;
      PushLinked(chains[hash], bucket);
      PushRepr(chains, repr, hash, bucket);
      OthersLinked(buckets, chains, contents, repr, hash);
      Install(buckets, hash, bucket, chains, [bucket] + chains[hash], contents[bucket.key := bucket.value],
        repr + {bucket});
      chains := chains[hash := [bucket] + chains[hash]];
      contents := contents[bucket.key := bucket.value];
      repr := repr + {bucket};
    }

    /** drmHashDelete */
    method Delete(key: nat) returns (ret: int)
      requires Valid()
      modifies this, buckets, repr
      ensures Valid() && repr == old(repr) && Finds() == old(Finds()) + 1
      ensures ret == if key in old(contents) then 0 else 1
      ensures contents == if ret == 0 then old(contents) - {key} else old(contents)
    {
      var hash := Hash(key);
      var bucket := HashFind(key, hash);
      if bucket == null {
        return 1;
      }
      Pop(bucket, hash);
      ret := 0;
    }

    method Pop(bucket: Bucket, hash: nat)
      requires Valid() && hash == Hash(bucket.key) && chains[hash] != [] && chains[hash][0] == bucket
      modifies this`chains, this`contents, buckets
      ensures Valid() && contents == old(contents) - {bucket.key}
    {
      DeleteHolds(chains, contents, bucket.key);
      assert ChainAt(buckets, chains, repr, hash) == true;
      PopLinked(chains[hash]);
      PopRepr(chains, repr, hash);
      OthersLinked(buckets, chains, contents, repr, hash);
      Install(buckets, hash, bucket.next, chains, chains[hash][1..], contents - {bucket.key}, repr);
      chains := chains[hash := chains[hash][1..]];
      contents := contents - {bucket.key};
    }

    /** drmHashNext; `rest` is what is left of the chain under the cursor. */
    method Next(ghost rest: seq<Bucket>) returns (ret: int, key: nat, value: int, ghost rest2: seq<Bucket>)
      requires Valid() && p0 <= HASH_SIZE && p1 == At(rest, 0) && Linked(rest)
      modifies this`p0, this`p1
      ensures Valid() && p0 <= HASH_SIZE && p1 == At(rest2, 0) && Linked(rest2)
      ensures var todo := Remaining(chains, rest, old(p0));
        && ret == (if todo == [] then 0 else 1)
        && Remaining(chains, rest2, p0) == (if todo == [] then [] else todo[1..])
        && (ret == 1 ==> key == todo[0].key && value == todo[0].value)
    {
      rest2 := rest;
      while p0 < HASH_SIZE
        invariant Valid() && p0 <= HASH_SIZE && p1 == At(rest2, 0) && Linked(rest2)
        invariant Remaining(chains, rest2, p0) == Remaining(chains, rest, old(p0))
        decreases HASH_SIZE - p0
      {
        if p1 != null {
          assert rest2 != [];
          ret, key, value := 1, p1.key, p1.value;
          p1 := p1.next;
          TakeOne(chains, rest2, p0);
          PopLinked(rest2);
          rest2 := rest2[1..];
          return;
        }
        assert rest2 == [];
        rest2 := EnterChain();
      }
      ret, key, value := 0, 0, 0;
    }

    /** The cursor moves to the head of the next chain. */
    method EnterChain() returns (ghost rest: seq<Bucket>)
      requires Valid() && p0 < HASH_SIZE
      modifies this`p0, this`p1
      ensures Valid() && p0 == old(p0) + 1 && p1 == At(rest, 0) && Linked(rest)
      ensures Remaining(chains, rest, p0) == Remaining(chains, [], old(p0))
    {
      NextChain(chains, p0);
      assert ChainAt(buckets, chains, repr, p0) == true;
      rest := chains[p0];
      p1 := buckets[p0];
      p0 := p0 + 1;
    }

    /** drmHashFirst */
    method First() returns (ret: int, key: nat, value: int, ghost rest: seq<Bucket>)
      requires Valid()
      modifies this`p0, this`p1
      ensures Valid() && p0 <= HASH_SIZE && p1 == At(rest, 0) && Linked(rest)
      ensures var todo := SweepOf(chains);
        && ret == (if todo == [] then 0 else 1) && Remaining(chains, rest, p0) == (if todo == [] then [] else todo[1..])
        && (ret == 1 ==> key == todo[0].key && value == todo[0].value)
    {
      assert ChainAt(buckets, chains, repr, 0) == true;
      p0 := 0;
      p1 := buckets[0];
      ret, key, value, rest := Next(chains[0]);
    }

    /** Iteration with First and Next delivers chain 0, and then the chains 0 to 510. */
    method Sweep() returns (found: seq<(nat, int)>)
      requires Valid()
      modifies this`p0, this`p1
      ensures Valid() && found == Pairs(SweepOf(chains))
    {
      var more, key, value;
      ghost var rest;
      more, key, value, rest := First();
      found := [];
      ghost var todo := SweepOf(chains);
      ghost var all := todo;
      assert Pairs([]) == [] && [] + todo == all;
      while more == 1
        invariant Valid() && p0 <= HASH_SIZE && p1 == At(rest, 0) && Linked(rest)
        invariant more == if todo == [] then 0 else 1
        invariant todo != [] ==>
          key == todo[0].key && value == todo[0].value && Remaining(chains, rest, p0) == todo[1..]
        invariant found + Pairs(todo) == Pairs(all)
        decreases |todo|
      {
        found := found + [(key, value)];
        todo := todo[1..];
        more, key, value, rest := Next(rest);
      }
    }
  }

  function Pairs(c: seq<Bucket>): seq<(nat, int)>
  {
    if c == [] then [] else [(c[0].key, c[0].value)] + Pairs(c[1..])
  }

  lemma TakeOne(chains: seq<seq<Bucket>>, rest: seq<Bucket>, p0: nat)
    requires |chains| == HASH_SIZE && p0 < HASH_SIZE && rest != []
    ensures var todo := Remaining(chains, rest, p0);
      todo != [] && todo[0] == rest[0] && Remaining(chains, rest[1..], p0) == todo[1..]
  {
  }

  /** Moving on to the next chain delivers nothing new. */
  lemma NextChain(chains: seq<seq<Bucket>>, p0: nat)
    requires |chains| == HASH_SIZE && p0 < HASH_SIZE
    ensures Remaining(chains, [], p0) == Remaining(chains, chains[p0], p0 + 1)
  {
    if p0 < HASH_SIZE - 1 {
      var left := chains[p0..HASH_SIZE - 1];
      assert left[0] == chains[p0] && left[1..] == chains[p0 + 1..HASH_SIZE - 1];
    }
  }

  lemma PushLinked(c: seq<Bucket>, b: Bucket)
    requires Linked(c) && b.next == At(c, 0)
    ensures Linked([b] + c)
  {
    var d := [b] + c;
    assert forall i :: 1 <= i < |d| ==> d[i] == c[i - 1];
  }

  lemma PopLinked(c: seq<Bucket>)
    requires Linked(c) && c != []
    ensures Linked(c[1..]) && c[0].next == At(c[1..], 0)
  {
    var d := c[1..];
    assert forall i :: 0 <= i < |d| ==> d[i] == c[i + 1];
  }

  lemma PushRepr(chains: seq<seq<Bucket>>, repr: set<Bucket>, h: nat, b: Bucket)
    requires h < |chains| && InRepr(chains, repr)
    ensures InRepr(chains, repr + {b}) && InRepr(chains[h := [b] + chains[h]], repr + {b})
  {
  }

  lemma PopRepr(chains: seq<seq<Bucket>>, repr: set<Bucket>, h: nat)
    requires h < |chains| && chains[h] != [] && InRepr(chains, repr)
    ensures InRepr(chains[h := chains[h][1..]], repr)
  {
  }

  // ----- what a sweep visits

  ghost function Count(c: seq<Bucket>, key: nat): nat
  {
    if c == [] then 0 else (if c[0].key == key then 1 else 0) + Count(c[1..], key)
  }

  lemma {:induction false} CountAppend(a: seq<Bucket>, b: seq<Bucket>, key: nat)
    ensures Count(a + b, key) == Count(a, key) + Count(b, key)
  {
    if a == [] {
      assert a + b == b;
    } else {
      assert (a + b)[1..] == a[1..] + b;
      CountAppend(a[1..], b, key);
    }
  }

  lemma {:induction false} CountAbsent(c: seq<Bucket>, key: nat)
    requires forall i :: 0 <= i < |c| ==> c[i].key != key
    ensures Count(c, key) == 0
  {
    if c != [] {
      CountAbsent(c[1..], key);
    }
  }

  lemma CountChain(c: seq<Bucket>, h: nat, key: nat)
    requires Placed(c, h)
    ensures Count(c, key) == if Find(c, key) < |c| then 1 else 0
    ensures Hash(key) != h ==> Count(c, key) == 0
  {
    var i := Find(c, key);
    if i == |c| {
      CountAbsent(c, key);
    } else {
      CountOnce(c, key, i);
    }
  }

  lemma CountOnce(c: seq<Bucket>, key: nat, i: nat)
    requires i < |c| && c[i].key == key && forall j :: 0 <= j < |c| && j != i ==> c[j].key != key
    ensures Count(c, key) == 1
  {
    var near, far := c[..i], c[i + 1..];
    assert c == near + ([c[i]] + far);
    CountAppend(near, [c[i]] + far, key);
    CountAbsent(near, key);
    assert ([c[i]] + far)[1..] == far;
    CountAbsent(far, key);
  }

  lemma {:induction false} CountConcat(chains: seq<seq<Bucket>>, n: nat, key: nat)
    requires AllPlaced(chains) && n < HASH_SIZE
    ensures Count(Concat(chains[n..HASH_SIZE - 1]), key)
      == if n <= Hash(key) < HASH_SIZE - 1 then Count(chains[Hash(key)], key) else 0
    decreases HASH_SIZE - n
  {
    if n < HASH_SIZE - 1 {
      var left := chains[n..HASH_SIZE - 1];
      assert left[0] == chains[n] && left[1..] == chains[n + 1..HASH_SIZE - 1];
      CountAppend(chains[n], Concat(left[1..]), key);
      CountConcat(chains, n + 1, key);
      CountChain(chains[n], n, key);
    }
  }

  /** A sweep visits a key of chain 0 twice, one of chain 511 never, any other once. */
  lemma SweepVisits(chains: seq<seq<Bucket>>, m: map<nat, int>, key: nat)
    requires AllPlaced(chains) && Holds(chains, m)
    ensures Count(SweepOf(chains), key)
      == if key !in m || Hash(key) == HASH_SIZE - 1 then 0 else if Hash(key) == 0 then 2 else 1
  {
    HoldsFind(chains, m, key);
    CountAppend(chains[0], Concat(chains[..HASH_SIZE - 1]), key);
    assert chains[..HASH_SIZE - 1] == chains[0..HASH_SIZE - 1];
    CountConcat(chains, 0, key);
    CountChain(chains[0], 0, key);
    CountChain(chains[Hash(key)], Hash(key), key);
  }

  /** Key 0 is in the first chain and key 204 in the last. */
  lemma FirstAndLast(key: nat)
    requires key == 204
    ensures Hash(0) == 0 && Hash(key) == HASH_SIZE - 1
  {
    var n, seed := 205, 37;
    Random.Draw205(n, seed);
    assert Scatter(key) == Random.Iterate(n, seed);
    assert Mix(0, key) == Mix(0 * 2 + Scatter(key), 0);
  }

  /** So a sweep of a table that holds both delivers the one twice and the other never. */
  lemma SweepIsUnfair(chains: seq<seq<Bucket>>, m: map<nat, int>, key: nat)
    requires AllPlaced(chains) && Holds(chains, m) && 0 in m && key == 204 && key in m
    ensures Count(SweepOf(chains), 0) == 2 && Count(SweepOf(chains), key) == 0
  {
    FirstAndLast(key);
    SweepVisits(chains, m, 0);
    SweepVisits(chains, m, key);
  }

  /** In general it visits each entry once exactly when no key is in the first or the last chain. */
  lemma SweepIsFair(chains: seq<seq<Bucket>>, m: map<nat, int>)
    requires AllPlaced(chains) && Holds(chains, m)
    ensures (forall key :: key in m ==> Count(SweepOf(chains), key) == 1)
      <==> (forall key :: key in m ==> 1 <= Hash(key) <= HASH_SIZE - 2)
  {
    forall key | key in m ensures Count(SweepOf(chains), key) == 1 <==> 1 <= Hash(key) <= HASH_SIZE - 2 {
      SweepVisits(chains, m, key);
    }
  }

  /** Buckets of other chains are other buckets. */
  lemma OthersApart(chains: seq<seq<Bucket>>, h: nat, i: nat)
    requires AllPlaced(chains) && h < HASH_SIZE && i < |chains[h]|
    ensures forall g :: 0 <= g < HASH_SIZE && g != h ==> chains[h][i] !in chains[g]
  {
    forall g | 0 <= g < HASH_SIZE && g != h ensures chains[h][i] !in chains[g] {
      assert Placed(chains[g], g) && Placed(chains[h], h);
    }
  }

  lemma OrganizeRepr(chains: seq<seq<Bucket>>, repr: set<Bucket>, h: nat, i: nat)
    requires |chains| == HASH_SIZE && h < HASH_SIZE && i < |chains[h]| && InRepr(chains, repr)
    ensures InRepr(chains[h := ToFront(chains[h], i)], repr)
  {
    forall k | 0 <= k < |chains[h]| ensures ToFront(chains[h], i)[k] in repr {
      ToFrontAt(chains[h], i, k);
    }
  }

  lemma FrontIsSame(chains: seq<seq<Bucket>>, h: nat)
    requires h < |chains| && chains[h] != []
    ensures chains[h := ToFront(chains[h], 0)] == chains
  {
    assert ToFront(chains[h], 0) == chains[h];
  }
}
