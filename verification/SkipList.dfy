/** The skip list of xf86drmSL.c (after Pugh, CACM 33(6), 1990).  `nodes` is the
    ghost sequence of the head and the entries in key order; every forward
    pointer is determined by it. */
module SkipLists {
  const SL_MAX_LEVEL: nat := 16

  class Entry {
    const key: int
    const value: int
    const levels: nat
    var forward: seq<Entry?>

    /** SLCreateEntry: a level outside 0..SL_MAX_LEVEL means SL_MAX_LEVEL. */
    constructor (maxLevel: int, key: int, value: int)
      ensures this.key == key && this.value == value
      ensures levels == (if 0 <= maxLevel <= SL_MAX_LEVEL then maxLevel else SL_MAX_LEVEL) + 1
      ensures |forward| == levels && forall i :: 0 <= i < levels ==> forward[i] == null
    {
      var m := if maxLevel < 0 || maxLevel > SL_MAX_LEVEL then SL_MAX_LEVEL else maxLevel;
      this.key := key;
      this.value := value;
      levels := m + 1;
      forward := seq(m + 1, _ => null);
    }
  }

  // ----- the chain as a sequence

  /** The first entry of `ns` that takes part in level `i`. */
  ghost function Next(ns: seq<Entry>, i: nat): Entry?
  {
    if ns == [] then null
    else if ns[0].levels > i then ns[0]
    else Next(ns[1..], i)
  }

  lemma {:induction false} NextIs(ns: seq<Entry>, i: nat)
    ensures Next(ns, i) == null <==> forall k :: 0 <= k < |ns| ==> ns[k].levels <= i
    ensures Next(ns, i) != null ==> Next(ns, i) in ns && Next(ns, i).levels > i
  {
    if ns != [] && ns[0].levels <= i {
      NextIs(ns[1..], i);
      assert forall k :: 1 <= k < |ns| ==> ns[k] == ns[1..][k - 1];
    }
  }

  lemma {:induction false} NextAppend(a: seq<Entry>, b: seq<Entry>, i: nat)
    ensures Next(a + b, i) == if Next(a, i) != null then Next(a, i) else Next(b, i)
  {
    if a == [] {
      assert a + b == b;
    } else if a[0].levels <= i {
      assert (a + b)[1..] == a[1..] + b;
      NextAppend(a[1..], b, i);
    }
  }

  /** Keys ascend behind the head. */
  ghost predicate Sorted(ns: seq<Entry>)
  {
    forall j, k :: 1 <= j < k < |ns| ==> ns[j].key < ns[k].key
  }

  ghost function Elements(ns: seq<Entry>): set<Entry>
  {
    set n | n in ns
  }

  ghost predicate Distinct(ns: seq<Entry>)
  {
    forall j, k :: 0 <= j < k < |ns| ==> ns[j] != ns[k]
  }

  /** The head has all levels; an entry has two at least, so levels 0 and 1 coincide. */
  ghost predicate Levels(ns: seq<Entry>)
  {
    && ns != [] && ns[0].levels == SL_MAX_LEVEL + 1
    && (forall k :: 1 <= k < |ns| ==> 2 <= ns[k].levels <= SL_MAX_LEVEL + 1)
  }

  ghost predicate Shape(ns: seq<Entry>)
  {
    ns != [] && Sorted(ns) == true && Distinct(ns) == true && Levels(ns) == true
  }

  /** Index `p` is that of the last node before `key`. */
  ghost predicate Before(ns: seq<Entry>, key: int, p: nat)
  {
    && p < |ns|
    && (forall k :: 1 <= k <= p ==> ns[k].key < key)
    && (forall k :: p < k < |ns| ==> ns[k].key >= key)
  }

  lemma {:induction false} HasBefore(ns: seq<Entry>, key: int) returns (p: nat)
    requires Shape(ns)
    ensures Before(ns, key, p)
  {
    p := |ns| - 1;
    while p > 0 && ns[p].key >= key
      invariant p < |ns| && forall k :: p < k < |ns| ==> ns[k].key >= key
    {
      p := p - 1;
    }
  }

  /** `u` is the last node up to `p` that takes part in level `i`: the one to update. */
  ghost predicate LastAt(ns: seq<Entry>, p: nat, i: nat, u: nat)
  {
    u <= p < |ns| && ns[u].levels > i && Next(ns[u + 1..p + 1], i) == null
  }

  lemma LastUnique(ns: seq<Entry>, p: nat, i: nat, u: nat, k: nat)
    requires LastAt(ns, p, i, u) && k <= p && ns[k].levels > i && k != u
    ensures k < u && Next(ns[k + 1..p + 1], i) != null
  {
    NextIs(ns[u + 1..p + 1], i);
    NextIs(ns[k + 1..p + 1], i);
    assert forall m :: u < m <= p ==> ns[u + 1..p + 1][m - u - 1] == ns[m];
    assert forall m :: k < m <= p ==> ns[k + 1..p + 1][m - k - 1] == ns[m];
  }

  /** Where a pointer of level `i` leads from node `k`. */
  ghost function Link(ns: seq<Entry>, k: nat, i: nat): Entry?
    requires k < |ns|
  {
    Next(ns[k + 1..], i)
  }

  ghost function With(ns: seq<Entry>, p: nat, e: Entry): seq<Entry>
    requires p < |ns|
  {
    ns[..p + 1] + [e] + ns[p + 1..]
  }

  /** Splicing in `e` behind `p` changes no pointer behind it. */
  lemma WithAfter(ns: seq<Entry>, p: nat, e: Entry, i: nat, k: nat)
    requires p < k < |ns|
    ensures Link(With(ns, p, e), k + 1, i) == Link(ns, k, i)
  {
    assert With(ns, p, e)[k + 2..] == ns[k + 1..];
  }

  /** The new entry takes over the pointer of the node to update. */
  lemma WithNew(ns: seq<Entry>, p: nat, e: Entry, i: nat, u: nat)
    requires LastAt(ns, p, i, u)
    ensures Link(With(ns, p, e), p + 1, i) == Link(ns, u, i)
  {
    assert With(ns, p, e)[p + 2..] == ns[p + 1..];
    assert ns[u + 1..] == ns[u + 1..p + 1] + ns[p + 1..];
    NextAppend(ns[u + 1..p + 1], ns[p + 1..], i);
  }

  /** Before `e`, on its levels, just the pointers of the nodes to update change. */
  lemma WithBefore(ns: seq<Entry>, p: nat, e: Entry, i: nat, u: nat, k: nat)
    requires LastAt(ns, p, i, u) && k <= p && ns[k].levels > i
    ensures Link(With(ns, p, e), k, i) == if k == u && i < e.levels then e else Link(ns, k, i)
  {
    WithSplit(ns, p, e, i, k);
    if k != u {
      LastUnique(ns, p, i, u, k);
    }
  }

  lemma WithSplit(ns: seq<Entry>, p: nat, e: Entry, i: nat, k: nat)
    requires k <= p < |ns|
    ensures var near := Next(ns[k + 1..p + 1], i);
      && Link(ns, k, i) == (if near != null then near else Next(ns[p + 1..], i))
      && Link(With(ns, p, e), k, i) == (if near != null then near else if i < e.levels then e else Next(ns[p + 1..], i))
  {
    assert With(ns, p, e)[k + 1..] == ns[k + 1..p + 1] + ([e] + ns[p + 1..]);
    assert ns[k + 1..] == ns[k + 1..p + 1] + ns[p + 1..];
    NextAppend(ns[k + 1..p + 1], [e] + ns[p + 1..], i);
    NextAppend(ns[k + 1..p + 1], ns[p + 1..], i);
    assert ([e] + ns[p + 1..])[1..] == ns[p + 1..];
  }

  lemma WithAt(ns: seq<Entry>, p: nat, e: Entry, k: nat)
    requires p < |ns| && k <= |ns|
    ensures |With(ns, p, e)| == |ns| + 1
    ensures With(ns, p, e)[k] == if k <= p then ns[k] else if k == p + 1 then e else ns[k - 1]
  {
  }

  lemma WithShape(ns: seq<Entry>, p: nat, e: Entry)
    requires Shape(ns) && Before(ns, e.key, p) && (p + 1 < |ns| ==> ns[p + 1].key != e.key)
    requires e !in ns && 2 <= e.levels <= SL_MAX_LEVEL + 1
    ensures Shape(With(ns, p, e))
  {
    var ms := With(ns, p, e);
    forall j, k | 1 <= j < k < |ms| ensures ms[j].key < ms[k].key {
      WithAt(ns, p, e, j);
      WithAt(ns, p, e, k);
    }
    forall j, k | 0 <= j < k < |ms| ensures ms[j] != ms[k] {
      WithAt(ns, p, e, j);
      WithAt(ns, p, e, k);
    }
    forall k | 1 <= k < |ms| ensures 2 <= ms[k].levels <= SL_MAX_LEVEL + 1 {
      WithAt(ns, p, e, k);
    }
    WithAt(ns, p, e, 0);
  }

  ghost function Without(ns: seq<Entry>, p: nat): seq<Entry>
    requires p + 1 < |ns|
  {
    ns[..p + 1] + ns[p + 2..]
  }

  /** Cutting out the entry behind `p` is splicing it in, backwards. */
  lemma WithoutWith(ns: seq<Entry>, p: nat)
    requires p + 1 < |ns|
    ensures With(Without(ns, p), p, ns[p + 1]) == ns
  {
    var ms := Without(ns, p);
    assert ms[..p + 1] == ns[..p + 1] && ms[p + 1..] == ns[p + 2..];
    assert ns[..p + 1] + [ns[p + 1]] + ns[p + 2..] == ns;
  }

  lemma WithoutShape(ns: seq<Entry>, p: nat)
    requires Shape(ns) && p + 1 < |ns|
    ensures Shape(Without(ns, p)) && ns[p + 1] !in Without(ns, p)
  {
    var ms := Without(ns, p);
    assert forall k :: 0 <= k < |ms| ==> ms[k] == if k <= p then ns[k] else ns[k + 1];
  }

  // ----- the lists of the levels

  /** The entries that take part in level `i`, in order. */
  ghost function OnLevel(ns: seq<Entry>, i: nat): seq<Entry>
  {
    if ns == [] then []
    else if ns[0].levels > i then [ns[0]] + OnLevel(ns[1..], i)
    else OnLevel(ns[1..], i)
  }

  /** A pointer of level `i` leads to the first entry that is left of its list. */
  lemma {:induction false} NextIsFirst(ns: seq<Entry>, i: nat)
    ensures Next(ns, i) == if OnLevel(ns, i) == [] then null else OnLevel(ns, i)[0]
  {
    if ns != [] && ns[0].levels <= i {
      NextIsFirst(ns[1..], i);
    }
  }

  /** The list of a level is a part of the list below it. */
  lemma {:induction false} LevelsNest(ns: seq<Entry>, i: nat)
    ensures OnLevel(OnLevel(ns, i), i + 1) == OnLevel(ns, i + 1)
  {
    if ns != [] {
      LevelsNest(ns[1..], i);
      if ns[0].levels > i {
        assert OnLevel(ns, i)[1..] == OnLevel(ns[1..], i);
      }
    }
  }

  /** Levels 0 and 1 hold every entry. */
  lemma {:induction false} LowLevelsCoincide(ns: seq<Entry>)
    requires forall k :: 0 <= k < |ns| ==> ns[k].levels >= 2
    ensures OnLevel(ns, 0) == ns && OnLevel(ns, 1) == ns
  {
    if ns != [] {
      var rest := ns[1..];
      assert forall k :: 0 <= k < |rest| ==> rest[k] == ns[k + 1];
      LowLevelsCoincide(rest);
    }
  }

  // ----- the list as a finite map

  /** The finite map the entries stand for. */
  ghost function View(ns: seq<Entry>): map<int, int>
    requires Sorted(ns)
  {
    map k | 1 <= k < |ns| :: ns[k].key := ns[k].value
  }

  lemma ViewHas(ns: seq<Entry>, k: nat)
    requires Sorted(ns) && 1 <= k < |ns|
    ensures ns[k].key in View(ns) && View(ns)[ns[k].key] == ns[k].value
  {
  }

  lemma ViewAt(ns: seq<Entry>, x: int) returns (k: nat)
    requires Sorted(ns) && x in View(ns)
    ensures 1 <= k < |ns| && ns[k].key == x && View(ns)[x] == ns[k].value
  {
    k :| 1 <= k < |ns| && ns[k].key == x;
    ViewHas(ns, k);
  }

  lemma WithViewOld(ns: seq<Entry>, p: nat, e: Entry, x: int)
    requires Sorted(ns) && p < |ns| && Sorted(With(ns, p, e)) && x in View(ns)
    ensures x != e.key && x in View(With(ns, p, e)) && View(With(ns, p, e))[x] == View(ns)[x]
  {
    var k := ViewAt(ns, x);
    var j := if k <= p then k else k + 1;
    WithAt(ns, p, e, j);
    WithAt(ns, p, e, p + 1);
    ViewHas(With(ns, p, e), j);
  }

  lemma WithViewNew(ns: seq<Entry>, p: nat, e: Entry, x: int)
    requires Sorted(ns) && p < |ns| && Sorted(With(ns, p, e)) && x in View(With(ns, p, e))
    ensures x == e.key || x in View(ns)
  {
    var k := ViewAt(With(ns, p, e), x);
    WithAt(ns, p, e, k);
    if k <= p {
      ViewHas(ns, k);
    } else if k > p + 1 {
      ViewHas(ns, k - 1);
    }
  }

  /** Splicing in an entry adds its key to the map. */
  lemma WithView(ns: seq<Entry>, p: nat, e: Entry)
    requires Sorted(ns) && p < |ns| && Sorted(With(ns, p, e))
    ensures e.key !in View(ns) && View(With(ns, p, e)) == View(ns)[e.key := e.value]
  {
    var v, w := View(ns), View(With(ns, p, e));
    WithAt(ns, p, e, p + 1);
    ViewHas(With(ns, p, e), p + 1);
    forall x | x in v ensures x != e.key && x in w && w[x] == v[x] {
      WithViewOld(ns, p, e, x);
    }
    forall x | x in w ensures x == e.key || x in v {
      WithViewNew(ns, p, e, x);
    }
    OneMore(v, w, e.key, e.value);
  }

  lemma OneMore(v: map<int, int>, w: map<int, int>, key: int, value: int)
    requires key in w && w[key] == value && (forall x :: x in v ==> x != key && x in w && w[x] == v[x])
    requires forall x :: x in w ==> x == key || x in v
    ensures key !in v && w == v[key := value]
  {
    assert forall x :: x in w <==> x in v[key := value];
    assert forall x :: x in w ==> w[x] == v[key := value][x];
  }

  /** A key is in the map exactly when the entry behind the last smaller one has it. */
  lemma BeforeView(ns: seq<Entry>, key: int, p: nat)
    requires Sorted(ns) && Before(ns, key, p)
    ensures key in View(ns) <==> p + 1 < |ns| && ns[p + 1].key == key
    ensures key in View(ns) ==> View(ns)[key] == ns[p + 1].value
  {
    if p + 1 < |ns| {
      assert ns[p + 1].key in View(ns);
    }
  }

  // ----- the list

  /** SLRandomLevel: one more than the number of odd draws in a row. */
  method RandomLevel(random: nat -> int) returns (level: nat)
    ensures 1 <= level <= SL_MAX_LEVEL && (level < SL_MAX_LEVEL ==> random(level - 1) % 2 == 0)
    ensures forall k :: 0 <= k < level - 1 ==> random(k) % 2 == 1
  {
    level := 1;
    while random(level - 1) % 2 == 1 && level < SL_MAX_LEVEL
      invariant 1 <= level <= SL_MAX_LEVEL && forall k :: 0 <= k < level - 1 ==> random(k) % 2 == 1
    {
      level := level + 1;
    }
  }

  class SkipList {
    var level: nat
    var count: nat
    var head: Entry
    var p0: Entry?
    ghost var nodes: seq<Entry>
    ghost var repr: set<Entry>

    ghost predicate Valid()
      reads this, repr
    {
      && Shape(nodes) == true && head == nodes[0] && repr == Elements(nodes) && Linked(nodes) == true
      && level <= SL_MAX_LEVEL && Tight(nodes, level) == true && count == |nodes| - 1
    }

    /** drmSLCreate */
    constructor ()
      ensures Valid() && fresh(repr) && nodes == [head] && View(nodes) == map[] && level == 0
    {
      var h := new Entry(SL_MAX_LEVEL, 0, 0);
      head := h;
      level := 0;
      count := 0;
      p0 := null;
      nodes := [h];
      repr := {h};
    }

    /** SLLocate: the entry behind the last node smaller than `key`, and on every level in use the
        last such node. */
    method Locate(key: int) returns (entry: Entry?, update: seq<Entry>, ghost p: nat)
      requires Valid()
      ensures Before(nodes, key, p) && entry == (if p + 1 < |nodes| then nodes[p + 1] else null)
      ensures |update| == SL_MAX_LEVEL + 1 && forall i :: 0 <= i <= level ==> UpdateAt(nodes, p, i, update[i])
    {
      p := HasBefore(nodes, key);
      var e := head;
      update := seq(SL_MAX_LEVEL + 1, _ => e);
      ghost var k: nat := 0;
      var i: int := level;
      while i >= 0
        invariant -1 <= i <= level && |update| == SL_MAX_LEVEL + 1
        invariant k <= p && e == nodes[k] && i < nodes[k].levels
        invariant forall j :: i < j <= level ==> UpdateAt(nodes, p, j, update[j])
        invariant i < 0 ==> LastAt(nodes, p, 0, k)
      {
        e, k := Advance(key, i, e, p, k);
        update := update[i := e];
        i := i - 1;
      }
      LowestIsLast(nodes, p, k);
      entry := e.forward[0];
    }

    /** The inner loop of SLLocate. */
    method Advance(key: int, i: nat, start: Entry, ghost p: nat, ghost from: nat) returns (e: Entry, ghost k: nat)
      requires Valid() && Before(nodes, key, p) && from <= p && start == nodes[from] && i < start.levels
      ensures k <= p && e == nodes[k] && LastAt(nodes, p, i, k)
    {
      e, k := start, from;
      while e.forward[i] != null && e.forward[i].key < key
        invariant k <= p && e == nodes[k] && i < e.levels
        decreases p - k
      {
        e := e.forward[i];
        k := Follow(nodes, key, p, k, i);
      }
      StopsAtLast(nodes, key, p, k, i);
    }

    /** drmSLLookup.  What it hands out is the entry itself. */
    method Lookup(key: int) returns (ret: int, value: Entry?)
      requires Valid()
      ensures ret == (if key in View(nodes) then 0 else -1)
      ensures ret == 0 ==> value != null && value in nodes[1..] && value.key == key && value.value == View(nodes)[key]
      ensures ret != 0 ==> value == null
    {
      var entry, update, p := Locate(key);
      BeforeView(nodes, key, p);
      if entry != null && entry.key == key {
        assert nodes[1..][p] == entry;
        return 0, entry;
      }
      return -1, null;
    }

    /** drmSLInsert, with the level that SLRandomLevel has drawn. */
    method Insert(key: int, value: int, drawn: nat) returns (ret: int)
      requires Valid() && 1 <= drawn <= SL_MAX_LEVEL
      modifies this, repr
      ensures Valid() && fresh(repr - old(repr)) && head == old(head)
      ensures ret == if key in View(old(nodes)) then 1 else 0
      ensures ret == 1 ==> nodes == old(nodes) && level == old(level)
      ensures ret == 0 ==> View(nodes) == View(old(nodes))[key := value]
      ensures ret == 0 ==> level == if drawn > old(level) then old(level) + 1 else old(level)
    {
      var entry, update, p := Locate(key);
      BeforeView(nodes, key, p);
      if entry != null && entry.key == key {
        return 1;
      }
      var top;
      top, update := Grow(drawn, update, p);
      var e := new Entry(top, key, value);
      Splice(e, top, update, nodes, p, repr);
      Adopt(e, p, old(level));
      ret := 0;
    }

    /** A level above those in use raises the list level by one. */
    method Grow(drawn: nat, update: seq<Entry>, ghost p: nat) returns (top: nat, update2: seq<Entry>)
      requires Shape(nodes) && head == nodes[0] && p < |nodes| && Tight(nodes, level) && 1 <= drawn <= SL_MAX_LEVEL
      requires |update| == SL_MAX_LEVEL + 1 && forall i :: 0 <= i <= level ==> UpdateAt(nodes, p, i, update[i])
      modifies this`level
      ensures level == (if drawn > old(level) then old(level) + 1 else old(level)) && 1 <= top <= level && top <= drawn
      ensures level > old(level) ==> top == level
      ensures |update2| == SL_MAX_LEVEL + 1 && forall i :: 0 <= i <= top ==> UpdateAt(nodes, p, i, update2[i])
    {
      top, update2 := drawn, update;
      if top > level {
        HeadIsLast(nodes, p, level + 1);
        level := level + 1;
        top := level;
        update2 := update[top := head];
      }
    }

    /** The new entry is part of the list. */
    method Adopt(e: Entry, ghost p: nat, ghost was: nat)
      requires Shape(nodes) && head == nodes[0] && repr == Elements(nodes) && e !in nodes
      requires Before(nodes, e.key, p) && (p + 1 < |nodes| ==> nodes[p + 1].key != e.key) && Linked(With(nodes, p, e))
      requires 2 <= e.levels <= level + 1 <= SL_MAX_LEVEL + 1 && Tight(nodes, was) && count == |nodes| - 1
      requires level == was || (level == was + 1 && e.levels == level + 1)
      modifies this
      ensures Valid() && head == old(head) && level == old(level) && repr == old(repr) + {e}
      ensures View(nodes) == View(old(nodes))[e.key := e.value]
    {
      WithAll(nodes, p, e, was, level);
      nodes := With(nodes, p, e);
      repr := repr + {e};
      count := count + 1;
    }

    /** The loop of drmSLInsert that fixes up the forward pointers. */
    static method Splice(e: Entry, top: nat, update: seq<Entry>, ghost ns: seq<Entry>, ghost p: nat,
        ghost nodes: set<Entry>)
      requires Shape(ns) && Linked(ns) && p < |ns| && nodes == Elements(ns) && e !in ns
      requires e.levels == top + 1 == |e.forward| && top < |update|
      requires forall i :: 0 <= i <= top ==> UpdateAt(ns, p, i, update[i])
      modifies nodes, e
      ensures Linked(With(ns, p, e))
    {
      HalfStart(ns, p, e);
      var i := 0;
      while i <= top
        invariant 0 <= i <= top + 1 && Half(ns, p, e, i)
      {
        assert UpdateAt(ns, p, i, update[i]);
        ghost var u: nat :| LastAt(ns, p, i, u) && ns[u] == update[i];
        SpliceOne(e, i, update[i], ns, p, u, nodes);
        i := i + 1;
      }
      HalfEnd(ns, p, e);
    }

    static method SpliceOne(e: Entry, i: nat, at: Entry, ghost ns: seq<Entry>, ghost p: nat, ghost u: nat,
        ghost nodes: set<Entry>)
      requires Distinct(ns) && p < |ns| && Half(ns, p, e, i) && LastAt(ns, p, i, u) && ns[u] == at && e !in ns
      requires i < e.levels
      requires nodes == Elements(ns)
      modifies nodes, e
      ensures Half(ns, p, e, i + 1)
    {
      WithNew(ns, p, e, i, u);
      SpliceLinks(ns, p, e, i, u);
      e.forward := e.forward[i := at.forward[i]];
      at.forward := at.forward[i := e];
      forall k, j | 0 <= k < |ns| && 0 <= j < |ns[k].forward|
        ensures ns[k].forward[j] == Partly(ns, p, e, i + 1, k, j)
      {
        if k == u {
          assert j != i ==> at.forward[j] == old(at.forward[j]);
        } else {
          assert ns[k].forward == old(ns[k].forward);
        }
      }
    }

    /** drmSLDelete */
    method Delete(key: int) returns (ret: int)
      requires Valid()
      modifies this, repr
      ensures Valid() && repr <= old(repr) && head == old(head)
      ensures ret == if key in View(old(nodes)) then 0 else 1
      ensures ret == 1 ==> nodes == old(nodes) && level == old(level)
      ensures ret == 0 ==> View(nodes) == View(old(nodes)) - {key}
    {
      var entry, update, p := Locate(key);
      BeforeView(nodes, key, p);
      if entry == null || entry.key != key {
        return 1;
      }
      WithoutView(nodes, p);
      Discard(entry, update, p);
      ret := 0;
    }

    /** Take the entry out of every list and the list level down. */
    method Discard(entry: Entry, update: seq<Entry>, ghost p: nat)
      requires Valid() && p + 1 < |nodes| && entry == nodes[p + 1] && |update| == SL_MAX_LEVEL + 1
      requires forall i :: 0 <= i <= level ==> UpdateAt(nodes, p, i, update[i])
      modifies this, repr
      ensures Valid() && repr <= old(repr) && head == old(head) && nodes == Without(old(nodes), p)
    {
      WithoutAll(nodes, p);
      Unsplice(entry, level, update, Without(nodes, p), p, repr);
      nodes := Without(nodes, p);
      repr := Elements(nodes);
      Shrink();
      count := count - 1;
    }

    /** The loop of drmSLDelete that fixes up the forward pointers. */
    static method Unsplice(e: Entry, top: nat, update: seq<Entry>, ghost ms: seq<Entry>, ghost p: nat,
        ghost nodes: set<Entry>)
      requires Shape(ms) && p < |ms| && e !in ms && Linked(With(ms, p, e)) && nodes == Elements(With(ms, p, e))
      requires e.levels <= top + 1 && top < |update|
      requires forall i :: 0 <= i <= top ==> UpdateAt(With(ms, p, e), p, i, update[i])
      modifies nodes
      ensures Linked(ms)
    {
      LeftStart(ms, p, e);
      var i := 0;
      while i <= top
        invariant 0 <= i <= top + 1 && Left(ms, p, e, i)
      {
        assert UpdateAt(With(ms, p, e), p, i, update[i]);
        ghost var u: nat :| LastAt(With(ms, p, e), p, i, u) && With(ms, p, e)[u] == update[i];
        LastWithout(ms, p, e, i, u);
        UnspliceOne(e, i, update[i], ms, p, u, nodes);
        i := i + 1;
      }
      LeftEnd(ms, p, e, i);
    }

    static method UnspliceOne(e: Entry, i: nat, at: Entry, ghost ms: seq<Entry>, ghost p: nat, ghost u: nat,
        ghost nodes: set<Entry>)
      requires Distinct(ms) && p < |ms| && e !in ms && Left(ms, p, e, i) && LastAt(ms, p, i, u) && ms[u] == at
      requires nodes == Elements(With(ms, p, e))
      modifies nodes
      ensures Left(ms, p, e, i + 1)
    {
      WithNew(ms, p, e, i, u);
      LeftLinks(ms, p, e, i, u);
      WithElements(ms, p, e);
      if at.forward[i] == e {
        at.forward := at.forward[i := e.forward[i]];
      }
      assert at.forward[i] == Link(ms, u, i);
      forall k, j | 0 <= k < |ms| && 0 <= j < |ms[k].forward|
        ensures ms[k].forward[j] == Leaving(ms, p, e, i + 1, k, j)
      {
        if k == u {
          assert j != i ==> at.forward[j] == old(at.forward[j]);
        } else {
          assert ms[k].forward == old(ms[k].forward);
        }
      }
    }

    /** The end of drmSLDelete: lower the level while its list is empty. */
    method Shrink()
      requires Shape(nodes) && head == nodes[0] && Linked(nodes) && level <= SL_MAX_LEVEL
      requires forall k :: 1 <= k < |nodes| ==> nodes[k].levels <= level + 1
      modifies this`level
      ensures level <= old(level) && Tight(nodes, level)
    {
      while level > 0 && head.forward[level] == null
        invariant level <= old(level) && forall k :: 1 <= k < |nodes| ==> nodes[k].levels <= level + 1
      {
        UnusedLevel(nodes, level);
        level := level - 1;
      }
      if level > 0 {
        UsedLevel(nodes, level);
      }
    }

    /** drmSLNext; 1 with the entry under the cursor, 0 at the end. */
    method Next(ghost k: nat) returns (ret: int, key: int, value: int)
      requires Valid() && 1 <= k <= |nodes| && p0 == (if k < |nodes| then nodes[k] else null)
      modifies this`p0
      ensures Valid() && ret == if k < |nodes| then 1 else 0
      ensures ret == 1 ==>
        key == nodes[k].key && value == nodes[k].value && p0 == if k + 1 < |nodes| then nodes[k + 1] else null
      ensures ret == 0 ==> p0 == null
    {
      var entry := p0;
      if entry != null {
        FirstLink(nodes, k);
        p0 := entry.forward[0];
        return 1, entry.key, entry.value;
      }
      p0 := null;
      return 0, 0, 0;
    }

    /** drmSLFirst */
    method First() returns (ret: int, key: int, value: int)
      requires Valid()
      modifies this`p0
      ensures Valid() && ret == if |nodes| > 1 then 1 else 0
      ensures ret == 1 ==>
        key == nodes[1].key && value == nodes[1].value && p0 == if 2 < |nodes| then nodes[2] else null
      ensures ret == 0 ==> p0 == null
    {
      FirstLink(nodes, 0);
      p0 := head.forward[0];
      ret, key, value := Next(1);
    }

    /** Iteration with First and Next: every entry once, keys ascending. */
    method Sweep() returns (found: seq<(int, int)>)
      requires Valid()
      modifies this`p0
      ensures Valid() && |found| == |nodes| - 1
      ensures forall k :: 0 <= k < |found| ==> found[k] == (nodes[k + 1].key, nodes[k + 1].value)
      ensures forall j, k :: 0 <= j < k < |found| ==> found[j].0 < found[k].0
    {
      found := [];
      var more, key, value := First();
      ghost var k: nat := 1;
      while more == 1
        invariant Valid() && 1 <= k <= |nodes| && |found| == k - 1 && more == (if k < |nodes| then 1 else 0)
        invariant more == 1 ==> key == nodes[k].key && value == nodes[k].value
        invariant more == 1 ==> p0 == if k + 1 < |nodes| then nodes[k + 1] else null
        invariant forall j :: 0 <= j < |found| ==> found[j] == (nodes[j + 1].key, nodes[j + 1].value)
        decreases |nodes| - k
      {
        found := found + [(key, value)];
        k := k + 1;
        more, key, value := Next(k);
      }
    }
  }

  // ----- cutting an entry out

  /** Pointers while an entry has left the first `i` levels. */
  ghost function Leaving(ms: seq<Entry>, p: nat, e: Entry, i: int, k: nat, j: nat): Entry?
    requires p < |ms| && k < |ms|
  {
    if j < i then Link(ms, k, j) else Link(With(ms, p, e), Shift(p, k), j)
  }

  ghost predicate Left(ms: seq<Entry>, p: nat, e: Entry, i: nat)
    requires p < |ms|
    reads ms, e
  {
    && |e.forward| == e.levels
    && (forall k :: 0 <= k < |ms| ==> |ms[k].forward| == ms[k].levels)
    && (forall k, j :: 0 <= k < |ms| && 0 <= j < |ms[k].forward| ==> ms[k].forward[j] == Leaving(ms, p, e, i, k, j))
    && (forall j :: 0 <= j < |e.forward| ==> e.forward[j] == Link(With(ms, p, e), p + 1, j))
  }

  lemma LeftStart(ms: seq<Entry>, p: nat, e: Entry)
    requires p < |ms| && Linked(With(ms, p, e))
    ensures Left(ms, p, e, 0)
  {
    var ns := With(ms, p, e);
    WithAt(ms, p, e, p + 1);
    forall k | 0 <= k < |ms| ensures ns[Shift(p, k)] == ms[k] {
      WithAt(ms, p, e, Shift(p, k));
    }
  }

  lemma LeftEnd(ms: seq<Entry>, p: nat, e: Entry, i: nat)
    requires p < |ms| && e.levels <= i && Left(ms, p, e, i)
    ensures Linked(ms)
  {
    forall k, j | 0 <= k < |ms| && 0 <= j < |ms[k].forward| ensures ms[k].forward[j] == Link(ms, k, j) {
      if j >= i {
        AboveLinks(ms, p, e, j, k);
      }
    }
  }

  lemma LastWithout(ms: seq<Entry>, p: nat, e: Entry, i: nat, u: nat)
    requires p < |ms| && LastAt(With(ms, p, e), p, i, u)
    ensures LastAt(ms, p, i, u) && ms[u] == With(ms, p, e)[u]
  {
    assert With(ms, p, e)[u + 1..p + 1] == ms[u + 1..p + 1];
  }

  /** On level `i` the pointer to the entry is the one of the node to update. */
  lemma LeftLinks(ms: seq<Entry>, p: nat, e: Entry, i: nat, u: nat)
    requires LastAt(ms, p, i, u) && e !in ms
    ensures Link(With(ms, p, e), Shift(p, u), i) == e <==> i < e.levels
    ensures forall k :: 0 <= k < |ms| && ms[k].levels > i && !(k == u && i < e.levels) ==>
      Link(With(ms, p, e), Shift(p, k), i) == Link(ms, k, i)
  {
    NextIs(ms[u + 1..], i);
    if i < e.levels {
      SpliceLinks(ms, p, e, i, u);
    } else {
      forall k | 0 <= k < |ms| ensures Link(With(ms, p, e), Shift(p, k), i) == Link(ms, k, i) {
        AboveLinks(ms, p, e, i, k);
      }
    }
  }

  lemma WithoutAll(ns: seq<Entry>, p: nat)
    requires Shape(ns) && p + 1 < |ns|
    ensures var ms := Without(ns, p);
      && Shape(ms) == true && ns[p + 1] !in ms && p < |ms| == |ns| - 1 && With(ms, p, ns[p + 1]) == ns && ms[0] == ns[0]
      && Elements(ms) <= Elements(ns) && (forall k :: 1 <= k < |ms| ==> ms[k] in ns[1..])
  {
    WithoutShape(ns, p);
    WithoutWith(ns, p);
    WithoutElements(ns, p);
  }

  lemma WithoutElements(ns: seq<Entry>, p: nat)
    requires p + 1 < |ns|
    ensures var ms := Without(ns, p);
      |ms| == |ns| - 1 && ms[0] == ns[0] && Elements(ms) <= Elements(ns) && (forall k :: 1 <= k < |ms| ==>
        ms[k] in ns[1..])
  {
    var ms := Without(ns, p);
    forall k | 1 <= k < |ms| ensures ms[k] in ns[1..] {
      assert ms[k] == ns[1..][if k <= p then k - 1 else k];
    }
  }

  /** Cutting out an entry takes its key out of the map. */
  lemma WithoutView(ns: seq<Entry>, p: nat)
    requires Shape(ns) && p + 1 < |ns|
    ensures Sorted(Without(ns, p)) && View(Without(ns, p)) == View(ns) - {ns[p + 1].key}
  {
    WithoutShape(ns, p);
    WithoutWith(ns, p);
    var e := ns[p + 1];
    WithView(Without(ns, p), p, e);
    Removed(View(Without(ns, p)), View(ns), e.key, e.value);
  }

  lemma Removed(v: map<int, int>, w: map<int, int>, key: int, value: int)
    requires key !in v && w == v[key := value]
    ensures v == w - {key}
  {
  }

  lemma UnusedLevel(ns: seq<Entry>, level: nat)
    requires ns != [] && Link(ns, 0, level) == null
    ensures forall k :: 1 <= k < |ns| ==> ns[k].levels <= level
  {
    var rest := ns[1..];
    NextIs(rest, level);
    forall k | 1 <= k < |ns| ensures ns[k].levels <= level {
      assert rest[k - 1] == ns[k];
    }
  }

  lemma UsedLevel(ns: seq<Entry>, level: nat)
    requires ns != [] && Link(ns, 0, level) != null && forall k :: 1 <= k < |ns| ==> ns[k].levels <= level + 1
    ensures exists k :: 1 <= k < |ns| && ns[k].levels == level + 1
  {
    var rest := ns[1..];
    NextIs(rest, level);
    var m :| 0 <= m < |rest| && rest[m] == Link(ns, 0, level);
    assert ns[m + 1].levels == level + 1;
  }

  /** Level 0 links every node to the next. */
  lemma FirstLink(ns: seq<Entry>, k: nat)
    requires Levels(ns) && k < |ns|
    ensures Link(ns, k, 0) == if k + 1 < |ns| then ns[k + 1] else null
  {
    if k + 1 < |ns| {
      assert ns[k + 1..][0] == ns[k + 1];
    }
  }

  /** Every pointer leads to the next node of its level. */
  ghost predicate Linked(ns: seq<Entry>)
    reads ns
  {
    && (forall k :: 0 <= k < |ns| ==> |ns[k].forward| == ns[k].levels)
    && (forall k, i :: 0 <= k < |ns| && 0 <= i < |ns[k].forward| ==> ns[k].forward[i] == Link(ns, k, i))
  }

  /** The first `i` levels are spliced. */
  ghost predicate Half(ns: seq<Entry>, p: nat, e: Entry, i: nat)
    requires p < |ns|
    reads ns, e
  {
    && |e.forward| == e.levels
    && (forall k :: 0 <= k < |ns| ==> |ns[k].forward| == ns[k].levels)
    && (forall k, j :: 0 <= k < |ns| && 0 <= j < |ns[k].forward| ==> ns[k].forward[j] == Partly(ns, p, e, i, k, j))
    && (forall j :: 0 <= j < i && j < |e.forward| ==> e.forward[j] == Link(With(ns, p, e), p + 1, j))
  }

  lemma HalfStart(ns: seq<Entry>, p: nat, e: Entry)
    requires p < |ns| && Linked(ns) && |e.forward| == e.levels
    ensures Half(ns, p, e, 0)
  {
  }

  lemma HalfEnd(ns: seq<Entry>, p: nat, e: Entry)
    requires p < |ns| && Half(ns, p, e, e.levels)
    ensures Linked(With(ns, p, e))
  {
    var ms := With(ns, p, e);
    forall k | 0 <= k < |ms| ensures |ms[k].forward| == ms[k].levels {
      WithAt(ns, p, e, k);
    }
    forall k, i | 0 <= k < |ms| && 0 <= i < |ms[k].forward| ensures ms[k].forward[i] == Link(ms, k, i) {
      WithAt(ns, p, e, k);
      if k != p + 1 {
        var m := if k <= p then k else k - 1;
        assert ms[k] == ns[m] && Shift(p, m) == k;
        if e.levels <= i {
          AboveLinks(ns, p, e, i, m);
        }
      }
    }
  }

  /** Index of node `k` once an entry is spliced in behind `p`. */
  ghost function Shift(p: nat, k: nat): nat
  {
    if k <= p then k else k + 1
  }

  /** Pointers while the first `i` levels are spliced. */
  ghost function Partly(ns: seq<Entry>, p: nat, e: Entry, i: int, k: nat, j: nat): Entry?
    requires p < |ns| && k < |ns|
  {
    if j < i then Link(With(ns, p, e), Shift(p, k), j) else Link(ns, k, j)
  }

  /** On a level of `e` just one pointer of the old nodes changes. */
  lemma SpliceLinks(ns: seq<Entry>, p: nat, e: Entry, i: nat, u: nat)
    requires LastAt(ns, p, i, u) && i < e.levels
    ensures forall k :: 0 <= k < |ns| && ns[k].levels > i ==>
      Link(With(ns, p, e), Shift(p, k), i) == if k == u then e else Link(ns, k, i)
  {
    forall k | 0 <= k < |ns| && ns[k].levels > i
      ensures Link(With(ns, p, e), Shift(p, k), i) == if k == u then e else Link(ns, k, i)
    {
      if k <= p {
        WithBefore(ns, p, e, i, u, k);
      } else {
        WithAfter(ns, p, e, i, k);
      }
    }
  }

  /** Above the levels of `e` no pointer changes. */
  lemma AboveLinks(ns: seq<Entry>, p: nat, e: Entry, i: nat, k: nat)
    requires p < |ns| && e.levels <= i && k < |ns|
    ensures Link(With(ns, p, e), Shift(p, k), i) == Link(ns, k, i)
  {
    if k <= p {
      WithSplit(ns, p, e, i, k);
    } else {
      WithAfter(ns, p, e, i, k);
    }
  }

  lemma WithAll(ns: seq<Entry>, p: nat, e: Entry, level: nat, top: nat)
    requires Shape(ns) && Before(ns, e.key, p) && (p + 1 < |ns| ==> ns[p + 1].key != e.key) && e !in ns
    requires 2 <= e.levels <= top + 1 <= SL_MAX_LEVEL + 1 && Tight(ns, level)
    requires top == level || (top == level + 1 && e.levels == top + 1)
    ensures var ms := With(ns, p, e);
      && Shape(ms) == true && Tight(ms, top) == true && Elements(ms) == Elements(ns) + {e} && ms[0] == ns[0]
      && |ms| == |ns| + 1 && View(ms) == View(ns)[e.key := e.value]
  {
    WithShape(ns, p, e);
    WithTight(ns, p, e, level, top);
    WithView(ns, p, e);
    WithAt(ns, p, e, 0);
    WithElements(ns, p, e);
  }

  lemma WithElements(ns: seq<Entry>, p: nat, e: Entry)
    requires p < |ns|
    ensures Elements(With(ns, p, e)) == Elements(ns) + {e} && e in With(ns, p, e)
  {
    assert With(ns, p, e)[p + 1] == e;
    assert ns == ns[..p + 1] + ns[p + 1..];
  }

  /** On a level that no entry uses the head is the node to update. */
  lemma HeadIsLast(ns: seq<Entry>, p: nat, i: nat)
    requires Levels(ns) && p < |ns| && i <= SL_MAX_LEVEL && forall k :: 1 <= k < |ns| ==> ns[k].levels <= i
    ensures UpdateAt(ns, p, i, ns[0])
  {
    var near := ns[1..p + 1];
    NextIs(near, i);
    assert forall k :: 0 <= k < |near| ==> near[k] == ns[k + 1];
    assert LastAt(ns, p, i, 0);
  }

  lemma WithTight(ns: seq<Entry>, p: nat, e: Entry, level: nat, top: nat)
    requires p < |ns| && Tight(ns, level) && level <= top && e.levels <= top + 1
    requires top == level || (top == level + 1 && e.levels == top + 1)
    ensures Tight(With(ns, p, e), top)
  {
    var ms := With(ns, p, e);
    forall k | 1 <= k < |ms| ensures ms[k].levels <= top + 1 {
      WithAt(ns, p, e, k);
    }
    if top > level {
      WithAt(ns, p, e, p + 1);
      assert ms[p + 1].levels == top + 1;
    } else if level > 0 {
      var k :| 1 <= k < |ns| && ns[k].levels == level + 1;
      WithAt(ns, p, e, Shift(p, k));
      assert ms[Shift(p, k)].levels == top + 1;
    }
  }

  /** The list level is the highest one in use. */
  ghost predicate Tight(ns: seq<Entry>, level: nat)
  {
    && (forall k :: 1 <= k < |ns| ==> ns[k].levels <= level + 1)
    && (level > 0 ==> exists k :: 1 <= k < |ns| && ns[k].levels == level + 1)
  }

  ghost predicate UpdateAt(ns: seq<Entry>, p: nat, i: nat, e: Entry)
  {
    exists u: nat :: LastAt(ns, p, i, u) && ns[u] == e
  }

  /** Following a pointer to a smaller key stays before the key. */
  lemma Follow(ns: seq<Entry>, key: int, p: nat, k: nat, i: nat) returns (j: nat)
    requires Shape(ns) && Before(ns, key, p) && k <= p && Link(ns, k, i) != null && Link(ns, k, i).key < key
    ensures k < j <= p && ns[j] == Link(ns, k, i) && ns[j].levels > i
  {
    var e := Link(ns, k, i);
    NextIs(ns[k + 1..], i);
    assert e in ns[k + 1..];
    var m :| 0 <= m < |ns[k + 1..]| && ns[k + 1..][m] == e;
    j := k + 1 + m;
  }

  /** Where no pointer leads to a smaller key, the node is the last of its level. */
  lemma StopsAtLast(ns: seq<Entry>, key: int, p: nat, k: nat, i: nat)
    requires Shape(ns) && Before(ns, key, p) && k <= p && ns[k].levels > i
    requires Link(ns, k, i) == null || Link(ns, k, i).key >= key
    ensures LastAt(ns, p, i, k)
  {
    var near := ns[k + 1..p + 1];
    assert ns[k + 1..] == near + ns[p + 1..];
    NextAppend(near, ns[p + 1..], i);
    NextIs(near, i);
    forall m | 0 <= m < |near| ensures near[m].key < key {
      assert near[m] == ns[k + 1 + m];
    }
  }

  /** On level 0 the last node is the one before the key. */
  lemma LowestIsLast(ns: seq<Entry>, p: nat, k: nat)
    requires Shape(ns) && LastAt(ns, p, 0, k)
    ensures k == p && Link(ns, p, 0) == if p + 1 < |ns| then ns[p + 1] else null
  {
    if k != p {
      LastUnique(ns, p, 0, k, p);
    }
    if p + 1 < |ns| {
      assert ns[p + 1..][0] == ns[p + 1];
    }
  }
}
