/** intel/mm.c on its own data structure: blocks linked into an address-ordered
    ring and a free ring, both through the heap sentinel.  Every operation is
    proved to have the effect MmLayout gives it. */
module MmHeap {
  import opened MmLayout
  import opened MmTheorems

  class MemBlock {
    var next: MemBlock?
    var prev: MemBlock?
    var nextFree: MemBlock?
    var prevFree: MemBlock?
    var ofs: int
    var size: int
    var free: bool
    var reserved: bool

    constructor (ofs: int, size: int, free: bool)
      ensures this.ofs == ofs && this.size == size && this.free == free && !reserved
    {
      this.ofs, this.size, this.free, this.reserved := ofs, size, free, false;
      next, prev, nextFree, prevFree := null, null, null, null;
    }
  }

  function After(n: nat, i: nat): nat
  {
    if i + 1 == n then 0 else i + 1
  }

  ghost predicate NoDup(s: seq<MemBlock>)
  {
    forall i, j :: 0 <= i < j < |s| ==> s[i] != s[j]
  }

  /** `ring` is a circular next/prev list without repetition. */
  ghost predicate Linked(ring: seq<MemBlock>)
    reads ring`next, ring`prev
  {
    && |ring| > 0 && NoDup(ring)
    && (forall i :: 0 <= i < |ring| ==> ring[i].next == ring[After(|ring|, i)])
    && (forall i :: 0 <= i < |ring| ==> ring[After(|ring|, i)].prev == ring[i])
  }

  /** `ring` is a circular next_free/prev_free list without repetition. */
  ghost predicate FreeLinked(ring: seq<MemBlock>)
    reads ring`nextFree, ring`prevFree
  {
    && |ring| > 0 && NoDup(ring)
    && (forall i :: 0 <= i < |ring| ==> ring[i].nextFree == ring[After(|ring|, i)])
    && (forall i :: 0 <= i < |ring| ==> ring[After(|ring|, i)].prevFree == ring[i])
  }

  ghost predicate Within(s: seq<MemBlock>, repr: set<MemBlock>)
  {
    forall b :: b in s ==> b in repr
  }

  ghost function InsertAfter(ring: seq<MemBlock>, i: nat, n: MemBlock): seq<MemBlock>
    requires i < |ring|
  {
    ring[..i + 1] + [n] + ring[i + 1..]
  }

  /** `t` in place of the element at `i`. */
  ghost function Replace(s: seq<MemBlock>, i: nat, t: seq<MemBlock>): seq<MemBlock>
    requires i < |s|
  {
    s[..i] + t + s[i + 1..]
  }

  lemma InsertIsReplace(s: seq<MemBlock>, i: nat, n: MemBlock)
    requires i < |s|
    ensures InsertAfter(s, i, n) == Replace(s, i, [s[i]] + [n])
    ensures Replace(s, i, [s[i]]) == s
  {
  }

  lemma ReplaceTwice(s: seq<MemBlock>, i: nat, l: seq<MemBlock>, r: MemBlock, t: seq<MemBlock>)
    requires i < |s|
    ensures Replace(s, i, l + [r] + t)[i + |l|] == r
    ensures Replace(s, i, l + [r])[..i + |l| + 1] + t + Replace(s, i, l + [r])[i + |l| + 1..] ==
      Replace(s, i, l + [r] + t)
    ensures RemoveAt(Replace(s, i, l + [r] + t), i + |l|) == Replace(s, i, l + t)
  {
  }

  lemma InsertNoDup(ring: seq<MemBlock>, i: nat, n: MemBlock)
    requires NoDup(ring) && i < |ring| && n !in ring
    ensures NoDup(InsertAfter(ring, i, n))
  {
    var now := InsertAfter(ring, i, n);
    forall a, b | 0 <= a < b < |now| ensures now[a] != now[b] {
      assert now[a] == if a <= i then ring[a] else if a == i + 1 then n else ring[a - 1];
      assert now[b] == if b <= i then ring[b] else if b == i + 1 then n else ring[b - 1];
    }
  }

  lemma InsertKeeps(ring: seq<MemBlock>, i: nat, n: MemBlock)
    requires i < |ring|
    ensures forall b :: b in InsertAfter(ring, i, n) <==> b in ring || b == n
  {
    assert ring == ring[..i + 1] + ring[i + 1..];
  }

  /** Where a node and its successor in the longer ring come from. */
  lemma InsertStep(ring: seq<MemBlock>, i: nat, n: MemBlock, a: nat)
    requires i < |ring| && a <= |ring|
    ensures |InsertAfter(ring, i, n)| == |ring| + 1
    ensures var now := InsertAfter(ring, i, n);
      && now[a] == (if a <= i then ring[a] else if a == i + 1 then n else ring[a - 1])
      && now[After(|now|, a)]
         == (if a == i then n
             else if a < i then ring[After(|ring|, a)]
             else ring[After(|ring|, a - 1)])
  {
  }

  /** Put `n` behind `p` in the ring of all blocks. */
  method LinkAfter(p: MemBlock, n: MemBlock, ghost ring: seq<MemBlock>, ghost i: nat, ghost repr: set<MemBlock>)
    requires Within(ring, repr)
    requires Linked(ring) && i < |ring| && ring[i] == p && n !in ring
    modifies repr`next, repr`prev, n`next, n`prev
    ensures Linked(InsertAfter(ring, i, n))
  {
    n.next := p.next;
    n.prev := p;
    p.next.prev := n;
    p.next := n;
    ghost var now := InsertAfter(ring, i, n);
    InsertNoDup(ring, i, n);
    forall a | 0 <= a < |now|
      ensures now[a].next == now[After(|now|, a)] && now[After(|now|, a)].prev == now[a]
    {
      InsertStep(ring, i, n, a);
    }
  }

  method FreeLinkAfter(p: MemBlock, n: MemBlock, ghost ring: seq<MemBlock>, ghost i: nat, ghost repr: set<MemBlock>)
    requires Within(ring, repr)
    requires FreeLinked(ring) && i < |ring| && ring[i] == p && n !in ring
    modifies repr`nextFree, repr`prevFree, n`nextFree, n`prevFree
    ensures FreeLinked(InsertAfter(ring, i, n))
  {
    n.nextFree := p.nextFree;
    n.prevFree := p;
    p.nextFree.prevFree := n;
    p.nextFree := n;
    ghost var now := InsertAfter(ring, i, n);
    InsertNoDup(ring, i, n);
    forall a | 0 <= a < |now|
      ensures now[a].nextFree == now[After(|now|, a)] && now[After(|now|, a)].prevFree == now[a]
    {
      InsertStep(ring, i, n, a);
    }
  }

  /** Take `p` out of the free ring and clear its free links. */
  method FreeUnlink(p: MemBlock, ghost ring: seq<MemBlock>, ghost i: nat, ghost repr: set<MemBlock>)
    requires Within(ring, repr)
    requires FreeLinked(ring) && 0 < i < |ring| && ring[i] == p
    modifies repr`nextFree, repr`prevFree
    ensures FreeLinked(RemoveAt(ring, i))
  {
    assert ring[After(|ring|, i - 1)] == p;
    p.nextFree.prevFree := p.prevFree;
    p.prevFree.nextFree := p.nextFree;
    p.nextFree, p.prevFree := null, null;
    ghost var now := RemoveAt(ring, i);
    assert forall a :: 0 <= a < i ==> now[a] == ring[a];
    assert forall a :: i <= a < |now| ==> now[a] == ring[a + 1];
  }

  /** Take `q`, the block behind `p`, out of the ring of all blocks. */
  method UnlinkNext(p: MemBlock, q: MemBlock, ghost ring: seq<MemBlock>, ghost i: nat, ghost repr: set<MemBlock>)
    requires Within(ring, repr)
    requires Linked(ring) && i + 1 < |ring| && ring[i] == p && ring[i + 1] == q
    modifies repr`next, repr`prev
    ensures Linked(RemoveAt(ring, i + 1))
  {
    assert q.next == ring[After(|ring|, i + 1)];
    p.next := q.next;
    q.next.prev := p;
    ghost var now := RemoveAt(ring, i + 1);
    assert forall a :: 0 <= a <= i ==> now[a] == ring[a];
    assert forall a :: i < a < |now| ==> now[a] == ring[a + 1];
    forall a | 0 <= a < |now|
      ensures now[a].next == now[After(|now|, a)] && now[After(|now|, a)].prev == now[a]
    {
    }
  }

  /** What the blocks left of, at and right of a slice hold; [ofs, end) was the block sliced. */
  ghost predicate Pieces(left: seq<MemBlock>, r: MemBlock, right: seq<MemBlock>,
                         ofs: int, end: int, start: int, size: int, free: bool)
    reads left, r, right
  {
    && |left| == (if start > ofs then 1 else 0)
    && |right| == (if start + size < end then 1 else 0)
    && (left != [] ==> Cell(left[0].ofs, left[0].size, left[0].free) == Cell(ofs, start - ofs, true))
    && (right != [] ==>
      Cell(right[0].ofs, right[0].size, right[0].free) == Cell(start + size, end - (start + size), true))
    && Cell(r.ofs, r.size, r.free) == Cell(start, size, free)
  }

  class Heap {
    var head: MemBlock
    /** The sentinel followed by the blocks in address order. */
    ghost var ring: seq<MemBlock>
    /** The sentinel followed by the free blocks in free-list order. */
    ghost var fring: seq<MemBlock>
    ghost var repr: set<MemBlock>

    /** Both rings are closed through the sentinel and run through the same blocks. */
    ghost predicate Rings()
      reads this, ring, fring
    {
      && Linked(ring) == true && FreeLinked(fring) == true
      && ring[0] == fring[0] == head && !head.free
      && Within(ring, repr) && Within(fring, repr)
      && (forall b :: b in repr ==> b in ring)
    }

    /** Rings(), in a form the verifier carries around as one fact. */
    ghost predicate Wired()
      reads this, ring, fring
    {
      Rings() == true
    }

    ghost function Cells(): (c: seq<Cell>)
      requires |ring| > 0
      reads this, ring
      ensures |c| == |ring| - 1
      ensures forall i :: 0 <= i < |c| ==> c[i] == Cell(ring[i + 1].ofs, ring[i + 1].size, ring[i + 1].free)
    {
      seq(|ring| - 1, i requires 0 <= i < |ring| - 1 reads this, ring =>
        Cell(ring[i + 1].ofs, ring[i + 1].size, ring[i + 1].free))
    }

    ghost function FreeOffsets(): (f: seq<int>)
      requires |fring| > 0
      reads this, fring
      ensures |f| == |fring| - 1
      ensures forall i :: 0 <= i < |f| ==> f[i] == fring[i + 1].ofs
    {
      seq(|fring| - 1, i requires 0 <= i < |fring| - 1 reads this, fring => fring[i + 1].ofs)
    }

    ghost function View(): Layout
      requires |ring| > 0 && |fring| > 0
      reads this, ring, fring
    {
      Layout(Cells(), FreeOffsets())
    }

    /** Blocks other than `p` keep their offset, size and flags. */
    twostate predicate Spared(was: set<MemBlock>, p: MemBlock)
      reads was
    {
      forall b :: b in was && b != p ==>
        b.ofs == old(b.ofs) && b.size == old(b.size) && b.free == old(b.free) && b.reserved == old(b.reserved)
    }

    /** mmInit for a positive size. */
    constructor (ofs: int, size: int)
      requires size > 0
      ensures Wired() && View() == Init(ofs, size)
      ensures fresh(repr)
    {
      var h := new MemBlock(0, 0, false);
      var b := new MemBlock(ofs, size, true);
      h.next, h.prev, h.nextFree, h.prevFree := b, b, b, b;
      b.next, b.prev, b.nextFree, b.prevFree := h, h, h, h;
      head := h;
      ring, fring, repr := [h, b], [h, b], {h, b};
    }

    /** Put `n` behind `p` in both rings. */
    method LinkBoth(p: MemBlock, n: MemBlock, ghost i: nat, ghost k: nat)
      requires Rings() && n !in repr
      requires 0 < i < |ring| && ring[i] == p && 0 < k < |fring| && fring[k] == p
      modifies this`ring, this`fring, this`repr
      modifies repr`next, repr`prev, repr`nextFree, repr`prevFree, n`next, n`prev, n`nextFree, n`prevFree
      ensures Rings() && repr == old(repr) + {n}
      ensures ring == InsertAfter(old(ring), i, n) && fring == InsertAfter(old(fring), k, n)
    {
      InsertKeeps(ring, i, n);
      InsertKeeps(fring, k, n);
      LinkAfter(p, n, ring, i, repr);
      ring := InsertAfter(ring, i, n);
      FreeLinkAfter(p, n, fring, k, repr);
      fring, repr := InsertAfter(fring, k, n), repr + {n};
    }

    /** A break step of SliceBlock: a new block behind `p` in both rings takes
        the part of `p` from `at` on. */
    method Split(p: MemBlock, at: int, ghost i: nat, ghost k: nat) returns (n: MemBlock)
      requires Rings()
      requires 0 < i < |ring| && ring[i] == p && 0 < k < |fring| && fring[k] == p
      modifies this`ring, this`fring, this`repr, repr
      ensures Rings() && fresh(n) && repr == old(repr) + {n}
      ensures ring == InsertAfter(old(ring), i, n) && fring == InsertAfter(old(fring), k, n)
      ensures n.ofs == at && n.size == old(p.ofs + p.size) - at && n.free && !n.reserved
      ensures Spared(old(repr), p)
      ensures p.size == at - old(p.ofs) && p.ofs == old(p.ofs) && p.free == old(p.free)
    {
      n := new MemBlock(at, p.size - (at - p.ofs), true);
      LinkBoth(p, n, i, k);
      p.size := p.size - n.size;
    }

    /** The last step of SliceBlock: `r` is in use and leaves the free ring. */
    method Take(r: MemBlock, ghost i: nat, ghost k: nat)
      requires Rings()
      requires 0 < i < |ring| && ring[i] == r && 0 < k < |fring| && fring[k] == r
      modifies this`fring, repr`nextFree, repr`prevFree, r`free, r`reserved
      ensures Rings()
      ensures fring == RemoveAt(old(fring), k)
      ensures !r.free && !r.reserved
    {
      r.free := false;
      FreeUnlink(r, fring, k, repr);
      fring := RemoveAt(fring, k);
      r.reserved := false;
    }

    /** The left break, taken only when the slice starts inside `p`: `left` is [p] or []. */
    method BreakLeft(p: MemBlock, start: int, ghost i: nat, ghost k: nat)
        returns (r: MemBlock, ghost left: seq<MemBlock>)
      requires Wired()
      requires 0 < i < |ring| && ring[i] == p && 0 < k < |fring| && fring[k] == p
      requires p.free && p.ofs <= start
      modifies this`ring, this`fring, this`repr, repr
      ensures Wired() && head == old(head) && repr == old(repr) + {r} && (r == p || fresh(r))
      ensures left == if start > old(p.ofs) then [p] else []
      ensures ring == Replace(old(ring), i, left + [r])
      ensures fring == Replace(old(fring), k, left + [r])
      ensures left != [] ==> p.ofs == old(p.ofs) && p.size == start - p.ofs && p.free && r !in old(repr)
      ensures left == [] ==> r == p
      ensures r.ofs == start && r.size == old(p.ofs + p.size) - start && r.free
      ensures Spared(old(repr), p)
    {
      r, left := p, [];
      assert left + [r] == [p];
      InsertIsReplace(ring, i, p);
      InsertIsReplace(fring, k, p);
      if start > p.ofs {
        r := Split(p, start, i, k);
        left := [p];
        InsertIsReplace(old(ring), i, r);
        InsertIsReplace(old(fring), k, r);
      }
    }

    /** The right break, taken only when `r` is longer than the slice. */
    method BreakRight(r: MemBlock, size: int, ghost i: nat, ghost k: nat) returns (ghost right: seq<MemBlock>)
      requires Wired() && r.free
      requires 0 < i < |ring| && ring[i] == r && 0 < k < |fring| && fring[k] == r
      modifies this`ring, this`fring, this`repr, repr
      ensures Wired() && head == old(head)
      ensures if right == [] then repr == old(repr) else repr == old(repr) + {right[0]}
      ensures |right| == (if size < old(r.size) then 1 else 0)
      ensures ring == old(ring)[..i + 1] + right + old(ring)[i + 1..]
      ensures fring == old(fring)[..k + 1] + right + old(fring)[k + 1..]
      ensures right != [] ==> right[0].ofs == r.ofs + size && right[0].size == old(r.size) - size && right[0].free
      ensures right != [] ==> fresh(right[0]) && right[0] !in old(repr)
      ensures r.ofs == old(r.ofs) && r.free && r.size == (if right != [] then size else old(r.size))
      ensures Spared(old(repr), r)
    {
      right := [];
      if size < r.size {
        var n := Split(r, r.ofs + size, i, k);
        right := [n];
      }
    }

    /** Both breaks, block by block; `r` is the slice and still free. */
    method Cut(p: MemBlock, start: int, size: int, ghost i: nat, ghost k: nat)
      returns (r: MemBlock, ghost left: seq<MemBlock>, ghost right: seq<MemBlock>)
      requires Wired()
      requires 0 < i < |ring| && ring[i] == p && 0 < k < |fring| && fring[k] == p
      requires p.free && p.ofs <= start && 0 < size && start + size <= p.ofs + p.size
      modifies this`ring, this`fring, this`repr, repr
      ensures Wired() && head == old(head) && old(repr) <= repr && forall b :: b in repr && b !in old(repr) ==> fresh(b)
      ensures ring == Replace(old(ring), i, left + [r] + right) && fring == Replace(old(fring), k, left + [r] + right)
      ensures left == (if start > old(p.ofs) then [p] else []) && (left != [] ==> r != p) && (r == p || r !in old(repr))
      ensures |right| == (if start + size < old(p.ofs + p.size) then 1 else 0) && (right != [] ==> right[0] != r)
      ensures left != [] ==> p.ofs == old(p.ofs) && p.size == start - p.ofs && p.free
      ensures right != [] ==>
        right[0].ofs == start + size && right[0].size == old(p.ofs + p.size) - (start + size) && right[0].free
      ensures r.ofs == start && r.size == size && r.free
      ensures Spared(old(repr), p)
    {
      r, left := BreakLeft(p, start, i, k);
      ReplaceTwice(old(ring), i, left, r, []);
      right := BreakRight(r, size, i + |left|, k + |left|);
      ReplaceTwice(old(ring), i, left, r, right);
      ReplaceTwice(old(fring), k, left, r, right);
    }

    /** Both breaks and the removal of the slice `r` from the free ring. */
    method CutOut(p: MemBlock, start: int, size: int, ghost i: nat, ghost k: nat)
      returns (r: MemBlock, ghost left: seq<MemBlock>, ghost right: seq<MemBlock>)
      requires Wired()
      requires 0 < i < |ring| && ring[i] == p && 0 < k < |fring| && fring[k] == p
      requires p.free && p.ofs <= start && 0 < size && start + size <= p.ofs + p.size
      modifies this`ring, this`fring, this`repr, repr
      ensures Wired() && head == old(head) && old(repr) <= repr && forall b :: b in repr && b !in old(repr) ==> fresh(b)
      ensures ring == Replace(old(ring), i, left + [r] + right) && fring == Replace(old(fring), k, left + right)
      ensures Pieces(left, r, right, old(p.ofs), old(p.ofs + p.size), start, size, false) == true
      ensures !r.reserved && r in repr && r != head
      ensures Spared(old(repr), p)
    {
      r, left, right := Cut(p, start, size, i, k);
      ReplaceTwice(old(ring), i, left, r, right);
      ReplaceTwice(old(fring), k, left, r, right);
      Take(r, i + |left|, k + |left|);
    }

    /** SliceBlock: cut [start, start + size) out of the free block `p`. */
    method SliceBlock(p: MemBlock, start: int, size: int, ghost i: nat, ghost k: nat) returns (r: MemBlock)
      requires Wired()
      requires 0 < i < |ring| && ring[i] == p && 0 < k < |fring| && fring[k] == p
      requires p.free && p.ofs <= start && 0 < size && start + size <= p.ofs + p.size
      modifies this`ring, this`fring, this`repr, repr
      ensures Wired() && head == old(head) && old(repr) <= repr && forall b :: b in repr && b !in old(repr) ==> fresh(b)
      ensures View() == Slice(old(View()), i - 1, k - 1, start, size)
      ensures r in repr && r != head && r.ofs == start && r.size == size && !r.free && !r.reserved
      ensures Spared(old(repr), p)
    {
      ghost var wasRing, wasFree, was := ring, fring, View();
      ghost var left, right;
      r, left, right := CutOut(p, start, size, i, k);
      SliceView(wasRing, wasFree, was, left, r, right, i, k, start, size);
    }

    lemma SliceView(wasRing: seq<MemBlock>, wasFree: seq<MemBlock>, was: Layout,
                    left: seq<MemBlock>, r: MemBlock, right: seq<MemBlock>, i: nat, k: nat, start: int, size: int)
      requires |was.cells| == |wasRing| - 1 && |was.freeList| == |wasFree| - 1
      requires 0 < i < |wasRing| && 0 < k < |wasFree|
      requires ring == Replace(wasRing, i, left + [r] + right) && fring == Replace(wasFree, k, left + right)
      requires forall a :: 0 < a < |wasRing| && a != i ==>
        was.cells[a - 1] == Cell(wasRing[a].ofs, wasRing[a].size, wasRing[a].free)
      requires forall a :: 0 < a < |wasFree| && a != k ==> was.freeList[a - 1] == wasFree[a].ofs
      requires Pieces(left, r, right, was.cells[i - 1].ofs, was.cells[i - 1].End(), start, size, false) == true
      ensures View() == Slice(was, i - 1, k - 1, start, size)
    {
      var want := Slice(was, i - 1, k - 1, start, size);
      assert Cells() == want.cells;
      assert FreeOffsets() == want.freeList;
    }

    /** The free-list entry `k` is the block the layout finds at its offset. */
    lemma FreeEntry(lo: int, hi: int, k: nat) returns (i: nat)
      requires Wired() && Tiles(View().cells, lo, hi) && 0 < k < |fring|
      ensures 0 < i < |ring| && ring[i] == fring[k] && Find(View().cells, fring[k].ofs) == i - 1
    {
      assert fring[k] in ring && fring[k] != head;
      i :| 0 <= i < |ring| && ring[i] == fring[k];
      FindHits(View().cells, lo, hi, i - 1);
    }

    /** The search loop of mmAllocMem: the first free-list block that fits. */
    method FindFit(size: int, align2: nat, startSearch: int, ghost lo: int, ghost hi: int)
      returns (p: MemBlock, start: int, ghost i: nat, ghost k: nat)
      requires Wired() && Valid(View(), lo, hi)
      ensures 1 <= k <= |fring| && FirstFit(View(), size, align2, startSearch, 0) == k - 1
      ensures p == head <==> k == |fring|
      ensures p != head ==>
        && 0 < i < |ring| && ring[i] == p == fring[k] && Find(View().cells, p.ofs) == i - 1
        && start == StartIn(View().cells[i - 1], align2, startSearch)
    {
      var mask := Pow2(align2) - 1;
      p, start, i, k := head.nextFree, 0, 0, 1;
      ghost var h := View();
      while p != head
        invariant 1 <= k <= |fring| && p == fring[if k == |fring| then 0 else k]
        invariant FirstFit(h, size, align2, startSearch, 0) == FirstFit(h, size, align2, startSearch, k - 1)
        decreases |fring| - k
      {
        i := FreeEntry(lo, hi, k);
        start := AlignUp(p.ofs, mask + 1);
        if start < startSearch {
          start := startSearch;
        }
        assert h.freeList[k - 1] == p.ofs && h.cells[i - 1] == Cell(p.ofs, p.size, p.free);
        if start + size <= p.ofs + p.size {
          return;
        }
        assert p.nextFree == fring[After(|fring|, k)];
        p := p.nextFree;
        k := k + 1;
      }
    }

    /** mmAllocMem on a heap that exists. */
    method AllocMem(size: int, align2: int, startSearch: int, ghost lo: int, ghost hi: int) returns (r: MemBlock?)
      requires Wired() && Valid(View(), lo, hi)
      modifies this`ring, this`fring, this`repr, repr
      ensures Wired() && head == old(head) && old(repr) <= repr && forall b :: b in repr && b !in old(repr) ==> fresh(b)
      ensures r == null <==> Alloc(old(View()), size, align2, startSearch).None?
      ensures r == null ==> View() == old(View())
      ensures r != null ==>
        && (View(), r.ofs) == Alloc(old(View()), size, align2, startSearch).value
        && r in repr && r != head && r.size == size && !r.free && !r.reserved
      ensures forall b :: b in old(repr) && !old(b.free) ==> b.ofs == old(b.ofs) && b.size == old(b.size) && !b.free
    {
      if align2 < 0 || size <= 0 {
        return null;
      }
      var p, start;
      ghost var i, k;
      p, start, i, k := FindFit(size, align2, startSearch, lo, hi);
      if p == head {
        return null;
      }
      FreeListFound(View(), lo, hi);
      AlignUpIsLeast(p.ofs, Pow2(align2));
      assert View().freeList[k - 1] == p.ofs;
      assert p.free;
      r := SliceBlock(p, start, size, i, k);
    }

    /** Take `q`, the block behind `p`, out of both rings. */
    method UnlinkBoth(p: MemBlock, q: MemBlock, ghost i: nat, ghost k: nat)
      requires Rings()
      requires 0 < i && i + 1 < |ring| && ring[i] == p && ring[i + 1] == q && 0 < k < |fring| && fring[k] == q
      modifies this`ring, this`fring, this`repr, repr`next, repr`prev, repr`nextFree, repr`prevFree
      ensures Rings() && head == old(head) && repr == old(repr) - {q}
      ensures ring == RemoveAt(old(ring), i + 1) && fring == RemoveAt(old(fring), k)
    {
      RemoveKeeps(ring, i + 1);
      RemoveKeeps(fring, k);
      UnlinkNext(p, q, ring, i, repr);
      FreeUnlink(q, fring, k, repr);
      ring, fring, repr := RemoveAt(ring, i + 1), RemoveAt(fring, k), repr - {q};
      forall b | b in repr ensures b in ring {
        assert b in old(ring);
      }
    }

    /** Where a free block sits in the free ring. */
    lemma FreePlace(lo: int, hi: int, i: nat) returns (k: nat)
      requires Wired() && Loose(View(), lo, hi) && 0 < i < |ring| && ring[i].free
      ensures 0 < k < |fring| && fring[k] == ring[i]
    {
      var h := View();
      assert h.cells[i - 1].ofs == ring[i].ofs && h.cells[i - 1].free;
      assert FreeAt(h.cells, ring[i].ofs);
      k :| 0 <= k < |h.freeList| && h.freeList[k] == ring[i].ofs;
      k := k + 1;
      var j := FreeEntry(lo, hi, k);
      FindHits(h.cells, lo, hi, i - 1);
    }

    /** `p` takes over its right neighbour `q`, which leaves both rings. */
    method Absorb(p: MemBlock, q: MemBlock, ghost i: nat, ghost k: nat)
      requires Wired()
      requires 0 < i && i + 1 < |ring| && ring[i] == p && ring[i + 1] == q && 0 < k < |fring| && fring[k] == q
      modifies this`ring, this`fring, this`repr, repr`next, repr`prev, repr`nextFree, repr`prevFree, p`size
      ensures Wired() && head == old(head) && repr == old(repr) - {q}
      ensures ring == RemoveAt(old(ring), i + 1) && fring == RemoveAt(old(fring), k)
      ensures p.size == old(p.size + q.size) && Spared(old(repr), p)
    {
      p.size := p.size + q.size;
      UnlinkBoth(p, q, i, k);
    }

    /** Absorb with its effect on the layout. */
    method AbsorbNext(p: MemBlock, q: MemBlock, ghost i: nat, ghost k: nat)
      requires Wired() && Distinct(View().freeList) && p.free && q.free
      requires 0 < i && i + 1 < |ring| && ring[i] == p && ring[i + 1] == q && 0 < k < |fring| && fring[k] == q
      modifies this`ring, this`fring, this`repr, repr`next, repr`prev, repr`nextFree, repr`prevFree, p`size
      ensures Wired() && head == old(head) && repr == old(repr) - {q}
      ensures ring == RemoveAt(old(ring), i + 1)
      ensures View() == Join(old(View()), i - 1)
      ensures Spared(old(repr), p)
    {
      ghost var wasRing, wasFree, was := ring, fring, View();
      Absorb(p, q, i, k);
      JoinView(wasRing, wasFree, was, i, k);
    }

    /** Join2Blocks on the block at position `i`. */
    method Join2Blocks(p: MemBlock, ghost i: nat, ghost lo: int, ghost hi: int)
      requires Wired() && Loose(View(), lo, hi) && 0 < i < |ring| && ring[i] == p
      modifies this`ring, this`fring, this`repr, repr
      ensures Wired() && head == old(head)
      ensures repr <= old(repr) && forall b :: b in old(repr) - repr ==> old(b.free)
      ensures i < |ring| && ring[..i + 1] == old(ring)[..i + 1]
      ensures View() == Join(old(View()), i - 1)
      ensures Spared(old(repr), p) && p.free == old(p.free) && p.ofs == old(p.ofs)
      ensures !old(p.free) ==> p.size == old(p.size)
    {
      Neighbours(i);
      if p.free && p.next.free {
        var q := p.next;
        ghost var k := FreePlace(lo, hi, i + 1);
        AbsorbNext(p, q, i, k);
      }
    }

    lemma Neighbours(i: nat)
      requires Wired() && 0 < i < |ring|
      ensures ring[i].prev == ring[i - 1] && ring[i].next == ring[After(|ring|, i)]
    {
      assert ring[After(|ring|, i - 1)] == ring[i];
    }

    lemma JoinView(wasRing: seq<MemBlock>, wasFree: seq<MemBlock>, was: Layout, i: nat, k: nat)
      requires |was.cells| == |wasRing| - 1 && |was.freeList| == |wasFree| - 1 && Distinct(was.freeList)
      requires 0 < i && i + 1 < |wasRing| && 0 < k < |wasFree|
      requires ring == RemoveAt(wasRing, i + 1) && fring == RemoveAt(wasFree, k)
      requires forall a :: 0 < a < |wasRing| && a != i && a != i + 1 ==>
        was.cells[a - 1] == Cell(wasRing[a].ofs, wasRing[a].size, wasRing[a].free)
      requires was.cells[i - 1].free && was.cells[i].free && was.freeList[k - 1] == was.cells[i].ofs
      requires Cell(wasRing[i].ofs, wasRing[i].size, wasRing[i].free)
        == Cell(was.cells[i - 1].ofs, was.cells[i - 1].size + was.cells[i].size, true)
      requires forall a :: 0 < a < |wasFree| ==> was.freeList[a - 1] == wasFree[a].ofs
      ensures View() == Join(was, i - 1)
    {
      var want := Join(was, i - 1);
      WithoutAt(was.freeList, k - 1);
      assert Cells() == want.cells;
      assert FreeOffsets() == want.freeList;
    }

    /** Mark `b` free and put it first in the free ring. */
    method ReleaseBlock(b: MemBlock, ghost i: nat)
      requires Rings() && 0 < i < |ring| && ring[i] == b && b !in fring
      modifies this`fring, repr`nextFree, repr`prevFree, b`free
      ensures Rings() && b.free
      ensures View() == Release(old(View()), i - 1)
    {
      ghost var want := Release(View(), i - 1);
      b.free := true;
      FreeLinkAfter(head, b, fring, 0, repr);
      fring := InsertAfter(fring, 0, b);
      assert Cells() == want.cells;
      assert FreeOffsets() == want.freeList;
    }

    /** Blocks in use other than `b` are still there and unchanged. */
    twostate predicate UsedKept(was: set<MemBlock>, b: MemBlock)
      reads this, was
    {
      forall c :: c in was && c != b && !old(c.free) ==>
        c in repr && c.ofs == old(c.ofs) && c.size == old(c.size) && !c.free
    }

    /** Release the used block `b` at position `i` and join it with its right neighbour. */
    method ReleaseRight(b: MemBlock, ghost i: nat, ghost lo: int, ghost hi: int)
      requires Wired() && Valid(View(), lo, hi)
      requires 0 < i < |ring| && ring[i] == b && !b.free
      modifies this`ring, this`fring, this`repr, repr
      ensures Wired() && head == old(head) && repr <= old(repr)
      ensures i < |ring| && ring[i] == b && ring[i - 1] == old(ring)[i - 1]
      ensures View() == Join(Release(old(View()), i - 1), i - 1)
      ensures UsedKept(old(repr), b)
    {
      UsedNotListed(b, i, lo, hi);
      ReleaseLoose(View(), lo, hi, i - 1);
      ReleaseBlock(b, i);
      Join2Blocks(b, i, lo, hi);
      assert ring[i] == ring[..i + 1][i] && ring[i - 1] == ring[..i + 1][i - 1];
    }

    /** The same with both neighbours. */
    method FreeUsed(b: MemBlock, ghost i: nat, ghost lo: int, ghost hi: int)
      requires Wired() && Valid(View(), lo, hi)
      requires 0 < i < |ring| && ring[i] == b && !b.free
      modifies this`ring, this`fring, this`repr, repr
      ensures Wired() && head == old(head) && repr <= old(repr)
      ensures View() == FreeIndex(old(View()), i - 1)
      ensures UsedKept(old(repr), b)
    {
      ReleaseLoose(View(), lo, hi, i - 1);
      JoinLoose(Release(View(), i - 1), lo, hi, i - 1);
      ReleaseRight(b, i, lo, hi);
      Neighbours(i);
      var prev := b.prev;
      if prev != head {
        Join2Blocks(prev, i - 1, lo, hi);
      }
    }

    /** mmFreeMem: 0 when the block was released (or is NULL), -1 when it is free or reserved. */
    method FreeMem(b: MemBlock?, ghost lo: int, ghost hi: int) returns (code: int)
      requires Wired() && Valid(View(), lo, hi)
      requires b != null ==> b in repr && b != head
      modifies this`ring, this`fring, this`repr, repr
      ensures Wired() && head == old(head) && repr <= old(repr)
      ensures code == if b != null && old(b.free || b.reserved) then -1 else 0
      ensures b == null || code == -1 ==> View() == old(View())
      ensures b != null && code == 0 ==> View() == Free(old(View()), old(b.ofs))
      ensures forall c :: c in old(repr) && c != b && !old(c.free) ==>
        c in repr && c.ofs == old(c.ofs) && c.size == old(c.size) && !c.free
    {
      if b == null {
        return 0;
      }
      if b.free || b.reserved {
        return -1;
      }
      ghost var i := Place(b);
      FindHits(View().cells, lo, hi, i - 1);
      FreeUsed(b, i, lo, hi);
      code := 0;
    }

    lemma Place(b: MemBlock) returns (i: nat)
      requires Wired() && b in repr && b != head
      ensures 0 < i < |ring| && ring[i] == b
    {
      assert b in ring;
      i :| 0 <= i < |ring| && ring[i] == b;
    }

    lemma UsedNotListed(b: MemBlock, i: nat, lo: int, hi: int)
      requires Wired() && Valid(View(), lo, hi) && 0 < i < |ring| && ring[i] == b && !b.free
      ensures b !in fring
    {
      FreeListFound(View(), lo, hi);
      forall k | 0 < k < |fring| ensures fring[k] != b {
        assert View().freeList[k - 1] in View().freeList;
        var j := FreeEntry(lo, hi, k);
      }
    }
  }

  lemma RemoveKeeps(s: seq<MemBlock>, k: nat)
    requires NoDup(s) && k < |s|
    ensures forall b :: b in RemoveAt(s, k) <==> b in s && b != s[k]
  {
    forall b | b in s && b != s[k] ensures b in RemoveAt(s, k) {
      var a :| 0 <= a < |s| && s[a] == b;
      assert RemoveAt(s, k)[if a < k then a else a - 1] == b;
    }
    forall b | b in RemoveAt(s, k) ensures b in s && b != s[k] {
      var a :| 0 <= a < |s| - 1 && RemoveAt(s, k)[a] == b;
      assert s[if a < k then a else a + 1] == b;
    }
  }

  lemma {:induction false} WithoutAt(s: seq<int>, k: nat)
    requires Distinct(s) && k < |s|
    ensures Without(s, s[k]) == RemoveAt(s, k)
  {
    if k > 0 {
      WithoutAt(s[1..], k - 1);
      assert s[1..][k - 1] == s[k];
      assert RemoveAt(s, k) == [s[0]] + RemoveAt(s[1..], k - 1);
    } else {
      assert s[0] !in s[1..];
      assert RemoveAt(s, 0) == s[1..];
    }
  }
}
