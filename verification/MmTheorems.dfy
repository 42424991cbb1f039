/** What every run of mmAllocMem and mmFreeMem keeps, and what they achieve. */
module MmTheorems {
  import opened MmLayout

  ghost predicate UsedIn(h: Layout, c: Cell)
  {
    c in h.cells && !c.free
  }

  lemma FreeListFound(h: Layout, lo: int, hi: int)
    requires Valid(h, lo, hi)
    ensures forall o :: o in h.freeList ==>
      Find(h.cells, o) < |h.cells| && h.cells[Find(h.cells, o)].ofs == o && h.cells[Find(h.cells, o)].free
    ensures forall i :: 0 <= i < |h.cells| && h.cells[i].free ==> h.cells[i].ofs in h.freeList
  {
    forall o | o in h.freeList
      ensures Find(h.cells, o) < |h.cells| && h.cells[Find(h.cells, o)].free
    {
      assert FreeAt(h.cells, o);
      var i :| 0 <= i < |h.cells| && h.cells[i].ofs == o && h.cells[i].free;
      FindHits(h.cells, lo, hi, i);
    }
    forall i | 0 <= i < |h.cells| && h.cells[i].free ensures h.cells[i].ofs in h.freeList {
      assert FreeAt(h.cells, h.cells[i].ofs);
    }
  }

  // ----- allocation

  /** Slicing replaces cell `i` by one to three cells over the same range. */
  lemma SliceTiles(cells: seq<Cell>, lo: int, hi: int, i: nat, start: int, size: int)
    requires Tiles(cells, lo, hi) && i < |cells|
    requires cells[i].ofs <= start && 0 < size && start + size <= cells[i].End()
    ensures Tiles(SliceCells(cells, i, start, size), lo, hi)
  {
    var c := cells[i];
    var r := SliceCells(cells, i, start, size);
    var l := if start > c.ofs then 1 else 0;
    var n := l + 1 + (if start + size < c.End() then 1 else 0);
    assert |r| == |cells| + n - 1;
    assert forall k :: 0 <= k < i ==> r[k] == cells[k];
    assert r[i + l] == Cell(start, size, false);
    assert forall k :: i + n <= k < |r| ==> r[k] == cells[k - n + 1];
    forall a, b | 0 <= a && b == a + 1 < |r| ensures r[a].End() == r[b].ofs {
      if b < i {
      } else if a >= i + n {
        assert cells[a - n + 1].End() == cells[b - n + 1].ofs;
      }
    }
  }

  lemma SliceCoalesced(cells: seq<Cell>, i: nat, start: int, size: int)
    requires Coalesced(cells) && i < |cells| && cells[i].free
    ensures Coalesced(SliceCells(cells, i, start, size))
  {
    var c := cells[i];
    var r := SliceCells(cells, i, start, size);
    var l := if start > c.ofs then 1 else 0;
    var n := l + 1 + (if start + size < c.End() then 1 else 0);
    assert forall k :: 0 <= k < i ==> r[k] == cells[k];
    assert r[i + l] == Cell(start, size, false);
    assert forall k :: i + n <= k < |r| ==> r[k] == cells[k - n + 1];
    forall a, b | 0 <= a && b == a + 1 < |r| ensures !(r[a].free && r[b].free) {
      if b < i {
      } else if a >= i + n {
        assert !(cells[a - n + 1].free && cells[b - n + 1].free);
      } else if b == i {
        assert !cells[i - 1].free;
      } else if a == i + n - 1 {
        assert !cells[i + 1].free;
      }
    }
  }

  /** Membership in the sliced list, cell by cell. */
  lemma SliceMembers(cells: seq<Cell>, lo: int, hi: int, i: nat, start: int, size: int, c: Cell)
    requires Tiles(cells, lo, hi) && i < |cells|
    ensures c in SliceCells(cells, i, start, size) <==>
      || (c in cells && c != cells[i])
      || c == Cell(start, size, false)
      || (start > cells[i].ofs && c == Cell(cells[i].ofs, start - cells[i].ofs, true))
      || (start + size < cells[i].End() && c == Cell(start + size, cells[i].End() - (start + size), true))
  {
    SplitMembers(cells, lo, hi, i, c);
  }

  lemma SplitMembers(cells: seq<Cell>, lo: int, hi: int, i: nat, c: Cell)
    requires Tiles(cells, lo, hi) && i < |cells|
    ensures c in cells && c != cells[i] <==> c in cells[..i] || c in cells[i + 1..]
  {
    AllOrdered(cells, lo, hi);
    if c in cells[..i] {
      var k :| 0 <= k < i && cells[k] == c;
    }
    if c in cells[i + 1..] {
      var k :| i < k < |cells| && cells[k] == c;
    }
    if c in cells && c != cells[i] {
      var k :| 0 <= k < |cells| && cells[k] == c;
      if k < i { assert cells[..i][k] == c; } else { assert cells[i + 1..][k - i - 1] == c; }
    }
  }

  lemma SliceFreeMembers(fl: seq<int>, k: nat, c: Cell, start: int, size: int, o: int)
    requires Distinct(fl) && k < |fl|
    ensures o in SliceFree(fl, k, c, start, size) <==>
      || (o in fl && o != fl[k])
      || (start > c.ofs && o == c.ofs)
      || (start + size < c.End() && o == start + size)
  {
    assert fl == fl[..k] + [fl[k]] + fl[k + 1..];
    assert fl[k] !in fl[..k] && fl[k] !in fl[k + 1..];
  }

  lemma SliceFreeDistinct(fl: seq<int>, k: nat, c: Cell, start: int, size: int)
    requires Distinct(fl) && k < |fl| && fl[k] == c.ofs && start + size > c.ofs
    requires start + size < c.End() ==> start + size !in fl
    ensures Distinct(SliceFree(fl, k, c, start, size))
  {
    var l := if start > c.ofs then 1 else 0;
    var n := l + (if start + size < c.End() then 1 else 0);
    var r := SliceFree(fl, k, c, start, size);
    assert forall a :: 0 <= a < k ==> r[a] == fl[a];
    assert forall a :: k + n <= a < |r| ==> r[a] == fl[a - n + 1];
    forall a, b | 0 <= a < b < |r| ensures r[a] != r[b] {
      if a < k && b >= k + n {
        assert r[a] == fl[a] && r[b] == fl[b - n + 1];
      } else if k <= a < k + n && b >= k + n {
        assert fl[b - n + 1] in fl && fl[k] != fl[b - n + 1];
      } else if a < k <= b < k + n {
        assert fl[a] in fl && fl[k] != fl[a];
      }
    }
  }

  /** An offset strictly inside a cell is no cell's offset. */
  lemma InteriorIsNoOffset(cells: seq<Cell>, lo: int, hi: int, i: nat, a: int)
    requires Tiles(cells, lo, hi) && i < |cells| && cells[i].ofs < a < cells[i].End()
    ensures forall k :: 0 <= k < |cells| ==> cells[k].ofs != a
  {
    AllOrdered(cells, lo, hi);
    forall k | 0 <= k < |cells| ensures cells[k].ofs != a {
      if k < i {
        assert cells[k].End() <= cells[i].ofs;
      } else if k > i {
        assert cells[i].End() <= cells[k].ofs;
      }
    }
  }

  /** What a successful mmAllocMem did. */
  lemma AllocFacts(h: Layout, lo: int, hi: int, size: int, align2: int, startSearch: int)
    returns (k: nat, i: nat, start: int)
    requires Valid(h, lo, hi)
    requires Alloc(h, size, align2, startSearch).Some?
    ensures align2 >= 0 && size > 0 && k < |h.freeList| && i < |h.cells|
    ensures h.cells[i].free && h.cells[i].ofs == h.freeList[k] && start == StartIn(h.cells[i], align2, startSearch)
    ensures h.cells[i].ofs <= start && start + size <= h.cells[i].End()
    ensures Alloc(h, size, align2, startSearch).value
      == (Slice(h, i, k, start, size), start)
    ensures k == FirstFit(h, size, align2, startSearch, 0)
  {
    FreeListFound(h, lo, hi);
    k := FirstFit(h, size, align2, startSearch, 0);
    i := Find(h.cells, h.freeList[k]);
    start := StartIn(h.cells[i], align2, startSearch);
    AlignUpIsLeast(h.cells[i].ofs, Pow2(align2));
  }

  /** mmAllocMem keeps the heap well formed, takes exactly the requested range
      out of the first free-list block that fits, and changes no other
      allocated block. */
  lemma AllocKeepsValid(h: Layout, lo: int, hi: int, size: int, align2: int, startSearch: int)
    requires Valid(h, lo, hi)
    requires Alloc(h, size, align2, startSearch).Some?
    ensures var (g, start) := Alloc(h, size, align2, startSearch).value;
      && Valid(g, lo, hi)
      && (forall c :: UsedIn(g, c) <==> UsedIn(h, c) || c == Cell(start, size, false))
      && !UsedIn(h, Cell(start, size, false))
      && (startSearch <= lo && align2 >= 0 ==> start % Pow2(align2) == 0)
      && start >= startSearch
  {
    var k, i, start := AllocFacts(h, lo, hi, size, align2, startSearch);
    var d := h.cells[i];
    var g := Alloc(h, size, align2, startSearch).value.0;
    SliceTiles(h.cells, lo, hi, i, start, size);
    SliceCoalesced(h.cells, i, start, size);
    AllOrdered(h.cells, lo, hi);
    if start + size < d.End() {
      InteriorIsNoOffset(h.cells, lo, hi, i, start + size);
    }
    SliceFreeDistinct(h.freeList, k, d, start, size);
    forall o ensures o in g.freeList <==> FreeAt(g.cells, o) {
      SliceFreeMembers(h.freeList, k, d, start, size, o);
      AllocFreeAt(h, lo, hi, i, start, size, o);
    }
    forall c ensures UsedIn(g, c) <==> UsedIn(h, c) || c == Cell(start, size, false) {
      SliceMembers(h.cells, lo, hi, i, start, size, c);
    }
    if UsedIn(h, Cell(start, size, false)) {
      CellsDisjoint(h.cells, lo, hi, d, Cell(start, size, false));
    }
    AlignUpIsLeast(d.ofs, Pow2(align2));
  }

  /** The offsets of free cells after a slice. */
  lemma AllocFreeAt(h: Layout, lo: int, hi: int, i: nat, start: int, size: int, o: int)
    requires Tiles(h.cells, lo, hi) && i < |h.cells| && h.cells[i].free
    ensures FreeAt(SliceCells(h.cells, i, start, size), o) <==>
      || (FreeAt(h.cells, o) && o != h.cells[i].ofs)
      || (start > h.cells[i].ofs && o == h.cells[i].ofs)
      || (start + size < h.cells[i].End() && o == start + size)
  {
    var r := SliceCells(h.cells, i, start, size);
    if FreeAt(r, o) {
      var a :| 0 <= a < |r| && r[a].ofs == o && r[a].free;
      SliceMembers(h.cells, lo, hi, i, start, size, r[a]);
      if r[a] in h.cells && r[a] != h.cells[i] {
        CellsDisjoint(h.cells, lo, hi, r[a], h.cells[i]);
        var b :| 0 <= b < |h.cells| && h.cells[b] == r[a];
        assert FreeAt(h.cells, o);
      }
    }
    if
      || (FreeAt(h.cells, o) && o != h.cells[i].ofs)
      || (start > h.cells[i].ofs && o == h.cells[i].ofs)
      || (start + size < h.cells[i].End() && o == start + size)
    {
      AllocFreeAtBack(h, lo, hi, i, start, size, o);
    }
  }

  lemma AllocFreeAtBack(h: Layout, lo: int, hi: int, i: nat, start: int, size: int, o: int)
    requires Tiles(h.cells, lo, hi) && i < |h.cells|
    requires
      || (FreeAt(h.cells, o) && o != h.cells[i].ofs)
      || (start > h.cells[i].ofs && o == h.cells[i].ofs)
      || (start + size < h.cells[i].End() && o == start + size)
    ensures FreeAt(SliceCells(h.cells, i, start, size), o)
  {
    var r := SliceCells(h.cells, i, start, size);
    var c: Cell;
    if FreeAt(h.cells, o) && o != h.cells[i].ofs {
      var b :| 0 <= b < |h.cells| && h.cells[b].ofs == o && h.cells[b].free;
      c := h.cells[b];
    } else if start > h.cells[i].ofs && o == h.cells[i].ofs {
      c := Cell(o, start - o, true);
    } else {
      c := Cell(o, h.cells[i].End() - o, true);
    }
    SliceMembers(h.cells, lo, hi, i, start, size, c);
    var a :| 0 <= a < |r| && r[a] == c;
  }

  /** Some allocated block meets [s, s + size). */
  ghost predicate Blocked(h: Layout, s: int, size: int)
  {
    exists c :: UsedIn(h, c) && c.ofs < s + size && s < c.End()
  }

  /** An unblocked range lies in one free cell, because free cells never touch. */
  lemma UnblockedInOneCell(h: Layout, lo: int, hi: int, s: int, size: int) returns (k: nat)
    requires Valid(h, lo, hi) && lo <= s && s + size <= hi && size > 0 && !Blocked(h, s, size)
    ensures k < |h.cells| && h.cells[k].free && h.cells[k].ofs <= s && s + size <= h.cells[k].End()
  {
    k := Covered(h.cells, lo, hi, s);
    assert !UsedIn(h, h.cells[k]);
    if k + 1 < |h.cells| {
      assert h.cells[k].End() == h.cells[k + 1].ofs;
      assert UsedIn(h, h.cells[k + 1]);
    }
  }

  /** When the search of the free list runs off its end, no free cell fits. */
  lemma NothingFits(h: Layout, lo: int, hi: int, size: int, align2: nat, startSearch: int, i: nat)
    requires Valid(h, lo, hi)
    requires FirstFit(h, size, align2, startSearch, 0) == |h.freeList|
    requires i < |h.cells| && h.cells[i].free
    ensures !Fits(h.cells[i], size, align2, startSearch)
  {
    FreeListFound(h, lo, hi);
    FindHits(h.cells, lo, hi, i);
    var f :| 0 <= f < |h.freeList| && h.freeList[f] == h.cells[i].ofs;
  }

  /** A failing search means every aligned placement is blocked. */
  lemma NoFitIsBlocked(h: Layout, lo: int, hi: int, size: int, align2: nat, startSearch: int, s: int)
    requires Valid(h, lo, hi) && size > 0 && startSearch <= lo
    requires FirstFit(h, size, align2, startSearch, 0) == |h.freeList|
    requires lo <= s && s + size <= hi && s % Pow2(align2) == 0
    ensures Blocked(h, s, size)
  {
    if !Blocked(h, s, size) {
      var i := UnblockedInOneCell(h, lo, hi, s, size);
      CellBounds(h.cells, lo, hi, i);
      AlignUpIsLeast(h.cells[i].ofs, Pow2(align2));
      NothingFits(h, lo, hi, size, align2, startSearch, i);
    }
  }

  lemma CellBounds(cells: seq<Cell>, lo: int, hi: int, i: nat)
    requires Tiles(cells, lo, hi) && i < |cells|
    ensures lo <= cells[i].ofs && cells[i].End() <= hi
  {
    AllOrdered(cells, lo, hi);
  }

  /** The offset mmAllocMem picks is an aligned placement that nothing blocks. */
  lemma PickedIsUnblocked(h: Layout, lo: int, hi: int, size: int, align2: nat, startSearch: int) returns (start: int)
    requires Valid(h, lo, hi) && size > 0 && startSearch <= lo
    requires Alloc(h, size, align2, startSearch).Some?
    ensures lo <= start && start + size <= hi && start % Pow2(align2) == 0 && !Blocked(h, start, size)
  {
    var k, i, start' := AllocFacts(h, lo, hi, size, align2, startSearch);
    start := start';
    CellBounds(h.cells, lo, hi, i);
    AlignUpIsLeast(h.cells[i].ofs, Pow2(align2));
    forall c | UsedIn(h, c) ensures !(c.ofs < start + size && start < c.End()) {
      CellsDisjoint(h.cells, lo, hi, c, h.cells[i]);
    }
  }

  /** mmAllocMem fails exactly when no aligned placement in the aperture avoids
      the allocated blocks. */
  lemma AllocFailsIff(h: Layout, lo: int, hi: int, size: int, align2: nat, startSearch: int)
    requires Valid(h, lo, hi) && size > 0 && startSearch <= lo
    ensures Alloc(h, size, align2, startSearch).None? <==>
      forall s {:trigger Blocked(h, s, size)} ::
        lo <= s && s + size <= hi && s % Pow2(align2) == 0 ==> Blocked(h, s, size)
  {
    if Alloc(h, size, align2, startSearch).None? {
      forall s | lo <= s && s + size <= hi && s % Pow2(align2) == 0
        ensures Blocked(h, s, size)
      {
        NoFitIsBlocked(h, lo, hi, size, align2, startSearch, s);
      }
    } else {
      var start := PickedIsUnblocked(h, lo, hi, size, align2, startSearch);
      assert !Blocked(h, start, size);
    }
  }

  // ----- release

  ghost predicate PairOk(cells: seq<Cell>, a: int)
  {
    0 <= a && a + 1 < |cells| ==> !(cells[a].free && cells[a + 1].free)
  }

  /** Everything of Valid except coalescing. */
  ghost predicate Loose(h: Layout, lo: int, hi: int)
  {
    && Tiles(h.cells, lo, hi)
    && Distinct(h.freeList)
    && (forall o :: o in h.freeList <==> FreeAt(h.cells, o))
  }

  lemma ReleaseLoose(h: Layout, lo: int, hi: int, i: nat)
    requires Valid(h, lo, hi) && i < |h.cells| && !h.cells[i].free
    ensures Loose(Release(h, i), lo, hi)
    ensures forall a :: a != i && a != i - 1 ==> PairOk(Release(h, i).cells, a)
  {
    var g := Release(h, i);
    var ofs := h.cells[i].ofs;
    AllOrdered(h.cells, lo, hi);
    forall o ensures FreeAt(g.cells, o) <==> FreeAt(h.cells, o) || o == ofs {
      if FreeAt(h.cells, o) {
        var a :| 0 <= a < |h.cells| && h.cells[a].ofs == o && h.cells[a].free;
        assert g.cells[a] == h.cells[a];
      }
      if FreeAt(g.cells, o) {
        var a :| 0 <= a < |g.cells| && g.cells[a].ofs == o && g.cells[a].free;
        if a != i { assert h.cells[a] == g.cells[a]; }
      }
      assert g.cells[i].ofs == ofs && g.cells[i].free;
    }
    assert !FreeAt(h.cells, ofs);
    DistinctCons(ofs, h.freeList);
  }

  lemma JoinPairs(h: Layout, i: nat, e: int)
    requires i < |h.cells| && e < i
    requires forall a :: a != i && a != e ==> PairOk(h.cells, a)
    ensures forall a :: a != e ==> PairOk(Join(h, i).cells, a)
  {
    var g := Join(h, i);
    if g != h {
      assert forall k :: 0 <= k < i ==> g.cells[k] == h.cells[k];
      assert g.cells[i].free == h.cells[i + 1].free;
      assert forall k :: i < k < |g.cells| ==> g.cells[k] == h.cells[k + 1];
      forall a | a != e ensures PairOk(g.cells, a) {
        assert PairOk(h.cells, if a < i then a else a + 1);
      }
    }
  }

  lemma JoinLoose(h: Layout, lo: int, hi: int, i: nat)
    requires Loose(h, lo, hi) && i < |h.cells|
    ensures Loose(Join(h, i), lo, hi)
    ensures i < |Join(h, i).cells|
  {
    var g := Join(h, i);
    if g != h {
      assert h.cells[i].free && i + 1 < |h.cells| && h.cells[i + 1].free;
      var q := h.cells[i + 1];
      assert h.cells[i].End() == q.ofs;
      var m := Cell(h.cells[i].ofs, h.cells[i].size + q.size, true);
      assert forall k :: 0 <= k < i ==> g.cells[k] == h.cells[k];
      assert g.cells[i] == m;
      assert forall k :: i < k < |g.cells| ==> g.cells[k] == h.cells[k + 1];
      forall a, b | 0 <= a && b == a + 1 < |g.cells| ensures g.cells[a].End() == g.cells[b].ofs {
        if a < i {
          assert h.cells[a].End() == h.cells[b].ofs;
        } else {
          assert h.cells[a + 1].End() == h.cells[b + 1].ofs;
        }
      }
      WithoutDistinct(h.freeList, q.ofs);
      forall o ensures FreeAt(g.cells, o) <==> FreeAt(h.cells, o) && o != q.ofs {
        JoinFreeAt(h, g, lo, hi, i, o);
      }
    }
  }

  lemma JoinUsed(h: Layout, i: nat, c: Cell)
    requires i < |h.cells|
    ensures UsedIn(Join(h, i), c) <==> UsedIn(h, c)
  {
    var g := Join(h, i);
    if g != h {
      assert forall k :: 0 <= k < i ==> g.cells[k] == h.cells[k];
      assert forall k :: i < k < |g.cells| ==> g.cells[k] == h.cells[k + 1];
      if UsedIn(g, c) {
        var a :| 0 <= a < |g.cells| && g.cells[a] == c;
        assert h.cells[if a < i then a else a + 1] == c;
      }
      if UsedIn(h, c) {
        var a :| 0 <= a < |h.cells| && h.cells[a] == c;
        assert g.cells[if a < i then a else a - 1] == c;
      }
    }
  }

  lemma JoinFreeAt(h: Layout, g: Layout, lo: int, hi: int, i: nat, o: int)
    requires Tiles(h.cells, lo, hi) && i + 1 < |h.cells| && h.cells[i].free && h.cells[i + 1].free
    requires |g.cells| == |h.cells| - 1 && g.cells[i].ofs == h.cells[i].ofs && g.cells[i].free
    requires forall k :: 0 <= k < i ==> g.cells[k] == h.cells[k]
    requires forall k :: i < k < |g.cells| ==> g.cells[k] == h.cells[k + 1]
    ensures FreeAt(g.cells, o) <==> FreeAt(h.cells, o) && o != h.cells[i + 1].ofs
  {
    if FreeAt(g.cells, o) {
      var a :| 0 <= a < |g.cells| && g.cells[a].ofs == o && g.cells[a].free;
      if a <= i {
        assert h.cells[a].ofs == o && h.cells[a].free;
        Ordered(h.cells, lo, hi, a, i + 1);
      } else {
        assert h.cells[a + 1].ofs == o && h.cells[a + 1].free;
        Ordered(h.cells, lo, hi, i + 1, a + 1);
      }
    }
    if FreeAt(h.cells, o) && o != h.cells[i + 1].ofs {
      var a :| 0 <= a < |h.cells| && h.cells[a].ofs == o && h.cells[a].free;
      if a <= i {
        assert g.cells[a].ofs == o && g.cells[a].free;
      } else {
        assert g.cells[a - 1].ofs == o && g.cells[a - 1].free;
      }
    }
  }

  /** mmFreeMem keeps the heap well formed and coalesced, and takes out exactly
      the freed block from the allocated ones. */
  lemma FreeKeepsValid(h: Layout, lo: int, hi: int, i: nat)
    requires Valid(h, lo, hi) && i < |h.cells| && !h.cells[i].free
    ensures Valid(FreeIndex(h, i), lo, hi)
    ensures forall c :: UsedIn(FreeIndex(h, i), c) <==> UsedIn(h, c) && c.ofs != h.cells[i].ofs
  {
    ReleaseLoose(h, lo, hi, i);
    var r := Release(h, i);
    var j := Join(r, i);
    JoinLoose(r, lo, hi, i);
    JoinPairs(r, i, i - 1);
    if i > 0 {
      JoinLoose(j, lo, hi, i - 1);
      JoinPairs(j, i - 1, -1);
    }
    var g := FreeIndex(h, i);
    forall a, b | 0 <= a && b == a + 1 < |g.cells| ensures !(g.cells[a].free && g.cells[b].free) {
      assert PairOk(g.cells, a);
    }
    forall c ensures UsedIn(r, c) <==> UsedIn(h, c) && c.ofs != h.cells[i].ofs {
      ReleaseUsed(h, lo, hi, i, c);
    }
    forall c ensures UsedIn(g, c) <==> UsedIn(r, c) {
      JoinUsed(r, i, c);
      if i > 0 { JoinUsed(j, i - 1, c); }
    }
  }

  lemma ReleaseUsed(h: Layout, lo: int, hi: int, i: nat, c: Cell)
    requires Valid(h, lo, hi) && i < |h.cells|
    ensures UsedIn(Release(h, i), c) <==> UsedIn(h, c) && c.ofs != h.cells[i].ofs
  {
    var r := Release(h, i);
    AllOrdered(h.cells, lo, hi);
    if UsedIn(r, c) {
      var a :| 0 <= a < |r.cells| && r.cells[a] == c;
      assert h.cells[a] == c;
    }
    if UsedIn(h, c) && c.ofs != h.cells[i].ofs {
      var a :| 0 <= a < |h.cells| && h.cells[a] == c;
      assert r.cells[a] == c;
    }
  }

  /** mmFreeMem by offset. */
  lemma FreeAtKeepsValid(h: Layout, lo: int, hi: int, c: Cell)
    requires Valid(h, lo, hi) && UsedIn(h, c)
    ensures Valid(Free(h, c.ofs), lo, hi)
    ensures forall d :: UsedIn(Free(h, c.ofs), d) <==> UsedIn(h, d) && d.ofs != c.ofs
  {
    var j :| 0 <= j < |h.cells| && h.cells[j] == c;
    FindHits(h.cells, lo, hi, j);
    FreeKeepsValid(h, lo, hi, j);
  }

  /** Freeing the block just allocated restores the address-ordered layout. */
  lemma FreeUndoesAlloc(h: Layout, lo: int, hi: int, size: int, align2: int, startSearch: int)
    requires Valid(h, lo, hi)
    requires Alloc(h, size, align2, startSearch).Some?
    ensures var (g, start) := Alloc(h, size, align2, startSearch).value;
      Free(g, start).cells == h.cells
  {
    var k, i, start := AllocFacts(h, lo, hi, size, align2, startSearch);
    var g := Alloc(h, size, align2, startSearch).value.0;
    var l := if start > h.cells[i].ofs then 1 else 0;
    SliceTiles(h.cells, lo, hi, i, start, size);
    SliceUndone(h, g, i, start, size, l);
    FindHits(g.cells, lo, hi, i + l);
  }

  lemma SliceUndone(h: Layout, g: Layout, i: nat, start: int, size: int, l: nat)
    requires Coalesced(h.cells) && i < |h.cells| && h.cells[i].free
    requires h.cells[i].ofs <= start && 0 < size && start + size <= h.cells[i].End()
    requires g.cells == SliceCells(h.cells, i, start, size)
    requires l == if start > h.cells[i].ofs then 1 else 0
    ensures i + l < |g.cells| && g.cells[i + l] == Cell(start, size, false)
    ensures FreeIndex(g, i + l).cells == h.cells
  {
    SliceJoin(h, g.cells, g.freeList, i, start, size, l);
    LeftJoin(h, Join(Release(g, i + l), i + l), i, start);
  }

  lemma LeftJoin(h: Layout, j: Layout, i: nat, start: int)
    requires Coalesced(h.cells) && i < |h.cells| && h.cells[i].free && h.cells[i].ofs <= start
    requires j.cells == HalfJoined(h.cells, i, start)
    ensures start > h.cells[i].ofs ==> Join(j, i).cells == h.cells
    ensures start == h.cells[i].ofs ==> j.cells == h.cells && (i > 0 ==> Join(j, i - 1) == j)
  {
    if start == h.cells[i].ofs {
      assert j.cells == h.cells;
    } else {
      assert j.cells[i + 1] == Cell(start, h.cells[i].End() - start, true);
      assert j.cells[i + 2..] == h.cells[i + 1..];
    }
  }

  ghost function HalfJoined(cells: seq<Cell>, i: nat, start: int): seq<Cell>
    requires i < |cells|
  {
    cells[..i] + (if start > cells[i].ofs then [Cell(cells[i].ofs, start - cells[i].ofs, true)] else [])
    + [Cell(start, cells[i].End() - start, true)] + cells[i + 1..]
  }

  /** Releasing and joining the cell between `a` and `b`. */
  lemma ReleaseJoin(a: seq<Cell>, c: Cell, b: seq<Cell>, fl: seq<int>)
    ensures Join(Release(Layout(a + [c] + b, fl), |a|), |a|).cells
      == (if b != [] && b[0].free then a + [Cell(c.ofs, c.size + b[0].size, true)] + b[1..]
          else a + [Cell(c.ofs, c.size, true)] + b)
  {
    var cells := a + [c] + b;
    assert cells[|a|] == c;
    assert Release(Layout(cells, fl), |a|).cells == a + [c.(free := true)] + b;
  }

  /** The same, when what follows `c` is the rest `t` of its old cell or a used cell. */
  lemma ReleaseJoinWhole(a: seq<Cell>, c: Cell, r: seq<Cell>, t: seq<Cell>, whole: Cell, fl: seq<int>)
    requires |r| <= 1 && whole.free && whole.ofs == c.ofs
    requires r != [] ==> r[0].free && c.size + r[0].size == whole.size
    requires r == [] ==> c.size == whole.size && (t != [] ==> !t[0].free)
    ensures Join(Release(Layout(a + [c] + (r + t), fl), |a|), |a|).cells == a + [whole] + t
  {
    var b := r + t;
    ReleaseJoin(a, c, b, fl);
    if r != [] {
      assert b[0] == r[0] && b[1..] == t;
    } else {
      assert b == t;
    }
  }

  /** The right-hand join after releasing the slice. */
  lemma SliceJoin(h: Layout, cells: seq<Cell>, fl: seq<int>, i: nat, start: int, size: int, l: int)
    requires Coalesced(h.cells) && i < |h.cells| && h.cells[i].free
    requires h.cells[i].ofs <= start && 0 < size && start + size <= h.cells[i].End()
    requires cells == SliceCells(h.cells, i, start, size)
    requires l == if start > h.cells[i].ofs then 1 else 0
    ensures i + l < |cells| && cells[i + l] == Cell(start, size, false)
    ensures Join(Release(Layout(cells, fl), i + l), i + l).cells == HalfJoined(h.cells, i, start)
  {
    var d := h.cells[i];
    var a := h.cells[..i] + (if start > d.ofs then [Cell(d.ofs, start - d.ofs, true)] else []);
    var r := if start + size < d.End() then [Cell(start + size, d.End() - (start + size), true)] else [];
    var t := h.cells[i + 1..];
    var m := Cell(start, size, false);
    assert cells == a + [m] + (r + t);
    assert t != [] ==> t[0] == h.cells[i + 1];
    ReleaseJoinWhole(a, m, r, t, Cell(start, d.End() - start, true), fl);
  }

  // ----- whole runs

  datatype Op = DoAlloc(size: int, align2: int, startSearch: int) | DoFree(ofs: int)

  function Step(h: Layout, op: Op): Layout
  {
    match op
    case DoAlloc(size, align2, startSearch) =>
      var r := Alloc(h, size, align2, startSearch);
      if r.Some? then r.value.0 else h
    case DoFree(ofs) => Free(h, ofs)
  }

  function Run(h: Layout, ops: seq<Op>): Layout
    decreases |ops|
  {
    if ops == [] then h else Run(Step(h, ops[0]), ops[1..])
  }

  lemma StepKeepsValid(h: Layout, lo: int, hi: int, op: Op)
    requires Valid(h, lo, hi)
    ensures Valid(Step(h, op), lo, hi)
  {
    match op
    case DoAlloc(size, align2, startSearch) =>
      if Alloc(h, size, align2, startSearch).Some? {
        AllocKeepsValid(h, lo, hi, size, align2, startSearch);
      }
    case DoFree(ofs) =>
      var i := Find(h.cells, ofs);
      if i < |h.cells| && !h.cells[i].free {
        FreeKeepsValid(h, lo, hi, i);
      }
  }

  /** After any sequence of allocations and releases the blocks tile the
      aperture, the free list holds exactly the free blocks once each, and no
      two neighbours are both free. */
  lemma {:induction false} EveryRunValid(h: Layout, lo: int, hi: int, ops: seq<Op>)
    requires Valid(h, lo, hi)
    ensures Valid(Run(h, ops), lo, hi)
    decreases |ops|
  {
    if ops != [] {
      StepKeepsValid(h, lo, hi, ops[0]);
      EveryRunValid(Step(h, ops[0]), lo, hi, ops[1..]);
    }
  }

  /** So a heap is well-formed at every point of its life. */
  lemma EveryHeapValid(ofs: int, size: int, ops: seq<Op>)
    requires size > 0
    ensures Valid(Run(Init(ofs, size), ops), ofs, ofs + size)
  {
    InitValid(ofs, size);
    EveryRunValid(Init(ofs, size), ofs, ofs + size, ops);
  }

  /** A heap without allocated blocks is one free cell again: nothing leaks. */
  lemma EmptyIsInit(h: Layout, lo: int, hi: int)
    requires Valid(h, lo, hi)
    requires forall c :: !UsedIn(h, c)
    ensures h == Init(lo, hi - lo)
  {
    var cells := h.cells;
    assert |cells| > 1 ==> !(cells[0].free && cells[1].free);
    forall i | 0 <= i < |cells| ensures cells[i].free {
      assert !UsedIn(h, cells[i]);
    }
    assert cells[0] == Cell(lo, hi - lo, true);
    assert h.cells == [cells[0]];
    forall o ensures o in h.freeList <==> o == lo {
      assert FreeAt(cells, o) <==> o == lo;
    }
    OnlyMember(h.freeList, lo);
  }

  lemma OnlyMember(s: seq<int>, x: int)
    requires Distinct(s) && forall y :: y in s <==> y == x
    ensures s == [x]
  {
    assert |s| > 1 ==> s[0] != s[1];
    assert x in s;
    forall k | 0 <= k < |s| ensures s[k] == x {
      assert s[k] in s;
    }
  }
}
