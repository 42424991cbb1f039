/** The aperture heap of intel/mm.c as a value: the address-ordered blocks and
    the order of the free list.  A block is identified by its offset, which an
    allocated block keeps for as long as it is allocated. */
module MmLayout {

  datatype Option<+T> = None | Some(value: T)

  datatype Cell = Cell(ofs: int, size: int, free: bool)
  {
    function End(): int { ofs + size }
  }

  /** `cells` is the next/prev list, `freeList` the offsets along next_free. */
  datatype Layout = Layout(cells: seq<Cell>, freeList: seq<int>)

  // ----- arithmetic of alignment

  function Pow2(n: nat): (p: int)
    ensures p >= 1
  {
    if n == 0 then 1 else 2 * Pow2(n - 1)
  }

  /** (x + mask) & ~mask for mask == a - 1 and a a power of two. */
  function AlignUp(x: int, a: int): int
    requires a > 0
  {
    (x + a - 1) / a * a
  }

  /** AlignUp is the least multiple of `a` that is not below `x`. */
  lemma AlignUpIsLeast(x: int, a: int)
    requires a > 0
    ensures x <= AlignUp(x, a) < x + a
    ensures AlignUp(x, a) % a == 0
    ensures forall y :: y >= x && y % a == 0 ==> AlignUp(x, a) <= y
  {
    var q := (x + a - 1) / a;
    assert x + a - 1 == q * a + (x + a - 1) % a;
    MultipleMod(q, a);
    forall y | y >= x && y % a == 0
      ensures q * a <= y
    {
      var k := y / a;
      assert y == k * a && (q - 1) * a == q * a - a;
      MulCancel(q - 1, k, a);
      MulMono(q, k, a);
    }
  }

  lemma MulMono(k: int, l: int, a: int)
    requires k <= l && a > 0
    ensures k * a <= l * a
  {
  }

  lemma MulCancel(k: int, l: int, a: int)
    requires k * a < l * a && a > 0
    ensures k < l
  {
    if l <= k { MulMono(l, k, a); }
  }

  lemma MultipleMod(q: int, a: int)
    requires a > 0
    ensures (q * a) % a == 0
  {
    var r := (q * a) % a;
    var d := (q * a) / a;
    assert q * a == d * a + r;
    assert (q - d) * a == r;
    if q - d >= 1 { MulMono(1, q - d, a); }
    if q - d <= -1 { MulMono(q - d, -1, a); }
  }

  // ----- well-formed layouts

  /** The cells cover [lo, hi) in address order with no gap and no overlap. */
  predicate Tiles(cells: seq<Cell>, lo: int, hi: int)
  {
    && |cells| > 0
    && cells[0].ofs == lo
    && cells[|cells| - 1].End() == hi
    && (forall i :: 0 <= i < |cells| ==> cells[i].size > 0)
    && (forall i, j :: 0 <= i && j == i + 1 < |cells| ==> cells[i].End() == cells[j].ofs)
  }

  /** No two neighbouring cells are both free. */
  predicate Coalesced(cells: seq<Cell>)
  {
    forall i, j :: 0 <= i && j == i + 1 < |cells| ==> !(cells[i].free && cells[j].free)
  }

  predicate Distinct<T(==)>(s: seq<T>)
  {
    forall i, j :: 0 <= i < j < |s| ==> s[i] != s[j]
  }

  /** `ofs` is the offset of a free cell. */
  ghost predicate FreeAt(cells: seq<Cell>, ofs: int)
  {
    exists i :: 0 <= i < |cells| && cells[i].ofs == ofs && cells[i].free
  }

  ghost predicate Valid(h: Layout, lo: int, hi: int)
  {
    && Tiles(h.cells, lo, hi)
    && Coalesced(h.cells)
    && Distinct(h.freeList)
    && (forall o :: o in h.freeList <==> FreeAt(h.cells, o))
  }

  /** The cell sizes are positive, so offsets grow along the list. */
  lemma {:induction false} Ordered(cells: seq<Cell>, lo: int, hi: int, i: int, j: int)
    requires Tiles(cells, lo, hi) && 0 <= i < j < |cells|
    ensures cells[i].End() <= cells[j].ofs
    decreases j
  {
    if i + 1 < j {
      Ordered(cells, lo, hi, i, j - 1);
      assert cells[j - 1].End() == cells[j].ofs;
    }
  }

  lemma AllOrdered(cells: seq<Cell>, lo: int, hi: int)
    requires Tiles(cells, lo, hi)
    ensures forall i, j :: 0 <= i < j < |cells| ==> cells[i].End() <= cells[j].ofs
    ensures forall i :: 0 <= i < |cells| ==> lo <= cells[i].ofs && cells[i].End() <= hi
  {
    forall i, j | 0 <= i < j < |cells| ensures cells[i].End() <= cells[j].ofs {
      Ordered(cells, lo, hi, i, j);
    }
  }

  /** Distinct cells are disjoint ranges inside the aperture. */
  lemma CellsDisjoint(cells: seq<Cell>, lo: int, hi: int, c: Cell, d: Cell)
    requires Tiles(cells, lo, hi) && c in cells && d in cells && c != d
    ensures c.End() <= d.ofs || d.End() <= c.ofs
    ensures c.ofs != d.ofs
    ensures lo <= c.ofs < c.End() <= hi
  {
    AllOrdered(cells, lo, hi);
  }

  /** Every address of the aperture lies in a cell. */
  lemma {:induction false} Covered(cells: seq<Cell>, lo: int, hi: int, a: int) returns (k: nat)
    requires Tiles(cells, lo, hi) && lo <= a < hi
    ensures k < |cells| && cells[k].ofs <= a < cells[k].End()
  {
    k := 0;
    while cells[k].End() <= a
      invariant k < |cells| && cells[k].ofs <= a
      decreases |cells| - k
    {
      if k + 1 < |cells| {
        assert cells[k].End() == cells[k + 1].ofs;
      }
      k := k + 1;
    }
  }

  // ----- look-up

  /** Index of the cell at `ofs`, or |cells| when there is none (mmFindBlock). */
  function Find(cells: seq<Cell>, ofs: int): (k: nat)
    ensures k <= |cells|
    ensures k < |cells| ==> cells[k].ofs == ofs
    ensures forall i :: 0 <= i < k ==> cells[i].ofs != ofs
  {
    if cells == [] then 0
    else if cells[0].ofs == ofs then 0
    else
      var k := Find(cells[1..], ofs);
      assert forall i :: 0 <= i < k + 1 ==> cells[i].ofs != ofs by {
        assert forall i :: 1 <= i < k + 1 ==> cells[i] == cells[1..][i - 1];
      }
      k + 1
  }

  lemma FindHits(cells: seq<Cell>, lo: int, hi: int, i: nat)
    requires Tiles(cells, lo, hi) && i < |cells|
    ensures Find(cells, cells[i].ofs) == i
  {
    AllOrdered(cells, lo, hi);
    assert forall j :: 0 <= j < i ==> cells[j].ofs != cells[i].ofs;
  }

  // ----- mmAllocMem

  /** First offset of the request inside a free cell. */
  function StartIn(c: Cell, align2: nat, startSearch: int): int
  {
    var s := AlignUp(c.ofs, Pow2(align2));
    if s < startSearch then startSearch else s
  }

  predicate Fits(c: Cell, size: int, align2: nat, startSearch: int)
  {
    StartIn(c, align2, startSearch) + size <= c.End()
  }

  /** The request fits into the cell at offset `o`. */
  predicate FitsAt(cells: seq<Cell>, o: int, size: int, align2: nat, startSearch: int)
  {
    var i := Find(cells, o);
    i < |cells| && Fits(cells[i], size, align2, startSearch)
  }

  /** Position in the free list, from `from` on, of the first cell that fits; |freeList| if none does. */
  function FirstFit(h: Layout, size: int, align2: nat, startSearch: int, from: nat): (k: nat)
    requires from <= |h.freeList|
    ensures from <= k <= |h.freeList|
    ensures k < |h.freeList| ==> FitsAt(h.cells, h.freeList[k], size, align2, startSearch)
    ensures forall i :: from <= i < k ==> !FitsAt(h.cells, h.freeList[i], size, align2, startSearch)
    decreases |h.freeList| - from
  {
    if from == |h.freeList| || FitsAt(h.cells, h.freeList[from], size, align2, startSearch) then from
    else FirstFit(h, size, align2, startSearch, from + 1)
  }

  /** SliceBlock on the address-ordered list. */
  function SliceCells(cells: seq<Cell>, i: nat, start: int, size: int): seq<Cell>
    requires i < |cells|
  {
    var c := cells[i];
    cells[..i]
    + (if start > c.ofs then [Cell(c.ofs, start - c.ofs, true)] else [])
    + [Cell(start, size, false)]
    + (if start + size < c.End() then [Cell(start + size, c.End() - (start + size), true)] else [])
    + cells[i + 1..]
  }

  /** SliceBlock on the free list, where the sliced cell is at position `k`. */
  function SliceFree(freeList: seq<int>, k: nat, c: Cell, start: int, size: int): seq<int>
    requires k < |freeList|
  {
    freeList[..k]
    + (if start > c.ofs then [c.ofs] else [])
    + (if start + size < c.End() then [start + size] else [])
    + freeList[k + 1..]
  }

  /** SliceBlock on cell `i`, which is at position `k` of the free list. */
  function Slice(h: Layout, i: nat, k: nat, start: int, size: int): Layout
    requires i < |h.cells| && k < |h.freeList|
  {
    Layout(SliceCells(h.cells, i, start, size), SliceFree(h.freeList, k, h.cells[i], start, size))
  }

  /** The layout and offset mmAllocMem produces, or None for its NULL result. */
  function Alloc(h: Layout, size: int, align2: int, startSearch: int): Option<(Layout, int)>
  {
    if align2 < 0 || size <= 0 then None
    else
      var k := FirstFit(h, size, align2, startSearch, 0);
      if k == |h.freeList| then None
      else
        var i := Find(h.cells, h.freeList[k]);
        var start := StartIn(h.cells[i], align2, startSearch);
        Some((Slice(h, i, k, start, size), start))
  }

  // ----- mmFreeMem

  function Without<T(==,!new)>(s: seq<T>, x: T): (r: seq<T>)
    ensures x !in r
    ensures forall y :: y != x ==> (y in s <==> y in r)
    ensures x !in s ==> r == s
    ensures |r| <= |s|
  {
    if s == [] then []
    else if s[0] == x then Without(s[1..], x)
    else [s[0]] + Without(s[1..], x)
  }

  lemma {:induction false} WithoutDistinct<T(!new)>(s: seq<T>, x: T)
    requires Distinct(s)
    ensures Distinct(Without(s, x))
    ensures x in s ==> |Without(s, x)| == |s| - 1
  {
    if s != [] {
      WithoutDistinct(s[1..], x);
      assert s[0] !in s[1..];
      if s[0] != x {
        DistinctCons(s[0], Without(s[1..], x));
      }
    }
  }

  lemma DistinctCons<T(!new)>(x: T, s: seq<T>)
    requires x !in s && Distinct(s)
    ensures Distinct([x] + s)
  {
    var t := [x] + s;
    forall i, j | 0 <= i < j < |t| ensures t[i] != t[j] {
      assert t[j] == s[j - 1] && s[j - 1] in s;
    }
  }

  /** The list with the element at position `k` taken out. */
  function RemoveAt<T>(s: seq<T>, k: nat): seq<T>
    requires k < |s|
  {
    s[..k] + s[k + 1..]
  }

  /** Join2Blocks on cell `i`: absorb the right neighbour when both are free. */
  function Join(h: Layout, i: nat): Layout
    requires i < |h.cells|
  {
    if h.cells[i].free && i + 1 < |h.cells| && h.cells[i + 1].free then
      var c := h.cells[i];
      var q := h.cells[i + 1];
      Layout(RemoveAt(h.cells[i := Cell(c.ofs, c.size + q.size, true)], i + 1), Without(h.freeList, q.ofs))
    else h
  }

  /** The freed cell before any joining: marked free, at the head of the free list. */
  function Release(h: Layout, i: nat): Layout
    requires i < |h.cells|
  {
    Layout(h.cells[i := h.cells[i].(free := true)], [h.cells[i].ofs] + h.freeList)
  }

  /** mmFreeMem on the allocated cell at index `i`. */
  function FreeIndex(h: Layout, i: nat): Layout
    requires i < |h.cells|
  {
    var j := Join(Release(h, i), i);
    if i > 0 then Join(j, i - 1) else j
  }

  /** mmFreeMem on the block at `ofs`; a block that is already free is left alone. */
  function Free(h: Layout, ofs: int): Layout
  {
    var i := Find(h.cells, ofs);
    if i < |h.cells| && !h.cells[i].free then FreeIndex(h, i) else h
  }

  /** mmInit for a positive size. */
  function Init(ofs: int, size: int): Layout
  {
    Layout([Cell(ofs, size, true)], [ofs])
  }

  lemma InitValid(ofs: int, size: int)
    requires size > 0
    ensures Valid(Init(ofs, size), ofs, ofs + size)
  {
    var h := Init(ofs, size);
    assert h.cells[0].ofs == ofs && h.cells[0].free;
  }
}
