/** The mip trees of radeon/radeon_surface.c: what the init functions store for their
    levels and where they put them, across the fallback from 2D to 1D tiling and from
    the depth tree to the stencil tree. */
module SurfaceTrees {
  import opened MmLayout
  import opened Arithmetic
  import opened SurfaceMath
  import opened Surface

  const EINVAL: int := 22

  // ----- disjoint levels

  /** Levels `from`..`to` lie one behind the other, from `start` on. */
  ghost predicate Chain(ls: seq<Level>, from: nat, to: nat, start: int, arraySize: nat)
  {
    && from <= to <= |ls|
    && (forall i :: from <= i < to ==> Sized(ls[i], arraySize))
    && (forall i {:trigger Floor(ls, from, i, start, arraySize)} :: from <= i < to ==>
        ls[i].offset >= Floor(ls, from, i, start, arraySize))
  }

  /** Where level `i` may begin. */
  ghost function Floor(ls: seq<Level>, from: nat, i: nat, start: int, arraySize: nat): int
    requires from <= i <= |ls|
  {
    if i == from then start else ls[i - 1].End(arraySize)
  }

  /** No level is empty. */
  ghost predicate Filled(ls: seq<Level>, from: nat, to: nat, arraySize: nat)
    requires to <= |ls|
  {
    forall i :: from <= i < to ==> ls[i].End(arraySize) > ls[i].offset
  }

  /** The first `n` levels are untouched. */
  ghost predicate Kept(ms: seq<Level>, ls: seq<Level>, n: nat)
  {
    n <= |ms| == |ls| && forall k :: 0 <= k < n ==> ms[k] == ls[k]
  }

  /** The levels of a tree are disjoint byte ranges in increasing order, none before `start`. */
  lemma {:induction false} LevelsDisjoint(ls: seq<Level>, from: nat, to: nat, start: int, arraySize: nat, i: nat,
      j: nat)
    requires Chain(ls, from, to, start, arraySize) && from <= i <= j < to
    ensures i < j ==> ls[i].End(arraySize) <= ls[j].offset
    ensures start <= ls[i].offset <= ls[i].End(arraySize) <= ls[j].End(arraySize)
    decreases j
  {
    assert ls[j].offset >= Floor(ls, from, j, start, arraySize) && Sized(ls[j], arraySize);
    if i < j {
      LevelsDisjoint(ls, from, to, start, arraySize, i, j - 1);
    } else if from < i {
      LevelsDisjoint(ls, from, to, start, arraySize, from, i - 1);
    }
  }

  /** A level with bytes in each of its slices is not empty. */
  lemma SliceFills(l: Level, arraySize: nat)
    requires l.slice >= 1 && l.nblkZ >= 1 && arraySize >= 1
    ensures l.End(arraySize) > l.offset && Sized(l, arraySize)
  {
    MulPositive(l.slice, l.nblkZ);
    MulPositive(l.slice * l.nblkZ, arraySize);
  }

  // ----- one level, with the facts the loops need

  /** A level at `offset` that takes at least one byte. */
  ghost predicate Solid(l: Level, offset: int, arraySize: nat)
  {
    l.offset == offset && Sized(l, arraySize) && l.End(arraySize) > offset
  }

  lemma MinifySolid(s: Surf, mode: Mode, bpe: nat, level: nat, xalign: nat, yalign: nat, offset: int)
    requires Proper(s) && bpe >= 1 && xalign >= 1 && yalign >= 1
    ensures var r := Minify(s, mode, bpe, level, xalign, yalign, 1, offset);
      r.Some? ==> Solid(r.value, offset, s.arraySize)
  {
    var r := Minify(s, mode, bpe, level, xalign, yalign, 1, offset);
    if r.Some? {
      MinifySized(s, mode, bpe, level, xalign, yalign, 1, offset);
      SliceFills(r.value, s.arraySize);
    }
  }

  lemma SiMinifySolid(s: Surf, bpe: nat, level: nat, xalign: nat, yalign: nat, sliceAlign: nat, offset: int)
    requires Proper(s) && s.npixX >= 1 && bpe >= 1 && xalign >= 1 && yalign >= 1 && sliceAlign >= 1
    ensures Solid(SiMinify(s, bpe, level, xalign, yalign, 1, sliceAlign, offset), offset, s.arraySize)
  {
    var l := SiMinify(s, bpe, level, xalign, yalign, 1, sliceAlign, offset);
    SiMinifySized(s, bpe, level, xalign, yalign, 1, sliceAlign, offset);
    MulPositive(l.nblkX, bpe);
    MulPositive(l.nblkX * bpe, s.nsamples);
    MulPositive(l.nblkX * bpe * s.nsamples, l.nblkY);
    SliceFills(l, s.arraySize);
  }

  /** Tiles whose sides are powers of two of at least 8 and that hold at least one byte. */
  ghost predicate PowerTiles(t: Tile)
  {
    t.mtileb >= 1 && (exists k: nat :: t.mtilew == Pow2(k)) && (exists k: nat :: t.mtileh == Pow2(k))
  }

  /** Powers of two make such tiles. */
  lemma PowersMakeTiles(s: Surf, bpe: nat, split: nat, pipes: nat, banks: nat, e: Exps)
    requires PowersOfTwo(s, bpe, split, pipes, banks, e)
    ensures PowerTiles(Tiling(s, bpe, split, pipes, banks))
  {
    var t := Tiling(s, bpe, split, pipes, banks);
    TilingPowers(s, bpe, split, pipes, banks, e);
    EightTimes(3 + e.bankw + e.pipes + e.mtilea);
    EightTimes(3 + e.bankh + e.banks - e.mtilea);
    var tileb := 8 * 8 * bpe * s.nsamples;
    SplitExact(tileb, 6 + e.bpe + e.nsamples, split, e.split);
    PositiveFactor(tileb, t.slicePt, tileb / t.slicePt);
    MulPositive(t.mtilew / 8, t.mtileh / 8);
    MulPositive((t.mtilew / 8) * (t.mtileh / 8), tileb / t.slicePt);
  }

  lemma MacroSolid(s: Surf, px: nat, py: nat, pz: nat, nx: nat, ny: nat, nz: nat, bpe: nat, t: Tile, offset: int)
    requires t.mtilew >= 1 && t.mtileh >= 1 && t.slicePt >= 1 && PowerTiles(t) && nx >= 1 && ny >= 1 && nz >= 1
    requires s.arraySize >= 1 && MacroLevel(s, px, py, pz, nx, ny, nz, bpe, t, offset).Some?
    ensures Solid(MacroLevel(s, px, py, pz, nx, ny, nz, bpe, t, offset).value, offset, s.arraySize)
  {
    var l := MacroLevel(s, px, py, pz, nx, ny, nz, bpe, t, offset).value;
    var kw: nat :| t.mtilew == Pow2(kw);
    var kh: nat :| t.mtileh == Pow2(kh);
    SomeTiles(nx, kw);
    SomeTiles(ny, kh);
    RowsOfTiles(l.nblkX / t.mtilew, t.mtileh, l.nblkY);
    MulPositive(l.nblkX / t.mtilew, l.nblkY / t.mtileh);
    MacroFields(s, px, py, pz, nx, ny, nz, bpe, t, offset);
    MulPositive(l.nblkX / t.mtilew * l.nblkY / t.mtileh, t.mtileb);
    MulPositive(l.nblkX / t.mtilew * l.nblkY / t.mtileh * t.mtileb, t.slicePt);
    SliceFills(l, s.arraySize);
  }

  /** A level laid out by macro tiles, or None where 1D tiling takes over. */
  lemma EgSolid(s: Surf, bpe: nat, level: nat, t: Tile, offset: int)
    requires Proper(s) && t.mtilew >= 1 && t.mtileh >= 1 && t.mtileb >= 0 && t.slicePt >= 1
    ensures var r := EgMinify(s, bpe, level, t, offset);
      r.Some? ==> Sized(r.value, s.arraySize) && (PowerTiles(t) ==> Solid(r.value, offset, s.arraySize))
  {
    var r := EgMinify(s, bpe, level, t, offset);
    if r.Some? {
      var px, py, pz := MipMinify(s.npixX, level), MipMinify(s.npixY, level), MipMinify(s.npixZ, level);
      var nx, ny, nz := Blocks(px, s.blkW), Blocks(py, s.blkH), Blocks(pz, s.blkD);
      MacroSized(s, px, py, pz, nx, ny, nz, bpe, t, offset);
      if PowerTiles(t) {
        MacroSolid(s, px, py, pz, nx, ny, nz, bpe, t, offset);
      }
    }
  }

  lemma SiSolid(s: Surf, bpe: nat, level: nat, t: Tile, offset: int)
    requires Proper(s) && s.npixX >= 1 && t.mtilew >= 1 && t.mtileh >= 1 && t.mtileb >= 0 && t.slicePt >= 1
    ensures var r := SiMinify2d(s, bpe, level, t, offset);
      r.Some? ==> Sized(r.value, s.arraySize) && (PowerTiles(t) ==> Solid(r.value, offset, s.arraySize))
  {
    var r := SiMinify2d(s, bpe, level, t, offset);
    if r.Some? {
      var p, b := SiPixels(s, level), SiBlocks(s, level);
      MacroSized(s, p.0, p.1, p.2, b.0, b.1, b.2, bpe, t, offset);
      if PowerTiles(t) {
        MacroSolid(s, p.0, p.1, p.2, b.0, b.1, b.2, bpe, t, offset);
      }
    }
  }

  // ----- trees

  /** The ways to compute a level: surf_minify with 1D tiles, surf_minify with the macro tiles of r600,
      eg_surf_minify, si_surf_minify with 1D tiles and si_surf_minify_2d. */
  datatype Kind =
    | Flat(bpe: nat, xalign: nat)
    | R6Macro(bpe: nat, xalign: nat, yalign: nat)
    | EgMacro(bpe: nat, t: Tile)
    | SiFlat(bpe: nat, xalign: nat, sliceAlign: nat)
    | SiMacro(bpe: nat, t: Tile)

  predicate Good(s: Surf, k: Kind)
  {
    GoodFacts(s, k) == true
  }

  predicate GoodFacts(s: Surf, k: Kind)
  {
    && Proper(s) && k.bpe >= 1
    && match k
      case Flat(_, xalign) => xalign >= 1
      case R6Macro(_, xalign, yalign) => xalign >= 1 && yalign >= 1
      case EgMacro(_, t) => t.mtilew >= 1 && t.mtileh >= 1 && t.mtileb >= 0 && t.slicePt >= 1
      case SiFlat(_, xalign, sliceAlign) => s.npixX >= 1 && xalign >= 1 && sliceAlign >= 1
      case SiMacro(_, t) => s.npixX >= 1 && t.mtilew >= 1 && t.mtileh >= 1 && t.mtileb >= 0 && t.slicePt >= 1
  }

  /** Level `i` placed at `offset`; None when it is too small for macro tiles. */
  function LevelOf(s: Surf, k: Kind, i: nat, offset: int): (l: Option<Level>)
    requires Good(s, k)
    ensures l.Some? ==> l.value.offset == offset
    ensures k.Flat? || k.SiFlat? ==> l.Some?
  {
    match k
    case Flat(bpe, xalign) => Minify(s, Mode1D, bpe, i, xalign, 8, 1, offset)
    case R6Macro(bpe, xalign, yalign) => Minify(s, Mode2D, bpe, i, xalign, yalign, 1, offset)
    case EgMacro(bpe, t) => EgMinify(s, bpe, i, t, offset)
    case SiFlat(bpe, xalign, sliceAlign) => Some(SiMinify(s, bpe, i, xalign, 8, 1, sliceAlign, offset))
    case SiMacro(bpe, t) => SiMinify2d(s, bpe, i, t, offset)
  }

  /** Level `i` is large enough. */
  ghost predicate LargeEnough(s: Surf, k: Kind, i: nat)
    requires Good(s, k)
  {
    LevelOf(s, k, i, 0).Some?
  }

  lemma LargeAnywhere(s: Surf, k: Kind, i: nat, offset: int)
    requires Good(s, k)
    ensures LevelOf(s, k, i, offset).Some? <==> LargeEnough(s, k, i)
  {
  }

  /** Levels of this kind are never empty. */
  ghost predicate Dense(k: Kind)
  {
    match k
    case EgMacro(_, t) => PowerTiles(t)
    case SiMacro(_, t) => PowerTiles(t)
    case _ => true
  }

  lemma LevelSolid(s: Surf, k: Kind, i: nat, offset: int)
    requires Good(s, k)
    ensures var l := LevelOf(s, k, i, offset);
      l.Some? ==> Sized(l.value, s.arraySize) && (Dense(k) ==> Solid(l.value, offset, s.arraySize))
  {
    match k
    case Flat(bpe, xalign) => MinifySolid(s, Mode1D, bpe, i, xalign, 8, offset);
    case R6Macro(bpe, xalign, yalign) => MinifySolid(s, Mode2D, bpe, i, xalign, yalign, offset);
    case EgMacro(bpe, t) => EgSolid(s, bpe, i, t, offset);
    case SiFlat(bpe, xalign, sliceAlign) => SiMinifySolid(s, bpe, i, xalign, 8, sliceAlign, offset);
    case SiMacro(bpe, t) => SiSolid(s, bpe, i, t, offset);
  }

  /** Levels `from`..`to` are the ones of kind `k`. */
  ghost predicate Laid(s: Surf, k: Kind, ls: seq<Level>, from: nat, to: nat)
    requires Good(s, k)
  {
    from <= to <= |ls| && forall i :: from <= i < to ==> LevelOf(s, k, i, ls[i].offset) == Some(ls[i])
  }

  /** ALIGN, where the init functions apply it to an offset. */
  function Aligned(v: int, a: nat): (r: int)
    ensures r >= v
  {
    if v >= 0 && a > 0 then Align(v, a) else v
  }

  /** Offset 0 is not aligned by the init functions, which makes no difference. */
  lemma AlignedZero(a: nat)
    ensures Aligned(0, a) == 0
  {
    if a > 0 {
      AndSelf(a - 1);
    }
  }

  /** Where level `i` begins: right behind the level before it, but level 1 is aligned. */
  ghost function Where(ls: seq<Level>, from: nat, i: nat, first: int, align: nat, arraySize: nat): int
    requires from <= i <= |ls|
  {
    if i == from then first
    else if i == 1 then Aligned(ls[0].End(arraySize), align)
    else ls[i - 1].End(arraySize)
  }

  ghost predicate Packed(ls: seq<Level>, from: nat, to: nat, first: int, align: nat, arraySize: nat)
  {
    && from <= to <= |ls|
    && (forall i {:trigger Where(ls, from, i, first, align, arraySize)} :: from <= i < to ==>
        ls[i].offset == Where(ls, from, i, first, align, arraySize))
  }

  /** A tree of 1D tiled levels. */
  ghost predicate Tree1d(s: Surf, ls: seq<Level>, start: nat, small: Kind, first: int, align: nat)
  {
    Tree1dFacts(s, ls, start, small, first, align) == true
  }

  ghost predicate Tree1dFacts(s: Surf, ls: seq<Level>, start: nat, small: Kind, first: int, align: nat)
  {
    && Good(s, small) && Laid(s, small, ls, start, s.lastLevel + 1)
    && Packed(ls, start, s.lastLevel + 1, first, align, s.arraySize)
  }

  /** A tree of macro tiled levels up to `mid`, the first one that is too small, and of 1D tiled ones from there. */
  ghost predicate Tree2d(s: Surf, ls: seq<Level>, start: nat, mid: nat, big: Kind, small: Kind, first: int, align: nat)
  {
    Tree2dFacts(s, ls, start, mid, big, small, first, align) == true
  }

  ghost predicate Tree2dFacts(s: Surf, ls: seq<Level>, start: nat, mid: nat, big: Kind, small: Kind, first: int,
      align: nat)
  {
    && Good(s, big) && Good(s, small) && start <= mid <= s.lastLevel + 1
    && Laid(s, big, ls, start, mid) && Laid(s, small, ls, mid, s.lastLevel + 1)
    && (mid <= s.lastLevel ==> !LargeEnough(s, big, mid))
    && Packed(ls, start, s.lastLevel + 1, first, align, s.arraySize)
  }

  lemma LaidSized(s: Surf, k: Kind, ls: seq<Level>, from: nat, to: nat)
    requires Good(s, k) && Laid(s, k, ls, from, to)
    ensures forall i :: from <= i < to ==> Sized(ls[i], s.arraySize)
    ensures Dense(k) ==> Filled(ls, from, to, s.arraySize)
  {
    forall i | from <= i < to
      ensures Sized(ls[i], s.arraySize) && (Dense(k) ==> ls[i].End(s.arraySize) > ls[i].offset)
    {
      LevelSolid(s, k, i, ls[i].offset);
      assert LevelOf(s, k, i, ls[i].offset) == Some(ls[i]);
    }
  }

  lemma PackedChain(ls: seq<Level>, from: nat, to: nat, first: int, align: nat, arraySize: nat)
    requires Packed(ls, from, to, first, align, arraySize)
    requires forall i :: from <= i < to ==> Sized(ls[i], arraySize)
    ensures Chain(ls, from, to, first, arraySize)
  {
    forall i | from <= i < to ensures ls[i].offset >= Floor(ls, from, i, first, arraySize) {
      assert ls[i].offset == Where(ls, from, i, first, align, arraySize);
    }
  }

  /** The levels of a tree are disjoint and in order, and none is empty if its tiles are not. */
  lemma Tree1dDisjoint(s: Surf, ls: seq<Level>, start: nat, small: Kind, first: int, align: nat)
    requires Tree1d(s, ls, start, small, first, align)
    ensures Chain(ls, start, s.lastLevel + 1, first, s.arraySize)
    ensures Dense(small) ==> Filled(ls, start, s.lastLevel + 1, s.arraySize)
  {
    LaidSized(s, small, ls, start, s.lastLevel + 1);
    PackedChain(ls, start, s.lastLevel + 1, first, align, s.arraySize);
  }

  lemma Tree2dDisjoint(s: Surf, ls: seq<Level>, start: nat, mid: nat, big: Kind, small: Kind, first: int, align: nat)
    requires Tree2d(s, ls, start, mid, big, small, first, align)
    ensures Chain(ls, start, s.lastLevel + 1, first, s.arraySize)
    ensures Dense(big) && Dense(small) ==> Filled(ls, start, s.lastLevel + 1, s.arraySize)
  {
    LaidSized(s, big, ls, start, mid);
    LaidSized(s, small, ls, mid, s.lastLevel + 1);
    PackedChain(ls, start, s.lastLevel + 1, first, align, s.arraySize);
  }

  /** "level0 and first mipmap need to have alignment": they do when the alignments are powers of two. */
  lemma FirstTwoAligned(ls: seq<Level>, to: nat, offset: int, k0: nat, k1: nat, arraySize: nat)
    requires Packed(ls, 0, to, Aligned(offset, Pow2(k0)), Pow2(k1), arraySize) && to >= 1 && offset >= 0
    requires Sized(ls[0], arraySize)
    ensures ls[0].offset % Pow2(k0) == 0 && (to >= 2 ==> ls[1].offset % Pow2(k1) == 0)
  {
    assert ls[0].offset == Where(ls, 0, 0, Aligned(offset, Pow2(k0)), Pow2(k1), arraySize);
    AlignIsMultiple(offset, k0);
    if to >= 2 {
      assert ls[1].offset == Where(ls, 0, 1, Aligned(offset, Pow2(k0)), Pow2(k1), arraySize);
      AlignIsMultiple(ls[0].End(arraySize), k1);
    }
  }

  /** The levels of the stencil tree lie behind those of the depth tree. */
  lemma TreesDisjoint(a: seq<Level>, b: seq<Level>, last: nat, first: int, behind: int, arraySize: nat, i: nat, j: nat)
    requires i <= last < |a| && j <= last
    requires Chain(a, 0, last + 1, first, arraySize) && Chain(b, 0, last + 1, behind, arraySize)
    requires behind >= a[last].End(arraySize)
    ensures a[i].End(arraySize) <= b[j].offset && b[j].End(arraySize) <= b[last].End(arraySize)
    ensures j < i ==> a[j].End(arraySize) <= a[i].offset && b[j].End(arraySize) <= b[i].offset
  {
    LevelsDisjoint(a, 0, last + 1, first, arraySize, i, last);
    LevelsDisjoint(b, 0, last + 1, behind, arraySize, j, last);
    if j < i {
      LevelsDisjoint(a, 0, last + 1, first, arraySize, j, i);
      LevelsDisjoint(b, 0, last + 1, behind, arraySize, j, i);
    }
  }

  // ----- the loops over the levels

  /** Where a loop stands: `i` is next, to be placed at `at`. */
  ghost predicate Laying(s: Surf, k: Kind, ls: seq<Level>, from: nat, i: nat, first: int, align: nat, at: int)
    requires Good(s, k)
  {
    LayingFacts(s, k, ls, from, i, first, align, at) == true
  }

  ghost predicate LayingFacts(s: Surf, k: Kind, ls: seq<Level>, from: nat, i: nat, first: int, align: nat, at: int)
    requires Good(s, k)
  {
    && Laid(s, k, ls, from, i) && Packed(ls, from, i, first, align, s.arraySize)
    && at == Where(ls, from, i, first, align, s.arraySize) && at >= 0
  }

  lemma LayStart(s: Surf, k: Kind, ls: seq<Level>, from: nat, first: int, align: nat)
    requires Good(s, k) && from <= |ls| && first >= 0
    ensures Laying(s, k, ls, from, from, first, align, first)
  {
  }

  lemma LayEnd(s: Surf, k: Kind, ls: seq<Level>, start: nat, first: int, align: nat, at: int)
    requires Good(s, k) && Laying(s, k, ls, start, s.lastLevel + 1, first, align, at)
    ensures Tree1d(s, ls, start, k, first, align) == true
  {
  }

  /** One more level. */
  lemma LayOne(s: Surf, k: Kind, ls: seq<Level>, from: nat, i: nat, first: int, align: nat, at: int, l: Level)
    requires Good(s, k) && Laying(s, k, ls, from, i, first, align, at) && i < |ls|
    requires LevelOf(s, k, i, at) == Some(l)
    ensures from <= i
    ensures var end := l.End(s.arraySize);
      end >= 0 && Laying(s, k, ls[i := l], from, i + 1, first, align, if i == 0 then Aligned(end, align) else end)
  {
    LevelSolid(s, k, i, at);
    var ms := ls[i := l];
    LaidKept(s, k, ls, ms, from, i, i);
    PackedKept(ls, ms, from, i, i, first, align, s.arraySize);
    assert Where(ms, from, i, first, align, s.arraySize) == at;
  }

  lemma LaidKept(s: Surf, k: Kind, ls: seq<Level>, ms: seq<Level>, from: nat, to: nat, n: nat)
    requires Good(s, k) && Laid(s, k, ls, from, to) && to <= n && Kept(ms, ls, n)
    ensures Laid(s, k, ms, from, to)
  {
    forall i | from <= i < to ensures LevelOf(s, k, i, ms[i].offset) == Some(ms[i]) {
      assert ms[i] == ls[i];
    }
  }

  lemma PackedKept(ls: seq<Level>, ms: seq<Level>, from: nat, to: nat, n: nat, first: int, align: nat, arraySize: nat)
    requires Packed(ls, from, to, first, align, arraySize) && to <= n && Kept(ms, ls, n)
    ensures Packed(ms, from, to, first, align, arraySize)
  {
    forall i | from <= i < to ensures ms[i].offset == Where(ms, from, i, first, align, arraySize) {
      assert ls[i].offset == Where(ls, from, i, first, align, arraySize);
      assert ms[i] == ls[i] && (i > from ==> ms[i - 1] == ls[i - 1]);
    }
  }

  /** Only level 1 of a whole tree looks at the alignment. */
  lemma AnyAlign(ls: seq<Level>, from: nat, to: nat, first: int, align: nat, other: nat, arraySize: nat)
    requires Packed(ls, from, to, first, align, arraySize) && (from >= 1 || to <= 1)
    ensures Packed(ls, from, to, first, other, arraySize)
  {
    forall i | from <= i < to ensures ls[i].offset == Where(ls, from, i, first, other, arraySize) {
      assert ls[i].offset == Where(ls, from, i, first, align, arraySize);
    }
  }

  /** Two trees, the second restarted at level `mid` where the first one stopped. */
  lemma PackedJoin(ls: seq<Level>, from: nat, mid: nat, to: nat, first: int, align: nat, at: int, arraySize: nat)
    requires Packed(ls, from, mid, first, align, arraySize) && Packed(ls, mid, to, at, align, arraySize)
    requires from < mid && at == Where(ls, from, mid, first, align, arraySize)
    ensures Packed(ls, from, to, first, align, arraySize)
  {
    forall i | from <= i < to ensures ls[i].offset == Where(ls, from, i, first, align, arraySize) {
      if i >= mid {
        assert ls[i].offset == Where(ls, mid, i, at, align, arraySize);
      }
    }
  }

  /** The fallback: `ls` was left at level `mid`, which is too small, and `ms` has 1D tiles from there on,
      the first of them at `next`. */
  lemma FellBack(s: Surf, big: Kind, small: Kind, was: seq<Level>, ls: seq<Level>, ms: seq<Level>, start: nat, mid: nat,
      first: int, align: nat, at: int, next: int, align1: nat, all: nat)
    requires Good(s, big) && Laying(s, big, ls, start, mid, first, align, at) && Kept(ms, ls, mid)
    requires Kept(ls, was, start) && start <= mid <= s.lastLevel && !LargeEnough(s, big, mid)
    requires Tree1d(s, ms, mid, small, next, align1) && all == if mid <= 1 then align1 else align
    requires start < mid ==> next == Where(ls, start, mid, first, all, s.arraySize)
    ensures Tree2d(s, ms, start, mid, big, small, if mid == start then next else first, all) == true
    ensures Kept(ms, was, start)
  {
    LaidKept(s, big, ls, ms, start, mid, mid);
    PackedKept(ls, ms, start, mid, mid, first, align, s.arraySize);
    if mid > 1 {
      AnyAlign(ms, mid, s.lastLevel + 1, next, align1, all, s.arraySize);
    }
    if start < mid {
      if mid == 1 {
        AnyAlign(ms, start, mid, first, align, all, s.arraySize);
      }
      assert ms[mid - 1] == ls[mid - 1];
      PackedJoin(ms, start, mid, s.lastLevel + 1, first, all, next, s.arraySize);
    }
  }

  /** No fallback. */
  lemma Finished(s: Surf, big: Kind, small: Kind, ls: seq<Level>, start: nat, first: int, align: nat, at: int, all: nat)
    requires Good(s, big) && Good(s, small) && start <= s.lastLevel
    requires Laying(s, big, ls, start, s.lastLevel + 1, first, align, at)
    requires s.lastLevel > 0 ==> all == align
    ensures Tree2d(s, ls, start, s.lastLevel + 1, big, small, first, all) == true && AllLarge(s, big, start)
  {
    if s.lastLevel == 0 {
      AnyAlign(ls, start, s.lastLevel + 1, first, align, all, s.arraySize);
    }
    LaidFits(s, big, ls, start);
  }

  // ----- tile parameters

  /** Horizontal alignment of 1D tiles. */
  function Xalign1d(s: Surf, hw: Hw, bpe: nat): (x: nat)
    requires bpe >= 1 && s.nsamples >= 1
    ensures x >= 8
  {
    MulPositive(8 * bpe, s.nsamples);
    QuotientNonNeg(hw.groupBytes, 8 * bpe * s.nsamples);
    var x := Max(8, hw.groupBytes / (8 * bpe * s.nsamples));
    if s.scanout then Max(if bpe == 1 then 64 else 32, x) else x
  }

  function Xalign2d(s: Surf, hw: Hw): (x: nat)
    requires s.bpe >= 1 && s.nsamples >= 1 && hw.numBanks >= 1
    ensures x >= 8
  {
    MulPositive(8 * s.bpe, s.nsamples);
    QuotientNonNeg(Mul(hw.groupBytes, hw.numBanks), 8 * s.bpe * s.nsamples);
    var x := Max(8 * hw.numBanks, Mul(hw.groupBytes, hw.numBanks) / (8 * s.bpe * s.nsamples));
    if s.scanout then Max(if s.bpe == 1 then 64 else 32, x) else x
  }

  /** Alignment of a 1D tiled buffer. */
  function Align1d(hw: Hw): (a: nat)
    ensures a >= 256
  {
    Max(256, hw.groupBytes)
  }

  /** Alignment of a 2D tiled buffer of r600. */
  function Align2d(s: Surf, hw: Hw): (a: nat)
    requires Proper(s) && hw.numBanks >= 1 && hw.numPipes >= 1
    ensures a >= 1
  {
    MulPositive(hw.numPipes, hw.numBanks);
    MulPositive(hw.numPipes * hw.numBanks, s.nsamples);
    MulPositive(hw.numPipes * hw.numBanks * s.nsamples, s.bpe);
    Max(hw.numPipes * hw.numBanks * s.nsamples * s.bpe * 64,
      Mul(Mul(Mul(Xalign2d(s, hw), 8 * hw.numPipes), s.nsamples), s.bpe))
  }

  function R6Tiles(s: Surf, hw: Hw): (k: Kind)
    requires Proper(s) && hw.numBanks >= 1 && hw.numPipes >= 1
    ensures Good(s, k) && Dense(k)
  {
    R6Macro(s.bpe, Xalign2d(s, hw), 8 * hw.numPipes)
  }

  function FlatTiles(s: Surf, hw: Hw, bpe: nat): (k: Kind)
    requires Proper(s) && bpe >= 1
    ensures Good(s, k) && Dense(k)
  {
    Flat(bpe, Xalign1d(s, hw, bpe))
  }

  function SiFlatTiles(s: Surf, hw: Hw, bpe: nat): (k: Kind)
    requires Proper(s) && bpe >= 1 && s.npixX >= 1 && hw.groupBytes >= 1
    ensures Good(s, k) && Dense(k)
  {
    SiFlat(bpe, if s.scanout then Max(if bpe == 1 then 64 else 32, 8) else 8, hw.groupBytes)
  }

  function EgTiles(s: Surf, bpe: nat, split: nat, pipes: nat, banks: nat): (k: Kind)
    requires Proper(s) && bpe >= 1 && ProperTiles(s, pipes, banks)
    ensures Good(s, k)
  {
    TilingProper(s, bpe, split, pipes, banks);
    TileBytes(s, bpe, split, pipes, banks);
    EgMacro(bpe, Tiling(s, bpe, split, pipes, banks))
  }

  function SiTiles(s: Surf, bpe: nat, split: nat, pipes: nat, banks: nat): (k: Kind)
    requires Proper(s) && bpe >= 1 && ProperTiles(s, pipes, banks) && s.npixX >= 1
    ensures Good(s, k)
  {
    TilingProper(s, bpe, split, pipes, banks);
    TileBytes(s, bpe, split, pipes, banks);
    SiMacro(bpe, Tiling(s, bpe, split, pipes, banks))
  }

  /** Alignment of a 2D tiled tree: that of a macro tile. */
  function TileAlign(t: Tile): (a: nat)
    requires t.mtileb >= 0
    ensures a >= 256
  {
    Max(256, t.mtileb)
  }

  /** The tree of eg_surface_init_2d; it takes the alignment of the buffer from `align0` to `align1`. */
  ghost predicate EgTree(s: Surf, hw: Hw, ls: seq<Level>, bpe: nat, split: nat, offset: int, start: nat, mid: nat,
      align0: nat, align1: nat)
    requires Proper(s) && bpe >= 1 && ProperTiles(s, hw.numPipes, hw.numBanks)
  {
    EgTreeFacts(s, hw, ls, bpe, split, offset, start, mid, align0, align1) == true
  }

  ghost predicate EgTreeFacts(s: Surf, hw: Hw, ls: seq<Level>, bpe: nat, split: nat, offset: int, start: nat, mid: nat,
      align0: nat, align1: nat)
    requires Proper(s) && bpe >= 1 && ProperTiles(s, hw.numPipes, hw.numBanks)
  {
    var big := EgTiles(s, bpe, split, hw.numPipes, hw.numBanks);
    var first := if start == 0 then Aligned(offset, TileAlign(big.t)) else offset;
    var raised := if start == 0 then Max(align0, TileAlign(big.t)) else align0;
    && align1 == (if mid == 0 then Max(raised, Align1d(hw)) else raised)
    && Tree2d(s, ls, start, mid, big, FlatTiles(s, hw, bpe),
              if mid == 0 then Aligned(first, Align1d(hw)) else first, align1)
  }

  /** The tree of si_surface_init_2d.  A level is placed at the aligned offset, but the fallback starts from
      the one that is not aligned and aligns it for 1D tiles, though behind level 1 not at all. */
  ghost predicate SiTree(s: Surf, hw: Hw, ls: seq<Level>, bpe: nat, split: nat, pipes: nat, banks: nat, offset: int,
      start: nat, mid: nat, align0: nat, align1: nat)
    requires Proper(s) && bpe >= 1 && ProperTiles(s, pipes, banks) && s.npixX >= 1 && hw.groupBytes >= 1
  {
    SiTreeFacts(s, hw, ls, bpe, split, pipes, banks, offset, start, mid, align0, align1) == true
  }

  ghost predicate SiTreeFacts(s: Surf, hw: Hw, ls: seq<Level>, bpe: nat, split: nat, pipes: nat, banks: nat,
      offset: int,
      start: nat, mid: nat, align0: nat, align1: nat)
    requires Proper(s) && bpe >= 1 && ProperTiles(s, pipes, banks) && s.npixX >= 1 && hw.groupBytes >= 1
  {
    var big := SiTiles(s, bpe, split, pipes, banks);
    var raised := if start <= 1 then Max(align0, TileAlign(big.t)) else align0;
    var first :=
      if start > 1 then offset else Aligned(offset, if mid == start then Align1d(hw) else TileAlign(big.t));
    && align1 == (if mid <= 1 && mid <= s.lastLevel then Max(raised, Align1d(hw)) else raised)
    && Tree2d(s, ls, start, mid, big, SiFlatTiles(s, hw, bpe), first, if mid <= 1 then Align1d(hw) else raised)
  }

  /** What the loop of r6_surface_init_2d leaves. */
  ghost predicate R6Laid(s: Surf, hw: Hw, ls: seq<Level>, xalign: nat, yalign: nat, first: int, start: nat, mid: nat,
      align0: nat, align1: nat)
    requires Good(s, R6Macro(s.bpe, xalign, yalign))
  {
    && align1 == (if mid == 0 then Align1d(hw) else align0)
    && Tree2d(s, ls, start, mid, R6Macro(s.bpe, xalign, yalign), FlatTiles(s, hw, s.bpe), first, align1)
  }

  /** What the loop of si_surface_init_2d leaves, started at `offset` or, for macro tiles, at `aligned`. */
  ghost predicate SiLaid(s: Surf, hw: Hw, ls: seq<Level>, bpe: nat, t: Tile, offset: int, aligned: int, start: nat,
      mid: nat, align0: nat, align1: nat)
    requires Good(s, SiMacro(bpe, t)) && hw.groupBytes >= 1
  {
    && align1 == (if mid <= 1 && mid <= s.lastLevel then Max(align0, Align1d(hw)) else align0)
    && Tree2d(s, ls, start, mid, SiMacro(bpe, t), SiFlatTiles(s, hw, bpe),
              if mid == start <= 1 then Aligned(offset, Align1d(hw)) else aligned,
              if mid <= 1 then Align1d(hw) else align0)
  }

  /** The tile mode of southern islands, as far as the fallback looks at it. */
  datatype TileMode = Color2D | ColorScanout2D | DepthStencil2D | Color1D | ColorScanout1D | DepthStencil1D | OtherMode

  /** The 1D tile mode that replaces a 2D one. */
  function Downgraded(m: TileMode): Option<TileMode>
  {
    match m
    case Color2D => Some(Color1D)
    case ColorScanout2D => Some(ColorScanout1D)
    case DepthStencil2D => Some(DepthStencil1D)
    case _ => None
  }

  /** Every level from `start` on is large enough for macro tiles. */
  ghost predicate AllLarge(s: Surf, k: Kind, start: nat)
    requires Good(s, k)
  {
    forall i :: start <= i <= s.lastLevel ==> LargeEnough(s, k, i)
  }

  lemma LaidFits(s: Surf, k: Kind, ls: seq<Level>, start: nat)
    requires Good(s, k) && Laid(s, k, ls, start, s.lastLevel + 1)
    ensures AllLarge(s, k, start)
  {
    forall i | start <= i <= s.lastLevel ensures LargeEnough(s, k, i) {
      LargeAnywhere(s, k, i, ls[i].offset);
    }
  }

  // ----- depth and stencil

  /** After eg_surface_init_2d_miptrees the levels of both trees are disjoint byte ranges in order. */
  lemma EgTreesDisjoint(s: Surf, hw: Hw, a: seq<Level>, b: seq<Level>, mid: nat, mid2: nat, align0: nat, align1: nat,
      align2: nat, i: nat, j: nat)
    requires Proper(s) && ProperTiles(s, hw.numPipes, hw.numBanks) && s.lastLevel < |a|
    requires EgTree(s, hw, a, s.bpe, s.tileSplit, 0, 0, mid, align0, align1)
    requires EgTree(s, hw, b, 1, s.stencilTileSplit, a[s.lastLevel].End(s.arraySize), 0, mid2, align1, align2)
    requires i <= s.lastLevel < |b| && j <= s.lastLevel
    ensures InOrder(s, a, b, i, j)
  {
    var big, big2 := EgTiles(s, s.bpe, s.tileSplit, hw.numPipes, hw.numBanks),
      EgTiles(s, 1, s.stencilTileSplit, hw.numPipes, hw.numBanks);
    var first := Aligned(0, TileAlign(big.t));
    var behind := Aligned(a[s.lastLevel].End(s.arraySize), TileAlign(big2.t));
    var first1 := if mid == 0 then Aligned(first, Align1d(hw)) else first;
    var behind1 := if mid2 == 0 then Aligned(behind, Align1d(hw)) else behind;
    Tree2dDisjoint(s, a, 0, mid, big, FlatTiles(s, hw, s.bpe), first1, align1);
    Tree2dDisjoint(s, b, 0, mid2, big2, FlatTiles(s, hw, 1), behind1, align2);
    TreesDisjoint(a, b, s.lastLevel, first1, behind1, s.arraySize, i, j);
  }

  /** The same after si_surface_init_2d_miptrees. */
  lemma SiTreesDisjoint(s: Surf, hw: Hw, pipes: nat, banks: nat, a: seq<Level>, b: seq<Level>, mid: nat, mid2: nat,
      align0: nat, align1: nat, align2: nat, i: nat, j: nat)
    requires Proper(s) && ProperTiles(s, pipes, banks) && s.npixX >= 1 && hw.groupBytes >= 1 && s.lastLevel < |a|
    requires SiTree(s, hw, a, s.bpe, s.tileSplit, pipes, banks, 0, 0, mid, align0, align1)
    requires SiTree(s, hw, b, 1, s.stencilTileSplit, pipes, banks, a[s.lastLevel].End(s.arraySize), 0, mid2, align1,
      align2)
    requires i <= s.lastLevel < |b| && j <= s.lastLevel
    ensures InOrder(s, a, b, i, j)
  {
    var big, big2 := SiTiles(s, s.bpe, s.tileSplit, pipes, banks), SiTiles(s, 1, s.stencilTileSplit, pipes, banks);
    var first := Aligned(0, if mid == 0 then Align1d(hw) else TileAlign(big.t));
    var behind := Aligned(a[s.lastLevel].End(s.arraySize), if mid2 == 0 then Align1d(hw) else TileAlign(big2.t));
    var raised, raised2 := Max(align0, TileAlign(big.t)), Max(align1, TileAlign(big2.t));
    Tree2dDisjoint(s, a, 0, mid, big, SiFlatTiles(s, hw, s.bpe), first, if mid <= 1 then Align1d(hw) else raised);
    Tree2dDisjoint(s, b, 0, mid2, big2, SiFlatTiles(s, hw, 1), behind, if mid2 <= 1 then Align1d(hw) else raised2);
    TreesDisjoint(a, b, s.lastLevel, first, behind, s.arraySize, i, j);
  }

  /** Level `i` of the depth tree lies before level `j` of the stencil tree, and a lower level before a higher one. */
  ghost predicate InOrder(s: Surf, a: seq<Level>, b: seq<Level>, i: nat, j: nat)
    requires i < |a| && j < |b| && i < |b| && j < |a| && s.lastLevel < |b|
  {
    && a[i].End(s.arraySize) <= b[j].offset && b[j].End(s.arraySize) <= b[s.lastLevel].End(s.arraySize)
    && (j < i ==> a[j].End(s.arraySize) <= a[i].offset && b[j].End(s.arraySize) <= b[i].offset)
  }
}
