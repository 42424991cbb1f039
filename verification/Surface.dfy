/** Layout of mip trees on r600, evergreen and southern islands (radeon/radeon_surface.c). */
module Surface {
  import opened MmLayout
  import opened Arithmetic
  import opened SurfaceMath

  datatype Mode = Mode1D | Mode2D

  /** What the caller fills into struct radeon_surface. */
  datatype Surf = Surf(npixX: nat, npixY: nat, npixZ: nat, blkW: nat, blkH: nat, blkD: nat,
                       arraySize: nat, lastLevel: nat, bpe: nat, nsamples: nat, fmask: bool, scanout: bool,
                       bankw: nat, bankh: nat, mtilea: nat, tileSplit: nat, stencilTileSplit: nat)

  /** struct radeon_hw_info */
  datatype Hw = Hw(groupBytes: nat, numBanks: nat, numPipes: nat)

  /** struct radeon_surface_level */
  datatype Level = Level(npixX: nat, npixY: nat, npixZ: nat, nblkX: nat, nblkY: nat, nblkZ: nat,
                         offset: int, pitch: int, slice: int, mode: Mode)
  {
    /** The first byte behind the level. */
    function End(arraySize: nat): int { offset + slice * nblkZ * arraySize }
  }

  predicate Proper(s: Surf)
  {
    s.blkW >= 1 && s.blkH >= 1 && s.blkD >= 1 && s.arraySize >= 1 && s.bpe >= 1 && s.nsamples >= 1
  }

  function Max(a: nat, b: nat): nat { if a > b then a else b }

  // ----- one level

  /** surf_minify; None when the level is too small for macro tiles. */
  function Minify(s: Surf, mode: Mode, bpe: nat, level: nat, xalign: nat, yalign: nat, zalign: nat,
      offset: int): (r: Option<Level>)
    requires Proper(s) && bpe >= 1 && xalign >= 1 && yalign >= 1 && zalign >= 1
    ensures r.Some? ==> r.value.offset == offset && r.value.mode == mode
    ensures mode == Mode1D ==> r.Some?
  {
    var px := MipMinify(s.npixX, level);
    var py := MipMinify(s.npixY, level);
    var pz := MipMinify(s.npixZ, level);
    var nx := Blocks(px, s.blkW);
    var ny := Blocks(py, s.blkH);
    var nz := Blocks(pz, s.blkD);
    if s.nsamples == 1 && mode == Mode2D && !s.fmask && (nx < xalign || ny < yalign) then None
    else
      var x := Align(nx, xalign);
      var y := Align(ny, yalign);
      var z := Align(nz, zalign);
      var pitch := x * bpe * s.nsamples;
      Some(Level(px, py, pz, x, y, z, offset, pitch, pitch * y, mode))
  }

  /** Tile values of eg_surface_init_2d and si_surface_init_2d. */
  datatype Tile = Tile(slicePt: int, mtilew: int, mtileh: int, mtileb: int)

  /** slices per tile */
  function SlicePt(tileb: int, split: nat): (n: int)
    ensures n >= 1
  {
    if tileb > split && split != 0 then
      assert tileb / split >= 1 by {
        AtLeastOne(tileb - split + 1, split);
        assert tileb - split + 1 + split - 1 == tileb;
      }
      tileb / split
    else 1
  }

  predicate ProperTiles(s: Surf, pipes: nat, banks: nat)
  {
    s.bankw >= 1 && s.bankh >= 1 && 1 <= s.mtilea <= banks && pipes >= 1
  }

  function Tiling(s: Surf, bpe: nat, split: nat, pipes: nat, banks: nat): Tile
    requires s.mtilea >= 1
  {
    var tileb := 8 * 8 * bpe * s.nsamples;
    var slicePt := SlicePt(tileb, split);
    var mtilew := 8 * s.bankw * pipes * s.mtilea;
    var mtileh := 8 * s.bankh * banks / s.mtilea;
    Tile(slicePt, mtilew, mtileh, (mtilew / 8) * (mtileh / 8) * (tileb / slicePt))
  }

  lemma TilingProper(s: Surf, bpe: nat, split: nat, pipes: nat, banks: nat)
    requires ProperTiles(s, pipes, banks)
    ensures var t := Tiling(s, bpe, split, pipes, banks); t.mtilew >= 1 && t.mtileh >= 1
  {
    ProductAtLeast(8 * s.bankw, pipes);
    ProductAtLeast(8 * s.bankw * pipes, s.mtilea);
    ProductAtLeast(banks, 8 * s.bankh);
    var n := 8 * s.bankh * banks;
    AtLeastOne(n - s.mtilea + 1, s.mtilea);
    assert n - s.mtilea + 1 + s.mtilea - 1 == n;
  }

  lemma ProductAtLeast(a: nat, b: nat)
    requires a >= 1 && b >= 1
    ensures a * b >= a && a * b >= b && a * b >= 1 && b * a == a * b
  {
    MulMono(1, b, a);
    MulMono(1, a, b);
  }

  /** The part that eg_surf_minify and si_surf_minify_2d share, from block counts on. */
  function MacroLevel(s: Surf, px: nat, py: nat, pz: nat, nx: nat, ny: nat, nz: nat, bpe: nat, t: Tile,
      offset: int): (r: Option<Level>)
    requires t.mtilew >= 1 && t.mtileh >= 1
    ensures r.Some? ==> r.value.offset == offset && r.value.mode == Mode2D
  {
    if s.nsamples == 1 && !s.fmask && (nx < t.mtilew || ny < t.mtileh) then None
    else
      var x := Align(nx, t.mtilew);
      var y := Align(ny, t.mtileh);
      var z := Align(nz, 1);
      var perRow := x / t.mtilew;
      var perSlice := perRow * y / t.mtileh;
      Some(Level(px, py, pz, x, y, z, offset, x * bpe * t.slicePt, perSlice * t.mtileb * t.slicePt, Mode2D))
  }

  /** eg_surf_minify */
  function EgMinify(s: Surf, bpe: nat, level: nat, t: Tile, offset: int): (r: Option<Level>)
    requires Proper(s) && t.mtilew >= 1 && t.mtileh >= 1
    ensures r.Some? ==> r.value.offset == offset && r.value.mode == Mode2D
  {
    var px := MipMinify(s.npixX, level);
    var py := MipMinify(s.npixY, level);
    var pz := MipMinify(s.npixZ, level);
    MacroLevel(s, px, py, pz, Blocks(px, s.blkW), Blocks(py, s.blkH), Blocks(pz, s.blkD), bpe, t, offset)
  }

  /** Pixels and blocks of a level on southern islands: mip trees are laid out for
      power-of-two sizes from level 0 on. */
  function SiPixels(s: Surf, level: nat): (nat, nat, nat)
  {
    (if level == 0 then s.npixX else MipMinify(NextPowerOfTwo(s.npixX), level),
      MipMinify(s.npixY, level), MipMinify(s.npixZ, level))
  }

  function SiBlocks(s: Surf, level: nat): (b: (nat, nat, nat))
    requires Proper(s) && s.npixX >= 1
    ensures b.0 >= 1 && b.1 >= 1 && b.2 >= 1
  {
    var p := SiPixels(s, level);
    if level == 0 && s.lastLevel > 0 then
      (Blocks(NextPowerOfTwo(p.0), s.blkW), Blocks(NextPowerOfTwo(p.1), s.blkH), Blocks(NextPowerOfTwo(p.2), s.blkD))
    else (Blocks(p.0, s.blkW), Blocks(p.1, s.blkH), Blocks(p.2, s.blkD))
  }

  /** si_surf_minify for a 1D tiled level. */
  function SiMinify(s: Surf, bpe: nat, level: nat, xalign: nat, yalign: nat, zalign: nat, sliceAlign: nat,
      offset: int): (l: Level)
    requires Proper(s) && s.npixX >= 1 && bpe >= 1 && xalign >= 1 && yalign >= 1 && zalign >= 1 && sliceAlign >= 1
    ensures l.offset == offset && l.mode == Mode1D
  {
    var p := SiPixels(s, level);
    var b := SiBlocks(s, level);
    var y := Align(b.1, yalign);
    var xa := if level == 0 && s.lastLevel == 0 then Max(xalign, sliceAlign / s.bpe) else xalign;
    var x := Align(b.0, xa);
    var z := Align(b.2, zalign);
    var pitch := Mul(Mul(x, bpe), s.nsamples);
    Level(p.0, p.1, p.2, x, y, z, offset, pitch, Align(Mul(pitch, y), sliceAlign), Mode1D)
  }

  /** si_surf_minify_2d */
  function SiMinify2d(s: Surf, bpe: nat, level: nat, t: Tile, offset: int): (r: Option<Level>)
    requires Proper(s) && s.npixX >= 1 && t.mtilew >= 1 && t.mtileh >= 1
    ensures r.Some? ==> r.value.offset == offset && r.value.mode == Mode2D
  {
    var p := SiPixels(s, level);
    var b := SiBlocks(s, level);
    MacroLevel(s, p.0, p.1, p.2, b.0, b.1, b.2, bpe, t, offset)
  }

  // ----- sizes

  /** A level takes the bytes from its offset to its end. */
  ghost predicate Sized(l: Level, arraySize: nat)
  {
    l.slice >= 0 && l.End(arraySize) >= l.offset
  }

  lemma SliceSized(l: Level, arraySize: nat)
    requires l.slice >= 0
    ensures Sized(l, arraySize)
  {
    MulNonNeg(l.slice, l.nblkZ);
    MulNonNeg(l.slice * l.nblkZ, arraySize);
  }

  /** surf_minify gives a level the size of its aligned blocks, at least one byte. */
  lemma MinifySized(s: Surf, mode: Mode, bpe: nat, level: nat, xalign: nat, yalign: nat, zalign: nat, offset: int)
    requires Proper(s) && bpe >= 1 && xalign >= 1 && yalign >= 1 && zalign >= 1
    requires Minify(s, mode, bpe, level, xalign, yalign, zalign, offset).Some?
    ensures var l := Minify(s, mode, bpe, level, xalign, yalign, zalign, offset).value;
      l.slice == l.nblkX * bpe * s.nsamples * l.nblkY && l.slice >= 1 && Sized(l, s.arraySize)
  {
    var l := Minify(s, mode, bpe, level, xalign, yalign, zalign, offset).value;
    MulPositive(l.nblkX, bpe);
    MulPositive(l.nblkX * bpe, s.nsamples);
    MulPositive(l.pitch, l.nblkY);
    SliceSized(l, s.arraySize);
  }

  lemma SiMinifySized(s: Surf, bpe: nat, level: nat, xalign: nat, yalign: nat, zalign: nat, sliceAlign: nat,
      offset: int)
    requires Proper(s) && s.npixX >= 1 && bpe >= 1 && xalign >= 1 && yalign >= 1 && zalign >= 1 && sliceAlign >= 1
    ensures var l := SiMinify(s, bpe, level, xalign, yalign, zalign, sliceAlign, offset);
      l.slice >= l.nblkX * bpe * s.nsamples * l.nblkY && Sized(l, s.arraySize)
  {
    var l := SiMinify(s, bpe, level, xalign, yalign, zalign, sliceAlign, offset);
    SliceSized(l, s.arraySize);
  }

  lemma QuotientNonNeg(a: int, b: int)
    requires a >= 0 && b >= 1
    ensures a / b >= 0
  {
    var q := a / b;
    assert a == q * b + a % b;
    if q < 0 {
      MulMono(q, -1, b);
    }
  }

  lemma TileBytes(s: Surf, bpe: nat, split: nat, pipes: nat, banks: nat)
    requires ProperTiles(s, pipes, banks)
    ensures Tiling(s, bpe, split, pipes, banks).mtileb >= 0
  {
    var t := Tiling(s, bpe, split, pipes, banks);
    TilingProper(s, bpe, split, pipes, banks);
    MulNonNeg(8 * 8 * bpe, s.nsamples);
    QuotientNonNeg(8 * 8 * bpe * s.nsamples, t.slicePt);
    QuotientNonNeg(t.mtilew, 8);
    QuotientNonNeg(t.mtileh, 8);
    MulNonNeg(t.mtilew / 8, t.mtileh / 8);
    MulNonNeg((t.mtilew / 8) * (t.mtileh / 8), 8 * 8 * bpe * s.nsamples / t.slicePt);
  }

  lemma MacroSized(s: Surf, px: nat, py: nat, pz: nat, nx: nat, ny: nat, nz: nat, bpe: nat, t: Tile, offset: int)
    requires t.mtilew >= 1 && t.mtileh >= 1 && t.mtileb >= 0 && t.slicePt >= 1
    requires MacroLevel(s, px, py, pz, nx, ny, nz, bpe, t, offset).Some?
    ensures Sized(MacroLevel(s, px, py, pz, nx, ny, nz, bpe, t, offset).value, s.arraySize)
  {
    var l := MacroLevel(s, px, py, pz, nx, ny, nz, bpe, t, offset).value;
    QuotientNonNeg(l.nblkX, t.mtilew);
    MulNonNeg(l.nblkX / t.mtilew, l.nblkY);
    QuotientNonNeg(l.nblkX / t.mtilew * l.nblkY, t.mtileh);
    MulNonNeg(l.nblkX / t.mtilew * l.nblkY / t.mtileh, t.mtileb);
    MulNonNeg(l.nblkX / t.mtilew * l.nblkY / t.mtileh * t.mtileb, t.slicePt);
    SliceSized(l, s.arraySize);
  }

  // ----- macro tiles agree with the linear formula

  lemma Halves(a: int, b: int, c: int)
    requires b > 0 && a == b * c
    ensures a / b == c && a % b == 0
  {
    DivUnique(a, b, c, 0);
  }

  lemma {:induction false} Pow2Div(j: nat, k: nat)
    requires k <= j
    ensures Pow2(j) / Pow2(k) == Pow2(j - k) && Pow2(j) % Pow2(k) == 0
  {
    Pow2Sum(k, j - k);
    Halves(Pow2(j), Pow2(k), Pow2(j - k));
  }

  /** For powers of two the split of a tile into slices loses nothing. */
  lemma SplitExact(tileb: int, j: nat, split: nat, k: nat)
    requires tileb == Pow2(j) && (split == 0 || split == Pow2(k))
    ensures tileb / SlicePt(tileb, split) * SlicePt(tileb, split) == tileb
  {
    if tileb > split && split != 0 {
      if j < k {
        Pow2Mono(j, k);
      }
      Pow2Div(j, k);
      Pow2Div(j, j - k);
      Pow2Sum(k, j - k);
    }
  }

  /** The exponents of the tiling parameters. */
  datatype Exps = Exps(bpe: nat, nsamples: nat, split: nat, bankw: nat, bankh: nat, mtilea: nat, pipes: nat, banks: nat)

  ghost predicate PowersOfTwo(s: Surf, bpe: nat, split: nat, pipes: nat, banks: nat, e: Exps)
  {
    && bpe == Pow2(e.bpe) && s.nsamples == Pow2(e.nsamples) && (split == 0 || split == Pow2(e.split))
    && s.bankw == Pow2(e.bankw) && s.bankh == Pow2(e.bankh) && s.mtilea == Pow2(e.mtilea)
    && pipes == Pow2(e.pipes) && banks == Pow2(e.banks) && e.mtilea <= e.banks
  }

  lemma Product3(a: nat, b: nat, c: nat)
    ensures Pow2(a) * Pow2(b) * Pow2(c) == Pow2(a + b + c)
  {
    Pow2Sum(a, b);
    Pow2Sum(a + b, c);
  }

  lemma Eight()
    ensures Pow2(3) == 8 && Pow2(6) == 64
  {
    assert Pow2(1) == 2 && Pow2(2) == 4 && Pow2(4) == 16 && Pow2(5) == 32;
  }

  /** The tile sizes as powers of two. */
  lemma TilingPowers(s: Surf, bpe: nat, split: nat, pipes: nat, banks: nat, e: Exps)
    requires PowersOfTwo(s, bpe, split, pipes, banks, e)
    ensures var t := Tiling(s, bpe, split, pipes, banks);
      && t.mtilew == Pow2(3 + e.bankw + e.pipes + e.mtilea) && t.mtileh == Pow2(3 + e.bankh + e.banks - e.mtilea)
      && 8 * 8 * bpe * s.nsamples == Pow2(6 + e.bpe + e.nsamples)
  {
    Eight();
    Product3(3, e.bankw, e.pipes);
    Pow2Sum(3 + e.bankw + e.pipes, e.mtilea);
    Product3(3, e.bankh, e.banks);
    Pow2Div(3 + e.bankh + e.banks, e.mtilea);
    Product3(6, e.bpe, e.nsamples);
  }

  /** An aligned number of blocks is a whole number of macro tiles. */
  lemma WholeTiles(n: nat, k: nat, x: nat)
    requires x == Align(n, Pow2(k))
    ensures x == Pow2(k) * (x / Pow2(k))
  {
    AlignIsMultiple(n, k);
    Multiple(x, Pow2(k));
  }

  lemma Multiple(x: int, a: int)
    requires a > 0 && x % a == 0
    ensures x == a * (x / a)
  {
  }

  lemma RowsOfTiles(q: int, h: int, y: int)
    requires h > 0 && y == h * (y / h)
    ensures q * y / h == q * (y / h)
  {
    var r := y / h;
    assert q * y == h * (q * r);
    Halves(q * y, h, q * r);
  }

  /** The slice size from its parts: the linear formula exactly when a tile is split without loss. */
  lemma SliceParts(x: int, y: int, X: int, Y: int, W: int, H: int, w: int, h: int, mtileb: int, tb: int, sp: int,
      bytes: int)
    requires W == 8 * w && H == 8 * h && x == W * X && y == H * Y && mtileb == w * h * tb
    requires X >= 1 && Y >= 1 && w >= 1 && h >= 1
    ensures X * Y * mtileb * sp == x * y * bytes <==> tb * sp == 64 * bytes
  {
    var u := X * Y * (w * h);
    MulPositive(X, Y);
    MulPositive(w, h);
    MulPositive(X * Y, w * h);
    assert X * Y * (w * h * tb) * sp == u * (tb * sp);
    assert (8 * w * X) * (8 * h * Y) == 64 * u;
    assert u * (64 * bytes) == 64 * u * bytes;
    assert 8 * w * X == x && 8 * h * Y == y;
    CancelFactor(u, tb * sp, 64 * bytes);
  }

  lemma CancelFactor(u: int, a: int, b: int)
    requires u >= 1
    ensures u * a == u * b <==> a == b
  {
    if a < b {
      MulMono(a + 1, b, u);
      Distribute(u, a, 1);
    } else if b < a {
      MulMono(b + 1, a, u);
      Distribute(u, b, 1);
    }
  }

  lemma EightTimes(k: nat)
    requires k >= 3
    ensures Pow2(k) == 8 * (Pow2(k) / 8)
  {
    Eight();
    Pow2Div(k, 3);
    Multiple(Pow2(k), 8);
  }

  /** A whole number of tiles, at least one. */
  lemma SomeTiles(n: nat, k: nat)
    requires n >= 1
    ensures Align(n, Pow2(k)) == Pow2(k) * (Align(n, Pow2(k)) / Pow2(k)) && Align(n, Pow2(k)) / Pow2(k) >= 1
  {
    WholeTiles(n, k, Align(n, Pow2(k)));
    PositiveFactor(Align(n, Pow2(k)), Pow2(k), Align(n, Pow2(k)) / Pow2(k));
  }

  lemma PositiveFactor(x: int, a: int, q: int)
    requires x >= 1 && a > 0 && x == a * q
    ensures q >= 1
  {
    if q <= 0 {
      MulMono(q, 0, a);
    }
  }

  lemma MacroSlice(t: Tile, kw: nat, kh: nat, nx: nat, ny: nat, tileb: int, bytes: int)
    requires kw >= 3 && kh >= 3 && t.mtilew == Pow2(kw) && t.mtileh == Pow2(kh) && nx >= 1 && ny >= 1
    requires tileb == 64 * bytes && t.slicePt >= 1 && t.mtileb == (t.mtilew / 8) * (t.mtileh / 8) * (tileb / t.slicePt)
    ensures var x := Align(nx, t.mtilew); var y := Align(ny, t.mtileh);
      x / t.mtilew * y / t.mtileh * t.mtileb * t.slicePt == x * y * bytes <==> tileb % t.slicePt == 0
  {
    var x := Align(nx, t.mtilew);
    var y := Align(ny, t.mtileh);
    SomeTiles(nx, kw);
    SomeTiles(ny, kh);
    RowsOfTiles(x / t.mtilew, t.mtileh, y);
    EightTimes(kw);
    EightTimes(kh);
    SliceParts(x, y, x / t.mtilew, y / t.mtileh, t.mtilew, t.mtileh, t.mtilew / 8, t.mtileh / 8, t.mtileb,
      tileb / t.slicePt, t.slicePt, bytes);
    SplitLoss(tileb, t.slicePt);
  }

  lemma SplitLoss(tileb: int, n: int)
    requires n >= 1
    ensures tileb / n * n == tileb <==> tileb % n == 0
  {
    assert tileb == tileb / n * n + tileb % n;
  }

  /** What a caller can check: a tile is not split, or its bytes divide evenly among the slices. */
  predicate SplitsEvenly(bpe: nat, nsamples: nat, split: nat)
  {
    var tileb := 8 * 8 * bpe * nsamples;
    split == 0 || tileb <= split || tileb % SlicePt(tileb, split) == 0
  }

  lemma EvenSplit(bpe: nat, nsamples: nat, split: nat)
    ensures var tileb := 8 * 8 * bpe * nsamples; SplitsEvenly(bpe, nsamples, split) <==>
      tileb % SlicePt(tileb, split) == 0
  {
  }

  /** Tiles whose sides are powers of two, of 8 at least, as the sanity checks make sure. */
  ghost predicate PowerSides(t: Tile)
  {
    && (exists k: nat :: k >= 3 && t.mtilew == Pow2(k)) && (exists k: nat :: k >= 3 && t.mtileh == Pow2(k))
  }

  lemma SixtyFour(a: int, b: int)
    ensures 8 * 8 * a * b == 64 * (a * b)
  {
  }

  lemma MacroFields(s: Surf, px: nat, py: nat, pz: nat, nx: nat, ny: nat, nz: nat, bpe: nat, t: Tile, offset: int)
    requires t.mtilew >= 1 && t.mtileh >= 1 && MacroLevel(s, px, py, pz, nx, ny, nz, bpe, t, offset).Some?
    ensures var l := MacroLevel(s, px, py, pz, nx, ny, nz, bpe, t, offset).value;
      && l.nblkX == Align(nx, t.mtilew) && l.nblkY == Align(ny, t.mtileh) && l.nblkZ == Align(nz, 1)
      && l.slice == l.nblkX / t.mtilew * l.nblkY / t.mtileh * t.mtileb * t.slicePt
  {
  }

  /** A macro tiled slice has the size of the linear formula exactly when tiles split evenly,
      in spite of four integer divisions. */
  lemma MacroExactIff(s: Surf, px: nat, py: nat, pz: nat, nx: nat, ny: nat, nz: nat, bpe: nat, split: nat, pipes: nat,
      banks: nat, offset: int)
    requires ProperTiles(s, pipes, banks) && PowerSides(Tiling(s, bpe, split, pipes, banks)) && nx >= 1 && ny >= 1
    requires MacroLevel(s, px, py, pz, nx, ny, nz, bpe, Tiling(s, bpe, split, pipes, banks), offset).Some?
    ensures var l := MacroLevel(s, px, py, pz, nx, ny, nz, bpe, Tiling(s, bpe, split, pipes, banks), offset).value;
      l.slice == l.nblkX * l.nblkY * (bpe * s.nsamples) <==> SplitsEvenly(bpe, s.nsamples, split)
  {
    var t := Tiling(s, bpe, split, pipes, banks);
    var kw: nat :| kw >= 3 && t.mtilew == Pow2(kw);
    var kh: nat :| kh >= 3 && t.mtileh == Pow2(kh);
    SixtyFour(bpe, s.nsamples);
    MacroFields(s, px, py, pz, nx, ny, nz, bpe, t, offset);
    MacroSlice(t, kw, kh, nx, ny, 8 * 8 * bpe * s.nsamples, bpe * s.nsamples);
    EvenSplit(bpe, s.nsamples, split);
  }

  lemma MacroSome(s: Surf, px: nat, py: nat, pz: nat, nx: nat, ny: nat, nz: nat, bpe: nat, t: Tile, offset: int)
    requires t.mtilew >= 1 && t.mtileh >= 1 && nx >= t.mtilew && ny >= t.mtileh
    ensures MacroLevel(s, px, py, pz, nx, ny, nz, bpe, t, offset).Some?
  {
  }

  /** With powers of two throughout the sides and the split are even. */
  lemma PowersSplit(s: Surf, bpe: nat, split: nat, pipes: nat, banks: nat, e: Exps)
    requires PowersOfTwo(s, bpe, split, pipes, banks, e)
    ensures PowerSides(Tiling(s, bpe, split, pipes, banks)) && SplitsEvenly(bpe, s.nsamples, split)
  {
    TilingPowers(s, bpe, split, pipes, banks, e);
    var tileb := 8 * 8 * bpe * s.nsamples;
    SplitExact(tileb, 6 + e.bpe + e.nsamples, split, e.split);
    SplitLoss(tileb, SlicePt(tileb, split));
    EvenSplit(bpe, s.nsamples, split);
  }

  /** So counting macro tiles gives the same slice size as counting bytes. */
  lemma MacroExact(s: Surf, px: nat, py: nat, pz: nat, nx: nat, ny: nat, nz: nat, bpe: nat, split: nat, pipes: nat,
      banks: nat, e: Exps, offset: int)
    requires PowersOfTwo(s, bpe, split, pipes, banks, e) && nx >= 1 && ny >= 1
    requires ProperTiles(s, pipes, banks)
    requires Tiling(s, bpe, split, pipes, banks).mtilew >= 1 && Tiling(s, bpe, split, pipes, banks).mtileh >= 1
    requires MacroLevel(s, px, py, pz, nx, ny, nz, bpe, Tiling(s, bpe, split, pipes, banks), offset).Some?
    ensures var l := MacroLevel(s, px, py, pz, nx, ny, nz, bpe, Tiling(s, bpe, split, pipes, banks), offset).value;
      l.slice == l.nblkX * l.nblkY * (bpe * s.nsamples)
  {
    PowersSplit(s, bpe, split, pipes, banks, e);
    MacroExactIff(s, px, py, pz, nx, ny, nz, bpe, split, pipes, banks, offset);
  }
}
