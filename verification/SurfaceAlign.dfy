/** When the mip levels of evergreen surfaces are aligned, for the parameters that eg_surface_sanity lets
    through (radeon/radeon_surface.c). */
module SurfaceAlign {
  import opened MmLayout
  import opened Arithmetic
  import opened SurfaceMath
  import opened Surface
  import opened SurfaceTrees

  // ----- the parameters that are accepted

  predicate UpToEight(n: nat) { n == 1 || n == 2 || n == 4 || n == 8 }

  /** The hardware of eg_init_hw_info with 2D tiling. */
  predicate EgHw(hw: Hw)
  {
    && UpToEight(hw.numPipes) && (hw.numBanks == 4 || hw.numBanks == 8 || hw.numBanks == 16)
    && (hw.groupBytes == 256 || hw.groupBytes == 512)
  }

  predicate Split(n: nat)
  {
    n == 64 || n == 128 || n == 256 || n == 512 || n == 1024 || n == 2048 || n == 4096
  }

  /** The tile parameters that pass eg_surface_sanity, and the number of samples that passes
      radeon_surface_sanity. */
  predicate SaneTiles(s: Surf, hw: Hw)
  {
    && s.bpe >= 1 && UpToEight(s.nsamples) && Split(s.tileSplit)
    && UpToEight(s.mtilea) && s.mtilea <= hw.numBanks && UpToEight(s.bankw) && UpToEight(s.bankh)
    && Least(s.tileSplit, 64 * s.bpe * s.nsamples) * s.bankh * s.bankw >= hw.groupBytes
  }

  function Least(a: nat, b: nat): nat { if a < b then a else b }

  /** A surface for 2D tiling that passes both checks. */
  ghost predicate EgSane(s: Surf, hw: Hw)
  {
    && SaneTiles(s, hw) && s.lastLevel <= 15 && s.blkW >= 1 && s.blkH >= 1 && s.blkD >= 1
    && 1 <= s.npixX <= 16384 && 1 <= s.npixY <= 16384 && 1 <= s.npixZ <= 16384
    && (IsPow2(s.arraySize) || s.arraySize == 6)
  }

  lemma SmallPower(n: nat) returns (e: nat)
    requires UpToEight(n) || n == 16
    ensures n == Pow2(e) && e <= 4 && (UpToEight(n) ==> e <= 3)
  {
    Eight();
    e := if n == 1 then 0 else if n == 2 then 1 else if n == 4 then 2 else if n == 8 then 3 else 4;
    assert Pow2(1) == 2 && Pow2(2) == 4 && Pow2(4) == 16;
  }

  lemma SplitPower(n: nat) returns (e: nat)
    requires Split(n)
    ensures n == Pow2(e) && 6 <= e <= 12
  {
    Eight();
    e := if n == 64 then 6 else if n == 128 then 7 else if n == 256 then 8 else if n == 512 then 9
      else if n == 1024 then 10 else if n == 2048 then 11 else 12;
    assert Pow2(7) == 128 && Pow2(8) == 256 && Pow2(9) == 512;
    assert Pow2(10) == 1024 && Pow2(11) == 2048 && Pow2(12) == 4096;
  }

  lemma SaneProper(s: Surf, hw: Hw)
    requires EgHw(hw) && EgSane(s, hw)
    ensures Proper(s) && ProperTiles(s, hw.numPipes, hw.numBanks)
  {
  }

  // ----- the bytes of a tile

  /** The bytes of all samples of an 8 by 8 tile. */
  function Bytes(s: Surf): (n: nat)
    ensures n == 8 * 8 * s.bpe * s.nsamples
  {
    Mul(8 * 8 * s.bpe, s.nsamples)
  }

  /** The bytes of a slice of a tile. */
  function TileB(s: Surf): int { Bytes(s) / SlicePt(Bytes(s), s.tileSplit) }

  /** The tile bytes that lie in one slice, in terms of the split. */
  lemma SliceBytes(b: nat, split: nat, c: int, t: int)
    requires b >= 1 && split >= 1 && c == SlicePt(b, split) && t == b / c
    ensures t >= Least(split, b) && c * t <= b
    ensures b <= split ==> c == 1 && t == b
    ensures b > split ==> c == b / split && split <= t && c * (t - split) < split
  {
    if b > split {
      SplitBytes(b, split, c, t);
    } else {
      DivUnique(b, 1, b, 0);
    }
  }

  lemma SplitBytes(b: nat, split: nat, c: int, t: int)
    requires split >= 1 && c >= 1 && c == b / split && t == b / c
    ensures split <= t && c * t <= b && c * (t - split) < split
  {
    var m, n := c * split, c * t;
    assert b == m + b % split;
    assert b == n + b % c;
    DivUp(b, c, split);
    assert c * (t - split) == n - m;
  }

  lemma DivUp(b: int, c: int, x: int)
    requires c >= 1 && b >= c * x
    ensures b / c >= x
  {
    var q := b / c;
    assert b == c * q + b % c;
    if q < x {
      MulMono(q + 1, x, c);
      Distribute(c, q, 1);
    }
  }

  lemma PowersApart(j: nat, k: nat)
    ensures Pow2(k) <= Pow2(j) < 2 * Pow2(k) ==> j == k
  {
    if j < k {
      Pow2Mono(j + 1, k);
    } else if j > k {
      Pow2Mono(k + 1, j);
    }
  }

  /** A power of two among the tile bytes of a split tile is the split itself. */
  lemma SplitSlice(b: nat, k: nat, c: int, t: int)
    requires b > Pow2(k) && c == SlicePt(b, Pow2(k)) && t == b / c
    ensures IsPow2(t) <==> b % Pow2(k) < b / Pow2(k)
  {
    SliceBytes(b, Pow2(k), c, t);
    SliceBelow(c, t, Pow2(k));
    SplitEven(b, Pow2(k), c, t);
    assert t == Pow2(k) ==> IsPow2(t);
    if j: nat :| t == Pow2(j) {
      PowersApart(j, k);
    }
  }

  lemma SplitEven(b: nat, split: nat, c: int, t: int)
    requires split >= 1 && c >= 1 && c == b / split && t == b / c
    ensures t == split <==> b % split < c
  {
    var r := b % split;
    assert b == split * c + r;
    assert b == c * t + b % c;
    if r < c {
      DivUnique(b, c, split, r);
    }
  }

  lemma SliceBelow(c: int, t: int, split: int)
    requires c >= 1 && c * (t - split) < split && split <= t
    ensures t < 2 * split
  {
    if t > split {
      MulMono(1, c, t - split);
    }
  }

  lemma {:induction false} HalfPower(n: nat, k: nat, j: nat)
    requires Pow2(k) * n == Pow2(j)
    ensures IsPow2(n)
  {
    if k > 0 {
      assert Pow2(k) * n == 2 * (Pow2(k - 1) * n);
      if j > 0 {
        HalfPower(n, k - 1, j - 1);
      }
    }
  }

  lemma TimesPower(n: nat, k: nat)
    requires IsPow2(n)
    ensures IsPow2(Pow2(k) * n)
  {
    var j: nat :| n == Pow2(j);
    Pow2Sum(k, j);
  }

  lemma WholePower(n: nat, k: nat)
    ensures IsPow2(Pow2(k) * n) <==> IsPow2(n)
  {
    if IsPow2(n) {
      TimesPower(n, k);
    }
    if j: nat :| Pow2(k) * n == Pow2(j) {
      HalfPower(n, k, j);
    }
  }

  lemma BytesPower(s: Surf)
    requires UpToEight(s.nsamples)
    ensures IsPow2(Bytes(s)) <==> IsPow2(s.bpe)
  {
    var m := SmallPower(s.nsamples);
    Eight();
    Pow2Sum(6, m);
    assert Bytes(s) == 64 * s.nsamples * s.bpe;
    WholePower(s.bpe, 6 + m);
  }

  /** The tile bytes are a power of two exactly when the bytes per element are, or, for a tile that is split,
      when the split leaves less than its number of slices. */
  lemma TilePowerIff(s: Surf, hw: Hw)
    requires SaneTiles(s, hw)
    ensures IsPow2(TileB(s)) <==>
      if Bytes(s) <= s.tileSplit then IsPow2(s.bpe) else Bytes(s) % s.tileSplit < Bytes(s) / s.tileSplit
  {
    var k := SplitPower(s.tileSplit);
    if Bytes(s) <= s.tileSplit {
      DivUnique(Bytes(s), 1, Bytes(s), 0);
      BytesPower(s);
    } else {
      SplitSlice(Bytes(s), k, SlicePt(Bytes(s), s.tileSplit), TileB(s));
    }
  }

  /** So a split may save what the bytes per element spoil: twelve bytes with a split of 256. */
  lemma SplitSaves(s: Surf, hw: Hw)
    requires SaneTiles(s, hw) && s.bpe == 12 && s.nsamples == 1 && s.tileSplit == 256
    ensures IsPow2(TileB(s)) && !IsPow2(s.bpe)
  {
    TilePowerIff(s, hw);
    NoPower(12, 3);
  }

  lemma NoPower(n: nat, k: nat)
    requires Pow2(k) < n < 2 * Pow2(k)
    ensures !IsPow2(n)
  {
    if IsPow2(n) {
      var j: nat :| n == Pow2(j);
      PowersApart(j, k);
    }
  }

  // ----- macro tiles

  function EgTiling(s: Surf, hw: Hw): Tile
    requires s.mtilea >= 1
  {
    Tiling(s, s.bpe, s.tileSplit, hw.numPipes, hw.numBanks)
  }

  lemma SaneSides(s: Surf, hw: Hw) returns (bw: nat, bh: nat, ma: nat, pi: nat, ba: nat)
    requires EgHw(hw) && SaneTiles(s, hw)
    ensures s.bankw == Pow2(bw) && s.bankh == Pow2(bh) && s.mtilea == Pow2(ma)
    ensures hw.numPipes == Pow2(pi) && hw.numBanks == Pow2(ba) && ma <= ba
    ensures bw <= 3 && bh <= 3 && ma <= 3 && pi <= 3 && ba <= 4
    ensures EgTiling(s, hw).mtilew == Pow2(3 + bw + pi + ma) && EgTiling(s, hw).mtileh == Pow2(3 + bh + ba - ma)
  {
    bw := SmallPower(s.bankw);
    bh := SmallPower(s.bankh);
    ma := SmallPower(s.mtilea);
    pi := SmallPower(hw.numPipes);
    ba := SmallPower(hw.numBanks);
    var ns := SmallPower(s.nsamples);
    var sp := SplitPower(s.tileSplit);
    if ba < ma {
      Pow2Mono(ba + 1, ma);
    }
    TilingPowers(s, 1, s.tileSplit, hw.numPipes, hw.numBanks, Exps(0, ns, sp, bw, bh, ma, pi, ba));
  }

  lemma EighthPower(n: int, k: nat)
    requires n == Pow2(3 + k)
    ensures n / 8 == Pow2(k)
  {
    Eight();
    Pow2Sum(3, k);
    DivUnique(n, 8, Pow2(k), 0);
  }

  lemma MacroProduct(s: Surf, hw: Hw, x: nat, y: nat)
    requires s.mtilea >= 1
    requires EgTiling(s, hw).mtilew == Pow2(3 + x) && EgTiling(s, hw).mtileh == Pow2(3 + y)
    ensures EgTiling(s, hw).mtileb == Pow2(x + y) * TileB(s)
  {
    EighthPower(EgTiling(s, hw).mtilew, x);
    EighthPower(EgTiling(s, hw).mtileh, y);
    Pow2Sum(x, y);
  }

  lemma TileBAtLeast(s: Surf)
    requires s.bpe >= 1 && s.nsamples >= 1 && s.tileSplit >= 1
    ensures TileB(s) >= 1 && TileB(s) >= Least(s.tileSplit, 64 * s.bpe * s.nsamples)
  {
    MulPositive(8 * 8 * s.bpe, s.nsamples);
    SliceBytes(Bytes(s), s.tileSplit, SlicePt(Bytes(s), s.tileSplit), TileB(s));
  }

  /** A macro tile has a power of two of tiles, and at least 256 bytes. */
  lemma MacroBytes(s: Surf, hw: Hw) returns (f: nat)
    requires EgHw(hw) && SaneTiles(s, hw)
    ensures EgTiling(s, hw).mtileb == Pow2(f) * TileB(s) >= 256 && TileB(s) >= 1
  {
    var bw, bh, ma, pi, ba := SaneSides(s, hw);
    f := bw + pi + ma + (bh + ba - ma);
    MacroProduct(s, hw, bw + pi + ma, bh + ba - ma);
    TileBAtLeast(s);
    Product3(bh, bw, pi + ba);
    assert f == bh + bw + (pi + ba);
    EnoughBytes(Least(s.tileSplit, 64 * s.bpe * s.nsamples), s.bankh, s.bankw, Pow2(pi + ba), TileB(s));
  }

  lemma EnoughBytes(l: nat, h: nat, w: nat, r: nat, t: nat)
    requires l * h * w >= 256 && r >= 1 && t >= l && h >= 1 && w >= 1
    ensures h * w * r * t >= 256
  {
    var n := h * w;
    MulPositive(h, w);
    assert l * h * w == l * n;
    MulMono(l, t, n);
    MulNonNeg(n, t);
    MulMono(1, r, n * t + 1);
    assert n * r * t == r * (n * t);
    if n * t > 0 {
      MulMono(1, r, n * t);
    }
  }

  lemma SameHighest(t: int, h: nat, k: nat)
    ensures Pow2(h) <= t < 2 * Pow2(h) && Pow2(k) <= t < 2 * Pow2(k) ==> h == k
  {
    if h < k {
      Pow2Mono(h + 1, k);
    } else if k < h {
      Pow2Mono(k + 1, h);
    }
  }

  /** If the tile bytes are no power of two, then what a macro tile holds in all its slices has a bit below
      the highest one of the tile bytes. */
  lemma LowBit(b: nat, k: nat, c: int, t: nat, w: nat, q: nat, h: nat)
    requires b >= 1 && c == SlicePt(b, Pow2(k)) && t == b / c && !IsPow2(t) && c * t == Pow2(w) * q && q % 2 == 1
    requires Pow2(h) <= t < 2 * Pow2(h)
    ensures w < h
  {
    SliceBytes(b, Pow2(k), c, t);
    if b <= Pow2(k) {
      OddAbove(t, w, q, h);
    } else {
      SliceBelow(c, t, Pow2(k));
      SameHighest(t, h, k);
      assert t != Pow2(k);
      SplitLow(k, c, t, w, q);
    }
  }

  lemma OddAbove(t: nat, w: nat, q: nat, h: nat)
    requires t == Pow2(w) * q && q % 2 == 1 && !IsPow2(t) && t < 2 * Pow2(h)
    ensures w < h
  {
    assert q != 1;
    MulMono(2, q, Pow2(w));
    if w >= h {
      Pow2Mono(h, w);
    }
  }

  lemma SplitLow(k: nat, c: int, t: nat, w: nat, q: nat)
    requires c >= 1 && t > Pow2(k) && c * (t - Pow2(k)) < Pow2(k) && c * t == Pow2(w) * q
    ensures w < k
  {
    if w >= k {
      Pow2Sum(k, w - k);
      Associate(Pow2(k), Pow2(w - k), q);
      NoMultiple(Pow2(k), Pow2(w - k) * q, c, t);
    }
  }

  lemma Associate(a: int, b: int, c: int)
    ensures a * b * c == a * (b * c)
  {
  }

  lemma NoMultiple(p: nat, m: int, c: int, t: int)
    requires p >= 1 && c >= 1 && t > p
    ensures !(c * t == p * m && c * (t - p) < p)
  {
    if c * t == p * m && c * (t - p) < p {
      MulPositive(c, t - p);
      assert c * (t - p) == p * (m - c);
      if m - c >= 1 {
        MulMono(1, m - c, p);
      } else {
        MulMono(m - c, 0, p);
      }
    }
  }

  // ----- a surface whose level 1 is moved

  lemma Regroup(pf: nat, pw: nat, q: nat, pr: nat, ph: nat, a: nat, c: int, t: nat)
    requires a == pf * t && c * t == pw * q && ph == 2 * (pw * pr)
    ensures 6 * (a * c) * pr == pf * ph * (3 * q)
  {
    assert a * c == pf * (c * t);
    assert a * c == pf * (pw * q);
    Associate(pf, pw, q);
    var n := pf * q;
    assert a * c == n * pw;
    assert 6 * (a * c) * pr == 6 * (n * (pw * pr));
    assert pf * ph * (3 * q) == 3 * (n * ph);
    assert n * ph == 2 * (n * (pw * pr));
  }

  lemma Between(p: int, lo: int, t: int)
    requires p >= 1 && lo <= t < 2 * lo
    ensures p * lo <= p * t < 2 * (p * lo)
  {
    MulMono(lo, t, p);
    MulMono(t + 1, 2 * lo, p);
    Distribute(p, t, 1);
    assert p * (2 * lo) == 2 * (p * lo);
  }

  lemma HighestOfProduct(f: nat, t: nat, h: nat)
    requires Pow2(h) <= t < 2 * Pow2(h)
    ensures Pow2(f + h) <= Pow2(f) * t < 2 * Pow2(f + h)
  {
    Pow2Sum(f, h);
    Between(Pow2(f), Pow2(h), t);
  }

  lemma SixTimes(a: int, c: int, n: int)
    ensures 6 * (a * c) * n == a * (6 * c * n)
  {
    Associate(a, c, n);
    Associate(6, c, n);
    assert 6 * (a * c) * n == 6 * (a * c * n);
    assert a * (6 * c * n) == 6 * (a * (c * n));
  }

  /** Where the level ends, as an odd multiple of the highest bit of `a`. */
  lemma EndBits(a: nat, f: nat, c: int, t: nat, w: nat, q: nat, h: nat, n: nat, v: int)
    requires a == Pow2(f) * t && c * t == Pow2(w) * q && q % 2 == 1 && w < h && n == Pow2(h - 1 - w)
    requires v == 6 * (a * c) * n
    ensures v == Pow2(f + h) * (3 * q) && 3 * q % 2 == 1 && v >= 0
  {
    Pow2Sum(w, h - 1 - w);
    Pow2Sum(f, h);
    Regroup(Pow2(f), Pow2(w), q, n, Pow2(h), a, c, t);
    MulNonNeg(Pow2(f + h), 3 * q);
  }

  /** Six macro tiles of `a` bytes in each of `c` slices of each of `n` array elements end where ALIGN does
      not find a multiple of `a`, for some number `n` of elements. */
  lemma EndMoves(a: nat, f: nat, b: nat, k: nat, c: int, t: nat) returns (n: nat)
    requires b >= 1 && c == SlicePt(b, Pow2(k)) && t == b / c && t >= 1 && !IsPow2(t) && a == Pow2(f) * t && a > 0
    ensures IsPow2(n) && 6 * (a * c) * n >= 0 && Align(6 * (a * c) * n, a) % a != 0
  {
    MulPositive(c, t);
    var w, q := OddPart(c * t);
    var h := HighestBit(t);
    LowBit(b, k, c, t, w, q, h);
    n := Pow2(h - 1 - w);
    var v := 6 * (a * c) * n;
    EndBits(a, f, c, t, w, q, h, n, v);
    HighestOfProduct(f, t, h);
    WholePower(t, f);
    SixTimes(a, c, n);
    MultipleOf(a, v, 6 * c * n);
    AlignMoves(v, a, f + h, 3 * q);
  }

  lemma MultipleOf(a: nat, v: nat, m: int)
    requires a > 0 && v == a * m
    ensures v % a == 0
  {
    DivUnique(v, a, m, 0);
  }

  /** The surface of three by two macro tiles, with a second level and `n` array elements. */
  function Wide(s: Surf, hw: Hw, n: nat): Surf
    requires s.mtilea >= 1 && EgTiling(s, hw).mtilew >= 0 && EgTiling(s, hw).mtileh >= 0
  {
    s.(npixX := 3 * EgTiling(s, hw).mtilew, npixY := 2 * EgTiling(s, hw).mtileh, npixZ := 1, blkW := 1, blkH := 1,
       blkD := 1, lastLevel := 1, arraySize := n)
  }

  lemma WideSane(s: Surf, hw: Hw, n: nat)
    requires EgHw(hw) && SaneTiles(s, hw) && IsPow2(n)
    ensures EgTiling(s, hw).mtilew >= 1 && EgTiling(s, hw).mtileh >= 1
    ensures EgSane(Wide(s, hw, n), hw) && EgTiling(Wide(s, hw, n), hw) == EgTiling(s, hw)
  {
    var bw, bh, ma, pi, ba := SaneSides(s, hw);
    Pow2Mono(3 + bw + pi + ma, 12);
    Pow2Mono(3 + bh + ba - ma, 10);
    assert Pow2(10) == 1024 && Pow2(11) == 2048 && Pow2(12) == 4096;
  }

  // ----- levels of whole macro tiles

  lemma MipZero(n: nat)
    requires n >= 1
    ensures MipMinify(n, 0) == n && Blocks(n, 1) == n
  {
    assert Shift(n, 0) == n;
  }

  lemma LevelZero(s: Surf, t: Tile)
    requires s.npixX >= 1 && s.npixY >= 1 && s.npixZ == 1 && s.blkW == s.blkH == s.blkD == 1 && Proper(s)
    requires t.mtilew >= 1 && t.mtileh >= 1
    ensures EgMinify(s, s.bpe, 0, t, 0) == MacroLevel(s, s.npixX, s.npixY, 1, s.npixX, s.npixY, 1, s.bpe, t, 0)
  {
    MipZero(s.npixX);
    MipZero(s.npixY);
    MipZero(s.npixZ);
  }

  lemma WholeAlign(v: nat, k: nat, q: nat)
    requires v == Pow2(k) * q
    ensures Align(v, Pow2(k)) == v
  {
    AlignIsMultiple(v, k);
    WholeUp(v, Pow2(k), q);
  }

  lemma WholeUp(v: int, a: int, q: int)
    requires a >= 1 && v == a * q
    ensures AlignUp(v, a) == v
  {
    DivUnique(v + a - 1, a, q, a - 1);
  }

  lemma TileCount(x: int, y: int, w: int, h: int, p: int, q: int, b: int, c: int)
    requires w >= 1 && h >= 1 && x == w * p && y == h * q
    ensures x / w * y / h * b * c == p * q * b * c
  {
    DivUnique(x, w, p, 0);
    assert p * y == h * (p * q);
    DivUnique(p * y, h, p * q, 0);
  }

  /** `x` by `y` blocks are `p` by `q` macro tiles. */
  ghost predicate InTiles(t: Tile, x: nat, y: nat, p: nat, q: nat)
  {
    && x == t.mtilew * p && y == t.mtileh * q && p >= 1 && q >= 1
    && t.mtilew >= 1 && t.mtileh >= 1 && IsPow2(t.mtilew) && IsPow2(t.mtileh)
  }

  lemma InTilesLarge(t: Tile, x: nat, y: nat, p: nat, q: nat)
    requires InTiles(t, x, y, p, q)
    ensures x >= t.mtilew && y >= t.mtileh
  {
    MulMono(1, p, t.mtilew);
    MulMono(1, q, t.mtileh);
  }

  lemma WholeFields(l: Level, t: Tile, x: nat, y: nat, p: nat, q: nat)
    requires InTiles(t, x, y, p, q) && l.nblkX == Align(x, t.mtilew) && l.nblkY == Align(y, t.mtileh)
    requires l.slice == l.nblkX / t.mtilew * l.nblkY / t.mtileh * t.mtileb * t.slicePt
    ensures l.nblkX == x && l.nblkY == y && l.slice == p * q * t.mtileb * t.slicePt
  {
    var kw: nat :| t.mtilew == Pow2(kw);
    var kh: nat :| t.mtileh == Pow2(kh);
    WholeAlign(x, kw, p);
    WholeAlign(y, kh, q);
    TileCount(x, y, t.mtilew, t.mtileh, p, q, t.mtileb, t.slicePt);
  }

  /** A level of `p` by `q` macro tiles. */
  ghost predicate WholeAt(l: Option<Level>, t: Tile, x: nat, y: nat, p: nat, q: nat)
  {
    && l.Some? && l.value.slice == p * q * t.mtileb * t.slicePt && l.value.nblkX == x && l.value.nblkY == y
    && l.value.nblkZ == Align(1, 1) && l.value.offset == 0
  }

  lemma WholeLevel(s: Surf, t: Tile, x: nat, y: nat, p: nat, q: nat)
    requires InTiles(t, x, y, p, q)
    ensures t.mtilew >= 1 && t.mtileh >= 1 && WholeAt(MacroLevel(s, x, y, 1, x, y, 1, s.bpe, t, 0), t, x, y, p, q)
  {
    InTilesLarge(t, x, y, p, q);
    MacroSome(s, x, y, 1, x, y, 1, s.bpe, t, 0);
    MacroFields(s, x, y, 1, x, y, 1, s.bpe, t, 0);
    WholeFields(MacroLevel(s, x, y, 1, x, y, 1, s.bpe, t, 0).value, t, x, y, p, q);
  }

  lemma OneByOne()
    ensures Align(1, 1) == 1
  {
    WholeAlign(1, 0, 1);
  }

  /** Level 0 of a surface of `p` by `q` macro tiles. */
  lemma WholeSurface(s: Surf, t: Tile, p: nat, q: nat)
    requires InTiles(t, s.npixX, s.npixY, p, q) && s.npixX >= 1 && s.npixY >= 1 && s.npixZ == 1
    requires s.blkW == s.blkH == s.blkD == 1 && Proper(s)
    ensures t.mtilew >= 1 && t.mtileh >= 1
    ensures WholeAt(EgMinify(s, s.bpe, 0, t, 0), t, s.npixX, s.npixY, p, q) == true
  {
    LevelZero(s, t);
    WholeLevel(s, t, s.npixX, s.npixY, p, q);
  }

  /** The level above is large enough for macro tiles as well. */
  lemma NextLarge(s: Surf, t: Tile, offset: int)
    requires t.mtilew >= 1 && t.mtileh >= 1 && Proper(s) && s.npixX >= 2 * t.mtilew && s.npixY >= 2 * t.mtileh
    requires s.blkW == s.blkH == 1
    ensures EgMinify(s, s.bpe, 1, t, offset).Some?
  {
    HalfLarge(s.npixX, t.mtilew);
    HalfLarge(s.npixY, t.mtileh);
  }

  lemma HalfLarge(n: nat, w: int)
    requires n >= 2 * w && w >= 1
    ensures MipMinify(n, 1) >= w && Blocks(MipMinify(n, 1), 1) == MipMinify(n, 1)
  {
    assert Shift(n, 1) == n / 2;
    NextPowerOfTwoIsLeast(n / 2, 0);
  }

  // ----- where level 1 begins

  /** `ls` is the tree of eg_surface_init_2d for a new surface that has a second level. */
  ghost predicate EgLaid(s: Surf, hw: Hw, ls: seq<Level>, mid: nat, align: nat)
  {
    && EgSane(s, hw) && Proper(s) && ProperTiles(s, hw.numPipes, hw.numBanks) && s.lastLevel >= 1
    && EgTree(s, hw, ls, s.bpe, s.tileSplit, 0, 0, mid, 0, align) == true
  }

  /** The same tile parameters. */
  predicate SameTiles(p: Surf, s: Surf)
  {
    && s.bpe == p.bpe && s.nsamples == p.nsamples && s.tileSplit == p.tileSplit
    && s.bankw == p.bankw && s.bankh == p.bankh && s.mtilea == p.mtilea
  }

  ghost predicate LevelOneAligned(ls: seq<Level>, align: nat)
  {
    |ls| >= 2 && align > 0 && ls[1].offset % align == 0
  }

  /** eg_surface_init_2d at offset 0 of a new surface. */
  lemma FromZero(s: Surf, hw: Hw, ls: seq<Level>, bpe: nat, split: nat, mid: nat, align: nat)
    requires Proper(s) && bpe >= 1 && ProperTiles(s, hw.numPipes, hw.numBanks)
    ensures var k := EgTiles(s, bpe, split, hw.numPipes, hw.numBanks);
      EgTree(s, hw, ls, bpe, split, 0, 0, mid, 0, align) <==>
        && Tree2d(s, ls, 0, mid, k, FlatTiles(s, hw, bpe), 0, align) == true
        && align == if mid == 0 then Max(TileAlign(k.t), Align1d(hw)) else TileAlign(k.t)
  {
    AlignedZero(TileAlign(EgTiles(s, bpe, split, hw.numPipes, hw.numBanks).t));
    AlignedZero(Align1d(hw));
  }

  lemma MaxPower(a: nat, b: nat)
    requires IsPow2(a) && IsPow2(b)
    ensures IsPow2(Max(a, b))
  {
  }

  lemma AlignPower(s: Surf, hw: Hw)
    requires EgHw(hw) && SaneTiles(s, hw)
    ensures EgTiling(s, hw).mtileb >= 256 && TileAlign(EgTiling(s, hw)) == EgTiling(s, hw).mtileb
    ensures IsPow2(TileB(s)) ==> IsPow2(TileAlign(EgTiling(s, hw))) && IsPow2(Align1d(hw))
  {
    var f := MacroBytes(s, hw);
    WholePower(TileB(s), f);
    var e := SplitPower(256);
    var g := SplitPower(512);
  }

  /** A tree with a power of two for its alignment. */
  lemma PowerAligned(s: Surf, ls: seq<Level>, mid: nat, big: Kind, small: Kind, align: nat)
    requires Tree2d(s, ls, 0, mid, big, small, 0, align) && s.lastLevel >= 1 && IsPow2(align)
    ensures LevelOneAligned(ls, align)
  {
    var k: nat :| align == Pow2(k);
    Tree2dDisjoint(s, ls, 0, mid, big, small, 0, align);
    AlignedZero(Pow2(0));
    FirstTwoAligned(ls, s.lastLevel + 1, 0, 0, k, s.arraySize);
  }

  lemma AlignedIfPower(s: Surf, hw: Hw, ls: seq<Level>, mid: nat, align: nat)
    requires EgHw(hw) && EgLaid(s, hw, ls, mid, align) && IsPow2(TileB(s))
    ensures LevelOneAligned(ls, align)
  {
    FromZero(s, hw, ls, s.bpe, s.tileSplit, mid, align);
    AlignPower(s, hw);
    MaxPower(TileAlign(EgTiling(s, hw)), Align1d(hw));
    PowerAligned(s, ls, mid, EgTiles(s, s.bpe, s.tileSplit, hw.numPipes, hw.numBanks), FlatTiles(s, hw, s.bpe), align);
  }

  /** Two macro tiled levels, the second at the aligned end of the first. */
  lemma TwoLevels(s: Surf, k: Kind, small: Kind, a: Level, b: Level, align: nat)
    requires Good(s, k) && Good(s, small) && s.lastLevel == 1
    requires LevelOf(s, k, 0, 0) == Some(a) && LevelOf(s, k, 1, Aligned(a.End(s.arraySize), align)) == Some(b)
    ensures Tree2d(s, [a, b], 0, 2, k, small, 0, align)
  {
  }

  /** Two levels that are both large enough. */
  lemma TwoLarge(s: Surf, k: Kind, small: Kind, ls: seq<Level>, mid: nat, align: nat)
    requires Tree2d(s, ls, 0, mid, k, small, 0, align) && s.lastLevel == 1
    requires Good(s, k) && LargeEnough(s, k, 0) && LargeEnough(s, k, 1)
    ensures mid == 2 <= |ls| && Some(ls[0]) == LevelOf(s, k, 0, 0)
    ensures ls[1].offset == Aligned(ls[0].End(s.arraySize), align)
  {
    assert ls[0].offset == Where(ls, 0, 0, 0, align, s.arraySize);
    assert ls[1].offset == Where(ls, 0, 1, 0, align, s.arraySize);
  }

  /** A surface of three by two macro tiles. */
  ghost predicate Six(s: Surf, t: Tile)
  {
    && InTiles(t, s.npixX, s.npixY, 3, 2) == true && s.npixX >= 1 && s.npixY >= 1 && s.npixZ == 1
    && s.blkW == s.blkH == s.blkD == 1 && Proper(s) == true
  }

  /** What its levels are. */
  ghost predicate SixLevels(s: Surf, t: Tile, a: Level, b: Level, align: nat)
  {
    && Proper(s) && t.mtilew >= 1 && t.mtileh >= 1
    && EgMinify(s, s.bpe, 0, t, 0) == Some(a) && a.End(s.arraySize) == 6 * (t.mtileb * t.slicePt) * s.arraySize
    && EgMinify(s, s.bpe, 1, t, Aligned(a.End(s.arraySize), align)) == Some(b)
  }

  /** Level 0. */
  ghost predicate SixZero(a: Level, t: Tile)
  {
    a.offset == 0 && a.slice == 6 * (t.mtileb * t.slicePt) && a.nblkZ == 1
  }

  lemma OnePlane(l: Option<Level>, t: Tile, x: nat, y: nat, p: nat, q: nat)
    requires WholeAt(l, t, x, y, p, q)
    ensures l.Some? && l.value.nblkZ == 1
  {
    OneByOne();
  }

  lemma SixSlice(l: Option<Level>, t: Tile, x: nat, y: nat)
    requires WholeAt(l, t, x, y, 3, 2)
    ensures l.Some? && l.value.slice == 6 * (t.mtileb * t.slicePt)
  {
    SixSlices(t.mtileb, t.slicePt);
  }

  lemma SixBelow(l: Option<Level>, t: Tile, x: nat, y: nat) returns (a: Level)
    requires WholeAt(l, t, x, y, 3, 2)
    ensures l == Some(a) && SixZero(a, t) == true
  {
    a := l.value;
    OnePlane(l, t, x, y, 3, 2);
    SixSlice(l, t, x, y);
  }

  lemma SixSlices(b: int, c: int)
    ensures 3 * 2 * b * c == 6 * (b * c)
  {
  }

  lemma SixFirst(s: Surf, t: Tile) returns (a: Level)
    requires Six(s, t)
    ensures t.mtilew >= 1 && t.mtileh >= 1 && EgMinify(s, s.bpe, 0, t, 0) == Some(a) && SixZero(a, t) == true
  {
    WholeSurface(s, t, 3, 2);
    a := SixBelow(EgMinify(s, s.bpe, 0, t, 0), t, s.npixX, s.npixY);
  }

  lemma SixEnd(a: Level, t: Tile, n: nat)
    requires SixZero(a, t)
    ensures a.End(n) == 6 * (t.mtileb * t.slicePt) * n
  {
  }

  lemma SixTwo(s: Surf, t: Tile, align: nat) returns (a: Level, b: Level)
    requires Six(s, t)
    ensures SixLevels(s, t, a, b, align) == true
  {
    a := SixFirst(s, t);
    SixEnd(a, t, s.arraySize);
    SixNext(s, t, Aligned(a.End(s.arraySize), align));
    b := EgMinify(s, s.bpe, 1, t, Aligned(a.End(s.arraySize), align)).value;
  }

  lemma SixNext(s: Surf, t: Tile, offset: int)
    requires Six(s, t)
    ensures t.mtilew >= 1 && t.mtileh >= 1 && EgMinify(s, s.bpe, 1, t, offset).Some?
  {
    NextLarge(s, t, offset);
  }

  lemma WideSix(p: Surf, hw: Hw, n: nat)
    requires EgHw(hw) && SaneTiles(p, hw) && IsPow2(n)
    ensures EgTiling(p, hw).mtilew >= 1 && EgTiling(p, hw).mtileh >= 1
    ensures Six(Wide(p, hw, n), EgTiling(p, hw))
  {
    WideSane(p, hw, n);
    SaneProper(Wide(p, hw, n), hw);
    var bw, bh, ma, pi, ba := SaneSides(p, hw);
  }

  /** The tree of its two levels, for the alignment of a macro tile. */
  lemma SixTree(s: Surf, hw: Hw, a: Level, b: Level)
    requires Proper(s) && ProperTiles(s, hw.numPipes, hw.numBanks) && s.lastLevel == 1
    requires EgTiling(s, hw).mtileb >= 256
    requires SixLevels(s, EgTiling(s, hw), a, b, EgTiling(s, hw).mtileb)
    ensures EgTree(s, hw, [a, b], s.bpe, s.tileSplit, 0, 0, 2, 0, EgTiling(s, hw).mtileb)
  {
    var k := EgTiles(s, s.bpe, s.tileSplit, hw.numPipes, hw.numBanks);
    TwoLevels(s, k, FlatTiles(s, hw, s.bpe), a, b, k.t.mtileb);
    FromZero(s, hw, [a, b], s.bpe, s.tileSplit, 2, k.t.mtileb);
  }

  /** The end of a level 0 of six macro tiles in `n` array elements is moved by ALIGN. */
  ghost predicate Moves(t: Tile, n: nat)
  {
    var v := 6 * (t.mtileb * t.slicePt) * n;
    t.mtileb >= 256 && v >= 0 && Align(v, t.mtileb) % t.mtileb != 0
  }

  lemma UnevenCount(p: Surf, hw: Hw) returns (n: nat)
    requires EgHw(hw) && SaneTiles(p, hw) && !IsPow2(TileB(p))
    ensures IsPow2(n) && Moves(EgTiling(p, hw), n) == true
  {
    var f := MacroBytes(p, hw);
    var k := SplitPower(p.tileSplit);
    MulPositive(8 * 8 * p.bpe, p.nsamples);
    n := EndMoves(EgTiling(p, hw).mtileb, f, Bytes(p), k, EgTiling(p, hw).slicePt, TileB(p));
  }

  lemma MovedLevel(s: Surf, t: Tile, a: Level, b: Level)
    requires Moves(t, s.arraySize) && SixLevels(s, t, a, b, t.mtileb)
    ensures !LevelOneAligned([a, b], t.mtileb)
  {
  }

  /** A surface that is accepted, of six macro tiles `t` and two levels, with `n` array elements. */
  ghost predicate AcceptedSix(p: Surf, s: Surf, hw: Hw, t: Tile, n: nat)
  {
    && EgSane(s, hw) == true && Proper(s) == true && ProperTiles(s, hw.numPipes, hw.numBanks) == true
    && SameTiles(p, s) == true && s.lastLevel == 1 && s.arraySize == n && EgTiling(s, hw) == t && Six(s, t) == true
  }

  lemma UnevenSurface(p: Surf, hw: Hw, n: nat) returns (s: Surf)
    requires EgHw(hw) && SaneTiles(p, hw) && IsPow2(n)
    ensures AcceptedSix(p, s, hw, EgTiling(p, hw), n) == true
  {
    WideSix(p, hw, n);
    WideSane(p, hw, n);
    s := Wide(p, hw, n);
    SaneProper(s, hw);
  }

  lemma SixLaid(p: Surf, s: Surf, hw: Hw, t: Tile, n: nat, a: Level, b: Level, align: nat)
    requires align >= 256 && align == t.mtileb && SixLevels(s, t, a, b, align) && AcceptedSix(p, s, hw, t, n)
    ensures EgLaid(s, hw, [a, b], 2, align)
  {
    SixTree(s, hw, a, b);
  }

  lemma UnevenTree(p: Surf, s: Surf, hw: Hw, t: Tile, n: nat) returns (ls: seq<Level>, align: nat)
    requires AcceptedSix(p, s, hw, t, n) && Moves(t, n)
    ensures EgLaid(s, hw, ls, 2, align) == true && !LevelOneAligned(ls, align)
  {
    align := t.mtileb;
    var a, b := SixTwo(s, t, align);
    SixLaid(p, s, hw, t, n, a, b, align);
    MovedLevel(s, t, a, b);
    ls := [a, b];
  }

  /** Whatever the tile parameters are, if the bytes of a tile are no power of two there is a surface that is
      accepted and whose level 1 begins between two multiples of the alignment. */
  lemma Uneven(p: Surf, hw: Hw) returns (s: Surf, ls: seq<Level>, align: nat)
    requires EgHw(hw) && SaneTiles(p, hw) && !IsPow2(TileB(p))
    ensures SameTiles(p, s) && EgLaid(s, hw, ls, 2, align) == true && !LevelOneAligned(ls, align)
  {
    var n := UnevenCount(p, hw);
    s := UnevenSurface(p, hw, n);
    ls, align := UnevenTree(p, s, hw, EgTiling(p, hw), n);
  }

  /** The tile parameters give tiles of a power of two of bytes. */
  ghost predicate EvenTiles(p: Surf)
  {
    if Bytes(p) <= p.tileSplit then IsPow2(p.bpe)
    else p.tileSplit > 0 && Bytes(p) % p.tileSplit < Bytes(p) / p.tileSplit
  }

  /** "level0 and first mipmap need to have alignment": for given tile parameters, level 1 of every surface
      that is accepted is aligned exactly when a tile has a power of two of bytes in each of its slices. */
  lemma LevelOneIff(p: Surf, hw: Hw)
    requires EgHw(hw) && SaneTiles(p, hw)
    ensures EvenTiles(p) <==>
      forall s: Surf, ls: seq<Level>, mid: nat, align: nat ::
        SameTiles(p, s) && EgLaid(s, hw, ls, mid, align) ==> LevelOneAligned(ls, align)
  {
    TilePowerIff(p, hw);
    if IsPow2(TileB(p)) {
      forall s: Surf, ls: seq<Level>, mid: nat, align: nat | SameTiles(p, s) && EgLaid(s, hw, ls, mid, align)
        ensures LevelOneAligned(ls, align)
      {
        AlignedIfPower(s, hw, ls, mid, align);
      }
    } else {
      var s, ls, align := Uneven(p, hw);
    }
  }

  // ----- examples

  /** Twelve bytes per element, 24 by 64 blocks, four banks: level 0 is six macro tiles of 3072 bytes, and the
      ALIGN behind it puts level 1, which is macro tiled too, 2048 bytes into a macro tile. */
  lemma UnevenTile(s: Surf, hw: Hw, ls: seq<Level>, mid: nat, align: nat)
    requires s == Surf(24, 64, 1, 1, 1, 1, 1, 1, 12, 1, false, false, 1, 1, 1, 1024, 1024) && hw == Hw(256, 4, 1)
    requires EgLaid(s, hw, ls, mid, align)
    ensures EgHw(hw) && EgTiling(s, hw) == Tile(1, 8, 32, 3072)
    ensures mid == 2 <= |ls| && ls[0].End(1) == 6 * 3072 && ls[1].offset == 20480 && ls[1].offset % 3072 == 2048
  {
    UnevenTiling(s, hw);
    SidesOf(EgTiling(s, hw));
    SixPlaces(s, hw, ls, mid, align);
    UnevenPlace(ls[0].End(1));
  }

  /** The places of the two levels. */
  ghost predicate SixAt(s: Surf, t: Tile, ls: seq<Level>, mid: nat, align: nat)
  {
    && mid == 2 <= |ls| && ls[0].End(s.arraySize) == 6 * (t.mtileb * t.slicePt) * s.arraySize
    && ls[1].offset == Aligned(ls[0].End(s.arraySize), align)
  }

  lemma SixPlaces(s: Surf, hw: Hw, ls: seq<Level>, mid: nat, align: nat)
    requires EgLaid(s, hw, ls, mid, align) && s.lastLevel == 1 && EgTiling(s, hw).mtileb >= 256
    requires Six(s, EgTiling(s, hw))
    ensures SixAt(s, EgTiling(s, hw), ls, mid, EgTiling(s, hw).mtileb)
  {
    var k := EgTiles(s, s.bpe, s.tileSplit, hw.numPipes, hw.numBanks);
    FromZero(s, hw, ls, s.bpe, s.tileSplit, mid, align);
    SixIn(s, k, FlatTiles(s, hw, s.bpe), ls, mid, align);
  }

  lemma SixIn(s: Surf, k: Kind, small: Kind, ls: seq<Level>, mid: nat, align: nat)
    requires Good(s, k) && k.EgMacro? && k.bpe == s.bpe && Six(s, k.t) && s.lastLevel == 1
    requires Tree2d(s, ls, 0, mid, k, small, 0, align)
    ensures SixAt(s, k.t, ls, mid, align) == true && mid == 2
  {
    var a, b := SixTwo(s, k.t, align);
    SixLarge(s, k, a, b, align);
    TwoLarge(s, k, small, ls, mid, align);
    SixEndOf(s, k.t, a, b, align);
  }

  lemma SixEndOf(s: Surf, t: Tile, a: Level, b: Level, align: nat)
    requires SixLevels(s, t, a, b, align)
    ensures a.End(s.arraySize) == 6 * (t.mtileb * t.slicePt) * s.arraySize
  {
  }

  lemma SixLarge(s: Surf, k: Kind, a: Level, b: Level, align: nat)
    requires Good(s, k) && k.EgMacro? && k.bpe == s.bpe && SixLevels(s, k.t, a, b, align)
    ensures LargeEnough(s, k, 0) && LargeEnough(s, k, 1) && LevelOf(s, k, 0, 0) == Some(a)
  {
    LargeAnywhere(s, k, 1, Aligned(a.End(s.arraySize), align));
  }

  lemma UnevenPlace(v: int)
    requires v == 6 * 3072
    ensures Aligned(v, 3072) == 20480 && 20480 % 3072 == 2048
  {
    AlignMisses(v);
  }

  lemma UnevenTiling(s: Surf, hw: Hw)
    requires s == Surf(24, 64, 1, 1, 1, 1, 1, 1, 12, 1, false, false, 1, 1, 1, 1024, 1024) && hw == Hw(256, 4, 1)
    ensures EgTiling(s, hw) == Tile(1, 8, 32, 3072)
  {
  }

  lemma SidesOf(t: Tile)
    requires t.mtilew == 8 || t.mtilew == 16
    requires t.mtileh == 32
    ensures IsPow2(t.mtilew) && IsPow2(t.mtileh)
  {
    Eight();
    assert Pow2(4) == 16 && Pow2(5) == 32;
  }

  /** eg_surf_minify makes `l` level 0 of the surface. */
  ghost predicate LevelZeroIs(s: Surf, t: Tile, l: Level)
  {
    Proper(s) && t.mtilew >= 1 && t.mtileh >= 1 && EgMinify(s, s.bpe, 0, t, 0) == Some(l)
  }

  /** Seven bytes per element with a tile split of 128 and bank width 2: a level of 16 by 32 blocks has 3584
      bytes, but its one macro tile gets three slices of 1192. */
  lemma MacroLoses(s: Surf, hw: Hw) returns (l: Level)
    requires s == Surf(16, 32, 1, 1, 1, 1, 1, 0, 7, 1, false, false, 2, 1, 1, 128, 128) && hw == Hw(256, 4, 1)
    ensures EgHw(hw) && EgSane(s, hw) == true && EgTiling(s, hw) == Tile(3, 16, 32, 1192)
    ensures LevelZeroIs(s, EgTiling(s, hw), l) == true && Loses(l, s.bpe * s.nsamples) == true
  {
    LosingSane(s, hw);
    LosingTiling(s, hw);
    LosingTiles(s, EgTiling(s, hw));
    l := OneMacroTile(s, EgTiling(s, hw));
    LosingSlice(l, EgTiling(s, hw));
  }

  /** 3576 of 3584 bytes. */
  predicate Loses(l: Level, bytes: nat)
  {
    l.slice == 3 * 1192 && l.nblkX == 16 && l.nblkY == 32 && bytes == 7 && 16 * 32 * 7 == 3584
  }

  lemma LosingTiles(s: Surf, t: Tile)
    requires s.npixX == 16 && s.npixY == 32 && t.mtilew == 16 && t.mtileh == 32
    ensures InTiles(t, s.npixX, s.npixY, 1, 1) == true
  {
    SidesOf(t);
  }

  lemma LosingSlice(l: Level, t: Tile)
    requires Single(l, t) && t == Tile(3, 16, 32, 1192) && l.nblkX == 16 && l.nblkY == 32
    ensures Loses(l, 7)
  {
  }

  lemma LosingSane(s: Surf, hw: Hw)
    requires s == Surf(16, 32, 1, 1, 1, 1, 1, 0, 7, 1, false, false, 2, 1, 1, 128, 128) && hw == Hw(256, 4, 1)
    ensures EgHw(hw) && EgSane(s, hw)
  {
    IsPow2One();
  }

  lemma IsPow2One()
    ensures IsPow2(1)
  {
    assert Pow2(0) == 1;
  }

  /** Level 0 of a surface of one macro tile. */
  lemma OneMacroTile(s: Surf, t: Tile) returns (l: Level)
    requires InTiles(t, s.npixX, s.npixY, 1, 1) && s.npixX >= 1 && s.npixY >= 1 && s.npixZ == 1
    requires s.blkW == s.blkH == s.blkD == 1 && Proper(s)
    ensures LevelZeroIs(s, t, l) == true && Single(l, t) == true && l.nblkX == s.npixX && l.nblkY == s.npixY
  {
    WholeSurface(s, t, 1, 1);
    l := SingleBelow(EgMinify(s, s.bpe, 0, t, 0), t, s.npixX, s.npixY);
  }

  ghost predicate Single(l: Level, t: Tile)
  {
    l.slice == t.mtileb * t.slicePt
  }

  lemma SingleBelow(l: Option<Level>, t: Tile, x: nat, y: nat) returns (a: Level)
    requires WholeAt(l, t, x, y, 1, 1)
    ensures l == Some(a) && Single(a, t) == true && a.nblkX == x && a.nblkY == y
  {
    a := l.value;
  }

  lemma LosingTiling(s: Surf, hw: Hw)
    requires s.bpe == 7 && s.tileSplit == 128 && s.nsamples == 1 && s.bankw == 2 && s.bankh == 1 && s.mtilea == 1
    requires hw == Hw(256, 4, 1)
    ensures EgTiling(s, hw) == Tile(3, 16, 32, 1192)
  {
    assert SlicePt(448, 128) == 3;
    assert 8 * 8 * 7 * s.nsamples == 448;
  }
}
