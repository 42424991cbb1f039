/** The init functions of radeon/radeon_surface.c for tiled surfaces: what they store for every level,
    where they put it, and where the buffer ends. */
module SurfaceInit {
  import opened MmLayout
  import opened SurfaceMath
  import opened Surface
  import opened SurfaceTrees

  /** struct radeon_surface with the hardware it is for. */
  class SurfaceState {
    const s: Surf
    const hw: Hw
    var boSize: nat
    var boAlign: nat
    var stencilOffset: int

    constructor (s: Surf, hw: Hw)
      ensures this.s == s && this.hw == hw && boSize == 0 && boAlign == 0
    {
      this.s := s;
      this.hw := hw;
      boSize, boAlign, stencilOffset := 0, 0, 0;
    }

    ghost predicate Ready(level: array<Level>, offset: int, start: nat)
      reads this
    {
      Proper(s) && start <= s.lastLevel < level.Length && offset >= 0
    }

    /** The buffer ends with the last level. */
    ghost predicate Ends(level: array<Level>)
      reads this, level
    {
      s.lastLevel < level.Length && boSize == level[s.lastLevel].End(s.arraySize)
    }

    /** Where a loop over the levels stands: `i` is next, to be placed at `at`; the levels before `start` are
        those of `was`. */
    ghost predicate Looping(level: array<Level>, k: Kind, was: seq<Level>, start: nat, i: nat, first: int,
        align: nat, at: int)
      requires Good(s, k)
      reads this, level
    {
      LoopingFacts(level, k, was, start, i, first, align, at) == true
    }

    ghost predicate LoopingFacts(level: array<Level>, k: Kind, was: seq<Level>, start: nat, i: nat, first: int,
        align: nat, at: int)
      requires Good(s, k)
      reads this, level
    {
      && start <= i <= s.lastLevel + 1 <= level.Length && Laying(s, k, level[..], start, i, first, align, at) == true
      && Kept(level[..], was, start) == true && (i > start ==> boSize == level[i - 1].End(s.arraySize))
      && at >= 0 && (start <= s.lastLevel)
    }

    lemma LoopStart(level: array<Level>, k: Kind, start: nat, align: nat, at: int)
      requires Good(s, k) && start <= s.lastLevel < level.Length && at >= 0
      ensures Looping(level, k, level[..], start, start, at, align, at)
    {
      LayStart(s, k, level[..], start, at, align);
    }

    /** What a loop without fallback leaves. */
    lemma LoopEnd(level: array<Level>, k: Kind, small: Kind, was: seq<Level>, start: nat, first: int, align: nat,
        at: int,
        all: nat)
      requires Good(s, k) && Good(s, small) && (s.lastLevel > 0 ==> all == align)
      requires Looping(level, k, was, start, s.lastLevel + 1, first, align, at)
      ensures Tree2d(s, level[..], start, s.lastLevel + 1, k, small, first, all) == true && AllLarge(s, k, start)
      ensures Tree1d(s, level[..], start, k, first, align) == true && Kept(level[..], was, start) && Ends(level)
    {
      LayEnd(s, k, level[..], start, first, align, at);
      Finished(s, k, small, level[..], start, first, align, at, all);
    }

    /** Store level `i` and move the end of the buffer behind it; level 1 is aligned. */
    method Put(level: array<Level>, i: nat, l: Level, align: nat, ghost k: Kind, ghost was: seq<Level>,
        ghost start: nat, ghost first: int, ghost at: int) returns (next: int)
      requires Good(s, k) && Looping(level, k, was, start, i, first, align, at) && i <= s.lastLevel
      requires LevelOf(s, k, i, at) == Some(l) && (i == 0 ==> align >= 1)
      modifies this`boSize, level
      ensures Looping(level, k, was, start, i + 1, first, align, next) && next >= boSize && (i > 0 ==> next == boSize)
    {
      LayOne(s, k, level[..], start, i, first, align, at, l);
      ghost var ls := level[..][i := l];
      assert Kept(ls, was, start);
      level[i] := l;
      assert level[..] == ls;
      boSize := l.End(s.arraySize);
      next := boSize;
      if i == 0 {
        next := Align(boSize, align);
      }
    }

    method Put1d(level: array<Level>, bpe: nat, xalign: nat, i: nat, at: int, ghost was: seq<Level>, ghost start: nat,
        ghost first: int) returns (next: int)
      requires Good(s, Flat(bpe, xalign)) && i <= s.lastLevel && (i == 0 ==> boAlign >= 1)
      requires Looping(level, Flat(bpe, xalign), was, start, i, first, boAlign, at)
      modifies this`boSize, level
      ensures Looping(level, Flat(bpe, xalign), was, start, i + 1, first, boAlign, next)
    {
      var l := Minify(s, Mode1D, bpe, i, xalign, 8, 1, at).value;
      next := Put(level, i, l, boAlign, Flat(bpe, xalign), was, start, first, at);
    }

    /** The loop of r6_surface_init_1d and eg_surface_init_1d. */
    method Loop1d(level: array<Level>, bpe: nat, xalign: nat, offset: int, start: nat)
      requires Ready(level, offset, start) && bpe >= 1 && xalign >= 1 && (start == 0 ==> boAlign >= 1)
      modifies this`boSize, level
      ensures Kept(level[..], old(level[..]), start) == true && Ends(level) == true
      ensures Tree1d(s, level[..], start, Flat(bpe, xalign), offset, boAlign)
    {
      ghost var k := Flat(bpe, xalign);
      ghost var was := level[..];
      var at := offset;
      var i := start;
      LoopStart(level, k, start, boAlign, at);
      while i <= s.lastLevel
        invariant start <= i <= s.lastLevel + 1 && Looping(level, k, was, start, i, offset, boAlign, at)
      {
        at := Put1d(level, bpe, xalign, i, at, was, start, offset);
        i := i + 1;
      }
      assert i == s.lastLevel + 1;
      LoopEnd(level, k, k, was, start, offset, boAlign, at, boAlign);
    }

    // ----- r600

    /** r6_surface_init_1d */
    method R6Init1d(level: array<Level>, offset: int, start: nat)
      requires Ready(level, offset, start)
      modifies this`boSize, this`boAlign, level
      ensures Kept(level[..], old(level[..]), start) == true && Ends(level) == true
      ensures boAlign == if start == 0 then Align1d(hw) else old(boAlign)
      ensures Tree1d(s, level[..], start, FlatTiles(s, hw, s.bpe), offset, boAlign)
    {
      if start == 0 {
        boAlign := Max(256, hw.groupBytes);
      }
      Loop1d(level, s.bpe, Xalign1d(s, hw, s.bpe), offset, start);
    }

    /** r6_surface_init_2d: macro tiles as long as the levels are large enough, then 1D tiles. */
    method R6Init2d(level: array<Level>, offset: int, start: nat) returns (ghost mid: nat)
      requires Ready(level, offset, start) && hw.numBanks >= 1 && hw.numPipes >= 1
      modifies this`boSize, this`boAlign, level
      ensures Kept(level[..], old(level[..]), start) == true && Ends(level) == true
      ensures boAlign ==
        if start > 0 then old(boAlign) else if mid == 0 then Align1d(hw) else Align2d(s, hw)
      ensures Tree2d(s, level[..], start, mid, R6Tiles(s, hw), FlatTiles(s, hw, s.bpe), offset, boAlign)
    {
      if start == 0 {
        boAlign := Align2d(s, hw);
      }
      mid := R6Loop2d(level, Xalign2d(s, hw), 8 * hw.numPipes, offset, start);
    }

    /** One round of the loop; false when level `i` is too small for macro tiles. */
    method R6Step(level: array<Level>, xalign: nat, yalign: nat, i: nat, at: int, ghost was: seq<Level>,
        ghost start: nat,
        ghost first: int) returns (large: bool, next: int)
      requires Good(s, R6Macro(s.bpe, xalign, yalign)) && i <= s.lastLevel && (i == 0 ==> boAlign >= 1)
      requires Looping(level, R6Macro(s.bpe, xalign, yalign), was, start, i, first, boAlign, at)
      modifies this`boSize, level
      ensures large <==> LargeEnough(s, R6Macro(s.bpe, xalign, yalign), i)
      ensures large ==> Looping(level, R6Macro(s.bpe, xalign, yalign), was, start, i + 1, first, boAlign, next)
      ensures !large ==> Looping(level, R6Macro(s.bpe, xalign, yalign), was, start, i, first, boAlign, at)
      ensures !large ==> boSize == old(boSize)
    {
      LargeAnywhere(s, R6Macro(s.bpe, xalign, yalign), i, at);
      var l := Minify(s, Mode2D, s.bpe, i, xalign, yalign, 1, at);
      if l.None? {
        return false, at;
      }
      next := Put(level, i, l.value, boAlign, R6Macro(s.bpe, xalign, yalign), was, start, first, at);
      large := true;
    }

    /** The loop of r6_surface_init_2d, with the fallback to 1D tiles. */
    method R6Loop2d(level: array<Level>, xalign: nat, yalign: nat, offset: int, start: nat) returns (ghost mid: nat)
      requires Ready(level, offset, start) && xalign >= 1 && yalign >= 1 && (start == 0 ==> boAlign >= 1)
      modifies this`boSize, this`boAlign, level
      ensures Kept(level[..], old(level[..]), start) == true && Ends(level) == true
      ensures R6Laid(s, hw, level[..], xalign, yalign, offset, start, mid, old(boAlign), boAlign) == true
    {
      ghost var k := R6Macro(s.bpe, xalign, yalign);
      ghost var was := level[..];
      var at := offset;
      var i := start;
      LoopStart(level, k, start, boAlign, at);
      while i <= s.lastLevel
        invariant start <= i <= s.lastLevel + 1 && Looping(level, k, was, start, i, offset, boAlign, at)
        invariant boAlign == old(boAlign)
      {
        var large, next := R6Step(level, xalign, yalign, i, at, was, start, offset);
        if !large {
          R6Fallback(level, xalign, yalign, i, at, was, start, offset);
          return i;
        }
        at := next;
        i := i + 1;
      }
      assert i == s.lastLevel + 1;
      R6End(level, xalign, yalign, was, start, offset, at);
      mid := i;
    }

    lemma R6End(level: array<Level>, xalign: nat, yalign: nat, was: seq<Level>, start: nat, first: int, at: int)
      requires Good(s, R6Macro(s.bpe, xalign, yalign)) && start <= s.lastLevel
      requires Looping(level, R6Macro(s.bpe, xalign, yalign), was, start, s.lastLevel + 1, first, boAlign, at)
      ensures R6Laid(s, hw, level[..], xalign, yalign, first, start, s.lastLevel + 1, boAlign, boAlign) == true
      ensures Kept(level[..], was, start) == true && Ends(level) == true
    {
      LoopEnd(level, R6Macro(s.bpe, xalign, yalign), FlatTiles(s, hw, s.bpe), was, start, first, boAlign, at, boAlign);
    }

    /** The switch to 1D tiles at level `i`. */
    method R6Fallback(level: array<Level>, xalign: nat, yalign: nat, i: nat, at: int, ghost was: seq<Level>,
        ghost start: nat, ghost first: int)
      requires Good(s, R6Macro(s.bpe, xalign, yalign)) && i <= s.lastLevel && at >= 0 && start <= i
      requires Looping(level, R6Macro(s.bpe, xalign, yalign), was, start, i, first, boAlign, at)
      requires !LargeEnough(s, R6Macro(s.bpe, xalign, yalign), i)
      modifies this`boSize, this`boAlign, level
      ensures Kept(level[..], was, start) == true && Ends(level) == true
      ensures R6Laid(s, hw, level[..], xalign, yalign, first, start, i, old(boAlign), boAlign) == true
    {
      ghost var ls, align := level[..], boAlign;
      R6Init1d(level, at, i);
      FellBack(s, R6Macro(s.bpe, xalign, yalign), FlatTiles(s, hw, s.bpe), was, ls, level[..], start, i, first, align,
        at,
               at, boAlign, boAlign);
    }

    // ----- evergreen

    /** The alignment that the first level of a tree brings with it. */
    method RaiseAlign(alignment: nat, offset: int) returns (at: int)
      requires alignment >= 1 && offset >= 0
      modifies this`boAlign
      ensures at == Aligned(offset, alignment) && boAlign == Max(old(boAlign), alignment)
    {
      boAlign := Max(boAlign, alignment);
      at := offset;
      AlignedZero(alignment);
      if offset != 0 {
        at := Align(offset, alignment);
      }
    }

    /** eg_surface_init_1d */
    method EgInit1d(level: array<Level>, bpe: nat, offset: int, start: nat)
      requires Ready(level, offset, start) && bpe >= 1
      modifies this`boSize, this`boAlign, level
      ensures Kept(level[..], old(level[..]), start) == true && Ends(level) == true
      ensures boAlign == if start == 0 then Max(old(boAlign), Align1d(hw)) else old(boAlign)
      ensures var first := if start == 0 then Aligned(offset, Align1d(hw)) else offset;
        Tree1d(s, level[..], start, FlatTiles(s, hw, bpe), first, boAlign)
    {
      var at := offset;
      if start == 0 {
        at := RaiseAlign(Max(256, hw.groupBytes), offset);
      }
      Loop1d(level, bpe, Xalign1d(s, hw, bpe), at, start);
    }

    /** eg_surface_init_2d */
    method EgInit2d(level: array<Level>, bpe: nat, split: nat, offset: int, start: nat) returns (ghost mid: nat)
      requires Ready(level, offset, start) && bpe >= 1 && ProperTiles(s, hw.numPipes, hw.numBanks)
      modifies this`boSize, this`boAlign, level
      ensures Kept(level[..], old(level[..]), start) == true && Ends(level) == true
      ensures EgTree(s, hw, level[..], bpe, split, offset, start, mid, old(boAlign), boAlign)
    {
      ghost var k := EgTiles(s, bpe, split, hw.numPipes, hw.numBanks);
      var t := Tiling(s, bpe, split, hw.numPipes, hw.numBanks);
      assert k == EgMacro(bpe, t);
      var at := offset;
      if start == 0 {
        at := RaiseAlign(TileAlign(t), offset);
      }
      mid := EgLoop(level, bpe, t, at, start);
    }

    /** One round of the loop; false when level `i` is too small for macro tiles. */
    method EgStep(level: array<Level>, bpe: nat, t: Tile, i: nat, at: int, ghost was: seq<Level>, ghost start: nat,
        ghost first: int) returns (large: bool, next: int)
      requires Good(s, EgMacro(bpe, t)) && i <= s.lastLevel && (i == 0 ==> boAlign >= 1)
      requires Looping(level, EgMacro(bpe, t), was, start, i, first, boAlign, at)
      modifies this`boSize, level
      ensures large <==> LargeEnough(s, EgMacro(bpe, t), i)
      ensures large ==> Looping(level, EgMacro(bpe, t), was, start, i + 1, first, boAlign, next)
      ensures !large ==> Looping(level, EgMacro(bpe, t), was, start, i, first, boAlign, at)
      ensures !large ==> boSize == old(boSize)
    {
      LargeAnywhere(s, EgMacro(bpe, t), i, at);
      var l := EgMinify(s, bpe, i, t, at);
      if l.None? {
        return false, at;
      }
      next := Put(level, i, l.value, boAlign, EgMacro(bpe, t), was, start, first, at);
      large := true;
    }

    /** The loop of eg_surface_init_2d, with the fallback to 1D tiles. */
    method EgLoop(level: array<Level>, bpe: nat, t: Tile, offset: int, start: nat) returns (ghost mid: nat)
      requires Ready(level, offset, start) && Good(s, EgMacro(bpe, t)) && (start == 0 ==> boAlign >= 1)
      modifies this`boSize, this`boAlign, level
      ensures Kept(level[..], old(level[..]), start) == true && Ends(level) == true
      ensures boAlign == if mid == 0 then Max(old(boAlign), Align1d(hw)) else old(boAlign)
      ensures var first := if mid == 0 then Aligned(offset, Align1d(hw)) else offset;
        Tree2d(s, level[..], start, mid, EgMacro(bpe, t), FlatTiles(s, hw, bpe), first, boAlign)
    {
      ghost var k := EgMacro(bpe, t);
      ghost var was := level[..];
      var at := offset;
      var i := start;
      LoopStart(level, k, start, boAlign, at);
      while i <= s.lastLevel
        invariant start <= i <= s.lastLevel + 1 && Looping(level, k, was, start, i, offset, boAlign, at)
        invariant boAlign == old(boAlign)
      {
        var large, next := EgStep(level, bpe, t, i, at, was, start, offset);
        if !large {
          EgFallback(level, bpe, i, at, k, was, start, offset, boAlign);
          return i;
        }
        at := next;
        i := i + 1;
      }
      assert i == s.lastLevel + 1;
      LoopEnd(level, k, FlatTiles(s, hw, bpe), was, start, offset, boAlign, at, boAlign);
      mid := i;
    }

    method EgFallback(level: array<Level>, bpe: nat, i: nat, at: int, ghost k: Kind, ghost was: seq<Level>,
        ghost start: nat, ghost first: int, ghost align: nat)
      requires Good(s, k) && Looping(level, k, was, start, i, first, align, at)
      requires i <= s.lastLevel && !LargeEnough(s, k, i)
      requires bpe >= 1 && align == boAlign && at >= 0
      modifies this`boSize, this`boAlign, level
      ensures Kept(level[..], was, start) == true && Ends(level) == true
      ensures boAlign == if i == 0 then Max(old(boAlign), Align1d(hw)) else old(boAlign)
      ensures var begin := if i == 0 then Aligned(first, Align1d(hw)) else first;
        Tree2d(s, level[..], start, i, k, FlatTiles(s, hw, bpe), begin, boAlign) == true
    {
      ghost var ls := level[..];
      EgInit1d(level, bpe, at, i);
      ghost var next := if i == 0 then Aligned(at, Align1d(hw)) else at;
      FellBack(s, k, FlatTiles(s, hw, bpe), was, ls, level[..], start, i, first, align, at, next, boAlign, boAlign);
    }

    /** eg_surface_init_1d_miptrees */
    method EgTrees1d(level: array<Level>, stencil: array<Level>, depthStencil: bool)
      requires Ready(level, 0, 0) && s.lastLevel < stencil.Length && level != stencil
      modifies this, level, stencil
      ensures boAlign == Max(old(boAlign), Align1d(hw))
      ensures Tree1d(s, level[..], 0, FlatTiles(s, hw, s.bpe), 0, boAlign)
      ensures if depthStencil then StencilBehind1d(level, stencil, FlatTiles(s, hw, 1), boAlign) else Ends(level)
    {
      AlignedZero(Align1d(hw));
      EgInit1d(level, s.bpe, 0, 0);
      if depthStencil {
        EgInit1d(stencil, 1, boSize, 0);
        stencilOffset := stencil[0].offset;
      }
    }

    /** The 1D tiled stencil tree begins at the first aligned place behind the depth tree, and the buffer
        ends with it. */
    ghost predicate StencilBehind1d(level: array<Level>, stencil: array<Level>, k: Kind, align: nat)
      reads this, level, stencil
    {
      && s.lastLevel < level.Length && Ends(stencil) && stencilOffset == stencil[0].offset
      && Tree1d(s, stencil[..], 0, k, Aligned(level[s.lastLevel].End(s.arraySize), Align1d(hw)), align)
    }

    /** eg_surface_init_2d_miptrees */
    method EgTrees2d(level: array<Level>, stencil: array<Level>, depthStencil: bool)
      returns (ghost mid: nat, ghost mid2: nat, ghost align: nat)
      requires Ready(level, 0, 0) && s.lastLevel < stencil.Length && level != stencil
      requires ProperTiles(s, hw.numPipes, hw.numBanks)
      modifies this, level, stencil
      ensures EgTree(s, hw, level[..], s.bpe, s.tileSplit, 0, 0, mid, old(boAlign), align)
      ensures !depthStencil ==> Ends(level) && boAlign == align
      ensures depthStencil ==> Ends(stencil) && stencilOffset == stencil[0].offset
      ensures depthStencil ==> EgTree(s, hw, stencil[..], 1, s.stencilTileSplit, level[s.lastLevel].End(s.arraySize), 0,
          mid2, align, boAlign)
    {
      mid := EgInit2d(level, s.bpe, s.tileSplit, 0, 0);
      align := boAlign;
      mid2 := 0;
      if depthStencil {
        mid2 := EgInit2d(stencil, 1, s.stencilTileSplit, boSize, 0);
        stencilOffset := stencil[0].offset;
      }
    }

    // ----- southern islands

    /** si_surface_init_1d */
    method SiInit1d(level: array<Level>, bpe: nat, offset: int, start: nat)
      requires Ready(level, offset, start) && bpe >= 1 && s.npixX >= 1 && hw.groupBytes >= 1
      modifies this`boSize, this`boAlign, level
      ensures Kept(level[..], old(level[..]), start) == true && Ends(level) == true
      ensures boAlign == if start <= 1 then Max(old(boAlign), Align1d(hw)) else old(boAlign)
      ensures var first := if start <= 1 then Aligned(offset, Align1d(hw)) else offset;
        Tree1d(s, level[..], start, SiFlatTiles(s, hw, bpe), first, Align1d(hw))
    {
      var alignment := Max(256, hw.groupBytes);
      var at := offset;
      if start <= 1 {
        at := RaiseAlign(alignment, offset);
      }
      var xalign := if s.scanout then Max(if bpe == 1 then 64 else 32, 8) else 8;
      SiLoop1d(level, bpe, xalign, at, start, alignment);
    }

    method SiPut1d(level: array<Level>, bpe: nat, xalign: nat, i: nat, at: int, alignment: nat, ghost was: seq<Level>,
        ghost start: nat, ghost first: int) returns (next: int)
      requires Good(s, SiFlat(bpe, xalign, hw.groupBytes)) && i <= s.lastLevel && alignment >= 1
      requires Looping(level, SiFlat(bpe, xalign, hw.groupBytes), was, start, i, first, alignment, at)
      modifies this`boSize, level
      ensures Looping(level, SiFlat(bpe, xalign, hw.groupBytes), was, start, i + 1, first, alignment, next)
    {
      var l := SiMinify(s, bpe, i, xalign, 8, 1, hw.groupBytes, at);
      next := Put(level, i, l, alignment, SiFlat(bpe, xalign, hw.groupBytes), was, start, first, at);
    }

    method SiLoop1d(level: array<Level>, bpe: nat, xalign: nat, offset: int, start: nat, alignment: nat)
      requires Ready(level, offset, start) && Good(s, SiFlat(bpe, xalign, hw.groupBytes)) && alignment >= 1
      modifies this`boSize, level
      ensures Kept(level[..], old(level[..]), start) == true && Ends(level) == true
      ensures Tree1d(s, level[..], start, SiFlat(bpe, xalign, hw.groupBytes), offset, alignment)
    {
      ghost var k := SiFlat(bpe, xalign, hw.groupBytes);
      ghost var was := level[..];
      var at := offset;
      var i := start;
      LoopStart(level, k, start, alignment, at);
      while i <= s.lastLevel
        invariant start <= i <= s.lastLevel + 1 && Looping(level, k, was, start, i, offset, alignment, at)
      {
        at := SiPut1d(level, bpe, xalign, i, at, alignment, was, start, offset);
        i := i + 1;
      }
      assert i == s.lastLevel + 1;
      LoopEnd(level, k, k, was, start, offset, alignment, at, alignment);
    }

    /** si_surface_init_2d: -EINVAL when a level needs 1D tiles and the tile mode has none. */
    method SiInit2d(level: array<Level>, bpe: nat, m: TileMode, pipes: nat, banks: nat, split: nat, offset: int,
        start: nat) returns (r: int, ghost mid: nat)
      requires Ready(level, offset, start) && bpe >= 1 && s.npixX >= 1 && hw.groupBytes >= 1
      requires ProperTiles(s, pipes, banks)
      modifies this`boSize, this`boAlign, level
      ensures r == 0 || r == -EINVAL
      ensures r != 0 <==> Downgraded(m).None? && !AllLarge(s, SiTiles(s, bpe, split, pipes, banks), start)
      ensures r == 0 ==> Kept(level[..], old(level[..]), start) == true && Ends(level) == true
      ensures r == 0 ==>
        SiTree(s, hw, level[..], bpe, split, pipes, banks, offset, start, mid, old(boAlign), boAlign)
    {
      ghost var k := SiTiles(s, bpe, split, pipes, banks);
      var t := Tiling(s, bpe, split, pipes, banks);
      assert k == SiMacro(bpe, t);
      var aligned := offset;
      if start <= 1 {
        aligned := RaiseAlign(TileAlign(t), offset);
      }
      r, mid := SiLoop2d(level, bpe, m, t, offset, aligned, start);
    }

    /** One round of the loop; false when level `i` is too small for macro tiles. */
    method SiStep(level: array<Level>, bpe: nat, t: Tile, i: nat, at: int, ghost was: seq<Level>, ghost start: nat,
        ghost first: int) returns (large: bool, next: int)
      requires Good(s, SiMacro(bpe, t)) && i <= s.lastLevel && (i == 0 ==> boAlign >= 1)
      requires Looping(level, SiMacro(bpe, t), was, start, i, first, boAlign, at)
      modifies this`boSize, level
      ensures large <==> LargeEnough(s, SiMacro(bpe, t), i)
      ensures large ==> Looping(level, SiMacro(bpe, t), was, start, i + 1, first, boAlign, next)
      ensures !large ==> Looping(level, SiMacro(bpe, t), was, start, i, first, boAlign, at)
      ensures !large ==> boSize == old(boSize)
    {
      LargeAnywhere(s, SiMacro(bpe, t), i, at);
      var l := SiMinify2d(s, bpe, i, t, at);
      if l.None? {
        return false, at;
      }
      next := Put(level, i, l.value, boAlign, SiMacro(bpe, t), was, start, first, at);
      large := true;
    }

    ghost predicate SiBuilt(level: array<Level>, was: seq<Level>, bpe: nat, t: Tile, offset: int, aligned: int,
        start: nat, mid: nat, align0: nat)
      requires Good(s, SiMacro(bpe, t)) && hw.groupBytes >= 1
      reads this, level
    {
      && Kept(level[..], was, start) == true && Ends(level) == true
      && SiLaid(s, hw, level[..], bpe, t, offset, aligned, start, mid, align0, boAlign) == true
    }

    /** One round of the loop of si_surface_init_2d; `more` if it goes on. */
    method SiRound(level: array<Level>, bpe: nat, m: TileMode, t: Tile, i: nat, at: int, plain: int,
        ghost was: seq<Level>, ghost offset: int, ghost start: nat, ghost aligned: int)
        returns (r: int, more: bool, at2: int, plain2: int)
      requires Good(s, SiMacro(bpe, t)) && hw.groupBytes >= 1 && start <= i <= s.lastLevel && plain >= 0
      requires Looping(level, SiMacro(bpe, t), was, start, i, aligned, boAlign, at)
      requires plain == (if i > start then boSize else offset) && (i == 0 ==> boAlign >= 1)
      requires start > 1 ==> aligned == offset
      modifies this`boSize, this`boAlign, level
      ensures more ==> boAlign == old(boAlign) && plain2 == boSize
      ensures more ==> Looping(level, SiMacro(bpe, t), was, start, i + 1, aligned, boAlign, at2)
      ensures !more ==> !LargeEnough(s, SiMacro(bpe, t), i) && (r == 0 || r == -EINVAL)
      ensures !more ==> (r != 0 <==> Downgraded(m).None?)
      ensures !more && r == 0 ==> SiBuilt(level, was, bpe, t, offset, aligned, start, i, old(boAlign)) == true
    {
      more, at2 := SiStep(level, bpe, t, i, at, was, start, aligned);
      r, plain2 := 0, boSize;
      if !more {
        r := SiFallback(level, bpe, m, t, i, plain, was, offset, start, aligned, at);
      }
    }

    /** The loop of si_surface_init_2d. */
    method SiLoop2d(level: array<Level>, bpe: nat, m: TileMode, t: Tile, offset: int, aligned: int, start: nat)
        returns (r: int, ghost mid: nat)
      requires start <= s.lastLevel < level.Length && offset >= 0 && Good(s, SiMacro(bpe, t))
      requires hw.groupBytes >= 1 && (start == 0 ==> boAlign >= 1)
      requires aligned >= offset && (start > 1 ==> aligned == offset)
      modifies this`boSize, this`boAlign, level
      ensures r == 0 || r == -EINVAL
      ensures r != 0 <==> Downgraded(m).None? && !AllLarge(s, SiMacro(bpe, t), start)
      ensures r == 0 ==> SiBuilt(level, old(level[..]), bpe, t, offset, aligned, start, mid, old(boAlign)) == true
    {
      ghost var was := level[..];
      var at, plain := aligned, offset;
      var i := start;
      LoopStart(level, SiMacro(bpe, t), start, boAlign, at);
      while i <= s.lastLevel
        invariant start <= i <= s.lastLevel + 1 && Looping(level, SiMacro(bpe, t), was, start, i, aligned, boAlign, at)
        invariant boAlign == old(boAlign) && plain >= 0 && plain == (if i > start then boSize else offset)
      {
        var more;
        r, more, at, plain := SiRound(level, bpe, m, t, i, at, plain, was, offset, start, aligned);
        if !more {
          return r, i;
        }
        i := i + 1;
      }
      assert i == s.lastLevel + 1 && boAlign == old(boAlign);
      SiEnd(level, bpe, t, was, offset, start, aligned, at);
      r, mid := 0, s.lastLevel + 1;
    }

    lemma SiEnd(level: array<Level>, bpe: nat, t: Tile, was: seq<Level>, offset: int, start: nat, aligned: int, at: int)
      requires Good(s, SiMacro(bpe, t)) && hw.groupBytes >= 1 && start <= s.lastLevel
      requires Looping(level, SiMacro(bpe, t), was, start, s.lastLevel + 1, aligned, boAlign, at)
      ensures SiBuilt(level, was, bpe, t, offset, aligned, start, s.lastLevel + 1, boAlign) == true
      ensures AllLarge(s, SiMacro(bpe, t), start)
    {
      LoopEnd(level, SiMacro(bpe, t), SiFlatTiles(s, hw, bpe), was, start, aligned, boAlign, at,
              if s.lastLevel == 0 then Align1d(hw) else boAlign);
    }

    /** The switch to 1D tiles at level `i`, if the tile mode has a 1D one. */
    method SiFallback(level: array<Level>, bpe: nat, m: TileMode, t: Tile, i: nat, plain: int, ghost was: seq<Level>,
        ghost offset: int, ghost start: nat, ghost aligned: int, ghost at: int) returns (r: int)
      requires Good(s, SiMacro(bpe, t)) && hw.groupBytes >= 1 && i <= s.lastLevel && plain >= 0
      requires Looping(level, SiMacro(bpe, t), was, start, i, aligned, boAlign, at)
      requires start <= i && !LargeEnough(s, SiMacro(bpe, t), i) && (start > 1 ==> aligned == offset)
      requires plain == if i > start then boSize else offset
      modifies this`boSize, this`boAlign, level
      ensures (r == 0 || r == -EINVAL) && (r != 0 <==> Downgraded(m).None?)
      ensures r == 0 ==> SiBuilt(level, was, bpe, t, offset, aligned, start, i, old(boAlign)) == true
    {
      if Downgraded(m).None? {
        return -EINVAL;
      }
      r := 0;
      ghost var ls, align := level[..], boAlign;
      SiInit1d(level, bpe, plain, i);
      ghost var next := if i <= 1 then Aligned(plain, Align1d(hw)) else plain;
      FellBack(s, SiMacro(bpe, t), SiFlatTiles(s, hw, bpe), was, ls, level[..], start, i, aligned, align, at, next,
               Align1d(hw), if i <= 1 then Align1d(hw) else align);
    }

    /** si_surface_init_1d_miptrees */
    method SiTrees1d(level: array<Level>, stencil: array<Level>, hasStencil: bool)
      requires Ready(level, 0, 0) && s.lastLevel < stencil.Length && level != stencil
      requires s.npixX >= 1 && hw.groupBytes >= 1
      modifies this, level, stencil
      ensures boAlign == Max(old(boAlign), Align1d(hw))
      ensures Tree1d(s, level[..], 0, SiFlatTiles(s, hw, s.bpe), 0, Align1d(hw))
      ensures if hasStencil then StencilBehind1d(level, stencil, SiFlatTiles(s, hw, 1), Align1d(hw)) else Ends(level)
    {
      AlignedZero(Align1d(hw));
      SiInit1d(level, s.bpe, 0, 0);
      if hasStencil {
        SiInit1d(stencil, 1, boSize, 0);
        stencilOffset := stencil[0].offset;
      }
    }

    /** si_surface_init_2d_miptrees, for the pipes and banks of the tile mode.  A failing stencil tree
        still sets stencil_offset. */
    method SiTrees2d(level: array<Level>, stencil: array<Level>, hasStencil: bool, m: TileMode, stencilMode: TileMode,
        pipes: nat, banks: nat) returns (r: int, ghost mid: nat, ghost mid2: nat, ghost align: nat)
      requires Ready(level, 0, 0) && s.lastLevel < stencil.Length && level != stencil
      requires s.npixX >= 1 && hw.groupBytes >= 1 && ProperTiles(s, pipes, banks)
      modifies this, level, stencil
      ensures r == 0 || r == -EINVAL
      ensures r != 0 <==>
        || (Downgraded(m).None? && !AllLarge(s, SiTiles(s, s.bpe, s.tileSplit, pipes, banks), 0))
        || (hasStencil && Downgraded(stencilMode).None?
            && !AllLarge(s, SiTiles(s, 1, s.stencilTileSplit, pipes, banks), 0))
      ensures r == 0 ==>
        SiTree(s, hw, level[..], s.bpe, s.tileSplit, pipes, banks, 0, 0, mid, old(boAlign), align)
      ensures r == 0 && !hasStencil ==> Ends(level) && boAlign == align
      ensures r == 0 && hasStencil ==> Ends(stencil) && stencilOffset == stencil[0].offset
      ensures r == 0 && hasStencil ==> SiTree(s, hw, stencil[..], 1, s.stencilTileSplit, pipes, banks,
          level[s.lastLevel].End(s.arraySize), 0, mid2, align, boAlign)
    {
      r, mid := SiInit2d(level, s.bpe, m, pipes, banks, s.tileSplit, 0, 0);
      align := boAlign;
      mid2 := 0;
      if r != 0 {
        return;
      }
      if hasStencil {
        r, mid2 := SiInit2d(stencil, 1, stencilMode, pipes, banks, s.stencilTileSplit, boSize, 0);
        stencilOffset := stencil[0].offset;
      }
    }
  }
}
