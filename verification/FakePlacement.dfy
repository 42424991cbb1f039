/** Waiting for fences and making room: what the loops of clear_fenced and
    evict_and_alloc_block achieve. */
module FakePlacement {
  import opened MmLayout
  import opened MmTheorems
  import opened FenceOrder
  import opened FakeState
  import opened FakeSteps
  import opened FakeContents

  /** What every public operation keeps. */
  ghost predicate Inv(s: State)
  {
    Struct(s) == true && AllCoherent(s) == true
  }

  /** Eviction keeps everything the manager promises. */
  lemma EvictInv(s: State, b: BlockId, ex: set<BoId>)
    requires Inv(s) && ClashOnly(s, ex) && b in s.lru
    requires forall x :: x in ex && x in s.bos ==> s.bos[x].block.None?
    ensures HasOwner(s, b) && !s.blocks[b].onHardware && !s.blocks[b].fenced
    ensures Inv(Evict(s, b)) && Evolves(s, Evict(s, b)) && ClashOnly(Evict(s, b), ex) == true
    ensures forall x :: x in ex && x in s.bos ==> Evict(s, b).bos[x] == s.bos[x]
    ensures |Evict(s, b).lru| == |s.lru| - 1 && Evict(s, b).fenced == s.fenced
  {
    OwnerInCard(s, b);
    EvictOk(s, b);
    EvictContents(s, b);
    EvictLists(s, b);
  }

  // ----- clear_fenced

  /** _fence_test */
  predicate Passed(fence: int, last: int)
  {
    fence == 0 || FenceLte(fence, last)
  }

  /** How many blocks from position `from` of the fenced list on pass the test before one does not. */
  function PassCount(s: State, cookie: int, from: nat): (n: nat)
    requires from <= |s.fenced|
    ensures from + n <= |s.fenced|
    decreases |s.fenced| - from
  {
    if from < |s.fenced| && s.fenced[from] in s.blocks && Passed(s.blocks[s.fenced[from]].fence, cookie)
    then 1 + PassCount(s, cookie, from + 1) else 0
  }

  /** The blocks among `ids` that still have an owner, in order. */
  function WithOwner(s: State, ids: seq<BlockId>): seq<BlockId>
  {
    if ids == [] then []
    else
      var rest := WithOwner(s, ids[..|ids| - 1]);
      var b := ids[|ids| - 1];
      if b in s.blocks && s.blocks[b].bo.Some? then rest + [b] else rest
  }

  /** The first `n` fenced blocks of `s` have been released: those without an
      owner are gone, the others are at the end of the lru list in fence order. */
  ghost predicate Cleared(s: State, t: State, n: nat)
  {
    && n <= |s.fenced| && t.fenced == s.fenced[n..]
    && t.lru == s.lru + WithOwner(s, s.fenced[..n])
    && ClearedBlocks(s.blocks, t.blocks, s.fenced[..n]) == true
  }

  ghost predicate ClearedBlocks(blocks: map<BlockId, Block>, now: map<BlockId, Block>, released: seq<BlockId>)
  {
    && (forall b :: b in now <==> b in blocks && (b in released ==> blocks[b].bo.Some?))
    && (forall b :: b in now ==> now[b] == if b in released then blocks[b].(fenced := false) else blocks[b])
  }

  lemma ClearedBlocksStep(blocks: map<BlockId, Block>, now: map<BlockId, Block>, released: seq<BlockId>, b: BlockId)
    requires ClearedBlocks(blocks, now, released) && b in now && b !in released
    ensures now[b] == blocks[b]
    ensures blocks[b].bo.None? ==> ClearedBlocks(blocks, now - {b}, released + [b])
    ensures blocks[b].bo.Some? ==> ClearedBlocks(blocks, now[b := now[b].(fenced := false)], released + [b])
  {
  }

  lemma ClearedOneMore(s: State, t: State, n: nat)
    requires Cleared(s, t, n) && t.fenced != [] && Distinct(s.fenced) && t.fenced[0] in t.blocks
    requires t.fenced[0] !in t.lru
    ensures n < |s.fenced| && Cleared(s, Unfence(t, t.fenced[0]), n + 1)
  {
    var b := t.fenced[0];
    TakeOneMore(s.fenced, n);
    ClearedBlocksStep(s.blocks, t.blocks, s.fenced[..n], b);
    WithOwnerStep(s, s.fenced[..n], b);
    WithoutHead(s.fenced[n..]);
    WithoutAbsent(t.lru, b);
  }

  lemma TakeOneMore(f: seq<BlockId>, n: nat)
    requires Distinct(f) && n < |f|
    ensures f[..n + 1] == f[..n] + [f[n]] && f[n] !in f[..n] && f[n..][0] == f[n]
    ensures Distinct(f[n..]) && f[n..][1..] == f[n + 1..]
  {
  }

  lemma WithOwnerStep(s: State, r: seq<BlockId>, b: BlockId)
    ensures WithOwner(s, r + [b]) == WithOwner(s, r) + (if b in s.blocks && s.blocks[b].bo.Some? then [b] else [])
  {
    assert (r + [b])[..|r|] == r;
  }

  lemma WithoutHead(s: seq<BlockId>)
    requires s != [] && Distinct(s)
    ensures Without(s, s[0]) == s[1..]
  {
    assert s[0] !in s[1..];
  }

  lemma UnfenceHead(s: State)
    requires Struct(s) && s.fenced != []
    ensures s.fenced[0] in s.blocks && Unfence(s, s.fenced[0]).fenced == s.fenced[1..]
    ensures forall c :: c in s.fenced[1..] && c in s.blocks ==>
      c in Unfence(s, s.fenced[0]).blocks && Unfence(s, s.fenced[0]).blocks[c] == s.blocks[c]
  {
    assert s.fenced[0] in s.fenced;
    WithoutHead(s.fenced);
    assert s.fenced[0] !in s.fenced[1..];
  }

  /** Releasing the head leaves the test results of the others alone. */
  lemma {:induction false} PassCountTail(s: State, t: State, cookie: int, from: nat)
    requires s.fenced != [] && t.fenced == s.fenced[1..] && from <= |t.fenced|
    requires forall c :: c in t.fenced ==> c in s.blocks && c in t.blocks && t.blocks[c] == s.blocks[c]
    ensures PassCount(t, cookie, from) == PassCount(s, cookie, from + 1)
    decreases |t.fenced| - from
  {
    if from < |t.fenced| {
      assert t.fenced[from] in t.fenced && t.fenced[from] == s.fenced[from + 1];
      PassCountTail(s, t, cookie, from + 1);
    }
  }

  /** Where the loop of clear_fenced stands after `n` rounds. */
  ghost predicate Clearing(s: State, t: State, cookie: int, n: nat)
  {
    && Inv(t) && Evolves(s, t) && Cleared(s, t, n) == true
    && t.bos == s.bos && t.lastFence == cookie && t.thrashing == s.thrashing
    && n + PassCount(t, cookie, 0) == PassCount(s, cookie, 0)
  }

  lemma ClearStart(s: State, cookie: int)
    requires Inv(s)
    ensures Clearing(s, s.(lastFence := cookie), cookie, 0)
  {
    var t := s.(lastFence := cookie);
    FenceFieldsOnly(s, t);
    PassCountFrame(s, t, cookie, 0);
    assert s.fenced[..0] == [];
  }

  /** Nothing but the fence counters has changed. */
  lemma FenceFieldsOnly(s: State, t: State)
    requires Inv(s) && t == s.(lastFence := t.lastFence, issued := t.issued) && t.issued >= s.issued
    ensures Inv(t) && Evolves(s, t)
  {
    BosOnlyOk(s, t);
    ReflagSelf(s, t);
    BlocksFrame(s, t);
  }

  lemma ThrashingOnly(s: State, t: State)
    requires Inv(s) && t == s.(thrashing := t.thrashing)
    ensures Inv(t) && Evolves(s, t)
  {
    BosOnlyOk(s, t);
    ReflagSelf(s, t);
    BlocksFrame(s, t);
  }

  lemma ReflagSelf(s: State, t: State)
    requires OwnersOk(s) && t.blocks == s.blocks
    ensures forall o :: o in s.bos ==> SamePlace(s, t, o) == true
  {
    forall o | o in s.bos ensures SamePlace(s, t, o) {
    }
  }

  lemma {:induction false} PassCountFrame(s: State, t: State, cookie: int, from: nat)
    requires t.fenced == s.fenced && t.blocks == s.blocks && from <= |s.fenced|
    ensures PassCount(t, cookie, from) == PassCount(s, cookie, from)
    decreases |s.fenced| - from
  {
    if from < |s.fenced| {
      PassCountFrame(s, t, cookie, from + 1);
    }
  }

  lemma UnfenceRound(start: State, s: State, n: nat)
    requires Inv(start) && Inv(s) && Evolves(start, s) && Cleared(start, s, n) && s.fenced != []
    ensures s.fenced[0] in s.blocks
    ensures var t := Unfence(s, s.fenced[0]);
      && Inv(t) && Evolves(start, t) && Cleared(start, t, n + 1) == true
      && t.bos == s.bos && t.lastFence == s.lastFence && t.thrashing == s.thrashing
  {
    var b := s.fenced[0];
    assert b in s.fenced;
    UnfenceOk(s, b);
    UnfenceContents(s, b);
    EvolvesTrans(start, s, Unfence(s, b));
    ClearedOneMore(start, s, n);
  }

  lemma PassRound(s: State, cookie: int)
    requires Struct(s) && s.fenced != []
    ensures s.fenced[0] in s.blocks
    ensures PassCount(s, cookie, 0)
      == (if Passed(s.blocks[s.fenced[0]].fence, cookie) then 1 + PassCount(Unfence(s, s.fenced[0]), cookie, 0) else 0)
  {
    UnfenceTail(s);
    PassCountTail(s, Unfence(s, s.fenced[0]), cookie, 0);
  }

  /** Releasing the head of the fenced list leaves the rest of it as it is. */
  lemma UnfenceTail(s: State)
    requires Struct(s) && s.fenced != []
    ensures s.fenced[0] in s.blocks
    ensures var t := Unfence(s, s.fenced[0]);
      && t.fenced == s.fenced[1..]
      && (forall c :: c in t.fenced ==> c in s.blocks && c in t.blocks && t.blocks[c] == s.blocks[c])
  {
    UnfenceHead(s);
    assert forall c :: c in s.fenced[1..] ==> c in s.fenced;
  }

  /** One round of the loop of clear_fenced. */
  lemma ClearRound(start: State, s: State, cookie: int, n: nat)
    requires Inv(start) && Clearing(start, s, cookie, n) && s.fenced != []
    ensures s.fenced[0] in s.blocks
    ensures !Passed(s.blocks[s.fenced[0]].fence, cookie) ==> PassCount(s, cookie, 0) == 0
    ensures Passed(s.blocks[s.fenced[0]].fence, cookie) ==> Clearing(start, Unfence(s, s.fenced[0]), cookie, n + 1)
    ensures |Unfence(s, s.fenced[0]).fenced| < |s.fenced|
  {
    UnfenceTail(s);
    PassRound(s, cookie);
    UnfenceRound(start, s, n);
  }

  /** The fenced blocks that belong to emissions up to `e`. */
  ghost predicate EmittedBy(s: State, b: BlockId, e: nat)
  {
    b in s.blocks && s.blocks[b].emission <= e
  }

  /** Every fenced emission is less than 2^24 away from `e`. */
  ghost predicate InWindow(s: State, e: nat)
  {
    forall b :: b in s.fenced && b in s.blocks ==>
      -FENCE_WINDOW < s.blocks[b].emission - e < FENCE_WINDOW
  }

  /** Every fenced emission is less than 2^24 away from the next one. */
  ghost predicate AllClose(s: State)
  {
    InWindow(s, s.issued + 1)
  }

  ghost predicate PassesIffEmitted(s: State, e: nat, j: nat)
    requires j < |s.fenced| && e >= 1
  {
    s.fenced[j] in s.blocks && (Passed(s.blocks[s.fenced[j]].fence, Cookie(e)) <==> EmittedBy(s, s.fenced[j], e))
  }

  lemma OnePassed(s: State, e: nat, j: nat)
    requires ListsOk(s) && FencesOk(s) && e >= 1 && InWindow(s, e) && j < |s.fenced|
    ensures PassesIffEmitted(s, e, j)
  {
    assert s.fenced[j] in s.fenced;
    FenceLteIsOrder(s.blocks[s.fenced[j]].emission, e);
  }

  lemma InEmissionOrder(s: State, i: nat, j: nat)
    requires ListsOk(s) && FencesOk(s) && i <= j < |s.fenced|
    ensures s.fenced[i] in s.blocks && s.fenced[j] in s.blocks
    ensures s.blocks[s.fenced[i]].emission <= s.blocks[s.fenced[j]].emission
  {
    assert s.fenced[i] in s.fenced && s.fenced[j] in s.fenced;
  }

  /** While emissions are close together, the early break of clear_fenced loses
      nothing: the released prefix is exactly what was emitted up to `e`. */
  lemma {:induction false} PassedAreEmitted(s: State, e: nat, from: nat, i: nat)
    requires ListsOk(s) && FencesOk(s) && e >= 1 && InWindow(s, e) && from <= i < |s.fenced|
    ensures i < from + PassCount(s, Cookie(e), from) <==> EmittedBy(s, s.fenced[i], e)
    decreases |s.fenced| - from
  {
    OnePassed(s, e, from);
    InEmissionOrder(s, from, i);
    if i > from {
      PassedAreEmitted(s, e, from + 1, i);
    }
  }

  /** clear_fenced with the cookie of emission `e` releases exactly the blocks emitted at or before `e`. */
  lemma ClearFencedExact(s: State, e: nat)
    requires Struct(s) && e >= 1 && InWindow(s, e)
    ensures forall i :: 0 <= i < |s.fenced| ==> (i < PassCount(s, Cookie(e), 0) <==> EmittedBy(s, s.fenced[i], e))
  {
    forall i | 0 <= i < |s.fenced|
      ensures i < PassCount(s, Cookie(e), 0) <==> EmittedBy(s, s.fenced[i], e)
    {
      PassedAreEmitted(s, e, 0, i);
    }
  }

  /** Nothing that was emitted up to `e` is pending any more. */
  ghost predicate Waited(s: State, t: State, e: nat)
  {
    && (forall b :: b in t.fenced && b in t.blocks ==> t.blocks[b].emission > e)
    && (forall b :: b in s.blocks && b in t.blocks && s.blocks[b].fenced && s.blocks[b].emission <= e ==>
      !t.blocks[b].fenced)
  }

  /** Waiting for emission `e` achieves that, while emissions are close together. */
  lemma WaitedExact(s: State, t: State, e: nat)
    requires ListsOk(s) && FencesOk(s) && e >= 1 && InWindow(s, e) && Cleared(s, t, PassCount(s, Cookie(e), 0))
    ensures Waited(s, t, e)
  {
    forall b | b in t.fenced && b in t.blocks ensures t.blocks[b].emission > e {
      StillPending(s, t, e, b);
    }
    forall b | b in s.blocks && b in t.blocks && s.blocks[b].fenced && s.blocks[b].emission <= e
      ensures !t.blocks[b].fenced
    {
      NoLongerFenced(s, t, e, b);
    }
  }

  lemma StillPending(s: State, t: State, e: nat, b: BlockId)
    requires ListsOk(s) && FencesOk(s) && e >= 1 && InWindow(s, e) && Cleared(s, t, PassCount(s, Cookie(e), 0))
    requires b in t.fenced && b in t.blocks
    ensures t.blocks[b].emission > e
  {
    var i :| 0 <= i < |t.fenced| && t.fenced[i] == b;
    PassedAreEmitted(s, e, 0, PassCount(s, Cookie(e), 0) + i);
  }

  lemma NoLongerFenced(s: State, t: State, e: nat, b: BlockId)
    requires ListsOk(s) && FencesOk(s) && e >= 1 && InWindow(s, e) && Cleared(s, t, PassCount(s, Cookie(e), 0))
    requires b in s.blocks && b in t.blocks && s.blocks[b].fenced && s.blocks[b].emission <= e
    ensures !t.blocks[b].fenced
  {
    var n := PassCount(s, Cookie(e), 0);
    assert b in s.fenced;
    var i :| 0 <= i < |s.fenced| && s.fenced[i] == b;
    PassedAreEmitted(s, e, 0, i);
    assert s.fenced[..n][i] == b;
  }

  // ----- evict_and_alloc_block

  /** Some block on the hardware meets [start, start + size). */
  ghost predicate HwBlocked(s: State, start: int, size: int)
  {
    exists b :: b in s.onHw && b in s.blocks && s.blocks[b].ofs < start + size
      && start < s.blocks[b].ofs + s.blocks[b].size
  }

  ghost predicate AllHwBlocked(s: State, bo: Bo)
  {
    forall start {:trigger HwBlocked(s, start, CardSize(bo))} ::
      s.lo <= start && start + CardSize(bo) <= s.Hi() && start % Pow2(bo.align2) == 0 ==>
        HwBlocked(s, start, CardSize(bo))
  }

  /** With nothing left to evict or to wait for, a failing allocation means that
      the blocks on the hardware leave no room. */
  lemma ExhaustedIsBlocked(s: State, o: BoId)
    requires Struct(s) && o in s.bos && s.lru == [] && s.fenced == [] && AllocBlock(s, o).None?
    ensures AllHwBlocked(s, s.bos[o])
  {
    var bo := s.bos[o];
    CardSizeCovers(bo);
    AllocFailsIff(s.heap, s.lo, s.Hi(), CardSize(bo), bo.align2, 0);
    forall start | s.lo <= start && start + CardSize(bo) <= s.Hi() && start % Pow2(bo.align2) == 0
      ensures HwBlocked(s, start, CardSize(bo))
    {
      assert Blocked(s.heap, start, CardSize(bo));
      var c :| UsedIn(s.heap, c) && c.ofs < start + CardSize(bo) && start < c.End();
      assert Owned(s, c);
      var b :| b in s.blocks && CellOf(s.blocks[b]) == c;
      assert b in s.onHw;
    }
  }

  /** A block that was placed shows a start at which nothing on the hardware is in the way. */
  lemma PlacedIsNotBlocked(s: State, o: BoId)
    requires Struct(s) && o in s.bos && s.bos[o].block.None? && AllocBlock(s, o).Some?
    ensures !AllHwBlocked(s, s.bos[o])
  {
    var bo := s.bos[o];
    CardSizeCovers(bo);
    var start := PickedIsUnblocked(s.heap, s.lo, s.Hi(), CardSize(bo), bo.align2, 0);
    forall b | b in s.onHw && b in s.blocks
      ensures !(s.blocks[b].ofs < start + CardSize(bo) && start < s.blocks[b].ofs + s.blocks[b].size)
    {
      assert UsedIn(s.heap, CellOf(s.blocks[b]));
    }
    assert !HwBlocked(s, start, CardSize(bo));
  }

  /** Making room does not move the blocks on the hardware. */
  lemma HwBlockedFrame(s: State, t: State, bo: Bo)
    requires Struct(s) && Evolves(s, t)
    ensures AllHwBlocked(t, bo) <==> AllHwBlocked(s, bo)
  {
    forall start: int ensures HwBlocked(t, start, CardSize(bo)) <==> HwBlocked(s, start, CardSize(bo)) {
      assert forall b :: b in s.onHw ==> b in s.blocks && b in t.blocks && t.blocks[b] == s.blocks[b];
    }
    if AllHwBlocked(s, bo) {
      forall start | t.lo <= start && start + CardSize(bo) <= t.Hi() && start % Pow2(bo.align2) == 0
        ensures HwBlocked(t, start, CardSize(bo))
      {
        assert HwBlocked(s, start, CardSize(bo));
      }
    }
    if AllHwBlocked(t, bo) {
      forall start | s.lo <= start && start + CardSize(bo) <= s.Hi() && start % Pow2(bo.align2) == 0
        ensures HwBlocked(s, start, CardSize(bo))
      {
        assert HwBlocked(t, start, CardSize(bo));
      }
    }
  }

  /** While room is being made for `o`. */
  ghost predicate Making(s0: State, s: State, o: BoId)
  {
    && Inv(s) && Evolves(s0, s) && ClashOnly(s, {o}) == true
    && o in s0.bos && o in s.bos && s.bos[o] == s0.bos[o] && s.bos[o].block.None?
  }

  /** Room for `o` has been found. */
  ghost predicate Made(s0: State, s: State, o: BoId)
  {
    && Inv(s) && Evolves(s0, s) && ClashOnly(s, {o}) == true
    && o in s0.bos && o in s.bos && s.bos[o] == s0.bos[o].(block := s.bos[o].block) && s.bos[o].block.Some?
    && s.bos[o].block.value in s.lru
  }

  lemma AllocMakes(s0: State, s: State, o: BoId)
    requires Struct(s0) && Making(s0, s, o) && AllocBlock(s, o).Some?
    ensures Made(s0, AllocBlock(s, o).value, o) && !AllHwBlocked(s0, s0.bos[o])
  {
    var t := AllocBlock(s, o).value;
    AllocBlockOk(s, o);
    assert s.nextBlock !in s.blocks;
    AllocBlockContents(s, o);
    EvolvesTrans(s0, s, t);
    PlacedIsNotBlocked(s, o);
    HwBlockedFrame(s0, s, s.bos[o]);
    AllocClash(s, o);
  }

  lemma AllocClash(s: State, o: BoId)
    requires ClashOnly(s, {o}) && o in s.bos && AllocBlock(s, o).Some?
    ensures ClashOnly(AllocBlock(s, o).value, {o})
  {
  }

  /** Waiting for the oldest fence releases at least its block. */
  lemma OldestPasses(s: State)
    requires Struct(s) && s.fenced != []
    ensures s.fenced[0] in s.blocks && s.blocks[s.fenced[0]].emission >= 1
    ensures PassCount(s, Cookie(s.blocks[s.fenced[0]].emission), 0) >= 1
  {
    assert s.fenced[0] in s.fenced;
  }

  /** Waiting moves no block that has an owner. */
  lemma ClearedPlaces(s: State, t: State, n: nat)
    requires OwnersOk(s) && Cleared(s, t, n)
    ensures forall o :: o in s.bos ==> SamePlace(s, t, o) == true
  {
    forall o | o in s.bos ensures SamePlace(s, t, o) {
    }
  }

  lemma SamePlaceTrans(s: State, t: State, u: State)
    requires t.bos == s.bos
    requires forall o :: o in s.bos ==> SamePlace(s, t, o) == true
    requires forall o :: o in t.bos ==> SamePlace(t, u, o) == true
    ensures forall o :: o in s.bos ==> SamePlace(s, u, o) == true
  {
    forall o | o in s.bos ensures SamePlace(s, u, o) {
      assert SamePlace(s, t, o) == true && SamePlace(t, u, o) == true;
    }
  }

  lemma SameBosClash(s: State, t: State, ex: set<BoId>)
    requires ClashOnly(s, ex) && t.bos == s.bos
    ensures ClashOnly(t, ex)
  {
  }

  /** Waiting for the newest emission releases everything. */
  lemma AllPassed(s: State, e: nat)
    requires ListsOk(s) && FencesOk(s) && e >= 1 && e >= s.issued && InWindow(s, e)
    ensures PassCount(s, Cookie(e), 0) == |s.fenced|
  {
    if s.fenced != [] {
      var i := |s.fenced| - 1;
      PassedAreEmitted(s, e, 0, i);
      assert s.fenced[i] in s.fenced;
    }
  }

  /** After waiting for the newest emission nothing is fenced any more. */
  lemma IdleAllPassed(s: State, mid: State, t: State, e: nat)
    requires e == s.issued + 1 && mid == s.(issued := e) && Struct(mid)
    requires Cleared(mid, t, PassCount(mid, Cookie(e), 0))
    ensures AllClose(s) ==> t.fenced == []
  {
    if AllClose(s) {
      assert InWindow(mid, e);
      AllPassed(mid, e);
    }
  }

  // ----- changing one buffer

  /** Like Evolves, but says nothing about the buffer `o`. */
  ghost predicate EvolvesBut(s: State, t: State, o: BoId)
  {
    EvolvesButFacts(s, t, o) == true
  }

  ghost predicate EvolvesButFacts(s: State, t: State, o: BoId)
  {
    && t.lo == s.lo && |t.card| == |s.card| && t.bos.Keys == s.bos.Keys && t.nextBo == s.nextBo
    && t.issued >= s.issued && t.onHw == s.onHw
    && (forall b :: b in s.onHw && b in s.blocks ==> b in t.blocks && t.blocks[b] == s.blocks[b])
    && (forall x :: x in s.bos && x != o ==> BoEvolves(s, t, x))
  }

  lemma EvolvesIsBut(s: State, t: State, o: BoId)
    requires Evolves(s, t)
    ensures EvolvesBut(s, t, o)
  {
  }

  lemma EvolvesThenBut(s: State, t: State, u: State, o: BoId)
    requires Evolves(s, t) && EvolvesBut(t, u, o)
    ensures EvolvesBut(s, u, o)
  {
    forall x | x in s.bos && x != o ensures BoEvolves(s, u, x) {
      assert BoEvolves(s, t, x) && BoEvolves(t, u, x);
    }
  }

  lemma ButThenEvolves(s: State, t: State, u: State, o: BoId)
    requires EvolvesBut(s, t, o) && Evolves(t, u)
    ensures EvolvesBut(s, u, o)
  {
    forall x | x in s.bos && x != o ensures BoEvolves(s, u, x) {
      assert BoEvolves(s, t, x) && BoEvolves(t, u, x);
    }
  }

  lemma ButTrans(s: State, t: State, u: State, o: BoId)
    requires EvolvesBut(s, t, o) && EvolvesBut(t, u, o)
    ensures EvolvesBut(s, u, o)
  {
    forall x | x in s.bos && x != o ensures BoEvolves(s, u, x) {
      assert BoEvolves(s, t, x) && BoEvolves(t, u, x);
    }
  }

  lemma SetBoOthers(s: State, o: BoId, x: Bo, t: State)
    requires OwnersOk(s) && AllCoherent(s) && o in s.bos
    requires t == s.(bos := s.bos[o := x], fail := t.fail, rendered := t.rendered)
    ensures forall y :: y in s.bos && y != o ==> BoEvolves(s, t, y) == true && Coherent(t, y) == true
    ensures forall y :: y in s.bos && y != o && NoClash(s, y) ==> NoClash(t, y)
  {
    ReflagSelf(s, t);
    forall y | y in s.bos && y != o
      ensures BoEvolves(s, t, y) == true && Coherent(t, y) == true && (NoClash(s, y) ==> NoClash(t, y))
    {
      assert Coherent(s, y) == true && SamePlace(s, t, y) == true;
      BoSteady(s, t, y);
    }
  }

  /** Replacing the record of `o`, with the same block, disturbs no other buffer. */
  lemma SetBo(s: State, o: BoId, x: Bo, t: State)
    requires Inv(s) && o in s.bos && x.block == s.bos[o].block && x.size == s.bos[o].size
    requires t == s.(bos := s.bos[o := x], fail := t.fail, rendered := t.rendered)
    requires Coherent(t, o)
    ensures Inv(t) && EvolvesBut(s, t, o)
    ensures forall ex :: ClashOnly(s, ex + {o}) ==> ClashOnly(t, ex + {o})
    ensures NoClash(t, o) ==> forall ex :: ClashOnly(s, ex) ==> ClashOnly(t, ex)
  {
    BosOnlyOk(s, t);
    SetBoOthers(s, o, x, t);
    assert AllCoherent(t);
  }

  /** Waiting leaves every buffer and its card memory where they are. */
  lemma WaitKeepsCopies(s: State, t: State, o: BoId)
    requires o in s.bos && SamePlace(s, t, o) && t.bos == s.bos && t.card == s.card && t.lo == s.lo
    ensures HasBlock(t, o) == HasBlock(s, o)
    ensures HasBlock(s, o) ==> CardCopy(t, o) == CardCopy(s, o)
  {
  }
}
