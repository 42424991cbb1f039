/** Every step of the fake buffer manager keeps the structural invariant. */
module FakeSteps {
  import opened MmLayout
  import opened MmTheorems
  import opened FenceOrder
  import opened FakeState

  lemma CardSizeCovers(bo: Bo)
    requires bo.size > 0
    ensures CardSize(bo) >= bo.size
  {
    AlignUpIsLeast(bo.size, Pow2(bo.align2));
  }

  /** What alloc_block does to the heap and the blocks. */
  lemma AllocBlockHeap(s: State, o: BoId)
    requires Struct(s) && o in s.bos && AllocBlock(s, o).Some?
    ensures var t := AllocBlock(s, o).value;
      HeapOk(t) && BlocksOk(t)
  {
    var t := AllocBlock(s, o).value;
    var bo := s.bos[o];
    CardSizeCovers(bo);
    AllocKeepsValid(s.heap, s.lo, s.Hi(), CardSize(bo), bo.align2, 0);
    var c := CellOf(t.blocks[s.nextBlock]);
    forall b | b in s.blocks ensures s.blocks[b].ofs != c.ofs {
      assert UsedIn(s.heap, CellOf(s.blocks[b])) && UsedIn(t.heap, CellOf(s.blocks[b])) && UsedIn(t.heap, c);
      CellsDisjoint(t.heap.cells, t.lo, t.Hi(), CellOf(s.blocks[b]), c);
    }
    forall d | UsedIn(t.heap, d) ensures Owned(t, d) {
      if d == c {
        assert CellOf(t.blocks[s.nextBlock]) == d;
      } else {
        assert Owned(s, d);
        var b :| b in s.blocks && CellOf(s.blocks[b]) == d;
        assert b in t.blocks && CellOf(t.blocks[b]) == d;
      }
    }
  }

  lemma AppendDistinct(s: seq<nat>, b: nat)
    requires Distinct(s) && b !in s
    ensures Distinct(s + [b])
  {
  }

  lemma AllocBlockLists(s: State, o: BoId)
    requires ListsOk(s) && o in s.bos && AllocBlock(s, o).Some? && s.nextBlock !in s.blocks
    ensures ListsOk(AllocBlock(s, o).value)
  {
    AppendDistinct(s.lru, s.nextBlock);
  }

  lemma AllocBlockOwners(s: State, o: BoId)
    requires OwnersOk(s) && o in s.bos && s.bos[o].block.None? && AllocBlock(s, o).Some? && s.nextBlock !in s.blocks
    ensures OwnersOk(AllocBlock(s, o).value)
  {
    CardSizeCovers(s.bos[o]);
  }

  lemma AllocBlockOk(s: State, o: BoId)
    requires Struct(s) && o in s.bos && s.bos[o].block.None? && AllocBlock(s, o).Some?
    ensures Struct(AllocBlock(s, o).value)
  {
    AllocBlockHeap(s, o);
    assert s.nextBlock !in s.blocks;
    AllocBlockLists(s, o);
    AllocBlockOwners(s, o);
    assert FencesOk(AllocBlock(s, o).value);
  }

  /** What freeing a block does to the heap. */
  lemma DropHeap(s: State, b: BlockId)
    requires HeapOk(s) && BlocksOk(s) && b in s.blocks
    ensures HeapOk(Drop(s, b))
    ensures forall c :: UsedIn(Drop(s, b).heap, c) <==> UsedIn(s.heap, c) && c.ofs != s.blocks[b].ofs
  {
    var c := CellOf(s.blocks[b]);
    var t := Drop(s, b);
    assert t.heap == Free(s.heap, c.ofs) && t.lo == s.lo && t.Hi() == s.Hi();
    assert UsedIn(s.heap, c) && Valid(s.heap, s.lo, s.Hi()) == true;
    FreeAtKeepsValid(s.heap, s.lo, s.Hi(), c);
  }

  lemma DropBlocks(s: State, b: BlockId)
    requires BlocksOk(s) && b in s.blocks
    requires forall c :: UsedIn(Drop(s, b).heap, c) <==> UsedIn(s.heap, c) && c.ofs != s.blocks[b].ofs
    ensures BlocksOk(Drop(s, b))
  {
    var t := Drop(s, b);
    forall d | UsedIn(t.heap, d) ensures Owned(t, d) {
      assert Owned(s, d);
      var e :| e in s.blocks && CellOf(s.blocks[e]) == d;
      assert e in t.blocks && CellOf(t.blocks[e]) == d;
    }
  }

  lemma DropLists(s: State, b: BlockId)
    requires ListsOk(s) && b in s.blocks
    ensures ListsOk(Drop(s, b))
  {
    WithoutDistinct(s.lru, b);
    WithoutDistinct(s.onHw, b);
    WithoutDistinct(s.fenced, b);
  }

  /** The owner of `b`, if any, has let go of it. */
  ghost predicate LetGo(s: State, b: BlockId, t: State)
  {
    && t.bos.Keys <= s.bos.Keys && t.nextBo == s.nextBo
    && (forall o :: o in s.bos && s.bos[o].block.Some? && s.bos[o].block != Some(b) ==> o in t.bos)
    && (forall o :: o in t.bos ==> t.bos[o].size == s.bos[o].size)
    && (forall o :: o in t.bos ==> t.bos[o].block == if s.bos[o].block == Some(b) then None else s.bos[o].block)
  }

  lemma DropOwners(s: State, b: BlockId, t: State)
    requires OwnersOk(s) && b in s.blocks && LetGo(s, b, t) && t.blocks == s.blocks - {b}
    ensures OwnersOk(t)
  {
  }

  /** Freeing a block whose owner, if any, has let go of it. */
  lemma DropOk(s: State, b: BlockId, t: State)
    requires Struct(s) && b in s.blocks
    requires t == Drop(s, b).(bos := t.bos) && LetGo(s, b, t)
    ensures Struct(t)
  {
    var d := Drop(s, b);
    DropHeap(s, b);
    DropBlocks(s, b);
    SameHeapBlocks(d, t);
    DropLists(s, b);
    assert ListsOk(t);
    DropOwners(s, b, t);
    KeepFences(s, b, t);
  }

  /** Taking `b` out of the fenced list keeps the fences in order. */
  lemma KeepFences(s: State, b: BlockId, t: State)
    requires FencesOk(s) && t.fenced == Without(s.fenced, b) && t.issued >= s.issued
    requires forall c :: c in t.blocks && c != b ==>
      c in s.blocks && t.blocks[c].emission == s.blocks[c].emission && t.blocks[c].fence == s.blocks[c].fence
    ensures FencesOk(t)
  {
    WithoutOrder(s, b);
    forall c | c in t.fenced && c in t.blocks
      ensures 1 <= t.blocks[c].emission <= t.issued && t.blocks[c].fence == Cookie(t.blocks[c].emission)
    {
      assert c != b && c in s.fenced;
    }
    forall i, j | 0 <= i < j < |t.fenced| && t.fenced[i] in t.blocks && t.fenced[j] in t.blocks
      ensures t.blocks[t.fenced[i]].emission <= t.blocks[t.fenced[j]].emission
    {
      assert t.fenced[i] in t.fenced && t.fenced[j] in t.fenced;
    }
  }

  /** Changing flags and lists leaves ownership alone. */
  lemma KeepOwners(s: State, t: State)
    requires OwnersOk(s) && t.blocks.Keys == s.blocks.Keys && t.bos.Keys == s.bos.Keys && t.nextBo == s.nextBo
    requires forall b :: b in s.blocks ==> t.blocks[b].bo == s.blocks[b].bo && t.blocks[b].size == s.blocks[b].size
    requires forall b :: b in s.blocks && s.blocks[b].bo.None? ==> t.blocks[b].fenced
    requires forall o :: o in s.bos ==> t.bos[o].block == s.bos[o].block && t.bos[o].size == s.bos[o].size
    ensures OwnersOk(t)
  {
  }

  /** Positions of a list with one element taken out. */
  lemma {:induction false} WithoutAt(s: seq<BlockId>, b: BlockId, i: nat, j: nat) returns (k: nat, l: nat)
    requires i < j < |Without(s, b)|
    ensures k < l < |s| && s[k] == Without(s, b)[i] && s[l] == Without(s, b)[j]
  {
    if s[0] == b {
      k, l := WithoutAt(s[1..], b, i, j);
      k, l := k + 1, l + 1;
    } else if i > 0 {
      k, l := WithoutAt(s[1..], b, i - 1, j - 1);
      k, l := k + 1, l + 1;
    } else {
      k := 0;
      var x := Without(s[1..], b)[j - 1];
      assert x in Without(s[1..], b);
      l :| 0 <= l < |s| - 1 && s[1..][l] == x;
      l := l + 1;
    }
  }

  /** Taking a block out of the fenced list leaves the rest in emission order. */
  lemma WithoutOrder(s: State, b: BlockId)
    requires FencesOk(s)
    ensures var f := Without(s.fenced, b);
      forall i, j :: 0 <= i < j < |f| && f[i] in s.blocks && f[j] in s.blocks ==>
        s.blocks[f[i]].emission <= s.blocks[f[j]].emission
  {
    var f := Without(s.fenced, b);
    forall i, j | 0 <= i < j < |f| && f[i] in s.blocks && f[j] in s.blocks
      ensures s.blocks[f[i]].emission <= s.blocks[f[j]].emission
    {
      var k, l := WithoutAt(s.fenced, b, i, j);
    }
  }

  lemma SameHeapBlocks(s: State, t: State)
    requires HeapOk(s) && BlocksOk(s)
    requires t.lo == s.lo && |t.card| == |s.card| && t.heap == s.heap && t.blocks.Keys == s.blocks.Keys
    requires t.nextBlock == s.nextBlock
    requires forall b :: b in s.blocks ==> CellOf(t.blocks[b]) == CellOf(s.blocks[b])
    ensures HeapOk(t) && BlocksOk(t)
  {
    forall c | UsedIn(t.heap, c) ensures Owned(t, c) {
      assert Owned(s, c);
      var b :| b in s.blocks && CellOf(s.blocks[b]) == c;
      assert b in t.blocks && CellOf(t.blocks[b]) == c;
    }
  }

  /** Changing the flags and the fence of one block. */
  lemma Reflag(blocks: map<BlockId, Block>, b: BlockId, k: Block)
    requires b in blocks && k.bo == blocks[b].bo && CellOf(k) == CellOf(blocks[b])
    ensures blocks[b := k].Keys == blocks.Keys
    ensures forall c :: c in blocks ==> CellOf(blocks[b := k][c]) == CellOf(blocks[c])
    ensures forall c :: c in blocks ==> blocks[b := k][c].bo == blocks[c].bo && blocks[b := k][c].size == blocks[c].size
    ensures forall c :: c in blocks && c != b ==> blocks[b := k][c] == blocks[c]
  {
  }

  lemma ReflagOwners(s: State, b: BlockId, k: Block, t: State)
    requires OwnersOk(s) && b in s.blocks && k.bo == s.blocks[b].bo && CellOf(k) == CellOf(s.blocks[b])
    requires k.bo.Some? && t.blocks == s.blocks[b := k] && t.bos.Keys == s.bos.Keys && t.nextBo == s.nextBo
    requires forall o :: o in s.bos ==> t.bos[o].block == s.bos[o].block && t.bos[o].size == s.bos[o].size
    ensures OwnersOk(t)
  {
    Reflag(s.blocks, b, k);
    KeepOwners(s, t);
  }

  lemma ToLruLists(s: State, b: BlockId)
    requires ListsOk(s) && b in s.fenced
    ensures ListsOk(ToLru(s, b))
  {
    WithoutDistinct(s.fenced, b);
    AppendDistinct(s.lru, b);
  }

  lemma ToLruOk(s: State, b: BlockId)
    requires Struct(s) && b in s.fenced && s.blocks[b].bo.Some?
    ensures Struct(ToLru(s, b))
  {
    var t := ToLru(s, b);
    Reflag(s.blocks, b, t.blocks[b]);
    SameHeapBlocks(s, t);
    ToLruLists(s, b);
    ReflagOwners(s, b, t.blocks[b], t);
    KeepFences(s, b, t);
  }

  lemma UnfenceOk(s: State, b: BlockId)
    requires Struct(s) && b in s.fenced
    ensures Struct(Unfence(s, b))
  {
    if s.blocks[b].bo.None? {
      DropOk(s, b, Unfence(s, b));
    } else {
      ToLruOk(s, b);
    }
  }

  lemma FenceLists(s: State, b: BlockId)
    requires ListsOk(s) && b in s.onHw && s.issued >= 1
    ensures ListsOk(Fence(s, b, s.issued))
  {
    WithoutDistinct(s.onHw, b);
    AppendDistinct(s.fenced, b);
  }

  lemma FenceFences(s: State, b: BlockId)
    requires ListsOk(s) && FencesOk(s) && b in s.onHw && s.issued >= 1
    ensures FencesOk(Fence(s, b, s.issued))
  {
    var t := Fence(s, b, s.issued);
    assert b !in s.fenced;
  }

  lemma FenceOk(s: State, b: BlockId)
    requires Struct(s) && b in s.onHw && s.issued >= 1
    ensures Struct(Fence(s, b, s.issued))
  {
    var t := Fence(s, b, s.issued);
    SameHeapBlocks(s, t);
    FenceLists(s, b);
    FenceFences(s, b);
    ReflagOwners(s, b, t.blocks[b], t);
  }

  lemma ToHardwareLists(s: State, b: BlockId)
    requires ListsOk(s) && b in s.blocks
    ensures ListsOk(ToHardware(s, b))
  {
    WithoutDistinct(s.lru, b);
    WithoutDistinct(s.fenced, b);
    WithoutDistinct(s.onHw, b);
    AppendDistinct(Without(s.onHw, b), b);
  }

  lemma ToHardwareOk(s: State, b: BlockId)
    requires Struct(s) && b in s.blocks && s.blocks[b].bo.Some?
    ensures Struct(ToHardware(s, b))
  {
    var t := ToHardware(s, b);
    Reflag(s.blocks, b, t.blocks[b]);
    SameHeapBlocks(s, t);
    ToHardwareLists(s, b);
    ReflagOwners(s, b, t.blocks[b], t);
    KeepFences(s, b, t);
  }

  /** Only buffer fields that the structure does not depend on have changed. */
  ghost predicate BosOnly(s: State, t: State)
  {
    && t == s.(bos := t.bos, card := t.card, fail := t.fail, thrashing := t.thrashing, rendered := t.rendered,
               lastFence := t.lastFence, issued := t.issued)
    && |t.card| == |s.card| && t.issued >= s.issued
    && t.bos.Keys == s.bos.Keys
    && (forall o :: o in s.bos ==> t.bos[o].block == s.bos[o].block && t.bos[o].size == s.bos[o].size)
  }

  lemma BosOnlyOk(s: State, t: State)
    requires Struct(s) && BosOnly(s, t)
    ensures Struct(t)
  {
    SameHeapBlocks(s, t);
    assert ListsOk(t);
    assert OwnersOk(t);
    assert FencesOk(t);
  }

  /** The owner of `b` lets go of it. */
  lemma LetGoOne(s: State, b: BlockId, t: State, o: BoId)
    requires OwnersOk(s) && b in s.blocks && s.blocks[b].bo == Some(o) && t.nextBo == s.nextBo
    requires o in t.bos && t.bos == s.bos[o := t.bos[o]] && t.bos[o].block.None? && t.bos[o].size == s.bos[o].size
    ensures LetGo(s, b, t)
  {
  }

  lemma UpdateTwice(bos: map<BoId, Bo>, o: BoId, x: Bo, y: Bo)
    ensures bos[o := x][o := y] == bos[o := y]
    ensures o in bos ==> bos[o := bos[o]] == bos
  {
  }

  /** Marking the buffer dirty, taking its block away and freeing the block add up to an eviction. */
  lemma EvictSteps(s: State, b: BlockId)
    requires HasOwner(s, b) && !s.blocks[b].onHardware && !s.blocks[b].fenced
    ensures var o := s.blocks[b].bo.value;
      FreeBlock(s.(bos := s.bos[o := s.bos[o].(dirty := true, block := None)]), b, false) == Evict(s, b)
  {
    var o := s.blocks[b].bo.value;
    UpdateTwice(s.bos, o, s.bos[o].(dirty := true, block := None), Evicted(s, b));
  }

  /** The statements of kick_all_locked add up to Kick. */
  lemma KickSteps(s: State, b: BlockId, o: BoId, s1: State, t: State)
    requires HasOwner(s, b) && s.blocks[b].bo.value == o && s.blocks[b].onHardware && !s.blocks[b].fenced
    requires s1 == s.(blocks := s.blocks[b := s.blocks[b].(onHardware := false)])
    requires t == FreeBlock(s1, b, false)
    ensures o in t.bos
    ensures t.(bos := t.bos[o := KickedFlags(t.bos[o])]) == Kick(s, b)
  {
    assert s1.blocks - {b} == s.blocks - {b};
    assert Drop(s1, b) == Drop(s, b);
    var c := CopyBack(s1, b, false);
    assert t == Drop(s1, b).(bos := c.bos);
    KickedBo(s, b, o, s1);
    UpdateTwice(s.bos, o, c.bos[o], KickedFlags(c.bos[o]));
  }

  lemma KickedBo(s: State, b: BlockId, o: BoId, s1: State)
    requires HasOwner(s, b) && s.blocks[b].bo.value == o && HasOwner(s1, b) && s1.blocks[b].bo.value == o
    requires s1.lo == s.lo && s1.card == s.card && s1.bos == s.bos && s1.blocks[b].ofs == s.blocks[b].ofs
    ensures o in CopyBack(s1, b, false).bos
    ensures KickedFlags(CopyBack(s1, b, false).bos[o])
      == Evicted(s, b).(validated := false, dirty := s.bos[o].dirty || !s.bos[o].noBacking)
    ensures CopyBack(s1, b, false).bos == s.bos
      || CopyBack(s1, b, false).bos == s.bos[o := CopyBack(s1, b, false).bos[o]]
  {
  }

  /** What kick_all_locked sets in the buffer after free_block. */
  function KickedFlags(bo: Bo): Bo
  {
    bo.(block := None, validated := false, dirty := bo.dirty || !bo.noBacking)
  }

  lemma OwnerInCard(s: State, b: BlockId)
    requires Struct(s) && b in s.blocks && s.blocks[b].bo.Some?
    ensures HasOwner(s, b) && s.bos[s.blocks[b].bo.value].block == Some(b)
  {
    BlockInCard(s, b);
  }

  /** evict_lru and evict_mru on the block they picked. */
  lemma EvictOk(s: State, b: BlockId)
    requires Struct(s) && b in s.lru && HasOwner(s, b)
    ensures Struct(Evict(s, b))
  {
    LetGoOne(s, b, Evict(s, b), s.blocks[b].bo.value);
    DropOk(s, b, Evict(s, b));
  }

  lemma KickOk(s: State, b: BlockId)
    requires Struct(s) && b in s.onHw && HasOwner(s, b)
    ensures Struct(Kick(s, b))
  {
    LetGoOne(s, b, Kick(s, b), s.blocks[b].bo.value);
    DropOk(s, b, Kick(s, b));
  }
}
