/** The bytes a client stored in a buffer, wherever the manager keeps them. */
module FakeContents {
  import opened MmLayout
  import opened MmTheorems
  import opened FakeState
  import opened FakeSteps

  predicate HasBlock(s: State, o: BoId)
    requires o in s.bos
  {
    && s.bos[o].block.Some? && s.bos[o].block.value in s.blocks
    && InCard(s, s.blocks[s.bos[o].block.value].ofs, s.bos[o].size)
  }

  /** The card memory of a buffer. */
  function CardCopy(s: State, o: BoId): (w: seq<Byte>)
    requires o in s.bos && HasBlock(s, o)
    ensures |w| == s.bos[o].size
  {
    Window(s, s.blocks[s.bos[o].block.value].ofs, s.bos[o].size)
  }

  /** The logical contents: the backing store if the CPU wrote last, the card
      memory if the card did.  A buffer that was never written, or that has no
      backing store, holds nothing the manager promises to keep. */
  function Contents(s: State, o: BoId): Option<seq<Byte>>
    requires o in s.bos
  {
    var bo := s.bos[o];
    if !bo.written || bo.noBacking then None
    else if !bo.dirty && bo.cardDirty && HasBlock(s, o) then Some(CardCopy(s, o))
    else bo.backing
  }

  /** The flags of a buffer tell where its contents are, and a buffer that is
      clean on both sides has the same bytes in both places. */
  ghost predicate Coherent(s: State, o: BoId)
    requires o in s.bos
  {
    var bo := s.bos[o];
    && (bo.backing.Some? ==> |bo.backing.value| == bo.size && !bo.noBacking)
    && (bo.cardDirty && !bo.noBacking ==> bo.backing.Some?)
    && (bo.written && !bo.noBacking ==>
        && bo.backing.Some?
        && (!bo.dirty ==> HasBlock(s, o) && (!bo.cardDirty ==> CardCopy(s, o) == bo.backing.value)))
  }

  /** The CPU and the card are not both ahead of each other. */
  ghost predicate NoClash(s: State, o: BoId)
    requires o in s.bos
  {
    s.bos[o].dirty && s.bos[o].cardDirty && !s.bos[o].noBacking ==> s.bos[o].block.None?
  }

  ghost predicate AllCoherent(s: State)
  {
    forall o :: o in s.bos ==> Coherent(s, o) == true
  }

  ghost predicate ClashOnly(s: State, ex: set<BoId>)
  {
    forall o :: o in s.bos && o !in ex ==> NoClash(s, o)
  }

  /** `t` is `s` except for where the manager keeps things. */
  predicate SameClient(a: Bo, b: Bo)
  {
    b == a.(dirty := b.dirty, cardDirty := b.cardDirty, block := b.block, backing := b.backing)
  }

  ghost predicate OnHardware(s: State, o: BoId)
    requires o in s.bos
  {
    s.bos[o].block.Some? && s.bos[o].block.value in s.onHw
  }

  /** What eviction, waiting and allocation may do to a buffer: move it when it
      is not on the hardware, and never change what it contains. */
  ghost predicate BoEvolves(s: State, t: State, o: BoId)
    requires o in s.bos && o in t.bos
  {
    && SameClient(s.bos[o], t.bos[o]) && (s.bos[o].dirty ==> t.bos[o].dirty)
    && (OnHardware(s, o) ==> t.bos[o] == s.bos[o])
    && Contents(t, o) == Contents(s, o)
  }

  /** BoEvolves for every buffer, and nothing on the hardware moves.  (The
      predicates named ...Facts spell out what their namesakes fold into one fact.) */
  ghost predicate Evolves(s: State, t: State)
  {
    EvolvesFacts(s, t) == true
  }

  ghost predicate EvolvesFacts(s: State, t: State)
  {
    && t.lo == s.lo && t.card == s.card && t.bos.Keys == s.bos.Keys && t.nextBo == s.nextBo
    && t.fail == s.fail && t.issued >= s.issued && t.onHw == s.onHw
    && (forall b :: b in s.onHw && b in s.blocks ==> b in t.blocks && t.blocks[b] == s.blocks[b])
    && (forall o :: o in s.bos ==> BoEvolves(s, t, o))
  }

  lemma EvolvesSelf(s: State)
    ensures Evolves(s, s)
  {
    forall o | o in s.bos ensures BoEvolves(s, s, o) {
    }
  }

  lemma EvolvesTrans(s: State, t: State, u: State)
    requires Evolves(s, t) && Evolves(t, u)
    ensures Evolves(s, u)
  {
    forall o | o in s.bos ensures BoEvolves(s, u, o) {
      assert BoEvolves(s, t, o) && BoEvolves(t, u, o);
    }
  }

  // ----- frame

  /** The block of `o`, if any, is at the same address in both states. */
  ghost predicate SamePlace(s: State, t: State, o: BoId)
    requires o in s.bos
  {
    s.bos[o].block.Some? ==>
      && s.bos[o].block.value in s.blocks && s.bos[o].block.value in t.blocks
      && t.blocks[s.bos[o].block.value].ofs == s.blocks[s.bos[o].block.value].ofs
  }

  /** Neither the record of `o` nor the place of its block has changed. */
  lemma BoSteady(s: State, t: State, o: BoId)
    requires o in s.bos && o in t.bos && t.bos[o] == s.bos[o] && t.lo == s.lo && t.card == s.card && SamePlace(s, t, o)
    ensures BoEvolves(s, t, o)
    ensures Coherent(s, o) ==> Coherent(t, o)
    ensures NoClash(s, o) ==> NoClash(t, o)
  {
    assert HasBlock(t, o) == HasBlock(s, o);
  }

  /** Only blocks and lists have changed. */
  lemma BlocksFrame(s: State, t: State)
    requires AllCoherent(s) && t.bos == s.bos && t.lo == s.lo && t.card == s.card
    requires forall o :: o in s.bos ==> SamePlace(s, t, o) == true
    ensures AllCoherent(t)
    ensures forall o :: o in s.bos ==> BoEvolves(s, t, o)
    ensures forall o :: o in s.bos && NoClash(s, o) ==> NoClash(t, o)
  {
    forall o | o in s.bos
      ensures Coherent(t, o) && BoEvolves(s, t, o) && (NoClash(s, o) ==> NoClash(t, o))
    {
      BoSteady(s, t, o);
    }
  }

  /** Blocks keep their address when flags change or another block goes. */
  lemma ReflagPlaces(s: State, b: BlockId, k: Block, t: State)
    requires OwnersOk(s) && b in s.blocks && CellOf(k) == CellOf(s.blocks[b]) && t.blocks == s.blocks[b := k]
    ensures forall o :: o in s.bos ==> SamePlace(s, t, o) == true
  {
    forall o | o in s.bos ensures SamePlace(s, t, o) {
    }
  }

  lemma DropPlaces(s: State, b: BlockId, t: State)
    requires OwnersOk(s) && b in s.blocks && t.blocks == s.blocks - {b}
    ensures forall o :: o in s.bos && s.bos[o].block != Some(b) ==> SamePlace(s, t, o) == true
    ensures s.blocks[b].bo.None? ==> forall o :: o in s.bos ==> s.bos[o].block != Some(b)
    ensures forall o :: o in s.bos && s.bos[o].block == Some(b) ==> s.blocks[b].bo == Some(o)
  {
    forall o | o in s.bos && s.bos[o].block != Some(b) ensures SamePlace(s, t, o) {
    }
  }

  // ----- the steps keep the contents

  lemma ToLruContents(s: State, b: BlockId)
    requires OwnersOk(s) && ListsOk(s) && AllCoherent(s) && b in s.fenced
    ensures AllCoherent(ToLru(s, b)) && Evolves(s, ToLru(s, b))
  {
    var t := ToLru(s, b);
    ReflagPlaces(s, b, t.blocks[b], t);
    BlocksFrame(s, t);
  }

  lemma DropUnownedContents(s: State, b: BlockId)
    requires OwnersOk(s) && ListsOk(s) && AllCoherent(s) && b in s.fenced && s.blocks[b].bo.None?
    ensures AllCoherent(Drop(s, b)) && Evolves(s, Drop(s, b))
  {
    var t := Drop(s, b);
    DropPlaces(s, b, t);
    BlocksFrame(s, t);
  }

  /** One round of clear_fenced moves or frees a block and touches no buffer. */
  lemma UnfenceContents(s: State, b: BlockId)
    requires OwnersOk(s) && ListsOk(s) && AllCoherent(s) && b in s.fenced
    ensures AllCoherent(Unfence(s, b)) && Evolves(s, Unfence(s, b))
    ensures Unfence(s, b).bos == s.bos
  {
    if s.blocks[b].bo.None? {
      DropUnownedContents(s, b);
    } else {
      ToLruContents(s, b);
    }
  }

  /** alloc_block: the new block holds nothing yet, so its buffer must be dirty or unwritten. */
  lemma AllocBlockContents(s: State, o: BoId)
    requires OwnersOk(s) && ListsOk(s) && AllCoherent(s) && s.nextBlock !in s.blocks
    requires o in s.bos && s.bos[o].block.None? && AllocBlock(s, o).Some?
    ensures AllCoherent(AllocBlock(s, o).value) && Evolves(s, AllocBlock(s, o).value)
  {
    var t := AllocBlock(s, o).value;
    forall x | x in s.bos ensures Coherent(t, x) && BoEvolves(s, t, x) {
      assert Coherent(s, x) == true;
      if x != o {
        BoSteady(s, t, x);
      }
    }
  }

  /** Eviction moves the newer copy into the backing store. */
  lemma EvictedContents(s: State, t: State, b: BlockId)
    requires HasOwner(s, b) && s.bos[s.blocks[b].bo.value].block == Some(b)
    requires var o := s.blocks[b].bo.value; Coherent(s, o) && NoClash(s, o)
    requires t.bos.Keys == s.bos.Keys && t.bos[s.blocks[b].bo.value] == Evicted(s, b)
    ensures var o := s.blocks[b].bo.value;
      Coherent(t, o) && NoClash(t, o) && Contents(t, o) == Contents(s, o) && SameClient(s.bos[o], t.bos[o])
        && t.bos[o].dirty
  {
  }

  lemma EvictContents(s: State, b: BlockId)
    requires OwnersOk(s) && ListsOk(s) && AllCoherent(s) && b in s.lru && HasOwner(s, b)
    requires NoClash(s, s.blocks[b].bo.value)
    ensures AllCoherent(Evict(s, b)) && Evolves(s, Evict(s, b))
    ensures forall x :: x in s.bos && NoClash(s, x) ==> NoClash(Evict(s, b), x)
    ensures forall x :: x in s.bos && s.bos[x].block.None? ==> Evict(s, b).bos[x] == s.bos[x]
  {
    var t := Evict(s, b);
    var o := s.blocks[b].bo.value;
    DropPlaces(s, b, t);
    assert s.bos[o].block == Some(b);
    EvictedContents(s, t, b);
    forall x | x in s.bos ensures Coherent(t, x) && BoEvolves(s, t, x) && (NoClash(s, x) ==> NoClash(t, x)) {
      assert Coherent(s, x) == true;
      if x != o {
        BoSteady(s, t, x);
      }
    }
    assert b !in s.onHw;
    WithoutAbsent(s.onHw, b);
  }

  lemma WithoutAbsent(s: seq<BlockId>, b: BlockId)
    requires b !in s
    ensures Without(s, b) == s
  {
  }

  /** Eviction takes one block off the lru list and leaves the fenced list alone. */
  lemma EvictLists(s: State, b: BlockId)
    requires ListsOk(s) && b in s.lru && HasOwner(s, b)
    ensures Evict(s, b).lru == Without(s.lru, b) && |Evict(s, b).lru| == |s.lru| - 1
    ensures Evict(s, b).fenced == s.fenced
  {
    WithoutDistinct(s.lru, b);
    WithoutAbsent(s.fenced, b);
  }
}
