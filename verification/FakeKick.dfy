/** Emptying the on_hardware list: kick_all_locked and fence_blocks. */
module FakeKick {
  import opened MmLayout
  import opened FenceOrder
  import opened FakeState
  import opened FakeSteps
  import opened FakeContents
  import opened FakePlacement
  import opened FakeReloc

  // ----- kick_all_locked

  /** Kicking takes a buffer off the card and nothing else. */
  ghost predicate BoKicked(s: State, t: State, x: BoId)
    requires x in s.bos && x in t.bos
  {
    && t.bos[x] == s.bos[x].(dirty := t.bos[x].dirty, cardDirty := t.bos[x].cardDirty, block := t.bos[x].block,
                             backing := t.bos[x].backing, validated := t.bos[x].validated)
    && (t.bos[x].validated ==> OnHardware(t, x))
    && (s.bos[x].block.None? || (OnHardware(s, x) && !OnHardware(t, x)) ==> t.bos[x].block.None?)
    && Contents(t, x) == Contents(s, x)
  }

  /** Where the loop of kick_all_locked stands. */
  ghost predicate Kicking(s: State, t: State)
  {
    KickingFacts(s, t) == true
  }

  ghost predicate KickingFacts(s: State, t: State)
  {
    && Inv(t) == true && ClashOnly(t, {}) == true
    && t.lo == s.lo && t.card == s.card && t.bos.Keys == s.bos.Keys && t.nextBo == s.nextBo && t.issued == s.issued
    && (forall x :: x in s.bos ==> BoKicked(s, t, x) == true)
  }

  lemma KickStart(s: State, t: State)
    requires Running(s, {}) && t == s.(rendered := false)
    ensures Kicking(s, t)
  {
    BosOnlyOk(s, t);
    ReflagSelf(s, t);
    BlocksFrame(s, t);
    forall x | x in s.bos ensures BoKicked(s, t, x) {
      assert Placed(s, x) == true && BoEvolves(s, t, x);
    }
  }

  /** The buffer that is kicked keeps its contents, in the backing store. */
  lemma KickedContents(s: State, t: State, b: BlockId)
    requires HasOwner(s, b) && s.bos[s.blocks[b].bo.value].block == Some(b)
    requires var o := s.blocks[b].bo.value; Coherent(s, o) && NoClash(s, o)
    requires t == Kick(s, b)
    ensures var o := s.blocks[b].bo.value; Coherent(t, o) && NoClash(t, o) && BoKicked(s, t, o)
  {
    var o := s.blocks[b].bo.value;
    assert t.bos[o] == Evicted(s, b).(validated := false, dirty := s.bos[o].dirty || !s.bos[o].noBacking);
  }

  lemma KickOthers(s: State, t: State, b: BlockId, x: BoId)
    requires OwnersOk(s) && HasOwner(s, b) && t == Kick(s, b) && x in s.bos && x != s.blocks[b].bo.value
    requires Coherent(s, x) && NoClash(s, x)
    ensures Coherent(t, x) && NoClash(t, x) && t.bos[x] == s.bos[x] && Contents(t, x) == Contents(s, x)
    ensures OnHardware(s, x) ==> OnHardware(t, x)
  {
    DropPlaces(s, b, Drop(s, b));
    assert SamePlace(s, t, x);
    BoSteady(s, t, x);
  }

  lemma KickedTrans(s: State, t: State, u: State, x: BoId)
    requires x in s.bos && x in t.bos && x in u.bos && BoKicked(s, t, x)
    requires BoKicked(t, u, x)
      || (u.bos[x] == t.bos[x] && Contents(u, x) == Contents(t, x) && (OnHardware(t, x) ==> OnHardware(u, x)))
    ensures BoKicked(s, u, x)
  {
  }

  lemma KickOne(s: State, t: State, u: State, b: BlockId, x: BoId)
    requires OwnersOk(t) && HasOwner(t, b) && t.bos[t.blocks[b].bo.value].block == Some(b) && u == Kick(t, b)
    requires x in s.bos && x in t.bos && BoKicked(s, t, x) && Coherent(t, x) && NoClash(t, x)
    ensures x in u.bos && BoKicked(s, u, x) && Coherent(u, x) && NoClash(u, x)
  {
    if x == t.blocks[b].bo.value {
      KickedContents(t, u, b);
    } else {
      KickOthers(t, u, b, x);
    }
    KickedTrans(s, t, u, x);
  }

  /** The head of the on_hardware list has an owner to kick. */
  lemma HwHead(s: State)
    requires Struct(s) && s.onHw != []
    ensures s.onHw[0] in s.onHw && HasOwner(s, s.onHw[0])
    ensures s.bos[s.blocks[s.onHw[0]].bo.value].block == Some(s.onHw[0])
    ensures s.blocks[s.onHw[0]].onHardware && !s.blocks[s.onHw[0]].fenced
  {
    assert s.onHw[0] in s.onHw;
    OwnerInCard(s, s.onHw[0]);
  }

  lemma KickShrinks(s: State, b: BlockId)
    requires ListsOk(s) && b in s.onHw && HasOwner(s, b)
    ensures |Kick(s, b).onHw| < |s.onHw|
  {
    WithoutDistinct(s.onHw, b);
  }

  lemma KickBos(s: State, t: State, u: State, b: BlockId)
    requires OwnersOk(t) && AllCoherent(t) && ClashOnly(t, {}) && u == Kick(t, b)
    requires HasOwner(t, b) && t.bos[t.blocks[b].bo.value].block == Some(b)
    requires s.bos.Keys == t.bos.Keys && forall x :: x in s.bos ==> BoKicked(s, t, x) == true
    ensures u.bos.Keys == s.bos.Keys && AllCoherent(u) && ClashOnly(u, {})
    ensures forall x :: x in s.bos ==> BoKicked(s, u, x) == true
  {
    forall x | x in s.bos ensures x in u.bos && BoKicked(s, u, x) == true && Coherent(u, x) == true && NoClash(u, x) {
      assert BoKicked(s, t, x) == true && Coherent(t, x) == true && NoClash(t, x);
      KickOne(s, t, u, b, x);
    }
  }

  /** One round of the loop. */
  lemma KickRound(s: State, t: State)
    requires Kicking(s, t) && t.onHw != [] && t.onHw[0] in t.onHw && HasOwner(t, t.onHw[0])
    requires t.bos[t.blocks[t.onHw[0]].bo.value].block == Some(t.onHw[0])
    ensures Kicking(s, Kick(t, t.onHw[0]))
  {
    KickOk(t, t.onHw[0]);
    KickBos(s, t, Kick(t, t.onHw[0]), t.onHw[0]);
    KickScalars(t, t.onHw[0]);
  }

  lemma KickScalars(s: State, b: BlockId)
    requires HasOwner(s, b)
    ensures var t := Kick(s, b); t.lo == s.lo && t.card == s.card && t.nextBo == s.nextBo && t.issued == s.issued
  {
  }

  lemma KickedDown(s: State, t: State, x: BoId)
    requires Kicking(s, t) && t.onHw == [] && x in s.bos && RelocsOk(s, x)
    ensures x in t.bos && !t.bos[x].validated && RelocsOk(t, x)
  {
    assert BoKicked(s, t, x) == true;
  }

  /** With the list empty nothing is validated, and relocations are as they were. */
  lemma KickEnd(s: State, t: State)
    requires Running(s, {}) && Kicking(s, t) && t.onHw == []
    ensures Running(t, {}) && forall x :: x in t.bos ==> !t.bos[x].validated
  {
    forall x | x in t.bos ensures !t.bos[x].validated && RelocsOk(t, x) == true {
      assert RelocsOk(s, x) == true;
      KickedDown(s, t, x);
    }
    NothingPlaced(t);
  }

  /** What was on the hardware has its contents in the backing store. */
  lemma KickedHome(s: State, t: State, x: BoId)
    requires Kicking(s, t) && t.onHw == [] && x in s.bos && OnHardware(s, x)
    ensures x in t.bos && t.bos[x].block.None? && (Contents(t, x).Some? ==> Contents(t, x) == t.bos[x].backing)
  {
    assert BoKicked(s, t, x) == true;
  }

  lemma NothingPlaced(t: State)
    requires t.onHw == [] && forall x :: x in t.bos ==> !t.bos[x].validated
    ensures AllPlaced(t)
  {
    forall x | x in t.bos ensures Placed(t, x) == true {
    }
  }

  // ----- fence_blocks

  /** Where the loop of fence_blocks stands: blocks have changed lists, nothing else. */
  ghost predicate Fencing(s: State, t: State)
  {
    FencingFacts(s, t) == true
  }

  ghost predicate FencingFacts(s: State, t: State)
  {
    && Struct(t) == true && t.bos == s.bos && t.lo == s.lo && t.card == s.card && t.issued == s.issued
    && t.nextBo == s.nextBo
    && t.blocks.Keys == s.blocks.Keys
    && (forall b :: b in s.blocks ==> CellOf(t.blocks[b]) == CellOf(s.blocks[b]))
    && (forall b :: b in s.onHw ==> b in t.onHw || (b in t.fenced && b in t.blocks && t.blocks[b].emission == s.issued))
  }

  lemma FenceStep(t: State, b: BlockId, e: nat)
    requires ListsOk(t) && b in t.onHw && b in t.blocks && e >= 1
    ensures var u := Fence(t, b, e);
      && u.blocks.Keys == t.blocks.Keys && |u.onHw| < |t.onHw| && b in u.fenced && u.blocks[b].emission == e
      && (forall c :: c in t.onHw && c != b ==> c in u.onHw)
      && (forall c :: c in t.fenced ==> c in u.fenced && c in u.blocks && u.blocks[c] == t.blocks[c])
      && (forall c :: c in t.blocks ==> CellOf(u.blocks[c]) == CellOf(t.blocks[c]))
  {
    WithoutDistinct(t.onHw, b);
  }

  lemma FenceRound(s: State, t: State)
    requires Fencing(s, t) && t.onHw != [] && t.issued >= 1
    ensures t.onHw[0] in t.blocks
    ensures Fencing(s, Fence(t, t.onHw[0], t.issued)) && |Fence(t, t.onHw[0], t.issued).onHw| < |t.onHw|
  {
    HwHead(t);
    FenceOk(t, t.onHw[0]);
    FenceStep(t, t.onHw[0], t.issued);
  }

  lemma FencedContents(s: State, t: State)
    requires Inv(s) && ClashOnly(s, {}) && Fencing(s, t)
    ensures Inv(t) && ClashOnly(t, {}) && forall x :: x in s.bos ==> Contents(t, x) == Contents(s, x)
  {
    forall x | x in s.bos ensures SamePlace(s, t, x) == true {
      if s.bos[x].block.Some? {
        assert CellOf(t.blocks[s.bos[x].block.value]) == CellOf(s.blocks[s.bos[x].block.value]);
      }
    }
    BlocksFrame(s, t);
    forall x | x in s.bos ensures Contents(t, x) == Contents(s, x) {
      assert BoEvolves(s, t, x);
    }
  }
}
