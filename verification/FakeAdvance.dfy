/** What validating a graph of buffers may change: only the buffers of the graph,
    and of their contents only the relocation slots. */
module FakeAdvance {
  import opened MmLayout
  import opened FakeState
  import opened FakeSteps
  import opened FakeContents
  import opened FakePlacement
  import opened FakeReloc

  predicate InSlot(rs: seq<Reloc>, k: int)
  {
    exists i :: 0 <= i < |rs| && rs[i].offset <= k < rs[i].offset + 4
  }

  /** Defined contents stay defined and change in relocation slots only. */
  ghost predicate SlotsOnly(c: Option<seq<Byte>>, d: Option<seq<Byte>>, rs: seq<Reloc>)
  {
    c.Some? ==>
      && d.Some? && |d.value| == |c.value|
      && (forall k :: 0 <= k < |c.value| && !InSlot(rs, k) ==> d.value[k] == c.value[k])
  }

  /** The same relocations, up to the address last written. */
  ghost predicate SameRelocs(a: seq<Reloc>, b: seq<Reloc>)
  {
    |a| == |b| && forall i :: 0 <= i < |a| ==> b[i] == a[i].(last := b[i].last)
  }

  /** The same buffer as its owner sees it; the mapping is compared apart. */
  ghost predicate SameShape(a: Bo, b: Bo)
  {
    && b == a.(dirty := b.dirty, cardDirty := b.cardDirty, block := b.block, backing := b.backing,
               validated := b.validated, offset := b.offset, written := b.written, relocs := b.relocs,
               mapCount := b.mapCount, virt := b.virt)
    && SameRelocs(a.relocs, b.relocs) && (a.written ==> b.written)
  }

  /** A buffer in place stays as it is; one of the graph `g` is relocated and
      validated; any other is at most moved. */
  ghost predicate BoAdvance(s: State, t: State, x: BoId, g: set<BoId>)
    requires x in s.bos && x in t.bos
  {
    && (s.bos[x].validated ==> t.bos[x] == s.bos[x] && Contents(t, x) == Contents(s, x))
    && SameShape(s.bos[x], t.bos[x]) == true
    && SlotsOnly(Contents(s, x), Contents(t, x), s.bos[x].relocs) == true
    && (x !in g ==>
        SameClient(s.bos[x], t.bos[x]) && (s.bos[x].dirty ==> t.bos[x].dirty) && Contents(t, x) == Contents(s, x))
  }

  ghost predicate Advance(s: State, t: State, g: set<BoId>)
  {
    AdvanceFacts(s, t, g) == true
  }

  ghost predicate AdvanceFacts(s: State, t: State, g: set<BoId>)
  {
    && t.lo == s.lo && |t.card| == |s.card| && t.bos.Keys == s.bos.Keys && t.nextBo == s.nextBo && t.issued >= s.issued
    && (forall b :: b in s.onHw && b in s.blocks ==> b in t.onHw && b in t.blocks && t.blocks[b] == s.blocks[b])
    && (forall x :: x in s.bos ==> BoAdvance(s, t, x, g) == true)
  }

  /** Every buffer outside `ex` is mapped as often as before. */
  ghost predicate SameMaps(s: State, t: State, ex: set<BoId>)
  {
    forall x :: x in s.bos && x in t.bos && x !in ex ==>
      t.bos[x].mapCount == s.bos[x].mapCount && t.bos[x].virt == s.bos[x].virt
  }

  lemma SlotsOnlySame(c: Option<seq<Byte>>, rs: seq<Reloc>)
    ensures SlotsOnly(c, c, rs)
  {
  }

  lemma SameRelocsSlots(a: seq<Reloc>, b: seq<Reloc>, k: int)
    requires SameRelocs(a, b)
    ensures InSlot(a, k) == InSlot(b, k)
  {
    if InSlot(a, k) {
      var i :| 0 <= i < |a| && a[i].offset <= k < a[i].offset + 4;
      assert b[i].offset == a[i].offset;
    }
    if InSlot(b, k) {
      var i :| 0 <= i < |b| && b[i].offset <= k < b[i].offset + 4;
      assert b[i].offset == a[i].offset;
    }
  }

  lemma BoAdvanceTrans(s: State, t: State, u: State, x: BoId, g1: set<BoId>, g2: set<BoId>, g: set<BoId>)
    requires x in s.bos && x in t.bos && x in u.bos && g1 <= g && g2 <= g
    requires BoAdvance(s, t, x, g1) && BoAdvance(t, u, x, g2)
    ensures BoAdvance(s, u, x, g)
  {
    var c, d := Contents(s, x), Contents(u, x);
    var rs := s.bos[x].relocs;
    if c.Some? {
      forall k | 0 <= k < |c.value| && !InSlot(rs, k) ensures d.value[k] == c.value[k] {
        SameRelocsSlots(rs, t.bos[x].relocs, k);
      }
    }
  }

  lemma AdvanceTrans(s: State, t: State, u: State, g1: set<BoId>, g2: set<BoId>, g: set<BoId>)
    requires Advance(s, t, g1) && Advance(t, u, g2) && g1 <= g && g2 <= g
    ensures Advance(s, u, g)
  {
    forall x | x in s.bos ensures BoAdvance(s, u, x, g) {
      assert BoAdvance(s, t, x, g1) == true && BoAdvance(t, u, x, g2) == true;
      BoAdvanceTrans(s, t, u, x, g1, g2, g);
    }
  }

  lemma AdvanceSelf(s: State, g: set<BoId>)
    ensures Advance(s, s, g)
  {
    forall x | x in s.bos ensures BoAdvance(s, s, x, g) {
      SlotsOnlySame(Contents(s, x), s.bos[x].relocs);
    }
  }

  lemma BoEvolvesAdvance(s: State, t: State, x: BoId, g: set<BoId>)
    requires x in s.bos && x in t.bos && BoEvolves(s, t, x) && Placed(s, x)
    ensures BoAdvance(s, t, x, g)
  {
    SlotsOnlySame(Contents(s, x), s.bos[x].relocs);
  }

  /** A change to one buffer of the graph. */
  lemma ButAdvance(s: State, t: State, o: BoId, g: set<BoId>)
    requires EvolvesBut(s, t, o) && AllPlaced(s) && o in g && o in s.bos && !s.bos[o].validated
    requires SameShape(s.bos[o], t.bos[o]) && SlotsOnly(Contents(s, o), Contents(t, o), s.bos[o].relocs)
    ensures Advance(s, t, g)
  {
    forall x | x in s.bos ensures BoAdvance(s, t, x, g) {
      if x != o {
        assert BoEvolves(s, t, x) == true && Placed(s, x) == true;
        BoEvolvesAdvance(s, t, x, g);
      }
    }
  }

  // ----- Running is kept

  lemma EvolvesRunning(s: State, t: State, ex: set<BoId>, ex2: set<BoId>)
    requires Running(s, ex) && Evolves(s, t) && Inv(t) && ClashOnly(t, ex2)
    ensures Running(t, ex2)
  {
    EvolvesRelocs(s, t);
    EvolvesPlaced(s, t);
  }

  lemma ButTargets(s: State, t: State, o: BoId, x: BoId, n: nat)
    requires EvolvesBut(s, t, o) && o in s.bos && x in s.bos && t.bos[x].relocs == s.bos[x].relocs
    requires n <= |s.bos[x].relocs|
    requires !s.bos[o].validated && TargetsReady(s, x, n)
    ensures TargetsReady(t, x, n)
  {
    forall i | 0 <= i < n
      ensures var r := t.bos[x].relocs[i];
        r.target in t.bos && t.bos[r.target].validated
        && r.last == t.bos[r.target].offset
    {
      var y := s.bos[x].relocs[i].target;
      assert y != o ==> BoEvolves(s, t, y) == true;
    }
  }

  lemma ButPlacedOne(s: State, t: State, o: BoId, x: BoId)
    requires EvolvesBut(s, t, o) && AllPlaced(s) && ListsOk(s) && o in s.bos && x in s.bos && x != o
    requires !s.bos[o].validated
    ensures Placed(t, x)
  {
    assert Placed(s, x) == true && BoEvolves(s, t, x) == true;
    if t.bos[x].validated {
      ButTargets(s, t, o, x, |s.bos[x].relocs|);
    }
  }

  lemma ButHw(s: State, t: State, o: BoId, b: BlockId)
    requires EvolvesBut(s, t, o) && AllPlaced(s) && b in t.onHw && b in s.blocks && o in s.bos
    requires !s.bos[o].validated
    ensures b in t.blocks && t.blocks[b].bo.Some? && t.blocks[b].bo.value in t.bos
    ensures t.bos[t.blocks[b].bo.value].validated
  {
    var y := s.blocks[b].bo.value;
    assert y != o ==> BoEvolves(s, t, y) == true;
  }

  lemma ButRelocs(s: State, t: State, o: BoId, x: BoId)
    requires EvolvesBut(s, t, o) && x in s.bos && x != o && RelocsOk(s, x)
    ensures RelocsOk(t, x)
  {
    assert BoEvolves(s, t, x) == true;
  }

  lemma ButAllRelocs(s: State, t: State, o: BoId)
    requires EvolvesBut(s, t, o) && AllRelocs(s) && o in s.bos && o in t.bos && RelocsOk(t, o)
    ensures AllRelocs(t)
  {
    forall x | x in t.bos ensures RelocsOk(t, x) == true {
      if x != o {
        assert RelocsOk(s, x) == true;
        ButRelocs(s, t, o, x);
      }
    }
  }

  lemma ButAllPlaced(s: State, t: State, o: BoId)
    requires EvolvesBut(s, t, o) && AllPlaced(s) && ListsOk(s) && o in s.bos && o in t.bos
    requires !s.bos[o].validated && !t.bos[o].validated
    ensures AllPlaced(t)
  {
    forall x | x in t.bos ensures Placed(t, x) == true {
      if x != o {
        ButPlacedOne(s, t, o, x);
      }
    }
    forall b | b in t.onHw && b in t.blocks
      ensures t.blocks[b].bo.Some? && t.blocks[b].bo.value in t.bos && t.bos[t.blocks[b].bo.value].validated
    {
      ButHw(s, t, o, b);
    }
  }

  /** A change to one buffer that is not validated. */
  lemma ButRunning(s: State, t: State, o: BoId, ex: set<BoId>, ex2: set<BoId>)
    requires Running(s, ex) && EvolvesBut(s, t, o) && Inv(t) && ClashOnly(t, ex2)
    requires o in s.bos && !s.bos[o].validated && !t.bos[o].validated && RelocsOk(t, o)
    ensures Running(t, ex2)
  {
    ButAllRelocs(s, t, o);
    ButAllPlaced(s, t, o);
  }
}
