/** Relocating and validating a graph of buffers. */
module FakeExec {
  import opened MmLayout
  import opened FakeState
  import opened FakeSteps
  import opened FakeContents
  import opened FakePlacement
  import opened FakeMapping
  import opened FakeReloc
  import opened FakeAdvance
  import opened FakeValidate

  /** A buffer of a relocation graph: it is not mapped, its targets are in the graph at a
      lower rank, and it has none if it has no backing store. */
  ghost predicate GraphNode(s: State, x: BoId, g: set<BoId>, rank: BoId -> nat)
  {
    && x in s.bos && Relocatable(s.bos[x])
    && s.bos[x].mapCount == 0 && s.bos[x].virt == Unmapped
    && (forall i :: 0 <= i < |s.bos[x].relocs| ==>
        s.bos[x].relocs[i].target in g && rank(s.bos[x].relocs[i].target) < rank(x))
  }

  /** `g` is closed under relocation targets and acyclic. */
  ghost predicate Graph(s: State, g: set<BoId>, rank: BoId -> nat)
  {
    forall x :: x in g ==> GraphNode(s, x, g, rank) == true
  }

  /** What lies below `o`. */
  ghost function Below(g: set<BoId>, rank: BoId -> nat, o: BoId): set<BoId>
  {
    set x | x in g && rank(x) < rank(o)
  }

  lemma GraphBelow(s: State, t: State, g: set<BoId>, g1: set<BoId>, rank: BoId -> nat, o: BoId)
    requires Graph(s, g, rank) && Advance(s, t, g1) && SameMaps(s, t, {o})
    ensures Graph(t, Below(g, rank, o), rank)
  {
    var h := Below(g, rank, o);
    forall x | x in h ensures GraphNode(t, x, h, rank) == true {
      assert GraphNode(s, x, g, rank) == true && BoAdvance(s, t, x, g1) == true;
    }
  }

  /** While relocations are written the buffer is unmapped, or mapped once for writing. */
  ghost predicate MapState(bo: Bo)
  {
    || (bo.mapCount == 0 && bo.virt == Unmapped)
    || (bo.mapCount == 1 && bo.virt == Backing && bo.dirty && bo.written)
  }

  /** Where the loop over the relocations of `o` stands: `n` of them are done. */
  ghost predicate Relocating(s: State, t: State, o: BoId, g: set<BoId>, n: nat)
  {
    RelocatingFacts(s, t, o, g, n) == true
  }

  ghost predicate RelocatingFacts(s: State, t: State, o: BoId, g: set<BoId>, n: nat)
  {
    && Running(t, {}) && Advance(s, t, g) && SameMaps(s, t, {o}) == true
    && o in s.bos && o in t.bos && !t.bos[o].validated && Relocatable(t.bos[o]) && MapState(t.bos[o]) == true
    && n <= |t.bos[o].relocs| == |s.bos[o].relocs| && TargetsReady(t, o, n) == true
  }

  lemma SameMapsTrans(s: State, t: State, u: State, ex: set<BoId>)
    requires s.bos.Keys == t.bos.Keys && SameMaps(s, t, ex) && SameMaps(t, u, ex)
    ensures SameMaps(s, u, ex)
  {
  }

  /** Any change to `o` alone that leaves it unvalidated. */
  lemma StepRelocating(s: State, t: State, u: State, o: BoId, g: set<BoId>, n: nat, m: nat)
    requires Relocating(s, t, o, g, n) && o in g
    requires Inv(u) && ClashOnly(u, {}) && EvolvesBut(t, u, o) && RelocsOk(u, o) && SameShape(t.bos[o], u.bos[o])
    requires SlotsOnly(Contents(t, o), Contents(u, o), t.bos[o].relocs)
    requires !u.bos[o].validated && MapState(u.bos[o]) && m <= |u.bos[o].relocs| && TargetsReady(u, o, m)
    ensures Relocating(s, u, o, g, m)
  {
    ButRunning(t, u, o, {}, {});
    StepAdvance(s, t, u, o, g);
  }

  lemma StepAdvance(s: State, t: State, u: State, o: BoId, g: set<BoId>)
    requires Advance(s, t, g) && SameMaps(s, t, {o}) && s.bos.Keys == t.bos.Keys && o in g && o in t.bos
    requires AllPlaced(t) && EvolvesBut(t, u, o) && SameShape(t.bos[o], u.bos[o]) && !t.bos[o].validated
    requires SlotsOnly(Contents(t, o), Contents(u, o), t.bos[o].relocs)
    ensures Advance(s, u, g) && SameMaps(s, u, {o})
  {
    ButAdvance(t, u, o, g);
    AdvanceTrans(s, t, u, g, g, g);
    ButMapsBut(t, u, o);
    SameMapsTrans(s, t, u, {o});
  }

  /** bo_map for writing, inside the loop. */
  lemma MapRelocating(s: State, t: State, u: State, o: BoId, g: set<BoId>, n: nat)
    requires Relocating(s, t, o, g, n) && o in g && t.bos[o].mapCount == 0
    requires Inv(u) && ClashOnly(u, {}) && EvolvesBut(t, u, o) && MappedFields(t.bos[o], u.bos[o], true)
    requires Contents(t, o).Some? ==> Contents(u, o) == Contents(t, o)
    ensures Relocating(s, u, o, g, n)
  {
    assert RelocsOk(t, o) == true;
    SlotsOnlySame(Contents(t, o), t.bos[o].relocs);
    ButTargets(t, u, o, o, n);
    StepRelocating(s, t, u, o, g, n, n);
  }

  lemma ButMapsBut(s: State, t: State, o: BoId)
    requires EvolvesBut(s, t, o)
    ensures SameMaps(s, t, {o})
  {
    forall x | x in s.bos && x in t.bos && x != o
      ensures t.bos[x].mapCount == s.bos[x].mapCount && t.bos[x].virt == s.bos[x].virt
    {
      assert BoEvolves(s, t, x) == true;
    }
  }

  /** The buffer with relocation `i` written. */
  function Poked(bo: Bo, i: nat, address: int): Bo
    requires i < |bo.relocs| && bo.backing.Some? && bo.relocs[i].offset + 4 <= |bo.backing.value|
  {
    var r := bo.relocs[i];
    bo.(backing := Some(PutWord(bo.backing.value, r.offset, address + r.delta)),
        relocs := bo.relocs[i := r.(last := address)])
  }

  /** One slot is rewritten, the others keep their words. */
  lemma PokedSlots(rs: seq<Reloc>, i: nat, address: int, c: seq<Byte>, d: seq<Byte>, rs2: seq<Reloc>)
    requires i < |rs| && (forall j :: 0 <= j < |rs| ==> SlotOk(c, rs[j]) == true)
    requires forall j, k :: 0 <= j < k < |rs| ==> Apart(rs[j], rs[k])
    requires rs[i].offset + 4 <= |c| && d == PutWord(c, rs[i].offset, address + rs[i].delta)
    requires rs2 == rs[i := rs[i].(last := address)]
    ensures forall j :: 0 <= j < |rs2| ==> SlotOk(d, rs2[j]) == true
    ensures forall j, k :: 0 <= j < k < |rs2| ==> Apart(rs2[j], rs2[k])
    ensures SlotsOnly(Some(c), Some(d), rs) && SameRelocs(rs, rs2)
  {
    forall j | 0 <= j < |rs2| ensures SlotOk(d, rs2[j]) == true {
      assert SlotOk(c, rs[j]) == true;
      PutWordSlots(c, rs[i].offset, address + rs[i].delta, rs[j].offset);
      assert j < i ==> Apart(rs[j], rs[i]);
      assert i < j ==> Apart(rs[i], rs[j]);
    }
    forall j, k | 0 <= j < k < |rs2| ensures Apart(rs2[j], rs2[k]) {
      assert Apart(rs[j], rs[k]);
    }
    forall k | 0 <= k < |c| && !InSlot(rs, k) ensures d[k] == c[k] {
      assert !(rs[i].offset <= k < rs[i].offset + 4);
    }
  }

  /** A dirty buffer keeps its contents in the backing store. */
  lemma DirtyContents(s: State, o: BoId)
    requires o in s.bos && s.bos[o].dirty && s.bos[o].written && !s.bos[o].noBacking
    ensures Contents(s, o) == s.bos[o].backing
  {
  }

  lemma PokeContents(s: State, o: BoId, i: nat, address: int, t: State)
    requires o in s.bos && i < |s.bos[o].relocs| && !s.bos[o].noBacking && RelocsOk(s, o)
    requires s.bos[o].dirty && s.bos[o].written && s.bos[o].backing.Some?
    requires s.bos[o].relocs[i].offset + 4 <= |s.bos[o].backing.value|
    requires t == s.(bos := s.bos[o := Poked(s.bos[o], i, address)])
    ensures RelocsOk(t, o) && SameRelocs(s.bos[o].relocs, t.bos[o].relocs)
    ensures SlotsOnly(Contents(s, o), Contents(t, o), s.bos[o].relocs)
  {
    DirtyContents(s, o);
    DirtyContents(t, o);
    PokedSlots(s.bos[o].relocs, i, address, s.bos[o].backing.value, t.bos[o].backing.value, t.bos[o].relocs);
  }

  /** Writing one relocation word keeps everything else in order. */
  lemma PokeInv(s: State, o: BoId, x: Bo, t: State)
    requires Inv(s) && o in s.bos && s.bos[o].dirty && s.bos[o].written && !s.bos[o].noBacking && s.bos[o].backing.Some?
    requires x.backing.Some? && |x.backing.value| == |s.bos[o].backing.value|
    requires x == s.bos[o].(backing := x.backing, relocs := x.relocs)
    requires t == s.(bos := s.bos[o := x])
    ensures Inv(t) && EvolvesBut(s, t, o)
    ensures ClashOnly(s, {}) ==> ClashOnly(t, {}) == true
  {
    assert Coherent(s, o) == true;
    assert Coherent(t, o) == true;
    SetBo(s, o, x, t);
    if ClashOnly(s, {}) {
      assert NoClash(s, o) ==> NoClash(t, o);
    }
  }

  lemma PokeRelocating(s: State, t: State, u: State, o: BoId, g: set<BoId>, i: nat)
    requires Relocating(s, t, o, g, i) && o in g && i < |t.bos[o].relocs| && t.bos[o].mapCount == 1
    requires t.bos[o].backing.Some? && t.bos[o].relocs[i].offset + 4 <= |t.bos[o].backing.value|
    requires var y := t.bos[o].relocs[i].target; y in t.bos && t.bos[y].validated
    requires u == t.(bos := t.bos[o := Poked(t.bos[o], i, t.bos[t.bos[o].relocs[i].target].offset)])
    ensures Relocating(s, u, o, g, i + 1)
  {
    var y := t.bos[o].relocs[i].target;
    assert RelocsOk(t, o) == true;
    PokeContents(t, o, i, t.bos[y].offset, u);
    PokeInv(t, o, u.bos[o], u);
    PokedTargets(t, u, o, i);
    StepRelocating(s, t, u, o, g, i, i + 1);
  }

  lemma PokedTargets(t: State, u: State, o: BoId, i: nat)
    requires o in t.bos && i < |t.bos[o].relocs| && !t.bos[o].validated && TargetsReady(t, o, i)
    requires t.bos[o].backing.Some? && t.bos[o].relocs[i].offset + 4 <= |t.bos[o].backing.value|
    requires var y := t.bos[o].relocs[i].target; y in t.bos && t.bos[y].validated
    requires u == t.(bos := t.bos[o := Poked(t.bos[o], i, t.bos[t.bos[o].relocs[i].target].offset)])
    ensures TargetsReady(u, o, i + 1)
  {
    forall j | 0 <= j < i + 1
      ensures var r := u.bos[o].relocs[j];
        r.target in u.bos && u.bos[r.target].validated
        && r.last == u.bos[r.target].offset
    {
      assert u.bos[o].relocs[j].target == t.bos[o].relocs[j].target;
    }
  }

  /** The slot of the next relocation lies in the mapped backing store. */
  lemma MappedSlot(s: State, t: State, o: BoId, g: set<BoId>, i: nat)
    requires Relocating(s, t, o, g, i) && i < |t.bos[o].relocs|
    ensures Contents(t, o).Some? && t.bos[o].relocs[i].target in t.bos
    ensures t.bos[o].mapCount == 1 ==>
      t.bos[o].backing.Some? && t.bos[o].relocs[i].offset + 4 <= |t.bos[o].backing.value|
  {
    assert RelocsOk(t, o) == true && Coherent(t, o) == true;
    assert SlotOk(Contents(t, o).value, t.bos[o].relocs[i]) == true;
  }

  /** Nothing to write: the slot is up to date already. */
  lemma SkipRelocating(s: State, t: State, o: BoId, g: set<BoId>, i: nat)
    requires Relocating(s, t, o, g, i) && i < |t.bos[o].relocs|
    requires var r := t.bos[o].relocs[i];
      r.target in t.bos && t.bos[r.target].validated
      && r.last == t.bos[r.target].offset
    ensures Relocating(s, t, o, g, i + 1)
  {
  }

  /** Targets in place stay where they are. */
  lemma ChildTargets(t: State, u: State, o: BoId, h: set<BoId>, i: nat)
    requires Advance(t, u, h) && o in t.bos && i <= |t.bos[o].relocs| && TargetsReady(t, o, i) && o !in h
    ensures o in u.bos && u.bos[o].relocs == t.bos[o].relocs && TargetsReady(u, o, i)
  {
    assert BoAdvance(t, u, o, h) == true;
    forall j | 0 <= j < i
      ensures var r := u.bos[o].relocs[j];
        r.target in u.bos && u.bos[r.target].validated
        && r.last == u.bos[r.target].offset
    {
      assert BoAdvance(t, u, t.bos[o].relocs[j].target, h) == true;
    }
  }

  lemma ChildAdvance(s: State, t: State, u: State, o: BoId, g: set<BoId>, h: set<BoId>)
    requires Advance(s, t, g) && SameMaps(s, t, {o}) && Settled(t, u, h) && h <= g && s.bos.Keys == t.bos.Keys
    ensures Advance(s, u, g) && SameMaps(s, u, {o})
  {
    AdvanceTrans(s, t, u, g, h, g);
    SameMapsTrans(s, t, u, {o}) by { WeakenMaps(t, u, o); }
  }

  lemma ChildRecord(t: State, u: State, o: BoId, h: set<BoId>)
    requires Advance(t, u, h) && o in t.bos && o !in h && !t.bos[o].validated && SameMaps(t, u, {})
    requires Relocatable(t.bos[o]) && MapState(t.bos[o])
    ensures o in u.bos && !u.bos[o].validated && Relocatable(u.bos[o]) && MapState(u.bos[o])
    ensures u.bos[o].relocs == t.bos[o].relocs
  {
    assert BoAdvance(t, u, o, h) == true;
  }

  /** A recursive call for a target. */
  lemma ChildRelocating(s: State, t: State, u: State, o: BoId, g: set<BoId>, h: set<BoId>, i: nat)
    requires Relocating(s, t, o, g, i) && Settled(t, u, h) && h <= g && o !in h
    ensures Relocating(s, u, o, g, i)
  {
    ChildAdvance(s, t, u, o, g, h);
    ChildRecord(t, u, o, h);
    ChildTargets(t, u, o, h, i);
  }

  lemma WeakenMaps(s: State, t: State, o: BoId)
    requires SameMaps(s, t, {})
    ensures SameMaps(s, t, {o})
  {
  }

  /** The final unmap. */
  lemma UnmapRelocating(s: State, t: State, u: State, o: BoId, g: set<BoId>, n: nat)
    requires Relocating(s, t, o, g, n) && o in g && t.bos[o].mapCount == 1
    requires u == t.(bos := t.bos[o := t.bos[o].(mapCount := 0, virt := Unmapped)])
    ensures Relocating(s, u, o, g, n)
  {
    assert RelocsOk(t, o) == true;
    FlagsContents(t, o, u.bos[o], u);
    SlotsOnlySame(Contents(t, o), t.bos[o].relocs);
    ButTargets(t, u, o, o, n);
    StepRelocating(s, t, u, o, g, n, n);
  }

  /** Where relocation ended, with or without success: mappings are as before. */
  ghost predicate Settled(s: State, t: State, g: set<BoId>)
  {
    SettledFacts(s, t, g) == true
  }

  ghost predicate SettledFacts(s: State, t: State, g: set<BoId>)
  {
    Running(t, {}) == true && Advance(s, t, g) == true && SameMaps(s, t, {}) == true
  }

  // ----- rendering

  /** The record of a buffer the batch will render to. */
  function Rendered(bo: Bo, store: seq<Byte>): Bo
  {
    bo.(backing := if bo.noBacking then bo.backing else Some(store), cardDirty := true)
  }

  /** Announcing that the card will write leaves the contents alone; until the
      buffer is uploaded, both sides may be ahead. */
  lemma RenderOwn(s: State, t: State, o: BoId, store: seq<Byte>)
    requires o in s.bos && Coherent(s, o)
    requires |store| == s.bos[o].size && (s.bos[o].backing.Some? ==> store == s.bos[o].backing.value)
    requires t == s.(bos := s.bos[o := Rendered(s.bos[o], store)], rendered := true)
    ensures Coherent(t, o) && Contents(t, o) == Contents(s, o)
  {
    assert HasBlock(t, o) == HasBlock(s, o);
    assert HasBlock(s, o) ==> CardCopy(t, o) == CardCopy(s, o);
  }

  lemma RenderRunning(s: State, t: State, o: BoId, store: seq<Byte>)
    requires Running(s, {}) && o in s.bos && !s.bos[o].validated
    requires |store| == s.bos[o].size && (s.bos[o].backing.Some? ==> store == s.bos[o].backing.value)
    requires t == s.(bos := s.bos[o := Rendered(s.bos[o], store)], rendered := true)
    ensures Running(t, {o}) && EvolvesBut(s, t, o) && Contents(t, o) == Contents(s, o)
  {
    assert Coherent(s, o) == true && RelocsOk(s, o) == true;
    RenderOwn(s, t, o, store);
    SetBo(s, o, t.bos[o], t);
    ClashOne(s, o);
    assert {} + {o} == {o};
    assert ClashOnly(t, {} + {o}) == true;
    ButRunning(s, t, o, {}, {o});
  }

  /** The relocations are written and the buffer is unmapped. */
  ghost predicate Relocated(s: State, t: State, o: BoId, g: set<BoId>)
  {
    o in t.bos && Relocating(s, t, o, g, |t.bos[o].relocs|) && t.bos[o].mapCount == 0
  }

  /** As Relocated, possibly announced as a render target. */
  ghost predicate ToValidate(s: State, t: State, o: BoId, g: set<BoId>)
  {
    ToValidateFacts(s, t, o, g) == true
  }

  ghost predicate ToValidateFacts(s: State, t: State, o: BoId, g: set<BoId>)
  {
    && Running(t, {o}) && Advance(s, t, g) && SameMaps(s, t, {}) == true
    && o in s.bos && o in t.bos && !t.bos[o].validated && Relocatable(t.bos[o]) && t.bos[o].mapCount == 0
    && TargetsReady(t, o, |t.bos[o].relocs|) == true && (t.bos[o].write ==> t.bos[o].cardDirty)
  }

  lemma UnmappedAgain(s: State, t: State, o: BoId)
    requires SameMaps(s, t, {o}) && o in s.bos && o in t.bos
    requires s.bos[o].mapCount == t.bos[o].mapCount && s.bos[o].virt == t.bos[o].virt
    ensures SameMaps(s, t, {})
  {
  }

  lemma NoRenderToValidate(s: State, t: State, o: BoId, g: set<BoId>)
    requires o in s.bos && s.bos[o].mapCount == 0 && s.bos[o].virt == Unmapped && o in t.bos && Relocated(s, t, o, g)
    requires !t.bos[o].write
    ensures ToValidate(s, t, o, g)
  {
    UnmappedAgain(s, t, o);
    ClashOne(t, o);
  }

  lemma RenderToValidate(s: State, t: State, u: State, o: BoId, g: set<BoId>, store: seq<Byte>)
    requires o in s.bos && s.bos[o].mapCount == 0 && s.bos[o].virt == Unmapped && o in t.bos && Relocated(s, t, o, g)
    requires o in g
    requires |store| == t.bos[o].size && (t.bos[o].backing.Some? ==> store == t.bos[o].backing.value)
    requires u == t.(bos := t.bos[o := Rendered(t.bos[o], store)], rendered := true)
    ensures ToValidate(s, u, o, g)
  {
    UnmappedAgain(s, t, o);
    RenderRunning(t, u, o, store);
    SlotsOnlySame(Contents(t, o), t.bos[o].relocs);
    ButAdvance(t, u, o, g);
    AdvanceTrans(s, t, u, g, g, g);
    ButMaps(t, u, o);
    SameMapsTrans(s, t, u, {});
    ButTargets(t, u, o, o, |t.bos[o].relocs|);
  }

  /** Some buffer of `g` has no backing store. */
  ghost predicate Unbacked(s: State, g: set<BoId>)
  {
    exists x :: x in g && x in s.bos && s.bos[x].noBacking
  }

  /** Validation stopped for want of room, or at a buffer without backing store. */
  ghost predicate Stopped(s: State, t: State, g: set<BoId>, ret: int)
  {
    if ret == ABORT then Unbacked(s, g) else t.fail
  }

  lemma StoppedAbove(s: State, t: State, u: State, g: set<BoId>, h: set<BoId>, k: set<BoId>, ret: int)
    requires Advance(s, t, g) && Stopped(t, u, h, ret) && h <= k
    ensures Stopped(s, u, k, ret)
  {
    if ret == ABORT {
      var x :| x in h && x in t.bos && t.bos[x].noBacking;
      assert BoAdvance(s, t, x, g) == true;
    }
  }

  lemma ValidateNext(s: State, t: State, o: BoId, g: set<BoId>)
    requires ToValidate(s, t, o, g)
    ensures CanValidate(t, o)
  {
  }

  lemma OutcomeSettled(t: State, u: State, o: BoId, ret: int)
    requires ValidateOutcome(t, u, o, ret)
    ensures Running(u, {}) && Advance(t, u, {o}) && SameMaps(t, u, {}) && t.bos.Keys == u.bos.Keys
    ensures ret != 0 ==> Stopped(t, u, {o}, ret)
  {
  }

  lemma ToValidateSettled(s: State, t: State, o: BoId, g: set<BoId>)
    requires ToValidate(s, t, o, g)
    ensures Advance(s, t, g) && SameMaps(s, t, {}) && s.bos.Keys == t.bos.Keys
  {
  }

  lemma ValidatedStopped(s: State, t: State, u: State, o: BoId, g: set<BoId>, ret: int)
    requires Advance(s, t, g) && o in g && Stopped(t, u, {o}, ret)
    ensures Stopped(s, u, g, ret)
  {
    StoppedAbove(s, t, u, g, {o}, g, ret);
  }

  lemma SettledBelow(s: State, t: State, u: State, o: BoId, g: set<BoId>)
    requires Advance(s, t, g) && SameMaps(s, t, {}) && Advance(t, u, {o}) && SameMaps(t, u, {}) && o in g
    requires Running(u, {}) && s.bos.Keys == t.bos.Keys
    ensures Settled(s, u, g)
  {
    AdvanceTrans(s, t, u, g, {o}, g);
    SameMapsTrans(s, t, u, {});
  }

  lemma AdvancedShape(s: State, t: State, o: BoId, g: set<BoId>)
    requires Advance(s, t, g) && o in s.bos
    ensures o in t.bos && SameShape(s.bos[o], t.bos[o]) == true
  {
    assert BoAdvance(s, t, o, g) == true;
  }

  lemma StartRelocating(s: State, o: BoId, g: set<BoId>, rank: BoId -> nat)
    requires Running(s, {}) && Graph(s, g, rank) && o in g && o in s.bos && !s.bos[o].validated
    ensures Relocating(s, s, o, g, 0) && s.bos[o].mapCount == 0 && s.bos[o].virt == Unmapped
  {
    assert GraphNode(s, o, g, rank) == true;
    AdvanceSelf(s, g);
  }

  /** The target of a relocation is in the graph, below its buffer. */
  lemma TargetBelow(s: State, t: State, o: BoId, g: set<BoId>, rank: BoId -> nat, i: nat)
    requires Graph(s, g, rank) && o in g && Relocating(s, t, o, g, i) && i < |t.bos[o].relocs|
    ensures t.bos[o].relocs[i].target in Below(g, rank, o) && Graph(t, Below(g, rank, o), rank)
    ensures rank(t.bos[o].relocs[i].target) < rank(o)
  {
    assert GraphNode(s, o, g, rank) == true && BoAdvance(s, t, o, g) == true;
    GraphBelow(s, t, g, g, rank, o);
    assert t.bos[o].relocs[i].target == s.bos[o].relocs[i].target;
  }

  /** What an aborted relocation leaves. */
  lemma AbortRelocating(s: State, t: State, o: BoId, g: set<BoId>, n: nat)
    requires Relocating(s, t, o, g, n) && t.bos[o].mapCount == 0 && s.bos[o].mapCount == 0 && s.bos[o].virt == Unmapped
    ensures Settled(s, t, g)
  {
    UnmappedAgain(s, t, o);
  }

  /** How far the loop of reloc_and_validate_buffer has come: `n` relocations are
      done, or it stopped at one of the targets. */
  ghost predicate RelocOutcome(s: State, t: State, o: BoId, g: set<BoId>, n: nat, ret: int, fail: bool)
  {
    if ret == 0 then Relocating(s, t, o, g, n) && t.fail == fail else Settled(s, t, g) && Stopped(s, t, g, ret) == true
  }

  lemma RelocFailed(s: State, t: State, o: BoId, g: set<BoId>, n: nat, m: nat, ret: int, fail: bool)
    requires RelocOutcome(s, t, o, g, n, ret, fail) && ret != 0
    ensures RelocOutcome(s, t, o, g, m, ret, fail)
  {
  }
}
