/** The interface of the manager: what its clients may rely on between calls. */
module FakeClient {
  import opened MmLayout
  import opened MmTheorems
  import opened FakeState
  import opened FakeSteps
  import opened FakeContents
  import opened FakePlacement
  import opened FakeMapping
  import opened FakeReloc
  import opened FakeAdvance
  import opened FakeValidate
  import opened FakeExec
  import opened FakeSubmit
  import opened FakeDraw
  import opened FakeRefs

  const MAX_RELOCS: nat := 4096

  /** The invariant of the whole interface; `held` are the clients' references. */
  ghost predicate Sound(s: State, held: multiset<BoId>)
  {
    SoundFacts(s, held) == true
  }

  ghost predicate SoundFacts(s: State, held: multiset<BoId>)
  {
    Quiet(s) == true && RefsOk(s, held) == true && MapsOk(s) == true
  }

  /** A buffer that is not mapped has no mapping: bo_map would give up on one that has. */
  ghost predicate MapsOk(s: State)
  {
    forall x :: x in s.bos && s.bos[x].mapCount == 0 ==> s.bos[x].virt == Unmapped
  }

  /** A relocation graph as a client may build it. */
  ghost predicate Batch(s: State, g: set<BoId>, rank: BoId -> nat)
  {
    forall x :: x in g ==> BatchNode(s, x, g, rank) == true
  }

  ghost predicate BatchNode(s: State, x: BoId, g: set<BoId>, rank: BoId -> nat)
  {
    && x in s.bos && Relocatable(s.bos[x]) && s.bos[x].mapCount == 0
    && (forall i :: 0 <= i < |s.bos[x].relocs| ==>
        s.bos[x].relocs[i].target in g && rank(s.bos[x].relocs[i].target) < rank(x))
  }

  lemma BatchGraph(s: State, g: set<BoId>, rank: BoId -> nat, held: multiset<BoId>)
    requires Sound(s, held) && Batch(s, g, rank)
    ensures Graph(s, g, rank)
  {
    forall x | x in g ensures GraphNode(s, x, g, rank) == true {
      assert BatchNode(s, x, g, rank) == true;
    }
  }

  lemma ButMapsOk(s: State, t: State, o: BoId)
    requires MapsOk(s) && EvolvesBut(s, t, o) && o in t.bos
    requires t.bos[o].mapCount == 0 ==> t.bos[o].virt == Unmapped
    ensures MapsOk(t)
  {
    forall x | x in t.bos && t.bos[x].mapCount == 0 ensures t.bos[x].virt == Unmapped {
      assert x != o ==> BoEvolves(s, t, x) == true;
    }
  }

  lemma ButIdle(s: State, t: State, o: BoId)
    requires EvolvesBut(s, t, o) && o in s.bos && SameHandle(s.bos[o], t.bos[o]) && Idle(s)
    ensures Idle(t)
  {
    forall x | x in t.bos ensures !t.bos[x].validated && !t.bos[x].write {
      assert x != o ==> BoEvolves(s, t, x) == true;
    }
  }

  lemma ButCounted(s: State, t: State, o: BoId, x: BoId, held: multiset<BoId>)
    requires EvolvesBut(s, t, o) && o in s.bos && SameHandle(s.bos[o], t.bos[o]) && x in s.bos && Counted(s, x, held)
    ensures x in t.bos && Counted(t, x, held)
  {
    forall y | y in s.bos ensures t.bos[y].relocs == s.bos[y].relocs && t.bos[y].refcount == s.bos[y].refcount {
      assert y != o ==> BoEvolves(s, t, y) == true;
    }
    assert Refs(t, x) == Refs(s, x);
  }

  lemma ButRefs(s: State, t: State, o: BoId, held: multiset<BoId>)
    requires EvolvesBut(s, t, o) && o in s.bos && SameHandle(s.bos[o], t.bos[o]) && RefsOk(s, held)
    ensures RefsOk(t, held)
  {
    forall x | x in t.bos ensures Counted(t, x, held) == true {
      assert Counted(s, x, held) == true;
      ButCounted(s, t, o, x, held);
    }
  }

  /** Mapping, unmapping and storing: one buffer changes, its handle does not. */
  lemma ButSound(s: State, t: State, o: BoId, held: multiset<BoId>)
    requires Sound(s, held) && EvolvesBut(s, t, o) && Inv(t) && ClashOnly(t, {}) && o in s.bos
    requires SameHandle(s.bos[o], t.bos[o]) && RelocsOk(t, o)
    requires t.bos[o].mapCount == 0 ==> t.bos[o].virt == Unmapped
    ensures Sound(t, held)
  {
    assert !s.bos[o].validated;
    ButRunning(s, t, o, {}, {});
    ButIdle(s, t, o);
    ButRefs(s, t, o, held);
    ButMapsOk(s, t, o);
  }

  /** Defined contents that stay keep the relocation slots. */
  lemma SameContentsRelocs(s: State, t: State, o: BoId)
    requires o in s.bos && o in t.bos && t.bos.Keys == s.bos.Keys && t.bos[o].relocs == s.bos[o].relocs
    requires RelocsOk(s, o)
    requires t.bos[o].noBacking == s.bos[o].noBacking && (Contents(s, o).Some? ==> Contents(t, o) == Contents(s, o))
    ensures RelocsOk(t, o)
  {
  }

  lemma MapSound(s: State, t: State, o: BoId, held: multiset<BoId>)
    requires Sound(s, held) && EvolvesBut(s, t, o) && Inv(t) && ClashOnly(t, {}) && o in s.bos
    requires SameHandle(s.bos[o], t.bos[o]) && t.bos[o].noBacking == s.bos[o].noBacking
    requires Contents(s, o).Some? ==> Contents(t, o) == Contents(s, o)
    requires t.bos[o].mapCount == 0 ==> t.bos[o].virt == Unmapped
    ensures Sound(t, held)
  {
    assert RelocsOk(s, o) == true;
    SameContentsRelocs(s, t, o);
    ButSound(s, t, o, held);
  }

  lemma UnmapSound(s: State, t: State, o: BoId, held: multiset<BoId>)
    requires Sound(s, held) && o in s.bos && s.bos[o].mapCount > 0 && t == s.(bos := s.bos[o := OneUnmapped(s.bos[o])])
    ensures Sound(t, held) && EvolvesBut(s, t, o) && Contents(t, o) == Contents(s, o)
  {
    FlagsContents(s, o, t.bos[o], t);
    MapSound(s, t, o, held);
  }

  function Disabled(bo: Bo): Bo
  {
    bo.(backing := None, noBacking := true, dirty := true)
  }

  /** A buffer that gives up its backing store. */
  lemma DisableSound(s: State, t: State, o: BoId, held: multiset<BoId>)
    requires Sound(s, held) && o in s.bos
    requires t == s.(bos := s.bos[o := Disabled(s.bos[o])])
    ensures Sound(t, held) == true && EvolvesBut(s, t, o)
  {
    assert Coherent(t, o);
    SetBo(s, o, t.bos[o], t);
    assert NoClash(t, o) && ClashOnly(t, {}) == true;
    assert RelocsOk(s, o) == true;
    ButSound(s, t, o, held);
  }

  // ----- CPU stores

  /** The store misses every relocation slot. */
  predicate MissesSlots(rs: seq<Reloc>, offset: nat, n: nat)
  {
    forall i :: 0 <= i < |rs| ==> rs[i].offset + 4 <= offset || offset + n <= rs[i].offset
  }

  lemma OverwriteSlots(c: seq<Byte>, offset: nat, data: seq<Byte>, r: Reloc)
    requires offset + |data| <= |c| && SlotOk(c, r) && (r.offset + 4 <= offset || offset + |data| <= r.offset)
    ensures SlotOk(Overwrite(c, offset, data), r)
  {
    assert Slot(Overwrite(c, offset, data), r.offset) == Slot(c, r.offset);
  }

  /** A store to a dirty buffer that leaves the right words in its relocation slots. */
  lemma StoreAllSound(s: State, t: State, o: BoId, data: seq<Byte>, held: multiset<BoId>)
    requires Sound(s, held) && o in s.bos && s.bos[o].dirty && s.bos[o].written && !s.bos[o].noBacking
    requires |data| == s.bos[o].size && KeepsSlots(s.bos[o].relocs, data)
    requires t == s.(bos := s.bos[o := s.bos[o].(backing := Some(data))])
    ensures Sound(t, held) && EvolvesBut(s, t, o) && Contents(t, o) == Some(data)
  {
    StoreContents(s, o, data, t);
    assert RelocsOk(s, o) == true;
    assert RelocsOk(t, o);
    ButSound(s, t, o, held);
  }

  ghost predicate KeepsSlots(rs: seq<Reloc>, data: seq<Byte>)
  {
    forall i :: 0 <= i < |rs| ==> SlotOk(data, rs[i]) == true
  }

  lemma StoreSound(s: State, t: State, o: BoId, offset: nat, data: seq<Byte>, held: multiset<BoId>)
    requires Sound(s, held) && o in s.bos && s.bos[o].dirty && s.bos[o].written && !s.bos[o].noBacking
    requires s.bos[o].backing.Some? && |s.bos[o].backing.value| == s.bos[o].size && offset + |data| <= s.bos[o].size
    requires MissesSlots(s.bos[o].relocs, offset, |data|)
    requires t == s.(bos := s.bos[o := s.bos[o].(backing := Some(Overwrite(s.bos[o].backing.value, offset, data)))])
    ensures Sound(t, held) && EvolvesBut(s, t, o)
    ensures Contents(s, o).Some? && Contents(t, o) == Some(Overwrite(Contents(s, o).value, offset, data))
  {
    DirtyContents(s, o);
    assert RelocsOk(s, o) == true;
    StoreSlots(s.bos[o].relocs, s.bos[o].backing.value, offset, data);
    StoreAllSound(s, t, o, Overwrite(s.bos[o].backing.value, offset, data), held);
  }

  lemma StoreSlots(rs: seq<Reloc>, c: seq<Byte>, offset: nat, data: seq<Byte>)
    requires offset + |data| <= |c| && MissesSlots(rs, offset, |data|) && KeepsSlots(rs, c)
    ensures KeepsSlots(rs, Overwrite(c, offset, data))
  {
    forall i | 0 <= i < |rs| ensures SlotOk(Overwrite(c, offset, data), rs[i]) == true {
      assert SlotOk(c, rs[i]) == true;
      OverwriteSlots(c, offset, data, rs[i]);
    }
  }

  /** Storing through a mapping of a buffer that is not dirty, as a write mapping
      nested in a read mapping allows, makes the two copies differ for good: the
      manager keeps the contents exactly when the buffer is dirty. */
  lemma StoreNeedsDirty(s: State, t: State, o: BoId, data: seq<Byte>)
    requires Inv(s) && o in s.bos && s.bos[o].written && !s.bos[o].noBacking && !s.bos[o].cardDirty
    requires |data| == s.bos[o].size && s.bos[o].backing != Some(data)
    requires t == s.(bos := s.bos[o := s.bos[o].(backing := Some(data))])
    ensures s.bos[o].dirty <==> Coherent(t, o)
  {
    assert Coherent(s, o) == true;
    if !s.bos[o].dirty {
      assert HasBlock(t, o) && CardCopy(t, o) == CardCopy(s, o);
    }
  }

  /** `d` is `c`, or anything if `c` is not defined, with `data` stored at `offset`. */
  ghost predicate Wrote(c: Option<seq<Byte>>, d: Option<seq<Byte>>, size: nat, offset: nat, data: seq<Byte>)
  {
    && d.Some? && |d.value| == size && offset + |data| <= size && d.value[offset..offset + |data|] == data
    && (c.Some? ==> |c.value| == size && d.value == Overwrite(c.value, offset, data))
  }

  lemma WroteThrough(c: Option<seq<Byte>>, c1: Option<seq<Byte>>, d: Option<seq<Byte>>, size: nat, offset: nat,
      data: seq<Byte>)
    requires c.Some? ==> c1 == c
    requires c1.Some? && |c1.value| == size && offset + |data| <= size
    requires d == Some(Overwrite(c1.value, offset, data))
    ensures Wrote(c, d, size, offset, data)
  {
  }

  /** The state as if `c` had stayed in the backing store. */
  function Unstored(s: State, o: BoId, c: Option<seq<Byte>>): State
    requires o in s.bos
  {
    s.(bos := s.bos[o := s.bos[o].(backing := c)])
  }

  lemma WrittenContents(s: State, o: BoId)
    requires Inv(s) && o in s.bos
    ensures s.bos[o].written && !s.bos[o].noBacking ==> Contents(s, o).Some?
  {
    assert Coherent(s, o) == true;
  }

  lemma BosAgain(bos: map<BoId, Bo>, o: BoId, a: Bo, b: Bo)
    ensures bos[o := a][o := b] == bos[o := b]
  {
  }

  /** Two unmappings. */
  lemma UnmapTwiceSound(s: State, t: State, u: State, o: BoId, held: multiset<BoId>)
    requires Sound(s, held) && o in s.bos && s.bos[o].mapCount == 2
    requires t == s.(bos := s.bos[o := OneUnmapped(s.bos[o])])
    requires u == t.(bos := t.bos[o := OneUnmapped(t.bos[o])])
    ensures Sound(u, held)
  {
    UnmapSound(s, t, o, held);
    UnmapSound(t, u, o, held);
  }

  lemma UnmappedTwice(s: State, o: BoId, held: multiset<BoId>)
    requires Sound(s, held) && o in s.bos && s.bos[o].mapCount == 2
    ensures Sound(s.(bos := s.bos[o := OneUnmapped(OneUnmapped(s.bos[o]))]), held)
  {
    var t := s.(bos := s.bos[o := OneUnmapped(s.bos[o])]);
    BosAgain(s.bos, o, OneUnmapped(s.bos[o]), OneUnmapped(OneUnmapped(s.bos[o])));
    UnmapTwiceSound(s, t, t.(bos := t.bos[o := OneUnmapped(t.bos[o])]), o, held);
  }

  /** The state after the unmappings, with and without the store. */
  lemma StoredTwice(s2: State, t: State, u: State, o: BoId, data: seq<Byte>)
    requires o in s2.bos && s2.bos[o].mapCount == 2
    requires t == s2.(bos := s2.bos[o := OneUnmapped(OneUnmapped(s2.bos[o].(backing := Some(data))))])
    requires u == s2.(bos := s2.bos[o := OneUnmapped(OneUnmapped(s2.bos[o]))])
    ensures o in t.bos && u == Unstored(t, o, s2.bos[o].backing) && t == u.(bos := u.bos[o := t.bos[o]])
    ensures t.bos[o] == u.bos[o].(backing := Some(data))
  {
    BosAgain(s2.bos, o, t.bos[o], u.bos[o]);
    BosAgain(s2.bos, o, u.bos[o], t.bos[o]);
  }

  /** What the manager makes of the store: it is the contents if the buffer is dirty, and otherwise only
      the backing store, which differs from the contents now, stands against the invariant. */
  lemma NestedSound(s2: State, t: State, o: BoId, data: seq<Byte>, held: multiset<BoId>)
    requires Sound(s2, held) && o in s2.bos && s2.bos[o].mapCount == 2 && s2.bos[o].written && !s2.bos[o].noBacking
    requires |data| == s2.bos[o].size
    requires t == s2.(bos := s2.bos[o := OneUnmapped(OneUnmapped(s2.bos[o].(backing := Some(data))))])
    ensures o in t.bos && Sound(Unstored(t, o, s2.bos[o].backing), held)
    ensures s2.bos[o].dirty && KeepsSlots(s2.bos[o].relocs, data) ==> Sound(t, held) && Contents(t, o) == Some(data)
  {
    var u := s2.(bos := s2.bos[o := OneUnmapped(OneUnmapped(s2.bos[o]))]);
    UnmappedTwice(s2, o, held);
    StoredTwice(s2, t, u, o, data);
    if s2.bos[o].dirty && KeepsSlots(s2.bos[o].relocs, data) {
      StoreAllSound(u, t, o, data, held);
    }
  }

  /** A buffer without relocations can be validated between calls. */
  lemma SoundCanValidate(s: State, o: BoId, held: multiset<BoId>)
    requires Sound(s, held) && o in s.bos && s.bos[o].mapCount == 0 && s.bos[o].relocs == []
    ensures CanValidate(s, o)
  {
    ClashOne(s, o);
  }

  /** A clean buffer with contents is on the card. */
  lemma CleanOnCard(s: State, o: BoId, held: multiset<BoId>)
    requires Sound(s, held) && o in s.bos && s.bos[o].written && !s.bos[o].noBacking && !s.bos[o].dirty
    ensures HasBlock(s, o) && Contents(s, o) == Some(CardCopy(s, o))
  {
    assert Coherent(s, o) == true;
  }

  /** A validated buffer shows the card its contents. */
  lemma ValidatedShows(t: State, o: BoId)
    requires Running(t, {}) && o in t.bos && t.bos[o].validated && Contents(t, o).Some?
    ensures HasBlock(t, o) && Contents(t, o) == Some(CardCopy(t, o))
  {
    assert Placed(t, o) == true && Coherent(t, o) == true;
    PlacedHasBlock(t, o);
  }

  // ----- emit_reloc

  lemma EmitRelocsOk(s: State, t: State, o: BoId, r: Reloc)
    requires o in s.bos && o in t.bos && t.bos.Keys == s.bos.Keys && RelocsOk(s, o) && r.target in s.bos
    requires Contents(s, o).Some? && Contents(t, o) == Contents(s, o) && t.bos[o].relocs == s.bos[o].relocs + [r]
    requires SlotOk(Contents(s, o).value, r) && forall i :: 0 <= i < |s.bos[o].relocs| ==> Apart(s.bos[o].relocs[i], r)
    ensures RelocsOk(t, o)
  {
    var rs := t.bos[o].relocs;
    var n := |s.bos[o].relocs|;
    forall i, j | 0 <= i < j < |rs| ensures Apart(rs[i], rs[j]) {
      if j < n {
        assert Apart(s.bos[o].relocs[i], s.bos[o].relocs[j]);
      } else {
        assert Apart(s.bos[o].relocs[i], r);
      }
    }
    forall i | 0 <= i < |rs| ensures SlotOk(Contents(t, o).value, rs[i]) == true {
      if i < n {
        assert SlotOk(Contents(s, o).value, s.bos[o].relocs[i]) == true;
      }
    }
  }

  /** The reference the new relocation holds is counted. */
  lemma EmitRefs(s: State, t: State, o: BoId, r: Reloc, held: multiset<BoId>)
    requires RefsOk(s, held) && o in s.bos && r.target in s.bos && t.bos.Keys == s.bos.Keys
    requires t.bos[o].relocs == s.bos[o].relocs + [r]
    requires forall y :: y in s.bos && y != o ==> t.bos[y].relocs == s.bos[y].relocs
    requires forall y :: y in s.bos ==> t.bos[y].refcount == s.bos[y].refcount + if y == r.target then 1 else 0
    ensures RefsOk(t, held)
  {
    forall x | x in t.bos ensures Counted(t, x, held) == true {
      assert Counted(s, x, held) == true;
      EmitRefSet(s, t, o, r, x);
    }
  }

  lemma EmitRefSet(s: State, t: State, o: BoId, r: Reloc, x: BoId)
    requires o in s.bos && t.bos.Keys == s.bos.Keys
    requires t.bos[o].relocs == s.bos[o].relocs + [r]
    requires forall y :: y in s.bos && y != o ==> t.bos[y].relocs == s.bos[y].relocs
    ensures |Refs(t, x)| == |Refs(s, x)| + if x == r.target then 1 else 0
  {
    var p := (o, |s.bos[o].relocs|);
    var more := if x == r.target then {p} else {};
    forall q: (BoId, int) ensures q in Refs(t, x) <==> q in Refs(s, x) || q in more {
      EmitOneRef(s, t, o, r, x, q);
    }
    assert Refs(t, x) == Refs(s, x) + more;
    assert p !in Refs(s, x);
  }

  lemma EmitOneRef(s: State, t: State, o: BoId, r: Reloc, x: BoId, q: (BoId, int))
    requires o in s.bos && t.bos.Keys == s.bos.Keys
    requires t.bos[o].relocs == s.bos[o].relocs + [r]
    requires forall y :: y in s.bos && y != o ==> t.bos[y].relocs == s.bos[y].relocs
    ensures q in Refs(t, x) <==> q in Refs(s, x) || (q == (o, |s.bos[o].relocs|) && x == r.target)
  {
    assert forall u: State :: q in Refs(u, x) <==>
      q.0 in u.bos && 0 <= q.1 < |u.bos[q.0].relocs| && u.bos[q.0].relocs[q.1].target == x;
  }

  /** A change of reference count. */
  lemma RefcountQuiet(s: State, t: State, o: BoId, n: nat)
    requires Quiet(s) && o in s.bos && t == s.(bos := s.bos[o := s.bos[o].(refcount := n)])
    ensures Quiet(t) && EvolvesBut(s, t, o) && Contents(t, o) == Contents(s, o)
  {
    FlagsContents(s, o, t.bos[o], t);
    assert RelocsOk(s, o) == true;
    SameContentsRelocs(s, t, o);
    ButRunning(s, t, o, {}, {});
    RefcountIdle(s, t, o, n);
  }

  lemma RefcountIdle(s: State, t: State, o: BoId, n: nat)
    requires Idle(s) && o in s.bos && t == s.(bos := s.bos[o := s.bos[o].(refcount := n)])
    ensures Idle(t)
  {
  }

  lemma RefcountReleased(s: State, t: State, o: BoId, n: nat)
    requires o in s.bos && t == s.(bos := s.bos[o := s.bos[o].(refcount := n)])
    requires EvolvesBut(s, t, o) && Contents(t, o) == Contents(s, o)
    ensures Released(s, t)
  {
    forall x | x in t.bos ensures Contents(t, x) == Contents(s, x) {
      assert x != o ==> BoEvolves(s, t, x) == true;
    }
  }

  /** The state after emit_reloc: the relocation is appended and its target referenced. */
  function Emitted(s: State, o: BoId, r: Reloc): (t: State)
    requires o in s.bos && r.target in s.bos
  {
    var s1 := s.(bos := s.bos[o := s.bos[o].(relocs := s.bos[o].relocs + [r])]);
    s1.(bos := s1.bos[r.target := s1.bos[r.target].(refcount := s1.bos[r.target].refcount + 1)])
  }

  lemma EmittedSteps(s: State, s1: State, o: BoId, r: Reloc, t: State)
    requires o in s.bos && r.target in s.bos && s1 == s.(bos := s.bos[o := s.bos[o].(relocs := s.bos[o].relocs + [r])])
    requires t == s1.(bos := s1.bos[r.target := s1.bos[r.target].(refcount := s1.bos[r.target].refcount + 1)])
    ensures t == Emitted(s, o, r)
  {
  }

  ghost predicate SameContents(s: State, t: State)
  {
    forall x :: x in s.bos ==> x in t.bos && Contents(t, x) == Contents(s, x)
  }

  /** There is room for the relocation, its slot holds the address at which the target was last
      placed, and it overlaps no other slot. */
  ghost predicate CanEmit(s: State, o: BoId, r: Reloc)
  {
    && o in s.bos && r.target in s.bos && r.target != o && |s.bos[o].relocs| < MAX_RELOCS
    && r.last == s.bos[r.target].offset
    && Contents(s, o).Some? && SlotOk(Contents(s, o).value, r) && MissesSlots(s.bos[o].relocs, r.offset, 4)
  }

  lemma EmitSound(s: State, o: BoId, r: Reloc, held: multiset<BoId>)
    requires Sound(s, held) && CanEmit(s, o, r)
    ensures Sound(Emitted(s, o, r), held) == true && SameContents(s, Emitted(s, o, r)) == true
  {
    EmittedQuiet(s, o, r);
    EmittedRefs(s, o, r, held);
    EmittedMapsOk(s, o, r);
  }

  lemma EmittedMapsOk(s: State, o: BoId, r: Reloc)
    requires MapsOk(s) && o in s.bos && r.target in s.bos && r.target != o
    ensures MapsOk(Emitted(s, o, r))
  {
    SameMapsOk(s, Emitted(s, o, r));
  }

  /** Nothing happens to mappings. */
  lemma SameMapsOk(s: State, t: State)
    requires MapsOk(s)
    requires forall x :: x in t.bos ==>
      x in s.bos && t.bos[x].mapCount == s.bos[x].mapCount && t.bos[x].virt == s.bos[x].virt
    ensures MapsOk(t)
  {
  }

  lemma KeepsMapsOk(s: State, t: State, d: set<BoId>)
    requires MapsOk(s) && Keeps(s, t, d)
    ensures MapsOk(t)
  {
    forall x | x in t.bos ensures t.bos[x].mapCount == s.bos[x].mapCount && t.bos[x].virt == s.bos[x].virt {
      assert BoKeeps(s, t, x, x in d) == true;
    }
  }

  lemma ReleasedMapsOk(s: State, t: State)
    requires MapsOk(s) && Released(s, t)
    ensures MapsOk(t)
  {
  }

  lemma FreshMapsOk(s: State, t: State, o: BoId, size: nat, align2: nat)
    requires MapsOk(s) && t.bos == s.bos[o := Fresh(size, align2)]
    ensures MapsOk(t)
  {
  }

  lemma EmitQuiet(s: State, s1: State, t: State, o: BoId, r: Reloc)
    requires Quiet(s) && o in s.bos && r.target in s.bos && r.target != o && Contents(s, o).Some?
    requires SlotOk(Contents(s, o).value, r) && forall i :: 0 <= i < |s.bos[o].relocs| ==> Apart(s.bos[o].relocs[i], r)
    requires s1 == s.(bos := s.bos[o := s.bos[o].(relocs := s.bos[o].relocs + [r])])
    requires t == s1.(bos := s1.bos[r.target := s1.bos[r.target].(refcount := s1.bos[r.target].refcount + 1)])
    ensures Quiet(t) && SameContents(s, t) == true
  {
    EmitOwn(s, s1, o, r);
    RefcountQuiet(s1, t, r.target, s1.bos[r.target].refcount + 1);
    ContentsThrough(s, s1, t, o, r.target);
  }

  lemma ContentsThrough(s: State, s1: State, t: State, o: BoId, y: BoId)
    requires o in s.bos && y in s1.bos && EvolvesBut(s, s1, o) && EvolvesBut(s1, t, y)
    requires Contents(s1, o) == Contents(s, o) && y in t.bos && Contents(t, y) == Contents(s1, y)
    ensures SameContents(s, t)
  {
    forall x | x in s.bos ensures x in t.bos && Contents(t, x) == Contents(s, x) {
      assert x != o ==> BoEvolves(s, s1, x) == true;
      assert x != y ==> BoEvolves(s1, t, x) == true;
    }
  }

  lemma EmittedQuiet(s: State, o: BoId, r: Reloc)
    requires Quiet(s) && CanEmit(s, o, r)
    ensures Quiet(Emitted(s, o, r)) && SameContents(s, Emitted(s, o, r)) == true
  {
    var s1 := s.(bos := s.bos[o := s.bos[o].(relocs := s.bos[o].relocs + [r])]);
    MissesApart(s.bos[o].relocs, r);
    EmitQuiet(s, s1, Emitted(s, o, r), o, r);
  }

  lemma EmittedRefs(s: State, o: BoId, r: Reloc, held: multiset<BoId>)
    requires RefsOk(s, held) && CanEmit(s, o, r)
    ensures RefsOk(Emitted(s, o, r), held)
  {
    var s1 := s.(bos := s.bos[o := s.bos[o].(relocs := s.bos[o].relocs + [r])]);
    EmitMap(s.bos, s1.bos, Emitted(s, o, r).bos, o, r);
    EmitRefs(s, Emitted(s, o, r), o, r, held);
  }

  lemma MissesApart(rs: seq<Reloc>, r: Reloc)
    requires MissesSlots(rs, r.offset, 4)
    ensures forall i :: 0 <= i < |rs| ==> Apart(rs[i], r)
  {
  }

  lemma EmitMap(a: map<BoId, Bo>, b: map<BoId, Bo>, c: map<BoId, Bo>, o: BoId, r: Reloc)
    requires o in a && r.target in a && r.target != o
    requires b == a[o := a[o].(relocs := a[o].relocs + [r])]
    requires c == b[r.target := b[r.target].(refcount := b[r.target].refcount + 1)]
    ensures c.Keys == a.Keys && c[o].relocs == a[o].relocs + [r]
    ensures forall y :: y in a && y != o ==> c[y].relocs == a[y].relocs
    ensures forall y :: y in a ==> c[y].refcount == a[y].refcount + if y == r.target then 1 else 0
  {
  }

  lemma EmitOwn(s: State, t: State, o: BoId, r: Reloc)
    requires Quiet(s) && o in s.bos && r.target in s.bos && Contents(s, o).Some?
    requires SlotOk(Contents(s, o).value, r) && forall i :: 0 <= i < |s.bos[o].relocs| ==> Apart(s.bos[o].relocs[i], r)
    requires t == s.(bos := s.bos[o := s.bos[o].(relocs := s.bos[o].relocs + [r])])
    ensures Quiet(t) && EvolvesBut(s, t, o) && Contents(t, o) == Contents(s, o)
  {
    FlagsContents(s, o, t.bos[o], t);
    assert RelocsOk(s, o) == true;
    EmitRelocsOk(s, t, o, r);
    ButRunning(s, t, o, {}, {});
    RelocsIdle(s, t, o);
  }

  lemma RelocsIdle(s: State, t: State, o: BoId)
    requires Idle(s) && o in s.bos && o in t.bos && t.bos == s.bos[o := s.bos[o].(relocs := t.bos[o].relocs)]
    ensures Idle(t)
  {
  }

  // ----- bo_alloc

  function Fresh(size: nat, align2: nat): Bo
  {
    Bo(size, align2, false, 1, false, false, None, None, false, false, 0, Unmapped, [], -1, false)
  }

  lemma FreshStruct(s: State, t: State, bo: Bo)
    requires Struct(s) && bo.size > 0 && bo.block.None?
    requires t == s.(bos := s.bos[s.nextBo := bo], nextBo := s.nextBo + 1)
    ensures Struct(t) && s.nextBo !in s.bos
  {
    SameHeapBlocks(s, t);
    assert ListsOk(t);
    assert FencesOk(t);
    assert s.nextBo !in s.bos;
    FreshOwners(s, t, bo);
  }

  lemma FreshOwners(s: State, t: State, bo: Bo)
    requires OwnersOk(s) && bo.size > 0 && bo.block.None? && s.nextBo !in s.bos
    requires t == s.(bos := s.bos[s.nextBo := bo], nextBo := s.nextBo + 1)
    ensures OwnersOk(t)
  {
  }

  lemma FreshBo(s: State, t: State, size: nat, align2: nat, x: BoId)
    requires s.nextBo !in s.bos && x in t.bos && OwnersOk(s) && size > 0
    requires t == s.(bos := s.bos[s.nextBo := Fresh(size, align2)], nextBo := s.nextBo + 1)
    requires x != s.nextBo ==> Coherent(s, x) && NoClash(s, x) && RelocsOk(s, x)
    ensures Coherent(t, x) && NoClash(t, x) && RelocsOk(t, x)
    ensures x != s.nextBo ==> Contents(t, x) == Contents(s, x)
  {
    if x != s.nextBo {
      assert SamePlace(s, t, x);
      BoSteady(s, t, x);
    }
  }

  /** With the buffers in order and nothing validated the manager is quiet. */
  ghost predicate BoGood(t: State, x: BoId)
    requires x in t.bos
  {
    Coherent(t, x) && NoClash(t, x) && RelocsOk(t, x)
  }

  lemma FreshBos(s: State, t: State, size: nat, align2: nat)
    requires OwnersOk(s) && AllCoherent(s) && ClashOnly(s, {}) && AllRelocs(s) && s.nextBo !in s.bos && size > 0
    requires t == s.(bos := s.bos[s.nextBo := Fresh(size, align2)], nextBo := s.nextBo + 1)
    ensures forall x :: x in t.bos ==> BoGood(t, x) == true
    ensures forall x :: x in s.bos ==> Contents(t, x) == Contents(s, x)
  {
    forall x | x in t.bos
      ensures BoGood(t, x) == true && (x != s.nextBo ==> Contents(t, x) == Contents(s, x))
    {
      assert x != s.nextBo ==> Coherent(s, x) == true && NoClash(s, x) && RelocsOk(s, x) == true;
      FreshBo(s, t, size, align2, x);
    }
  }

  lemma GoodIdle(t: State)
    requires Struct(t) && t.onHw == [] && Idle(t) && forall x :: x in t.bos ==> BoGood(t, x) == true
    ensures Quiet(t)
  {
    IdleQuiet(t);
  }

  lemma FreshIdle(s: State, t: State, size: nat, align2: nat)
    requires Idle(s) && t.bos == s.bos[s.nextBo := Fresh(size, align2)]
    ensures Idle(t)
  {
  }

  lemma FreshQuiet(s: State, t: State, size: nat, align2: nat)
    requires Quiet(s) && size > 0
    requires t == s.(bos := s.bos[s.nextBo := Fresh(size, align2)], nextBo := s.nextBo + 1)
    ensures Quiet(t) && s.nextBo !in s.bos && forall x :: x in s.bos ==> Contents(t, x) == Contents(s, x)
  {
    FreshStruct(s, t, Fresh(size, align2));
    HwEmpty(s);
    FreshBos(s, t, size, align2);
    FreshIdle(s, t, size, align2);
    GoodIdle(t);
  }

  lemma FreshRefSet(s: State, t: State, bo: Bo, x: BoId)
    requires s.nextBo !in s.bos && t.bos == s.bos[s.nextBo := bo] && bo.relocs == []
    ensures Refs(t, x) == Refs(s, x)
  {
    forall y | y in t.bos ensures t.bos[y].relocs == if y == s.nextBo then [] else s.bos[y].relocs {
    }
  }

  lemma FreshRefs(s: State, t: State, size: nat, align2: nat, held: multiset<BoId>)
    requires RefsOk(s, held) && s.nextBo !in s.bos && AllRelocs(s)
    requires t == s.(bos := s.bos[s.nextBo := Fresh(size, align2)], nextBo := s.nextBo + 1)
    ensures RefsOk(t, held + multiset{s.nextBo})
  {
    var o := s.nextBo;
    forall x | x in t.bos ensures Counted(t, x, held + multiset{o}) == true {
      FreshRefSet(s, t, Fresh(size, align2), x);
      if x == o {
        NoRefs(s, x);
      } else {
        assert Counted(s, x, held) == true;
      }
    }
  }

  lemma NoRefs(s: State, x: BoId)
    requires AllRelocs(s) && x !in s.bos
    ensures Refs(s, x) == {}
  {
    forall y, i | y in s.bos && 0 <= i < |s.bos[y].relocs| ensures s.bos[y].relocs[i].target != x {
      assert RelocsOk(s, y) == true;
    }
  }

  // ----- unreference

  /** A mapped buffer has a reference outside. */
  ghost predicate MapsHeld(s: State, ext: multiset<BoId>)
  {
    forall x :: x in s.bos && s.bos[x].mapCount > 0 ==> x in ext
  }

  /** Where the loop of unreference_locked stands: the references `ts[i..]` are still to be released. */
  ghost predicate Releasing(s: State, t: State, ext: multiset<BoId>, ts: seq<BoId>, i: nat)
  {
    ReleasingFacts(s, t, ext, ts, i) == true
  }

  ghost predicate ReleasingFacts(s: State, t: State, ext: multiset<BoId>, ts: seq<BoId>, i: nat)
  {
    && i <= |ts| && Quiet(t) == true && RefsOk(t, ext + multiset(ts[i..])) == true
    && Released(s, t) == true && MapsHeld(t, ext) == true
  }

  lemma ReleaseStart(s: State, t: State, o: BoId, ext: multiset<BoId>)
    requires Quiet(s) && RefsOk(s, ext) && o in ext && o in s.bos && s.bos[o].refcount == 1
    requires MapsHeld(s, ext - multiset{o})
    requires t == Gone(s, o)
    ensures Releasing(s, t, ext - multiset{o}, TargetsOf(s.bos[o].relocs), 0) && s.bos[o].mapCount == 0
    ensures |t.bos| < |s.bos|
  {
    LastRef(s, o, ext);
    GoneQuiet(s, o);
    assert RelocsOk(s, o) == true;
    assert t.bos == s.bos - {o};
    GoneRefs(s, t, o, ext);
    GoneMaps(s, t, o, ext - multiset{o});
    var ts := TargetsOf(s.bos[o].relocs);
    assert ts[0..] == ts;
    FewerBos(s.bos, o);
    LastUnmapped(s, o, ext);
  }

  lemma LastUnmapped(s: State, o: BoId, ext: multiset<BoId>)
    requires o in s.bos && ext[o] == 1 && MapsHeld(s, ext - multiset{o})
    ensures s.bos[o].mapCount == 0
  {
  }

  lemma GoneMaps(s: State, t: State, o: BoId, ext: multiset<BoId>)
    requires o in s.bos && t.bos == s.bos - {o} && MapsHeld(s, ext)
    ensures MapsHeld(t, ext)
  {
  }

  lemma FewerBos(bos: map<BoId, Bo>, o: BoId)
    requires o in bos
    ensures |bos - {o}| < |bos|
  {
    assert (bos - {o}).Keys == bos.Keys - {o};
    assert |(bos - {o}).Keys| == |bos - {o}|;
  }

  lemma FewerLeft(ext: multiset<BoId>, ts: seq<BoId>, i: nat)
    requires i < |ts|
    ensures ext + multiset(ts[i..]) - multiset{ts[i]} == ext + multiset(ts[i + 1..])
  {
    NextRef(ts, i);
  }

  lemma ReleaseNext(s: State, t: State, u: State, ext: multiset<BoId>, ts: seq<BoId>, i: nat)
    requires Releasing(s, t, ext, ts, i) && i < |ts| && Quiet(u) && Released(t, u) && MapsHeld(u, ext)
    requires RefsOk(u, ext + multiset(ts[i..]) - multiset{ts[i]})
    ensures Releasing(s, u, ext, ts, i + 1)
  {
    FewerLeft(ext, ts, i);
    ReleasedTrans(s, t, u);
  }

  lemma ReleaseEnd(s: State, t: State, ext: multiset<BoId>, ts: seq<BoId>)
    requires Releasing(s, t, ext, ts, |ts|)
    ensures Quiet(t) && RefsOk(t, ext) && Released(s, t) && MapsHeld(t, ext)
  {
    assert ext + multiset(ts[|ts|..]) == ext;
  }

  /** A buffer that is referred to exists, and owns its block. */
  lemma ReferenceLives(s: State, o: BoId, ext: multiset<BoId>)
    requires Struct(s) && RefsOk(s, ext) && o in ext
    ensures o in s.bos && s.bos[o].refcount > 0
    ensures s.bos[o].block.Some? ==> HasOwner(s, s.bos[o].block.value) && s.blocks[s.bos[o].block.value].bo == Some(o)
  {
    assert Counted(s, o, ext) == true;
    if s.bos[o].block.Some? {
      OwnerInCard(s, s.bos[o].block.value);
    }
  }

  lemma ReleaseCall(s: State, t: State, ext: multiset<BoId>, ts: seq<BoId>, i: nat)
    requires Releasing(s, t, ext, ts, i) && i < |ts|
    ensures Quiet(t) && RefsOk(t, ext + multiset(ts[i..])) && ts[i] in ext + multiset(ts[i..])
    ensures MapsHeld(t, ext + multiset(ts[i..]) - multiset{ts[i]})
  {
    NextRef(ts, i);
    assert ext + multiset(ts[i..]) - multiset{ts[i]} == ext + multiset(ts[i + 1..]);
  }

  lemma DropOneQuiet(s: State, t: State, o: BoId, ext: multiset<BoId>)
    requires Quiet(s) && RefsOk(s, ext) && o in ext && o in s.bos && s.bos[o].refcount > 1
    requires MapsHeld(s, ext - multiset{o})
    requires t == s.(bos := s.bos[o := s.bos[o].(refcount := s.bos[o].refcount - 1)])
    ensures Quiet(t) && RefsOk(t, ext - multiset{o}) && Released(s, t) && MapsHeld(t, ext - multiset{o})
    ensures |t.bos| == |s.bos|
  {
    RefcountQuiet(s, t, o, s.bos[o].refcount - 1);
    RefcountReleased(s, t, o, s.bos[o].refcount - 1);
    DropOneRef(s, t, o, ext);
    SameSize(s.bos, t.bos, o);
  }

  lemma SameSize(a: map<BoId, Bo>, b: map<BoId, Bo>, o: BoId)
    requires o in a && o in b && b == a[o := b[o]]
    ensures |b| == |a| && b.Keys == a.Keys
  {
    assert b.Keys == a.Keys && |b| == |b.Keys| && |a| == |a.Keys|;
  }

  // ----- execution keeps the references

  lemma KeepsRefs(s: State, t: State, d: set<BoId>, held: multiset<BoId>)
    requires Keeps(s, t, d) && RefsOk(s, held)
    ensures RefsOk(t, held)
  {
    forall x | x in t.bos ensures Counted(t, x, held) == true {
      assert Counted(s, x, held) == true && BoKeeps(s, t, x, x in d) == true;
      KeepsRefSet(s, t, d, x);
    }
  }

  lemma KeepsRefSet(s: State, t: State, d: set<BoId>, x: BoId)
    requires Keeps(s, t, d)
    ensures Refs(t, x) == Refs(s, x)
  {
    forall y | y in s.bos
      ensures |t.bos[y].relocs| == |s.bos[y].relocs|
      ensures forall i :: 0 <= i < |s.bos[y].relocs| ==> t.bos[y].relocs[i].target == s.bos[y].relocs[i].target
    {
      assert BoKeeps(s, t, y, y in d) == true;
    }
  }

  lemma ExecutedSound(s: State, at: State, card: seq<Byte>, t: State, held: multiset<BoId>)
    requires Executed(s, at, card, t) && Sound(s, held)
    ensures Sound(t, held)
  {
    KeepsRefs(s, t, Drawn(at), held);
    KeepsMapsOk(s, t, Drawn(at));
  }

  /** A batch handed to the card, with what its later fencing relies on. */
  ghost predicate Handed(s: State, at: State, o: BoId, g: set<BoId>, rank: BoId -> nat, held: multiset<BoId>)
  {
    HandedFacts(s, at, o, g, rank, held) == true
  }

  ghost predicate HandedFacts(s: State, at: State, o: BoId, g: set<BoId>, rank: BoId -> nat, held: multiset<BoId>)
  {
    Submitted(s, at, o, g) == true && Graph(s, g, rank) == true && o in g && Sound(s, held) == true
  }

  /** The write domains of the batch are set, and it can be validated. */
  ghost predicate DomainsSet(s: State, t: State, o: BoId, g: set<BoId>, rank: BoId -> nat)
  {
    DomainsFacts(s, t, o, g, rank) == true
  }

  ghost predicate DomainsFacts(s: State, t: State, o: BoId, g: set<BoId>, rank: BoId -> nat)
  {
    && Graph(s, g, rank) == true && o in g && Keeps(s, t, {}) == true && Ready(t, t, o, Used(s, g, o), rank) == true
    && (forall x :: x in t.bos ==> (t.bos[x].write <==> x in MarkSet(s, o)))
  }

  lemma NowDomains(s: State, s1: State, t: State, o: BoId, g: set<BoId>, rank: BoId -> nat)
    requires Quiet(s) && Graph(s, g, rank) && o in g && s1 == s.(rendered := false) && Flagged(s1, t, MarkSet(s1, o))
    ensures DomainsSet(s, t, o, g, rank)
  {
    FirstReady(s, s1, t, o, g, rank);
  }

  /** The batch can be handed to the card, or did not fit. */
  ghost predicate SubmitOutcome(s: State, at: State, o: BoId, g: set<BoId>, rank: BoId -> nat, held: multiset<BoId>,
      ok: bool)
  {
    if ok then Handed(s, at, o, g, rank, held) == true else Running(at, {}) == true && Keeps(s, at, {}) == true
  }

  lemma NowReady(s: State, t: State, o: BoId, g: set<BoId>, rank: BoId -> nat, h: set<BoId>)
    requires DomainsSet(s, t, o, g, rank) && h == Used(s, g, o)
    ensures Ready(t, t, o, h, rank)
  {
  }

  lemma NowHanded(s: State, t: State, at: State, o: BoId, g: set<BoId>, rank: BoId -> nat, held: multiset<BoId>,
      h: set<BoId>, ok: bool)
    requires DomainsSet(s, t, o, g, rank) && h == Used(s, g, o) && Prepared(t, at, h, ok) && Sound(s, held)
    ensures SubmitOutcome(s, at, o, g, rank, held, ok)
  {
    if ok {
      NowSubmitted(s, t, at, o, g);
    } else {
      KeepsTrans(s, t, at, {}, {});
    }
  }

  lemma DomainsStopped(s: State, t: State, at: State, o: BoId, g: set<BoId>, rank: BoId -> nat, h: set<BoId>, ret: int)
    requires DomainsSet(s, t, o, g, rank) && h == Used(s, g, o) && Stopped(t, at, h, ret)
    ensures Stopped(s, at, h, ret)
  {
    if ret == ABORT {
      UnbackedBefore(s, t, h, h);
    }
  }

  /** The state of the card after the batch. */
  ghost predicate DrawnFrom(at: State, d: State)
  {
    d == at.(card := d.card) && Draws(at, Drawn(at), d.card)
  }

  lemma SubmittedRunning(s: State, at: State, d: State, o: BoId, g: set<BoId>)
    requires Submitted(s, at, o, g) && DrawnFrom(at, d)
    ensures Running(d, {})
  {
    DrawRunning(at, Drawn(at), d);
  }

  lemma ExecutedEnd(s: State, at: State, d: State, f: State, t: State, o: BoId, g: set<BoId>, rank: BoId -> nat,
      held: multiset<BoId>)
    requires Handed(s, at, o, g, rank, held) && DrawnFrom(at, d) && FencedUp(d, f)
    requires Lowered(f, t, Used(s, g, o)) && Down(t, Used(s, g, o)) && o in t.bos && !t.bos[o].validated
    ensures Executed(s, at, d.card, t) && Sound(t, held)
  {
    FencedDown(s, at, d, f, o, g, rank);
    DownEnd(f, t, Used(s, g, o), rank, o);
    NowExecuted(s, at, d, f, t, Used(s, g, o));
    ExecutedSound(s, at, d.card, t, held);
  }

  lemma LateSound(s: State, t: State, held: multiset<BoId>)
    requires Sound(s, held) && Draws(s, Pending(s), t.card) && t == s.(card := t.card)
    ensures Sound(t, held) && Keeps(s, t, Pending(s))
    ensures forall x :: x in s.bos && x !in Pending(s) ==> Contents(t, x) == Contents(s, x)
  {
    LateDraw(s, t);
    KeepsRefs(s, t, Pending(s), held);
    KeepsMapsOk(s, t, Pending(s));
  }

  // ----- the beginning

  lemma InitStruct(s: State)
    requires |s.card| > 0 && s.lo >= 0 && s.heap == Init(s.lo, |s.card|) && s.blocks == map[] && s.bos == map[]
    requires s.lru == [] && s.onHw == [] && s.fenced == []
    ensures Struct(s)
  {
    InitValid(s.lo, |s.card|);
    assert HeapOk(s);
    assert BlocksOk(s);
    assert ListsOk(s);
  }

  lemma InitSound(s: State)
    requires |s.card| > 0 && s.lo >= 0 && s.heap == Init(s.lo, |s.card|) && s.blocks == map[] && s.bos == map[]
    requires s.lru == [] && s.onHw == [] && s.fenced == []
    ensures Sound(s, multiset{})
  {
    InitStruct(s);
    assert Idle(s);
    IdleQuiet(s);
  }

  lemma StoreReady(s: State, o: BoId)
    requires Inv(s) && o in s.bos && s.bos[o].written && !s.bos[o].noBacking
    ensures s.bos[o].backing.Some? && |s.bos[o].backing.value| == s.bos[o].size
  {
    assert Coherent(s, o) == true;
  }

  lemma AddOneQuiet(s: State, t: State, o: BoId, held: multiset<BoId>)
    requires Sound(s, held) && o in s.bos
    requires t == s.(bos := s.bos[o := s.bos[o].(refcount := s.bos[o].refcount + 1)])
    ensures Sound(t, held + multiset{o}) && Released(s, t)
  {
    SameMapsOk(s, t);
    RefcountQuiet(s, t, o, s.bos[o].refcount + 1);
    RefcountReleased(s, t, o, s.bos[o].refcount + 1);
    AddOneRef(s, t, o, held);
  }

  lemma AddOneRef(s: State, t: State, o: BoId, held: multiset<BoId>)
    requires RefsOk(s, held) && o in s.bos
    requires t == s.(bos := s.bos[o := s.bos[o].(refcount := s.bos[o].refcount + 1)])
    ensures RefsOk(t, held + multiset{o})
  {
    forall x | x in t.bos ensures Counted(t, x, held + multiset{o}) == true {
      assert Counted(s, x, held) == true;
      assert Refs(t, x) == Refs(s, x);
    }
  }
}
