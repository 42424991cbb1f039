/** CPU access to a buffer: what mapping, unmapping and writing do to its contents. */
module FakeMapping {
  import opened MmLayout
  import opened FakeState
  import opened FakeSteps
  import opened FakeContents
  import opened FakePlacement

  /** The record of a backing-store buffer after its outermost bo_map; `store`
      is its backing store, fresh if there was none. */
  function Mapped(s: State, o: BoId, write: bool, store: seq<Byte>): Bo
    requires o in s.bos
  {
    var bo := s.bos[o];
    var copy := bo.cardDirty && HasBlock(s, o);
    bo.(mapCount := bo.mapCount + 1, virt := Backing, dirty := bo.dirty || write, written := bo.written || write,
        backing := Some(if copy then CardCopy(s, o) else store), cardDirty := bo.cardDirty && !copy)
  }

  /** The card memory of the buffer is where and what it was. */
  ghost predicate KeepsCopy(s: State, t: State, o: BoId)
    requires o in s.bos && o in t.bos
  {
    HasBlock(t, o) == HasBlock(s, o) && (HasBlock(s, o) ==> CardCopy(t, o) == CardCopy(s, o))
  }

  /** The emissions pending are close enough to that of the buffer for fences to be compared. */
  ghost predicate Close(s: State, o: BoId)
    requires o in s.bos
  {
    s.bos[o].block.Some? && s.bos[o].block.value in s.blocks && InWindow(s, s.blocks[s.bos[o].block.value].emission)
  }

  /** The card is done with the block of the buffer. */
  ghost predicate Quiescent(s: State, o: BoId)
    requires o in s.bos
  {
    s.bos[o].block.Some? ==> s.bos[o].block.value in s.blocks && !s.blocks[s.bos[o].block.value].fenced
  }

  /** A nested mapping. */
  function Deeper(bo: Bo): Bo
  {
    bo.(mapCount := bo.mapCount + 1)
  }

  lemma MappedCopy(s: State, t: State, o: BoId)
    requires o in s.bos && o in t.bos && t == s.(bos := t.bos) && t.bos[o].block == s.bos[o].block
    requires t.bos[o].size == s.bos[o].size
    ensures KeepsCopy(s, t, o)
  {
  }

  /** A mapping shows the CPU the logical contents. */
  lemma MappedContents(s: State, o: BoId, write: bool, store: seq<Byte>, t: State)
    requires Inv(s) && o in s.bos && NoClash(s, o) && !s.bos[o].noBacking
    requires |store| == s.bos[o].size && (s.bos[o].backing.Some? ==> store == s.bos[o].backing.value)
    requires t == s.(bos := s.bos[o := Mapped(s, o, write, store)])
    ensures Inv(t) && EvolvesBut(s, t, o) && (ClashOnly(s, {}) ==> ClashOnly(t, {}) == true)
    ensures MappedShows(s, t, o)
  {
    MappedOwn(s, o, write, store, t);
    SetBo(s, o, t.bos[o], t);
  }

  /** The contents are the same, and the CPU can see them. */
  ghost predicate MappedShows(s: State, t: State, o: BoId)
    requires o in s.bos && o in t.bos
  {
    && (Contents(s, o).Some? ==> Contents(t, o) == Contents(s, o))
    && (t.bos[o].written ==> Contents(t, o).Some? && Contents(t, o) == t.bos[o].backing)
  }

  lemma MappedOwn(s: State, o: BoId, write: bool, store: seq<Byte>, t: State)
    requires Inv(s) && o in s.bos && NoClash(s, o) && !s.bos[o].noBacking
    requires |store| == s.bos[o].size && (s.bos[o].backing.Some? ==> store == s.bos[o].backing.value)
    requires t == s.(bos := s.bos[o := Mapped(s, o, write, store)])
    ensures Coherent(t, o) && NoClash(t, o) && MappedShows(s, t, o)
  {
    assert Coherent(s, o) == true;
    HasBlockOf(s, o);
    assert HasBlock(s, o) == HasBlock(t, o);
    assert HasBlock(s, o) ==> CardCopy(s, o) == CardCopy(t, o);
  }

  function Overwrite(c: seq<Byte>, offset: nat, data: seq<Byte>): (d: seq<Byte>)
    requires offset + |data| <= |c|
    ensures |d| == |c|
  {
    c[..offset] + data + c[offset + |data|..]
  }

  /** A CPU store through the mapping of a dirty buffer changes exactly its contents. */
  lemma StoreContents(s: State, o: BoId, data: seq<Byte>, t: State)
    requires Inv(s) && o in s.bos && s.bos[o].dirty && s.bos[o].written && !s.bos[o].noBacking
    requires |data| == s.bos[o].size
    requires t == s.(bos := s.bos[o := s.bos[o].(backing := Some(data))])
    ensures Inv(t) && EvolvesBut(s, t, o) && Contents(t, o) == Some(data)
    ensures forall ex :: ClashOnly(s, ex) ==> ClashOnly(t, ex)
  {
    assert Coherent(s, o) == true;
    SetBo(s, o, t.bos[o], t);
    forall ex | ClashOnly(s, ex) ensures ClashOnly(t, ex) {
    }
  }

  /** What relocations and executions see of a buffer. */
  predicate SameHandle(a: Bo, b: Bo)
  {
    b.relocs == a.relocs && b.refcount == a.refcount && b.validated == a.validated && b.write == a.write
  }

  /** The outcome of mapping a buffer without backing store. */
  ghost predicate MappedOnCard(a: Bo, b: Bo, ret: int)
  {
    && b.mapCount == 1 && SameHandle(a, b) && b.noBacking && (ret == 0 || ret == 1)
    && (ret == 0 ==> b.block.Some? && b.virt == Card && !b.dirty)
    && (ret != 0 ==> b.block.None? && b.virt == a.virt)
  }

  /** Fields that say nothing about where the contents are. */
  lemma FlagsContents(s: State, o: BoId, x: Bo, t: State)
    requires Inv(s) && o in s.bos
    requires x == s.bos[o].(mapCount := x.mapCount, virt := x.virt, refcount := x.refcount, relocs := x.relocs,
                            write := x.write, validated := x.validated, offset := x.offset)
    requires t == s.(bos := s.bos[o := x], fail := t.fail)
    ensures Inv(t) && EvolvesBut(s, t, o) && Contents(t, o) == Contents(s, o)
    ensures forall ex :: ClashOnly(s, ex) ==> ClashOnly(t, ex)
    ensures NoClash(s, o) ==> NoClash(t, o)
  {
    FlagsOwn(s, o, x, t);
    SetBo(s, o, x, t);
    forall ex | ClashOnly(s, ex) ensures ClashOnly(t, ex) {
    }
  }

  lemma FlagsOwn(s: State, o: BoId, x: Bo, t: State)
    requires AllCoherent(s) && o in s.bos && t == s.(bos := s.bos[o := x], fail := t.fail)
    requires x == s.bos[o].(mapCount := x.mapCount, virt := x.virt, refcount := x.refcount, relocs := x.relocs,
                            write := x.write, validated := x.validated, offset := x.offset)
    ensures Coherent(t, o) && Contents(t, o) == Contents(s, o) && (NoClash(s, o) ==> NoClash(t, o))
  {
    assert Coherent(s, o) == true;
    assert HasBlock(s, o) == HasBlock(t, o);
    assert HasBlock(s, o) ==> CardCopy(s, o) == CardCopy(t, o);
  }

  lemma FencedEmission(s: State, b: BlockId)
    requires Struct(s) && b in s.blocks && s.blocks[b].fenced
    ensures s.blocks[b].emission >= 1
  {
    assert b in s.fenced;
  }

  lemma HasBlockOf(s: State, o: BoId)
    requires Inv(s) && o in s.bos
    ensures HasBlock(s, o) == s.bos[o].block.Some?
    ensures s.bos[o].backing.Some? ==> |s.bos[o].backing.value| == s.bos[o].size
  {
    assert Coherent(s, o) == true;
    if s.bos[o].block.Some? {
      BlockInCard(s, s.bos[o].block.value);
    }
  }

  /** The mapping, with a wait in between, adds up. */
  lemma MapBackingDone(s: State, mid: State, t: State, o: BoId, write: bool, store: seq<Byte>)
    requires Inv(s) && ClashOnly(s, {}) && o in s.bos && !s.bos[o].noBacking && s.bos[o].mapCount == 0
    requires Inv(mid) && Evolves(s, mid) && mid.bos == s.bos && Contents(mid, o) == Contents(s, o)
    requires |store| == s.bos[o].size && (s.bos[o].backing.Some? ==> store == s.bos[o].backing.value)
    requires t == mid.(bos := mid.bos[o := Mapped(mid, o, write, store)])
    ensures Inv(t) && ClashOnly(t, {}) == true && EvolvesBut(s, t, o) && MappedShows(s, t, o)
    ensures MappedFields(s.bos[o], t.bos[o], write) == true
  {
    SameBosClash(s, mid, {});
    assert NoClash(mid, o);
    MappedContents(mid, o, write, store, t);
    EvolvesThenBut(s, mid, t, o);
    MappedRecord(mid, o, write, store);
    ShowsThrough(s, mid, t, o);
  }

  lemma MappedRecord(s: State, o: BoId, write: bool, store: seq<Byte>)
    requires o in s.bos
    ensures MappedFields(s.bos[o], Mapped(s, o, write, store), write)
  {
  }

  lemma ShowsThrough(s: State, mid: State, t: State, o: BoId)
    requires o in s.bos && o in mid.bos && o in t.bos && Contents(mid, o) == Contents(s, o) && MappedShows(mid, t, o)
    ensures MappedShows(s, t, o)
  {
  }

  /** What bo_map changes in the record of a backing-store buffer. */
  ghost predicate MappedFields(a: Bo, b: Bo, write: bool)
  {
    b == a.(mapCount := a.mapCount + 1, virt := Backing, dirty := a.dirty || write, written := a.written || write,
            backing := b.backing, cardDirty := b.cardDirty)
    && (b.cardDirty ==> a.cardDirty)
  }

  /** Flags of a buffer that has no backing store. */
  lemma CardFlags(s: State, o: BoId, x: Bo, t: State)
    requires Inv(s) && o in s.bos && s.bos[o].noBacking
    requires x == s.bos[o].(mapCount := x.mapCount, virt := x.virt, dirty := x.dirty)
    requires t == s.(bos := s.bos[o := x])
    ensures Inv(t) && EvolvesBut(s, t, o)
    ensures forall ex :: ClashOnly(s, ex) ==> ClashOnly(t, ex)
  {
    assert Coherent(s, o) == true;
    SetBo(s, o, x, t);
  }

  lemma SameRoom(s: State, t: State, a: Bo, b: Bo)
    requires t.lo == s.lo && |t.card| == |s.card| && t.onHw == s.onHw && t.blocks == s.blocks
    requires a.size == b.size && a.align2 == b.align2
    ensures AllHwBlocked(s, a) <==> AllHwBlocked(t, b)
  {
    assert CardSize(a) == CardSize(b);
    assert forall start :: HwBlocked(t, start, CardSize(a)) == HwBlocked(s, start, CardSize(a));
  }

  lemma ClashOne(s: State, o: BoId)
    requires ClashOnly(s, {})
    ensures ClashOnly(s, {o})
  {
  }

  /** A buffer without backing store never clashes. */
  lemma ClashNone(s: State, o: BoId)
    requires ClashOnly(s, {o}) && o in s.bos && (s.bos[o].noBacking || s.bos[o].block.None?) && AllCoherent(s)
    ensures ClashOnly(s, {})
  {
    assert Coherent(s, o) == true;
  }

  lemma FailOnly(s: State, t: State)
    requires Inv(s) && t == s.(fail := t.fail)
    ensures Inv(t)
    ensures forall ex :: ClashOnly(s, ex) ==> ClashOnly(t, ex)
    ensures forall o :: o in s.bos ==> BoEvolves(s, t, o)
  {
    BosOnlyOk(s, t);
    ReflagSelf(s, t);
    BlocksFrame(s, t);
  }

  lemma ButThenFail(s: State, t: State, u: State, o: BoId)
    requires EvolvesBut(s, t, o) && u == t.(fail := u.fail)
    ensures EvolvesBut(s, u, o)
  {
    forall x | x in s.bos && x != o ensures BoEvolves(s, u, x) {
      assert BoEvolves(s, t, x);
      assert Contents(u, x) == Contents(t, x) by { assert HasBlock(u, x) == HasBlock(t, x); }
    }
  }

  /** The record of a buffer after one unmap. */
  function OneUnmapped(bo: Bo): Bo
    requires bo.mapCount > 0
  {
    bo.(mapCount := bo.mapCount - 1, virt := if bo.mapCount == 1 then Unmapped else bo.virt)
  }

  /** A nested mapping does not look at its own flag. */
  ghost predicate MappedDeeper(a: Bo, b: Bo, first: bool)
  {
    && b == a.(mapCount := a.mapCount + 2, virt := Backing, dirty := a.dirty || first, written := a.written || first,
               backing := b.backing, cardDirty := b.cardDirty)
    && (b.cardDirty ==> a.cardDirty)
  }

  /** A store and two unmappings after two mappings. */
  lemma NestedSteps(s: State, s2: State, t: State, o: BoId, first: bool, data: seq<Byte>)
    requires o in s.bos && o in s2.bos && s.bos[o].mapCount == 0
    requires MappedDeeper(s.bos[o], s2.bos[o], first) && KeepsCopy(s, s2, o)
    requires t == s2.(bos := s2.bos[o := OneUnmapped(OneUnmapped(s2.bos[o].(backing := Some(data))))])
    ensures o in t.bos && NestedRecord(s.bos[o], t.bos[o], first, data) && KeepsCopy(s, t, o)
  {
    MappedCopy(s2, t, o);
  }

  /** The record of a buffer after that. */
  ghost predicate NestedRecord(a: Bo, b: Bo, first: bool, data: seq<Byte>)
  {
    && b == a.(virt := Unmapped, dirty := a.dirty || first, written := a.written || first, backing := Some(data),
               cardDirty := b.cardDirty)
    && (b.cardDirty ==> a.cardDirty)
  }
}
