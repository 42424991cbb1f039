/** References to buffers: unreference_locked, and that nothing leaks. */
module FakeRefs {
  import opened MmLayout
  import opened MmTheorems
  import opened FakeState
  import opened FakeSteps
  import opened FakeContents
  import opened FakePlacement
  import opened FakeReloc
  import opened FakeExec
  import opened FakeSubmit
  import opened FakeDraw

  // ----- counting

  /** The relocations that refer to `x`. */
  ghost function Refs(s: State, x: BoId): set<(BoId, int)>
  {
    set y, i | y in s.bos && 0 <= i < |s.bos[y].relocs| && s.bos[y].relocs[i].target == x :: (y, i)
  }

  /** Every reference count is the number of relocations that refer to the
      buffer plus the references held outside, `ext`. */
  ghost predicate Counted(s: State, x: BoId, ext: multiset<BoId>)
    requires x in s.bos
  {
    s.bos[x].refcount == ext[x] + |Refs(s, x)| && s.bos[x].refcount > 0
  }

  ghost predicate RefsOk(s: State, ext: multiset<BoId>)
  {
    && (forall x :: x in s.bos ==> Counted(s, x, ext) == true)
    && (forall x :: x in ext ==> x in s.bos)
  }

  function TargetsOf(rs: seq<Reloc>): (ts: seq<BoId>)
    ensures |ts| == |rs| && forall i :: 0 <= i < |rs| ==> ts[i] == rs[i].target
  {
    seq(|rs|, i requires 0 <= i < |rs| => rs[i].target)
  }

  ghost function Uses(rs: seq<Reloc>, o: BoId, x: BoId): set<(BoId, int)>
  {
    set i | 0 <= i < |rs| && rs[i].target == x :: (o, i)
  }

  /** The references one buffer holds, as a set of relocations and as a multiset of targets. */
  lemma {:induction false} UsesCount(rs: seq<Reloc>, o: BoId, x: BoId)
    ensures |Uses(rs, o, x)| == multiset(TargetsOf(rs))[x]
    decreases |rs|
  {
    if rs == [] {
      assert Uses(rs, o, x) == {};
    } else {
      var n := |rs| - 1;
      UsesCount(rs[..n], o, x);
      assert TargetsOf(rs) == TargetsOf(rs[..n]) + [rs[n].target];
      if rs[n].target == x {
        assert Uses(rs, o, x) == Uses(rs[..n], o, x) + {(o, n)};
      } else {
        assert Uses(rs, o, x) == Uses(rs[..n], o, x);
      }
    }
  }

  // ----- freeing a buffer

  /** The state without buffer `o`: its block is free, or unowned until its fence passes. */
  function Gone(s: State, o: BoId): State
    requires o in s.bos && (s.bos[o].block.Some? ==> s.bos[o].block.value in s.blocks)
  {
    if s.bos[o].block.None? then s.(bos := s.bos - {o})
    else
      var b := s.bos[o].block.value;
      if s.blocks[b].onHardware || s.blocks[b].fenced then
        s.(blocks := s.blocks[b := s.blocks[b].(bo := None)], bos := s.bos - {o})
      else Drop(s, b).(bos := s.bos - {o})
  }

  lemma UnplacedOk(s: State, o: BoId)
    requires Struct(s) && o in s.bos && s.bos[o].block.None?
    ensures Struct(s.(bos := s.bos - {o}))
  {
    var t := s.(bos := s.bos - {o});
    SameHeapBlocks(s, t);
    assert ListsOk(t);
    assert FencesOk(t);
    assert OwnersOk(t);
  }

  lemma GoneOk(s: State, o: BoId)
    requires Struct(s) && o in s.bos && s.onHw == []
    ensures Struct(Gone(s, o))
  {
    var t := Gone(s, o);
    if s.bos[o].block.None? {
      UnplacedOk(s, o);
    } else {
      var b := s.bos[o].block.value;
      assert s.blocks[b].bo == Some(o) && b !in s.onHw;
      if s.blocks[b].fenced {
        DisownOk(s, o, b, t);
      } else {
        DropOk(s, b, t);
      }
    }
  }

  lemma DisownOk(s: State, o: BoId, b: BlockId, t: State)
    requires Struct(s) && o in s.bos && b in s.blocks && s.blocks[b].bo == Some(o) && s.blocks[b].fenced
    requires t == s.(blocks := s.blocks[b := s.blocks[b].(bo := None)], bos := s.bos - {o})
    ensures Struct(t)
  {
    assert t.blocks.Keys == s.blocks.Keys;
    SameHeapBlocks(s, t);
    DisownLists(s, b, t);
    DisownOwners(s, o, b, t);
  }

  lemma DisownLists(s: State, b: BlockId, t: State)
    requires ListsOk(s) && FencesOk(s) && b in s.blocks
    requires t == s.(blocks := s.blocks[b := s.blocks[b].(bo := None)], bos := t.bos)
    ensures ListsOk(t) && FencesOk(t)
  {
  }

  lemma DisownOwners(s: State, o: BoId, b: BlockId, t: State)
    requires OwnersOk(s) && o in s.bos && b in s.blocks && s.blocks[b].bo == Some(o) && s.blocks[b].fenced
    requires t == s.(blocks := s.blocks[b := s.blocks[b].(bo := None)], bos := s.bos - {o})
    ensures OwnersOk(t)
  {
  }

  lemma GonePlaces(s: State, o: BoId, x: BoId)
    requires OwnersOk(s) && o in s.bos && x in s.bos && x != o
    ensures SamePlace(s, Gone(s, o), x)
  {
    if s.bos[x].block.Some? {
      assert s.blocks[s.bos[x].block.value].bo == Some(x);
    }
  }

  /** What remains keeps its contents and its place. */
  lemma GoneOthers(s: State, o: BoId, x: BoId)
    requires OwnersOk(s) && o in s.bos && x in s.bos && x != o && Coherent(s, x) && NoClash(s, x)
    ensures var t := Gone(s, o);
      x in t.bos && t.bos[x] == s.bos[x] && Coherent(t, x) && NoClash(t, x) && Contents(t, x) == Contents(s, x)
  {
    GonePlaces(s, o, x);
    BoSteady(s, Gone(s, o), x);
  }

  lemma GoneRelocs(s: State, o: BoId, x: BoId)
    requires OwnersOk(s) && o in s.bos && x in s.bos && x != o && RelocsOk(s, x) && Refs(s, o) == {}
    requires Gone(s, o).bos == s.bos - {o} && Contents(Gone(s, o), x) == Contents(s, x)
    ensures RelocsOk(Gone(s, o), x)
  {
    var t := Gone(s, o);
    forall i | 0 <= i < |s.bos[x].relocs| ensures s.bos[x].relocs[i].target in t.bos {
      assert (x, i) !in Refs(s, o);
    }
  }

  /** A buffer that is left is in order and unchanged. */
  ghost predicate BoLeft(s: State, t: State, x: BoId)
    requires x in s.bos && x in t.bos
  {
    t.bos[x] == s.bos[x] && Coherent(t, x) && NoClash(t, x) && RelocsOk(t, x) && Contents(t, x) == Contents(s, x)
  }

  lemma GoneBos(s: State, t: State, o: BoId)
    requires OwnersOk(s) && AllCoherent(s) && ClashOnly(s, {}) && AllRelocs(s) && o in s.bos && Refs(s, o) == {}
    requires t == Gone(s, o) && t.bos == s.bos - {o}
    ensures forall x :: x in t.bos ==> BoLeft(s, t, x) == true
  {
    forall x | x in t.bos ensures BoLeft(s, t, x) == true {
      assert Coherent(s, x) == true && NoClash(s, x) && RelocsOk(s, x) == true;
      GoneOthers(s, o, x);
      GoneRelocs(s, o, x);
    }
  }

  /** Freeing a buffer nothing refers to keeps the manager quiet. */
  lemma GoneQuiet(s: State, o: BoId)
    requires Quiet(s) && o in s.bos && Refs(s, o) == {}
    ensures Quiet(Gone(s, o)) && Released(s, Gone(s, o))
  {
    HwEmpty(s);
    GoneOk(s, o);
    GoneLists(s, o);
    GoneBos(s, Gone(s, o), o);
    LeftQuiet(s, Gone(s, o));
  }

  lemma LeftQuiet(s: State, t: State)
    requires Struct(t) && t.onHw == [] && Idle(s) && t.bos.Keys <= s.bos.Keys
    requires t.lo == s.lo && t.card == s.card && t.issued == s.issued
    requires forall x :: x in t.bos ==> BoLeft(s, t, x) == true
    ensures Quiet(t) && Released(s, t)
  {
    LeftIdle(s, t);
    IdleQuiet(t);
  }

  lemma LeftIdle(s: State, t: State)
    requires Idle(s) && t.bos.Keys <= s.bos.Keys && forall x :: x in t.bos ==> BoLeft(s, t, x) == true
    ensures Idle(t)
    ensures forall x :: x in t.bos ==> Coherent(t, x) == true && NoClash(t, x) && RelocsOk(t, x) == true
    ensures forall x :: x in t.bos ==>
      t.bos[x] == s.bos[x].(refcount := t.bos[x].refcount) && Contents(t, x) == Contents(s, x)
  {
  }

  /** With nothing validated there is nothing to say about placement. */
  lemma IdleQuiet(t: State)
    requires Struct(t) && t.onHw == [] && Idle(t)
    requires forall x :: x in t.bos ==> Coherent(t, x) == true && NoClash(t, x) && RelocsOk(t, x) == true
    ensures Quiet(t)
  {
    assert AllPlaced(t);
  }

  lemma GoneLists(s: State, o: BoId)
    requires OwnersOk(s) && o in s.bos && s.onHw == []
    ensures var t := Gone(s, o);
      t.onHw == [] && t.bos == s.bos - {o} && t.lo == s.lo && t.card == s.card && t.issued == s.issued
  {
  }

  /** The buffers that are left are as they were, up to their reference counts. */
  ghost predicate Released(s: State, t: State)
  {
    ReleasedFacts(s, t) == true
  }

  ghost predicate ReleasedFacts(s: State, t: State)
  {
    && t.lo == s.lo && t.card == s.card && t.issued == s.issued && t.bos.Keys <= s.bos.Keys
    && (forall x :: x in t.bos ==>
      t.bos[x] == s.bos[x].(refcount := t.bos[x].refcount) && Contents(t, x) == Contents(s, x))
  }

  lemma ReleasedTrans(s: State, t: State, u: State)
    requires Released(s, t) && Released(t, u)
    ensures Released(s, u)
  {
  }

  // ----- the count is kept

  lemma DropOneRef(s: State, t: State, o: BoId, ext: multiset<BoId>)
    requires RefsOk(s, ext) && o in ext && s.bos[o].refcount > 1
    requires t == s.(bos := s.bos[o := s.bos[o].(refcount := s.bos[o].refcount - 1)])
    ensures RefsOk(t, ext - multiset{o})
  {
    forall x | x in t.bos ensures Counted(t, x, ext - multiset{o}) == true {
      assert Counted(s, x, ext) == true;
      assert Refs(t, x) == Refs(s, x);
    }
  }

  lemma LastRef(s: State, o: BoId, ext: multiset<BoId>)
    requires RefsOk(s, ext) && o in ext && s.bos[o].refcount == 1
    ensures Refs(s, o) == {} && ext[o] == 1
  {
    assert Counted(s, o, ext) == true;
  }

  /** When a buffer goes, its references pass to whoever releases them. */
  lemma GoneCounted(s: State, t: State, o: BoId, ext: multiset<BoId>, x: BoId)
    requires o in s.bos && t.bos == s.bos - {o} && x in t.bos && Counted(s, x, ext)
    ensures Counted(t, x, ext - multiset{o} + multiset(TargetsOf(s.bos[o].relocs)))
  {
    var rs := s.bos[o].relocs;
    UsesCount(rs, o, x);
    assert Refs(s, x) == Refs(t, x) + Uses(rs, o, x);
    assert Refs(t, x) !! Uses(rs, o, x);
  }

  lemma GoneRefs(s: State, t: State, o: BoId, ext: multiset<BoId>)
    requires o in s.bos && t.bos == s.bos - {o} && RefsOk(s, ext) && ext[o] == 1 && RelocsOk(s, o) && Refs(s, o) == {}
    ensures RefsOk(t, ext - multiset{o} + multiset(TargetsOf(s.bos[o].relocs)))
  {
    var rs := s.bos[o].relocs;
    var ext2 := ext - multiset{o} + multiset(TargetsOf(rs));
    forall x | x in t.bos ensures Counted(t, x, ext2) == true {
      assert Counted(s, x, ext) == true;
      GoneCounted(s, t, o, ext, x);
    }
    forall x | x in ext2 ensures x in t.bos {
      if x in TargetsOf(rs) {
        var i :| 0 <= i < |rs| && TargetsOf(rs)[i] == x;
        assert (o, i) !in Refs(s, o);
      }
    }
  }

  /** One of the references of a freed buffer, then the rest. */
  lemma NextRef(ts: seq<BoId>, i: nat)
    requires i < |ts|
    ensures multiset(ts[i..]) == multiset{ts[i]} + multiset(ts[i + 1..])
  {
    assert ts[i..] == [ts[i]] + ts[i + 1..];
  }

  // ----- no leak

  /** Relocations go down in rank. */
  ghost predicate Acyclic(s: State, rank: BoId -> nat)
  {
    forall y, i :: y in s.bos && 0 <= i < |s.bos[y].relocs| ==> rank(s.bos[y].relocs[i].target) < rank(y)
  }

  lemma {:induction false} HighestRank(bos: set<BoId>, rank: BoId -> nat) returns (x: BoId)
    requires bos != {}
    ensures x in bos && forall y :: y in bos ==> rank(y) <= rank(x)
  {
    var y :| y in bos;
    if bos == {y} {
      x := y;
    } else {
      x := HighestRank(bos - {y}, rank);
      if rank(x) < rank(y) {
        x := y;
      }
      assert bos == (bos - {y}) + {y};
    }
  }

  /** A buffer that is only referred to by relocations is below another one. */
  lemma HasReferrer(s: State, x: BoId, rank: BoId -> nat)
    requires x in s.bos && Counted(s, x, multiset{}) && Acyclic(s, rank)
    ensures exists y :: y in s.bos && rank(x) < rank(y)
  {
    assert Refs(s, x) != {};
    var p :| p in Refs(s, x);
    assert p.0 in s.bos && s.bos[p.0].relocs[p.1].target == x;
  }

  /** Once every outside reference is dropped, every buffer is gone. */
  lemma NoBufferLeaks(s: State, rank: BoId -> nat)
    requires RefsOk(s, multiset{}) && Acyclic(s, rank)
    ensures s.bos == map[]
  {
    if s.bos.Keys != {} {
      var x := HighestRank(s.bos.Keys, rank);
      HasReferrer(s, x, rank);
    }
  }

  lemma UsedIsOwned(s: State, c: Cell)
    requires BlocksOk(s) && UsedIn(s.heap, c)
    ensures exists b :: b in s.blocks
  {
    assert Owned(s, c);
  }

  /** Without buffers and pending fences the aperture is one free range again. */
  lemma NoBlockLeaks(s: State)
    requires Struct(s) && s.bos == map[] && s.fenced == []
    ensures s.blocks == map[] && s.heap == Init(s.lo, |s.card|)
  {
    assert forall b :: b in s.blocks ==> s.blocks[b].bo.None? && s.blocks[b].fenced;
    assert s.blocks == map[];
    forall c ensures !UsedIn(s.heap, c) {
      if UsedIn(s.heap, c) {
        UsedIsOwned(s, c);
      }
    }
    EmptyIsInit(s.heap, s.lo, s.Hi());
  }
}
