/** Relocations: what a relocation slot holds, and when a buffer is in place for execution. */
module FakeReloc {
  import opened MmLayout
  import opened FakeState
  import opened FakeSteps
  import opened FakeContents
  import opened FakePlacement

  /** The four bytes of a 32-bit word, as the card reads them. */
  function LeBytes(w: int): (b: seq<Byte>)
    ensures |b| == 4
  {
    [w % 256, w / 256 % 256, w / 65536 % 256, w / 16777216 % 256]
  }

  function Slot(c: seq<Byte>, offset: nat): (b: seq<Byte>)
    requires offset + 4 <= |c|
    ensures |b| == 4
  {
    c[offset..offset + 4]
  }

  function PutWord(c: seq<Byte>, offset: nat, w: int): (d: seq<Byte>)
    requires offset + 4 <= |c|
    ensures |d| == |c|
  {
    c[..offset] + LeBytes(w) + c[offset + 4..]
  }

  lemma PutWordSlots(c: seq<Byte>, offset: nat, w: int, other: nat)
    requires offset + 4 <= |c| && other + 4 <= |c|
    ensures Slot(PutWord(c, offset, w), offset) == LeBytes(w)
    ensures other + 4 <= offset || offset + 4 <= other ==> Slot(PutWord(c, offset, w), other) == Slot(c, other)
  {
    var d := PutWord(c, offset, w);
    assert Slot(d, offset) == LeBytes(w);
    if other + 4 <= offset || offset + 4 <= other {
      assert Slot(d, other) == Slot(c, other);
    }
  }

  predicate Apart(a: Reloc, b: Reloc)
  {
    a.offset + 4 <= b.offset || b.offset + 4 <= a.offset
  }

  /** The slot of a relocation holds the address it was last given. */
  ghost predicate SlotOk(c: seq<Byte>, r: Reloc)
  {
    r.offset + 4 <= |c| && Slot(c, r.offset) == LeBytes(r.last + r.delta)
  }

  ghost predicate RelocsOk(s: State, o: BoId)
    requires o in s.bos
  {
    var rs := s.bos[o].relocs;
    && (forall i :: 0 <= i < |rs| ==> rs[i].target in s.bos)
    && (forall i, j :: 0 <= i < j < |rs| ==> Apart(rs[i], rs[j]))
    && (rs != [] && !s.bos[o].noBacking ==> Contents(s, o).Some?)
    && (forall i :: 0 <= i < |rs| && !s.bos[o].noBacking ==> SlotOk(Contents(s, o).value, rs[i]) == true)
  }

  ghost predicate AllRelocs(s: State)
  {
    forall o :: o in s.bos ==> RelocsOk(s, o) == true
  }

  /** Every relocation of `o` points at a validated buffer and knows where it is. */
  ghost predicate TargetsReady(s: State, o: BoId, n: nat)
    requires o in s.bos && n <= |s.bos[o].relocs|
  {
    forall i :: 0 <= i < n ==>
      var r := s.bos[o].relocs[i];
      r.target in s.bos && s.bos[r.target].validated && r.last == s.bos[r.target].offset
  }

  /** Only a buffer with a backing store has relocations. */
  predicate Relocatable(bo: Bo)
  {
    bo.noBacking ==> bo.relocs == []
  }

  /** A validated buffer is on the hardware, uploaded, its relocations are up to
      date, and if the batch writes to it its card copy counts as the newer one. */
  ghost predicate Placed(s: State, o: BoId)
    requires o in s.bos
  {
    var bo := s.bos[o];
    bo.validated ==>
      && Relocatable(bo) && !bo.dirty && bo.mapCount == 0 && (bo.write ==> bo.cardDirty)
      && OnHardware(s, o) && bo.block.value in s.blocks && bo.offset == s.blocks[bo.block.value].ofs
      && TargetsReady(s, o, |bo.relocs|) == true
  }

  ghost predicate AllPlaced(s: State)
  {
    && (forall o :: o in s.bos ==> Placed(s, o) == true)
    && (forall b :: b in s.onHw && b in s.blocks ==>
        s.blocks[b].bo.Some? && s.blocks[b].bo.value in s.bos && s.bos[s.blocks[b].bo.value].validated)
  }

  /** What holds throughout the execution of a batch. */
  ghost predicate Running(s: State, ex: set<BoId>)
  {
    RunningFacts(s, ex) == true
  }

  ghost predicate RunningFacts(s: State, ex: set<BoId>)
  {
    Inv(s) == true && ClashOnly(s, ex) == true && AllRelocs(s) == true && AllPlaced(s) == true
  }

  /** The words in card memory of a buffer in place are the addresses of its targets. */
  lemma CardWords(s: State, o: BoId, i: nat)
    requires Running(s, {}) && o in s.bos && s.bos[o].validated && i < |s.bos[o].relocs|
    ensures var r := s.bos[o].relocs[i];
      && HasBlock(s, o) && r.offset + 4 <= s.bos[o].size
      && r.target in s.bos && s.bos[r.target].validated && HasBlock(s, r.target)
      && Slot(CardCopy(s, o), r.offset) == LeBytes(s.blocks[s.bos[r.target].block.value].ofs + r.delta)
  {
    var r := s.bos[o].relocs[i];
    assert Placed(s, o) && RelocsOk(s, o) && Coherent(s, o);
    assert Placed(s, r.target);
    assert SlotOk(Contents(s, o).value, r);
    PlacedHasBlock(s, o);
    PlacedHasBlock(s, r.target);
    assert Contents(s, o).value == CardCopy(s, o);
  }

  lemma PlacedHasBlock(s: State, o: BoId)
    requires Struct(s) && o in s.bos && s.bos[o].block.Some?
    ensures HasBlock(s, o)
  {
    BlockInCard(s, s.bos[o].block.value);
  }

  // ----- evictions and waits do not disturb relocations

  lemma EvolvesRelocs(s: State, t: State)
    requires Evolves(s, t) && AllRelocs(s)
    ensures AllRelocs(t)
  {
    forall o | o in t.bos ensures RelocsOk(t, o) {
      assert RelocsOk(s, o) && BoEvolves(s, t, o);
    }
  }

  lemma EvolvesPlaced(s: State, t: State)
    requires Evolves(s, t) && AllPlaced(s) && ListsOk(s)
    ensures AllPlaced(t)
  {
    forall o | o in t.bos ensures Placed(t, o) {
      assert Placed(s, o) && BoEvolves(s, t, o);
      if t.bos[o].validated {
        EvolvesTargets(s, t, o);
      }
    }
    forall b | b in t.onHw && b in t.blocks
      ensures t.blocks[b].bo.Some? && t.blocks[b].bo.value in t.bos && t.bos[t.blocks[b].bo.value].validated
    {
      EvolvesHw(s, t, b);
    }
  }

  lemma EvolvesHw(s: State, t: State, b: BlockId)
    requires Evolves(s, t) && AllPlaced(s) && b in t.onHw && b in t.blocks && b in s.blocks
    ensures t.blocks[b].bo.Some? && t.blocks[b].bo.value in t.bos && t.bos[t.blocks[b].bo.value].validated
  {
    assert BoEvolves(s, t, s.blocks[b].bo.value);
  }

  lemma EvolvesTargets(s: State, t: State, o: BoId)
    requires Evolves(s, t) && o in s.bos && o in t.bos && t.bos[o] == s.bos[o] && TargetsReady(s, o, |s.bos[o].relocs|)
    ensures TargetsReady(t, o, |t.bos[o].relocs|)
  {
    forall i | 0 <= i < |t.bos[o].relocs|
      ensures var r := t.bos[o].relocs[i];
        r.target in t.bos && t.bos[r.target].validated
        && r.last == t.bos[r.target].offset
    {
      assert BoEvolves(s, t, s.bos[o].relocs[i].target);
    }
  }
}
