/** bo_validate: uploading a buffer and putting its block on the hardware. */
module FakeValidate {
  import opened MmLayout
  import opened FakeState
  import opened FakeSteps
  import opened FakeContents
  import opened FakePlacement
  import opened FakeMapping
  import opened FakeReloc
  import opened FakeAdvance

  /** The code that stands for the assertion of bo_validate. */
  const ABORT: int := -2

  // ----- upload

  /** The buffer after its upload: `data` is in card memory and the buffer is clean. */
  function Uploaded(s: State, o: BoId, data: seq<Byte>): State
    requires o in s.bos && HasBlock(s, o) && |data| == s.bos[o].size
  {
    Upload(s, s.blocks[s.bos[o].block.value].ofs, data).(bos := s.bos[o := s.bos[o].(dirty := false)])
  }

  /** Two buffers on the card lie apart. */
  lemma CopiesApart(s: State, o: BoId, x: BoId)
    requires Struct(s) && o in s.bos && x in s.bos && x != o && HasBlock(s, o) && HasBlock(s, x)
    ensures var b, c := s.blocks[s.bos[o].block.value], s.blocks[s.bos[x].block.value];
      b.ofs + s.bos[o].size <= c.ofs || c.ofs + s.bos[x].size <= b.ofs
  {
    var b, c := s.bos[o].block.value, s.bos[x].block.value;
    assert s.blocks[b].bo == Some(o) && s.blocks[c].bo == Some(x);
    BlocksDisjoint(s, b, c);
  }

  /** Uploading one buffer does not touch the card memory of another. */
  lemma UploadOthers(s: State, o: BoId, data: seq<Byte>, x: BoId)
    requires o in s.bos && HasBlock(s, o) && |data| == s.bos[o].size && x in s.bos && x != o
    requires HasBlock(s, x) ==>
      var b, c := s.blocks[s.bos[o].block.value], s.blocks[s.bos[x].block.value];
      b.ofs + s.bos[o].size <= c.ofs || c.ofs + s.bos[x].size <= b.ofs
    ensures HasBlock(Uploaded(s, o, data), x) == HasBlock(s, x)
    ensures HasBlock(s, x) ==> CardCopy(Uploaded(s, o, data), x) == CardCopy(s, x)
  {
    if HasBlock(s, x) {
      UploadWindow(s, s.blocks[s.bos[o].block.value].ofs, data, s.blocks[s.bos[x].block.value].ofs, s.bos[x].size);
    }
  }

  lemma UploadOtherBo(s: State, o: BoId, data: seq<Byte>, x: BoId)
    requires Inv(s) && o in s.bos && HasBlock(s, o) && |data| == s.bos[o].size && x in s.bos && x != o
    ensures BoEvolves(s, Uploaded(s, o, data), x) && Coherent(Uploaded(s, o, data), x)
    ensures NoClash(s, x) ==> NoClash(Uploaded(s, o, data), x)
  {
    if HasBlock(s, x) {
      CopiesApart(s, o, x);
    }
    UploadOthers(s, o, data, x);
    assert Coherent(s, x) == true;
  }

  /** The upload of a dirty buffer keeps its contents and makes it clean. */
  lemma UploadOwn(s: State, o: BoId, data: seq<Byte>)
    requires Inv(s) && o in s.bos && HasBlock(s, o) && s.bos[o].dirty && |data| == s.bos[o].size
    requires s.bos[o].backing.Some? ==> data == s.bos[o].backing.value
    ensures var t := Uploaded(s, o, data);
      && HasBlock(t, o) && CardCopy(t, o) == data && Coherent(t, o) && NoClash(t, o)
      && (Contents(s, o).Some? ==> Contents(t, o) == Contents(s, o))
  {
    assert Coherent(s, o) == true;
    UploadWindow(s, s.blocks[s.bos[o].block.value].ofs, data, s.lo, 0);
  }

  lemma UploadAll(s: State, o: BoId, data: seq<Byte>, t: State)
    requires Inv(s) && o in s.bos && HasBlock(s, o) && |data| == s.bos[o].size && t == Uploaded(s, o, data)
    requires Coherent(t, o) && NoClash(t, o) && ClashOnly(s, {o})
    ensures AllCoherent(t) && ClashOnly(t, {}) == true && EvolvesBut(s, t, o)
  {
    forall x | x in s.bos && x != o
      ensures BoEvolves(s, t, x) == true && Coherent(t, x) == true && (NoClash(s, x) ==> NoClash(t, x))
    {
      UploadOtherBo(s, o, data, x);
    }
    assert EvolvesButFacts(s, t, o);
  }

  lemma UploadInv(s: State, o: BoId, data: seq<Byte>)
    requires Inv(s) && ClashOnly(s, {o}) && o in s.bos && HasBlock(s, o) && s.bos[o].dirty && |data| == s.bos[o].size
    requires s.bos[o].backing.Some? ==> data == s.bos[o].backing.value
    ensures var t := Uploaded(s, o, data);
      && Inv(t) && ClashOnly(t, {}) && EvolvesBut(s, t, o)
      && (Contents(s, o).Some? ==> Contents(t, o) == Contents(s, o))
  {
    BosOnlyOk(s, Uploaded(s, o, data));
    UploadOwn(s, o, data);
    UploadAll(s, o, data, Uploaded(s, o, data));
  }

  /** The card has the bytes of the backing store. */
  ghost predicate InStep(s: State, o: BoId)
    requires o in s.bos
  {
    HasBlock(s, o) && (s.bos[o].backing.Some? ==> CardCopy(s, o) == s.bos[o].backing.value)
  }

  function ToUpload(bo: Bo): (data: seq<Byte>)
    requires bo.backing.Some? ==> |bo.backing.value| == bo.size
    ensures |data| == bo.size
  {
    if bo.backing.Some? then bo.backing.value else seq(bo.size, _ => 0)
  }

  lemma UploadCopies(s: State, o: BoId)
    requires o in s.bos && HasBlock(s, o) && (s.bos[o].backing.Some? ==> |s.bos[o].backing.value| == s.bos[o].size)
    ensures o in Uploaded(s, o, ToUpload(s.bos[o])).bos && InStep(Uploaded(s, o, ToUpload(s.bos[o])), o)
  {
    UploadWindow(s, s.blocks[s.bos[o].block.value].ofs, ToUpload(s.bos[o]), s.lo, 0);
  }

  // ----- on the hardware

  function InPlace(s: State, o: BoId): State
    requires o in s.bos && s.bos[o].block.Some? && s.bos[o].block.value in s.blocks
  {
    var bo := s.bos[o];
    ToHardware(s, bo.block.value).(bos := s.bos[o := bo.(validated := true, written := bo.written || bo.cardDirty)])
  }

  /** The block moves to the on_hardware list. */
  lemma HardwareInv(s: State, o: BoId, h: State)
    requires Inv(s) && ClashOnly(s, {}) && o in s.bos && s.bos[o].block.Some? && s.bos[o].block.value in s.blocks
    requires h == ToHardware(s, s.bos[o].block.value)
    ensures Inv(h) && ClashOnly(h, {}) == true && h.bos == s.bos
    ensures forall x :: x in s.bos ==> Contents(h, x) == Contents(s, x)
  {
    var b := s.bos[o].block.value;
    assert s.blocks[b].bo == Some(o);
    ToHardwareOk(s, b);
    ReflagPlaces(s, b, h.blocks[b], h);
    BlocksFrame(s, h);
    forall x | x in s.bos ensures Contents(h, x) == Contents(s, x) {
      assert BoEvolves(s, h, x);
    }
    assert ClashOnly(h, {});
  }

  lemma InPlaceInv(s: State, o: BoId)
    requires Inv(s) && ClashOnly(s, {}) && o in s.bos && s.bos[o].block.Some? && s.bos[o].block.value in s.blocks
    requires !s.bos[o].dirty
    ensures Inv(InPlace(s, o)) && ClashOnly(InPlace(s, o), {})
    ensures forall x :: x in s.bos && (x != o || Contents(s, x).Some?) ==> Contents(InPlace(s, o), x) == Contents(s, x)
  {
    var h := ToHardware(s, s.bos[o].block.value);
    HardwareInv(s, o, h);
    FlaggedInPlace(h, o, InPlace(s, o));
  }

  /** The buffer is flagged as validated. */
  lemma FlaggedInPlace(h: State, o: BoId, t: State)
    requires Inv(h) && ClashOnly(h, {}) && o in h.bos && h.bos[o].block.Some? && !h.bos[o].dirty
    requires t == h.(bos := h.bos[o := h.bos[o].(validated := true, written := h.bos[o].written || h.bos[o].cardDirty)])
    ensures Inv(t) && ClashOnly(t, {}) == true
    ensures forall x :: x in h.bos && (x != o || Contents(h, x).Some?) ==> Contents(t, x) == Contents(h, x)
  {
    HasBlockOf(h, o);
    assert Coherent(h, o) == true;
    InPlaceOwn(h, o, t);
    SetBo(h, o, t.bos[o], t);
    forall x | x in h.bos && x != o ensures Contents(t, x) == Contents(h, x) {
      assert BoEvolves(h, t, x) == true;
    }
  }

  lemma InPlaceOwn(h: State, o: BoId, t: State)
    requires o in h.bos && Coherent(h, o) && HasBlock(h, o) && !h.bos[o].dirty
    requires t == h.(bos := h.bos[o := h.bos[o].(validated := true, written := h.bos[o].written || h.bos[o].cardDirty)])
    ensures Coherent(t, o) && NoClash(t, o)
    ensures Contents(h, o).Some? ==> Contents(t, o) == Contents(h, o)
  {
    assert HasBlock(t, o) && CardCopy(t, o) == CardCopy(h, o);
  }

  /** Nothing but validated and the lists differ. */
  lemma InPlaceShape(s: State, o: BoId, x: BoId)
    requires o in s.bos && s.bos[o].block.Some? && s.bos[o].block.value in s.blocks && x in s.bos
    ensures InPlace(s, o).bos[x] ==
      if x == o then s.bos[o].(validated := true, written := s.bos[o].written || s.bos[o].cardDirty) else s.bos[x]
    ensures InPlace(s, o).bos.Keys == s.bos.Keys
  {
  }

  lemma InPlaceTargets(s: State, o: BoId, x: BoId, n: nat)
    requires o in s.bos && s.bos[o].block.Some? && s.bos[o].block.value in s.blocks && x in s.bos
    requires n <= |s.bos[x].relocs| && TargetsReady(s, x, n)
    ensures TargetsReady(InPlace(s, o), x, n)
  {
    InPlaceShape(s, o, x);
    forall i | 0 <= i < n
      ensures var r := InPlace(s, o).bos[x].relocs[i];
        r.target in InPlace(s, o).bos && InPlace(s, o).bos[r.target].validated
          && r.last == InPlace(s, o).bos[r.target].offset
    {
      InPlaceShape(s, o, s.bos[x].relocs[i].target);
    }
  }

  lemma InPlacePlaced(s: State, o: BoId, x: BoId)
    requires Struct(s) && AllPlaced(s) && o in s.bos && s.bos[o].block.Some? && x in s.bos
    requires s.bos[o].block.value in s.blocks && Relocatable(s.bos[o]) && !s.bos[o].dirty && s.bos[o].mapCount == 0
    requires s.bos[o].write ==> s.bos[o].cardDirty
    requires s.bos[o].offset == s.blocks[s.bos[o].block.value].ofs && TargetsReady(s, o, |s.bos[o].relocs|)
    ensures Placed(InPlace(s, o), x)
  {
    var t := InPlace(s, o);
    var b := s.bos[o].block.value;
    InPlaceShape(s, o, x);
    assert Placed(s, x) == true;
    if t.bos[x].validated {
      InPlaceTargets(s, o, x, |s.bos[x].relocs|);
      assert t.onHw == Without(s.onHw, b) + [b];
      assert OnHardware(t, x);
    }
  }

  lemma InPlaceHw(s: State, o: BoId, c: BlockId)
    requires Struct(s) && AllPlaced(s) && o in s.bos && s.bos[o].block.Some? && s.bos[o].block.value in s.blocks
    requires c in InPlace(s, o).onHw && c in InPlace(s, o).blocks
    ensures var t := InPlace(s, o);
      t.blocks[c].bo.Some? && t.blocks[c].bo.value in t.bos && t.bos[t.blocks[c].bo.value].validated
  {
    var b := s.bos[o].block.value;
    var t := InPlace(s, o);
    assert t.onHw == Without(s.onHw, b) + [b];
    assert s.blocks[b].bo == Some(o);
    if c != b {
      assert c in s.onHw && c in s.blocks;
      InPlaceShape(s, o, s.blocks[c].bo.value);
    } else {
      InPlaceShape(s, o, o);
    }
  }

  lemma InPlaceRelocs(s: State, t: State, o: BoId, x: BoId)
    requires o in s.bos && s.bos[o].block.Some? && s.bos[o].block.value in s.blocks && x in s.bos
    requires t == InPlace(s, o) && ((x != o || Contents(s, x).Some?) ==> Contents(t, x) == Contents(s, x))
    requires RelocsOk(s, x)
    ensures RelocsOk(t, x)
  {
    InPlaceShape(s, o, x);
  }

  lemma InPlaceAllRelocs(s: State, t: State, o: BoId)
    requires AllRelocs(s) && o in s.bos && s.bos[o].block.Some? && s.bos[o].block.value in s.blocks
    requires t == InPlace(s, o)
    requires forall x :: x in s.bos && (x != o || Contents(s, x).Some?) ==> Contents(t, x) == Contents(s, x)
    ensures AllRelocs(t)
  {
    InPlaceShape(s, o, o);
    forall x | x in t.bos ensures RelocsOk(t, x) == true {
      assert RelocsOk(s, x) == true;
      InPlaceRelocs(s, t, o, x);
    }
  }

  lemma InPlaceAllPlaced(s: State, t: State, o: BoId)
    requires Struct(s) && AllPlaced(s) && o in s.bos && s.bos[o].block.Some? && t == InPlace(s, o)
    requires s.bos[o].block.value in s.blocks && Relocatable(s.bos[o]) && !s.bos[o].dirty && s.bos[o].mapCount == 0
    requires s.bos[o].write ==> s.bos[o].cardDirty
    requires s.bos[o].offset == s.blocks[s.bos[o].block.value].ofs && TargetsReady(s, o, |s.bos[o].relocs|)
    ensures AllPlaced(t)
  {
    InPlaceShape(s, o, o);
    forall x | x in t.bos ensures Placed(t, x) == true {
      InPlacePlaced(s, o, x);
    }
    forall c | c in t.onHw && c in t.blocks
      ensures t.blocks[c].bo.Some? && t.blocks[c].bo.value in t.bos && t.bos[t.blocks[c].bo.value].validated
    {
      InPlaceHw(s, o, c);
    }
  }

  /** The end of bo_validate: the buffer is in place. */
  lemma InPlaceRunning(s: State, o: BoId)
    requires Running(s, {}) && o in s.bos && s.bos[o].block.Some? && !s.bos[o].validated
    requires s.bos[o].block.value in s.blocks && Relocatable(s.bos[o]) && !s.bos[o].dirty && s.bos[o].mapCount == 0
    requires s.bos[o].write ==> s.bos[o].cardDirty
    requires s.bos[o].offset == s.blocks[s.bos[o].block.value].ofs && TargetsReady(s, o, |s.bos[o].relocs|)
    ensures Running(InPlace(s, o), {})
  {
    InPlaceInv(s, o);
    InPlaceAllRelocs(s, InPlace(s, o), o);
    InPlaceAllPlaced(s, InPlace(s, o), o);
  }

  /** A buffer that is not validated is not on the hardware. */
  lemma NotOnHw(s: State, o: BoId)
    requires OwnersOk(s) && AllPlaced(s) && o in s.bos && !s.bos[o].validated
    ensures s.bos[o].block.Some? ==> s.bos[o].block.value !in s.onHw
    ensures !OnHardware(s, o)
  {
    if s.bos[o].block.Some? {
      assert s.blocks[s.bos[o].block.value].bo == Some(o);
    }
  }

  lemma InPlaceAdvance(s: State, o: BoId)
    requires Running(s, {}) && o in s.bos && s.bos[o].block.Some? && !s.bos[o].validated
    requires s.bos[o].block.value in s.blocks && !s.bos[o].dirty
    ensures Advance(s, InPlace(s, o), {o})
  {
    var t := InPlace(s, o);
    InPlaceInv(s, o);
    NotOnHw(s, o);
    InPlaceBos(s, t, o);
    InPlaceStays(s, o);
  }

  lemma InPlaceBos(s: State, t: State, o: BoId)
    requires o in s.bos && s.bos[o].block.Some? && s.bos[o].block.value in s.blocks && !s.bos[o].validated
    requires t == InPlace(s, o)
    requires forall x :: x in s.bos && (x != o || Contents(s, x).Some?) ==> Contents(t, x) == Contents(s, x)
    ensures t.bos.Keys == s.bos.Keys && forall x :: x in s.bos ==> BoAdvance(s, t, x, {o}) == true
  {
    InPlaceShape(s, o, o);
    forall x | x in s.bos ensures BoAdvance(s, t, x, {o}) == true {
      InPlaceBo(s, t, o, x);
    }
  }

  /** What is on the hardware stays. */
  lemma InPlaceStays(s: State, o: BoId)
    requires o in s.bos && s.bos[o].block.Some? && s.bos[o].block.value in s.blocks && s.bos[o].block.value !in s.onHw
    ensures var t := InPlace(s, o);
      && t.lo == s.lo && |t.card| == |s.card| && t.nextBo == s.nextBo && t.issued == s.issued
      && (forall b :: b in s.onHw && b in s.blocks ==> b in t.onHw && b in t.blocks && t.blocks[b] == s.blocks[b])
  {
    assert InPlace(s, o).onHw == Without(s.onHw, s.bos[o].block.value) + [s.bos[o].block.value];
  }

  lemma InPlaceBo(s: State, t: State, o: BoId, x: BoId)
    requires o in s.bos && s.bos[o].block.Some? && s.bos[o].block.value in s.blocks && x in s.bos && !s.bos[o].validated
    requires t == InPlace(s, o) && ((x != o || Contents(s, x).Some?) ==> Contents(t, x) == Contents(s, x))
    ensures BoAdvance(s, t, x, {o})
  {
    InPlaceShape(s, o, x);
    SlotsOnlySame(Contents(s, x), s.bos[x].relocs);
  }

  // ----- the pieces of bo_validate

  /** The buffer has a block and knows its address; it is dirty or in step with the card. */
  ghost predicate Located(s: State, o: BoId)
  {
    && o in s.bos && s.bos[o].block.Some? && s.bos[o].block.value in s.blocks
    && s.bos[o].offset == s.blocks[s.bos[o].block.value].ofs
  }

  /** Room has been made for `o`, or there is none. */
  ghost predicate RoomMade(s: State, t: State, o: BoId, ok: bool)
  {
    RoomMadeFacts(s, t, o, ok) == true
  }

  ghost predicate RoomMadeFacts(s: State, t: State, o: BoId, ok: bool)
  {
    && o in s.bos && o in t.bos && Inv(t) == true && ClashOnly(t, {o}) == true && EvolvesBut(s, t, o) == true
    && (ok ==> Evolves(s, t) == true && t.bos[o].block.Some? && t.bos[o] == s.bos[o].(block := t.bos[o].block))
    && (!ok ==> t.fail && t.bos[o] == s.bos[o] && t.lru == [] && t.fenced == [])
    && (!ok <==> s.bos[o].block.None? && AllHwBlocked(s, s.bos[o]))
  }

  lemma RoomKept(s: State, o: BoId)
    requires Inv(s) && ClashOnly(s, {o}) && o in s.bos && s.bos[o].block.Some?
    ensures RoomMade(s, s, o, true)
  {
    EvolvesSelf(s);
    EvolvesIsBut(s, s, o);
  }

  /** What bo_validate asks of a buffer. */
  ghost predicate CanValidate(s: State, o: BoId)
  {
    CanValidateFacts(s, o) == true
  }

  ghost predicate CanValidateFacts(s: State, o: BoId)
  {
    && Running(s, {o}) == true && o in s.bos && Relocatable(s.bos[o]) && !s.bos[o].validated && s.bos[o].mapCount == 0
    && TargetsReady(s, o, |s.bos[o].relocs|) == true && (s.bos[o].write ==> s.bos[o].cardDirty)
  }

  /** The buffer has card memory, and no newer bytes elsewhere that it knows of. */
  ghost predicate OnCard(s: State, o: BoId)
  {
    o in s.bos && !s.bos[o].dirty && HasBlock(s, o)
  }

  /** The buffer is in place with its contents, or nothing has been lost: there is no room for it,
      or it is dirty and has nothing to be uploaded from. */
  ghost predicate ValidateOutcome(s: State, t: State, o: BoId, ret: int)
  {
    ValidateFacts(s, t, o, ret) == true
  }

  ghost predicate ValidateFacts(s: State, t: State, o: BoId, ret: int)
  {
    && Running(t, {}) == true && Advance(s, t, {o}) == true && SameMaps(s, t, {}) == true
    && ValidateRecord(s, t, o, ret) == true
  }

  /** What becomes of the buffer itself. */
  ghost predicate ValidateRecord(s: State, t: State, o: BoId, ret: int)
  {
    && o in s.bos && o in t.bos && (ret == 0 || ret == -1 || ret == ABORT)
    && (ret == 0 ==> t.bos[o].validated && t.fail == s.fail)
    && (ret != 0 ==> !t.bos[o].validated && EvolvesBut(s, t, o) == true)
    && (ret == -1 ==> t.fail && t.bos[o] == s.bos[o])
    && (ret == -1 <==> s.bos[o].block.None? && AllHwBlocked(s, s.bos[o]))
    && (ret == ABORT <==> ret != -1 && s.bos[o].noBacking && s.bos[o].dirty)
    && (Contents(s, o).Some? ==> Contents(t, o) == Contents(s, o))
  }

  function Relocated1(s: State, o: BoId): State
    requires o in s.bos && s.bos[o].block.Some? && s.bos[o].block.value in s.blocks
  {
    s.(bos := s.bos[o := s.bos[o].(offset := s.blocks[s.bos[o].block.value].ofs)])
  }

  lemma NoRoom(s: State, t: State, o: BoId)
    requires CanValidate(s, o) && RoomMade(s, t, o, false)
    ensures ValidateOutcome(s, t, o, -1)
  {
    FailedRunning(s, t, o);
  }

  /** The buffer has its block and knows where it is. */
  lemma NowLocated(s: State, s1: State, o: BoId)
    requires CanValidate(s, o) && RoomMade(s, s1, o, true)
    ensures o in s1.bos && s1.bos[o].block.Some? && s1.bos[o].block.value in s1.blocks
    ensures var s2 := Relocated1(s1, o);
      Running(s2, {o}) && Located(s2, o) && EvolvesBut(s1, s2, o) && Contents(s2, o) == Contents(s1, o)
  {
    EvolvesRunning(s, s1, {o}, {o});
    LocateRunning(s1, o, Relocated1(s1, o));
  }

  /** The buffer has a block and its own record is otherwise the same. */
  lemma LocatedBut(s: State, s1: State, o: BoId)
    requires CanValidate(s, o) && RoomMade(s, s1, o, true) && s1.bos[o].block.value in s1.blocks
    ensures var t := Relocated1(s1, o);
      && EvolvesBut(s, t, o) && t.fail == s.fail
      && t.bos[o] == s.bos[o].(block := t.bos[o].block, offset := t.bos[o].offset)
  {
    NowLocated(s, s1, o);
    EvolvesThenBut(s, s1, Relocated1(s1, o), o);
  }

  lemma UnbackedRunning(t: State, o: BoId)
    requires Running(t, {o}) && o in t.bos && t.bos[o].noBacking
    ensures Running(t, {})
  {
    ClashNone(t, o);
  }

  lemma UnbackedAdvance(s: State, t: State, o: BoId)
    requires AllPlaced(s) && o in s.bos && !s.bos[o].validated && s.bos[o].noBacking && EvolvesBut(s, t, o)
    requires t.bos[o] == s.bos[o].(block := t.bos[o].block, offset := t.bos[o].offset)
    ensures Advance(s, t, {o}) && SameMaps(s, t, {})
  {
    ButAdvance(s, t, o, {o});
    ButMaps(s, t, o);
  }

  lemma AssertedRecord(s: State, t: State, o: BoId)
    requires o in s.bos && o in t.bos && EvolvesBut(s, t, o) && s.bos[o].noBacking && s.bos[o].dirty
    requires !s.bos[o].validated && !(s.bos[o].block.None? && AllHwBlocked(s, s.bos[o]))
    requires t.bos[o] == s.bos[o].(block := t.bos[o].block, offset := t.bos[o].offset)
    ensures ValidateRecord(s, t, o, ABORT)
  {
  }

  /** The assertion fails: a dirty buffer without backing store. */
  lemma Asserted(s: State, s1: State, o: BoId)
    requires CanValidate(s, o) && RoomMade(s, s1, o, true) && s.bos[o].noBacking && s.bos[o].dirty
    requires s1.bos[o].block.value in s1.blocks
    ensures ValidateOutcome(s, Relocated1(s1, o), o, ABORT)
  {
    NowLocated(s, s1, o);
    LocatedBut(s, s1, o);
    UnbackedRunning(Relocated1(s1, o), o);
    UnbackedAdvance(s, Relocated1(s1, o), o);
    AssertedRecord(s, Relocated1(s1, o), o);
  }

  /** The upload of bo_validate, as a whole. */
  ghost predicate UploadDoneWell(s: State, t: State, o: BoId)
  {
    UploadFacts(s, t, o) == true
  }

  ghost predicate UploadFacts(s: State, t: State, o: BoId)
  {
    && o in s.bos && o in t.bos && Running(t, {}) == true && Located(t, o) && EvolvesBut(s, t, o) == true
    && t.bos[o] == s.bos[o].(dirty := false) && t.fail == s.fail
    && (s.bos[o].dirty ==> InStep(t, o)) && (Contents(s, o).Some? ==> Contents(t, o) == Contents(s, o))
  }

  lemma NothingToUpload(s: State, o: BoId)
    requires Running(s, {o}) && Located(s, o) && !s.bos[o].dirty
    ensures UploadDoneWell(s, s, o)
  {
    ClashClean(s, o);
    EvolvesSelf(s);
    EvolvesIsBut(s, s, o);
  }

  lemma UploadedFrom(s: State, s1: State, s3: State, o: BoId)
    requires CanValidate(s, o) && RoomMade(s, s1, o, true) && s1.bos[o].block.value in s1.blocks
    requires UploadDoneWell(Relocated1(s1, o), s3, o)
    ensures Running(s3, {}) && Located(s3, o) && EvolvesBut(s, s3, o) && InPlaceFrom(s, s3, o) && s3.fail == s.fail
  {
    NowLocated(s, s1, o);
    ToPlace(s, s1, Relocated1(s1, o), s3, o);
  }

  lemma PlacedRecord(s: State, t: State, o: BoId)
    requires o in s.bos && Located(t, o) && t.fail == s.fail && !(s.bos[o].noBacking && s.bos[o].dirty)
    requires !(s.bos[o].block.None? && AllHwBlocked(s, s.bos[o]))
    requires Contents(s, o).Some? ==> Contents(InPlace(t, o), o) == Contents(s, o)
    ensures ValidateRecord(s, InPlace(t, o), o, 0)
  {
    InPlaceShape(t, o, o);
  }

  lemma PlacedOutcome(s: State, t: State, o: BoId)
    requires CanValidate(s, o) && Running(t, {}) && Located(t, o) && EvolvesBut(s, t, o) && InPlaceFrom(s, t, o)
    requires t.fail == s.fail && !(s.bos[o].noBacking && s.bos[o].dirty)
    requires !(s.bos[o].block.None? && AllHwBlocked(s, s.bos[o]))
    ensures ValidateOutcome(s, InPlace(t, o), o, 0)
  {
    ValidateDone(s, t, o);
    PlacedRecord(s, t, o);
  }

  /** The successful end. */
  lemma NowInPlace(s: State, s1: State, s3: State, o: BoId)
    requires CanValidate(s, o) && RoomMade(s, s1, o, true) && s1.bos[o].block.value in s1.blocks
    requires !(s.bos[o].noBacking && s.bos[o].dirty) && UploadDoneWell(Relocated1(s1, o), s3, o)
    ensures Located(s3, o) && ValidateOutcome(s, InPlace(s3, o), o, 0)
  {
    UploadedFrom(s, s1, s3, o);
    PlacedOutcome(s, s3, o);
  }

  /** Nothing is copied for a buffer that is on the card. */
  lemma StaysOnCard(s: State, o: BoId)
    requires OnCard(s, o)
    ensures var t := InPlace(Relocated1(s, o), o);
      o in t.bos && t.bos[o].validated && KeepsCopy(s, t, o)
  {
  }

  /** Storing the address of a buffer that no validated buffer refers to. */
  lemma LocateRunning(s: State, o: BoId, t: State)
    requires Running(s, {o}) && o in s.bos && s.bos[o].block.Some? && !s.bos[o].validated
    requires s.bos[o].block.value in s.blocks
    requires t == s.(bos := s.bos[o := s.bos[o].(offset := s.blocks[s.bos[o].block.value].ofs)])
    ensures Running(t, {o}) && Located(t, o) && EvolvesBut(s, t, o) && Contents(t, o) == Contents(s, o)
  {
    FlagsContents(s, o, t.bos[o], t);
    assert RelocsOk(s, o) == true;
    ButRunning(s, t, o, {o}, {o});
  }

  lemma ClashClean(s: State, o: BoId)
    requires Running(s, {o}) && o in s.bos && !s.bos[o].dirty
    ensures Running(s, {})
  {
    assert ClashOnly(s, {});
  }

  /** Waiting for idle leaves the buffer located. */
  lemma WaitedRunning(s: State, t: State, o: BoId)
    requires Running(s, {o}) && Located(s, o) && Evolves(s, t) && Inv(t) && t.bos == s.bos
    requires SamePlace(s, t, o)
    ensures Running(t, {o}) && Located(t, o)
  {
    SameBosClash(s, t, {o});
    EvolvesRunning(s, t, {o}, {o});
  }

  lemma UploadRunning(s: State, o: BoId, data: seq<Byte>)
    requires Running(s, {o}) && Located(s, o) && HasBlock(s, o) && !s.bos[o].validated && s.bos[o].dirty
    requires |data| == s.bos[o].size && (s.bos[o].backing.Some? ==> data == s.bos[o].backing.value)
    ensures var t := Uploaded(s, o, data);
      && Running(t, {}) && Located(t, o) && EvolvesBut(s, t, o)
      && (Contents(s, o).Some? ==> Contents(t, o) == Contents(s, o))
  {
    var t := Uploaded(s, o, data);
    UploadInv(s, o, data);
    assert RelocsOk(s, o) == true;
    ButRunning(s, t, o, {o}, {});
  }

  lemma UploadDone(s: State, s1: State, t: State, o: BoId, data: seq<Byte>)
    requires Running(s1, {o}) && Located(s1, o) && HasBlock(s1, o) && !s1.bos[o].validated && s1.bos[o].dirty
    requires Evolves(s, s1) && s1.bos == s.bos
    requires |data| == s1.bos[o].size && (s1.bos[o].backing.Some? ==> data == s1.bos[o].backing.value)
    requires t == Uploaded(s1, o, data)
    ensures Running(t, {}) && Located(t, o) && EvolvesBut(s, t, o)
    ensures Contents(s, o).Some? ==> Contents(t, o) == Contents(s, o)
  {
    UploadRunning(s1, o, data);
    EvolvesThenBut(s, s1, t, o);
    assert BoEvolves(s, s1, o) == true;
  }

  /** A buffer without a block has nothing to clash with. */
  lemma UnplacedClash(t: State, o: BoId)
    requires ClashOnly(t, {o}) && o in t.bos && t.bos[o].block.None?
    ensures ClashOnly(t, {}) == true
  {
  }

  lemma UnplacedSame(s: State, t: State, o: BoId)
    requires o in s.bos && o in t.bos && t.bos[o] == s.bos[o] && s.bos[o].block.None?
    ensures Contents(t, o) == Contents(s, o) && SlotsOnly(Contents(s, o), Contents(t, o), s.bos[o].relocs)
    ensures t.bos.Keys == s.bos.Keys && RelocsOk(s, o) ==> RelocsOk(t, o)
  {
    SlotsOnlySame(Contents(s, o), s.bos[o].relocs);
  }

  lemma FailedRunning(s: State, t: State, o: BoId)
    requires Running(s, {o}) && o in s.bos && !s.bos[o].validated && s.bos[o].block.None?
    requires Inv(t) && ClashOnly(t, {o}) && EvolvesBut(s, t, o) && t.bos[o] == s.bos[o]
    ensures Running(t, {}) && Advance(s, t, {o}) && Contents(t, o) == Contents(s, o) && SameMaps(s, t, {})
  {
    ButMaps(s, t, o);
    UnplacedClash(t, o);
    assert RelocsOk(s, o) == true;
    UnplacedSame(s, t, o);
    ButRunning(s, t, o, {o}, {});
    ButAdvance(s, t, o, {o});
  }

  /** The steps of bo_validate before the buffer is put in place add up. */
  lemma ToPlace(s: State, s1: State, s2: State, s3: State, o: BoId)
    requires o in s.bos && o in s1.bos && o in s2.bos && o in s3.bos
    requires Evolves(s, s1) && s1.bos[o] == s.bos[o].(block := s1.bos[o].block)
    requires EvolvesBut(s1, s2, o) && s2.bos[o] == s1.bos[o].(offset := s2.bos[o].offset)
    requires Contents(s2, o) == Contents(s1, o)
    requires EvolvesBut(s2, s3, o) && s3.bos[o] == s2.bos[o].(dirty := false)
    requires Contents(s2, o).Some? ==> Contents(s3, o) == Contents(s2, o)
    ensures EvolvesBut(s, s3, o) && InPlaceFrom(s, s3, o)
  {
    assert BoEvolves(s, s1, o) == true;
    ButTrans(s1, s2, s3, o);
    EvolvesThenBut(s, s1, s3, o);
  }

  /** The record of a buffer that has been placed and uploaded. */
  ghost predicate InPlaceFrom(s: State, t: State, o: BoId)
  {
    && o in s.bos && o in t.bos
    && t.bos[o] == s.bos[o].(block := t.bos[o].block, offset := t.bos[o].offset, dirty := false)
    && (Contents(s, o).Some? ==> Contents(t, o) == Contents(s, o))
  }

  /** The successful end of bo_validate. */
  lemma ValidateDone(s: State, t: State, o: BoId)
    requires Running(s, {o}) && Running(t, {}) && EvolvesBut(s, t, o) && InPlaceFrom(s, t, o) && Located(t, o)
    requires Relocatable(s.bos[o]) && !s.bos[o].validated && s.bos[o].mapCount == 0
    requires s.bos[o].write ==> s.bos[o].cardDirty
    requires TargetsReady(s, o, |s.bos[o].relocs|)
    ensures Running(InPlace(t, o), {}) && Advance(s, InPlace(t, o), {o}) && SameMaps(s, InPlace(t, o), {})
    ensures Contents(s, o).Some? ==> Contents(InPlace(t, o), o) == Contents(s, o)
  {
    SlotsOnlySame(Contents(s, o), s.bos[o].relocs);
    ButAdvance(s, t, o, {o});
    DoneTargets(s, t, o);
    InPlaceRunning(t, o);
    InPlaceInv(t, o);
    InPlaceAdvance(t, o);
    AdvanceTrans(s, t, InPlace(t, o), {o}, {o}, {o});
    InPlaceMaps(s, t, o);
  }

  lemma InPlaceMaps(s: State, t: State, o: BoId)
    requires EvolvesBut(s, t, o) && InPlaceFrom(s, t, o) && Located(t, o)
    ensures SameMaps(s, InPlace(t, o), {})
  {
    ButMaps(s, t, o);
    forall x | x in s.bos
      ensures InPlace(t, o).bos[x].mapCount == s.bos[x].mapCount && InPlace(t, o).bos[x].virt == s.bos[x].virt
    {
      InPlaceShape(t, o, x);
    }
  }

  lemma ButMaps(s: State, t: State, o: BoId)
    requires EvolvesBut(s, t, o) && o in s.bos && t.bos[o].mapCount == s.bos[o].mapCount
    requires t.bos[o].virt == s.bos[o].virt
    ensures SameMaps(s, t, {})
  {
    forall x | x in s.bos && x in t.bos
      ensures t.bos[x].mapCount == s.bos[x].mapCount && t.bos[x].virt == s.bos[x].virt
    {
      assert x != o ==> BoEvolves(s, t, x) == true;
    }
  }

  lemma DoneTargets(s: State, t: State, o: BoId)
    requires EvolvesBut(s, t, o) && o in s.bos && !s.bos[o].validated && t.bos[o].relocs == s.bos[o].relocs
    requires TargetsReady(s, o, |s.bos[o].relocs|)
    ensures TargetsReady(t, o, |t.bos[o].relocs|)
  {
    forall i | 0 <= i < |t.bos[o].relocs|
      ensures var r := t.bos[o].relocs[i];
        r.target in t.bos && t.bos[r.target].validated
        && r.last == t.bos[r.target].offset
    {
      assert BoEvolves(s, t, s.bos[o].relocs[i].target) == true;
    }
  }
}
