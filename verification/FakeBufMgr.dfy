/** The fake buffer manager as the object it is: every operation of
    intel/intel_bufmgr_fake.c that changes its state. */
module FakeBufMgr {
  import opened MmLayout
  import opened FenceOrder
  import opened FakeState
  import opened FakeSteps
  import opened FakeContents
  import opened FakePlacement
  import opened FakeMapping
  import opened FakeReloc
  import opened FakeAdvance
  import opened FakeValidate
  import opened FakeExec
  import opened FakeKick
  import opened FakeSubmit
  import opened FakeDraw
  import opened FakeRefs
  import opened FakeClient

  /** The buffer manager.  Between calls its state is Sound for `held`, the references that its
      clients hold, which the operations of the interface take as a ghost argument. */
  class Manager {
    var st: State

    /** drm_intel_bufmgr_fake_init over an aperture of |card| bytes at `lo`. */
    constructor (lo: nat, card: seq<Byte>)
      requires |card| > 0
      ensures Sound(st, multiset{}) && st.bos == map[] && st.lo == lo && st.card == card
    {
      var s := State(lo, card, Init(lo, |card|), map[], map[], [], [], [], 0, 0, false, 0, false, 0, 0);
      InitSound(s);
      st := s;
    }

    // ----- blocks

    method AllocBlock(o: BoId) returns (ok: bool)
      requires o in st.bos
      modifies this`st
      ensures ok == FakeState.AllocBlock(old(st), o).Some?
      ensures st == if ok then FakeState.AllocBlock(old(st), o).value else old(st)
    {
      var bo := st.bos[o];
      var r := Alloc(st.heap, CardSize(bo), bo.align2, 0);
      if r.None? {
        return false;
      }
      var b := st.nextBlock;
      st := st.(heap := r.value.0, nextBlock := b + 1,
                blocks := st.blocks[b := Block(r.value.1, CardSize(bo), Some(o), false, false, 0, 0)],
                lru := st.lru + [b],
                bos := st.bos[o := bo.(block := Some(b))]);
      return true;
    }

    method FreeBlock(b: BlockId, skipDirtyCopy: bool)
      requires HasOwner(st, b)
      modifies this`st
      ensures st == FakeState.FreeBlock(old(st), b, skipDirtyCopy)
    {
      var o := st.blocks[b].bo.value;
      var bo := st.bos[o];
      if !skipDirtyCopy && !bo.noBacking && bo.cardDirty {
        var copy := Window(st, st.blocks[b].ofs, bo.size);
        st := st.(bos := st.bos[o := bo.(backing := Some(copy), cardDirty := false, dirty := true)]);
      }
      if st.blocks[b].onHardware || st.blocks[b].fenced {
        st := st.(blocks := st.blocks[b := st.blocks[b].(bo := None)]);
      } else {
        st := Drop(st, b);
      }
    }

    /** Evict the block at the front of the lru list, unless its fence is newer than `maxFence`. */
    method EvictLru(maxFence: int, ghost ex: set<BoId>) returns (ok: bool)
      requires Inv(st) && ClashOnly(st, ex)
      requires forall x :: x in ex && x in st.bos ==> st.bos[x].block.None?
      modifies this`st
      ensures Inv(st) && Evolves(old(st), st) && ClashOnly(st, ex)
      ensures forall x :: x in ex && x in old(st).bos ==> x in st.bos && st.bos[x] == old(st).bos[x]
      ensures maxFence == 0 ==> ok == (old(st).lru != [])
      ensures ok ==> old(st).lru != [] && st == Evict(old(st), old(st).lru[0])
      ensures ok ==> |st.lru| == |old(st).lru| - 1 && st.fenced == old(st).fenced
      ensures !ok ==> st == old(st)
    {
      EvolvesSelf(st);
      if st.lru == [] {
        return false;
      }
      var b := st.lru[0];
      EvictInv(st, b, ex);
      if st.blocks[b].fence != 0 && maxFence != 0 && !FenceLte(st.blocks[b].fence, maxFence) {
        return false;
      }
      EvictBlock(b);
      return true;
    }

    /** Evict the block at the end of the lru list. */
    method EvictMru(ghost ex: set<BoId>) returns (ok: bool)
      requires Inv(st) && ClashOnly(st, ex)
      requires forall x :: x in ex && x in st.bos ==> st.bos[x].block.None?
      modifies this`st
      ensures Inv(st) && Evolves(old(st), st) && ClashOnly(st, ex)
      ensures forall x :: x in ex && x in old(st).bos ==> x in st.bos && st.bos[x] == old(st).bos[x]
      ensures ok == (old(st).lru != [])
      ensures ok ==> st == Evict(old(st), old(st).lru[|old(st).lru| - 1])
      ensures ok ==> |st.lru| == |old(st).lru| - 1 && st.fenced == old(st).fenced
      ensures !ok ==> st == old(st)
    {
      EvolvesSelf(st);
      if st.lru == [] {
        return false;
      }
      var b := st.lru[|st.lru| - 1];
      EvictInv(st, b, ex);
      EvictBlock(b);
      return true;
    }

    /** The buffer is marked dirty and loses its block, which is freed. */
    method EvictBlock(b: BlockId)
      requires HasOwner(st, b) && !st.blocks[b].onHardware && !st.blocks[b].fenced
      modifies this`st
      ensures st == Evict(old(st), b)
    {
      EvictSteps(st, b);
      var o := st.blocks[b].bo.value;
      st := st.(bos := st.bos[o := st.bos[o].(dirty := true)]);
      st := st.(bos := st.bos[o := st.bos[o].(block := None)]);
      assert st.bos == old(st).bos[o := old(st).bos[o].(dirty := true, block := None)];
      FreeBlock(b, false);
    }

    // ----- fences

    /** A block whose fence has passed is freed, or goes back to the lru list if it has an owner. */
    method ReleaseFenced(b: BlockId)
      requires b in st.blocks
      modifies this`st
      ensures st == Unfence(old(st), b)
    {
      if st.blocks[b].bo.None? {
        st := Drop(st, b);
      } else {
        st := st.(blocks := st.blocks[b := st.blocks[b].(fenced := false)]);
        st := st.(fenced := Without(st.fenced, b));
        st := st.(lru := st.lru + [b]);
      }
    }

    /** Release the fenced blocks whose fence has passed, stopping at the first that has not. */
    method ClearFenced(cookie: int) returns (any: bool)
      requires Inv(st)
      modifies this`st
      ensures Inv(st) && Evolves(old(st), st) && st.bos == old(st).bos
      ensures any == (PassCount(old(st), cookie, 0) > 0) && st.lastFence == cookie && st.thrashing == old(st).thrashing
      ensures Cleared(old(st), st, PassCount(old(st), cookie, 0)) == true
    {
      any := false;
      ghost var n := 0;
      ClearStart(st, cookie);
      st := st.(lastFence := cookie);
      while st.fenced != []
        invariant Clearing(old(st), st, cookie, n) == true && any == (n > 0)
        decreases |st.fenced|
      {
        var b := st.fenced[0];
        ClearRound(old(st), st, cookie, n);
        if !Passed(st.blocks[b].fence, st.lastFence) {
          break;
        }
        ReleaseFenced(b);
        any := true;
        n := n + 1;
      }
      assert n == PassCount(old(st), cookie, 0) by {
        assert PassCount(st, cookie, 0) == 0;
      }
    }

    /** _fence_wait_internal with a wait callback: it returns once emission `e` has passed. */
    method FenceWait(e: nat)
      requires Inv(st) && e >= 1
      modifies this`st
      ensures Inv(st) && Evolves(old(st), st) && st.bos == old(st).bos
      ensures Cleared(old(st), st, PassCount(old(st), Cookie(e), 0)) == true && st.thrashing == old(st).thrashing
      ensures forall o :: o in old(st).bos ==> SamePlace(old(st), st, o) == true
      ensures InWindow(old(st), e) ==> Waited(old(st), st, e) == true
    {
      var any := ClearFenced(Cookie(e));
      if InWindow(old(st), e) {
        WaitedExact(old(st), st, e);
      }
      ClearedPlaces(old(st), st, PassCount(old(st), Cookie(e), 0));
    }

    /** _fence_emit_internal with an emit callback. */
    method FenceEmit() returns (e: nat)
      requires Inv(st)
      modifies this`st
      ensures e == old(st).issued + 1 && st == old(st).(issued := e)
      ensures Inv(st) && Evolves(old(st), st)
    {
      e := st.issued + 1;
      st := st.(issued := e);
      FenceFieldsOnly(old(st), st);
    }

    method WaitIdle()
      requires Inv(st)
      modifies this`st
      ensures Inv(st) && Evolves(old(st), st) && st.bos == old(st).bos
      ensures AllClose(old(st)) ==> st.fenced == []
      ensures forall o :: o in old(st).bos ==> SamePlace(old(st), st, o) == true
    {
      var e := FenceEmit();
      ghost var mid := st;
      FenceWait(e);
      ReflagSelf(old(st), mid);
      SamePlaceTrans(old(st), mid, st);
      EvolvesTrans(old(st), mid, st);
      IdleAllPassed(old(st), mid, st, e);
    }

    // ----- making room

    method TryAlloc(o: BoId, ghost s0: State) returns (ok: bool)
      requires Struct(s0) && Making(s0, st, o)
      modifies this`st
      ensures ok ==> Made(s0, st, o) == true && !AllHwBlocked(s0, s0.bos[o]) && st.thrashing == old(st).thrashing
      ensures !ok ==> st == old(st) && FakeState.AllocBlock(st, o).None?
    {
      if FakeState.AllocBlock(st, o).Some? {
        AllocMakes(s0, st, o);
      }
      ok := AllocBlock(o);
    }

    method RoomByLru(o: BoId, ghost s0: State) returns (more: bool)
      requires Making(s0, st, o)
      modifies this`st
      ensures Making(s0, st, o) == true && st.thrashing == old(st).thrashing && st.fenced == old(st).fenced
      ensures more == (old(st).lru != []) && (more ==> |st.lru| < |old(st).lru|) && (!more ==> st == old(st))
    {
      more := EvictLru(0, {o});
      EvolvesTrans(s0, old(st), st);
    }

    method RoomByMru(o: BoId, ghost s0: State) returns (more: bool)
      requires Making(s0, st, o)
      modifies this`st
      ensures Making(s0, st, o) == true && st.thrashing == old(st).thrashing && st.fenced == old(st).fenced
      ensures more == (old(st).lru != []) && (more ==> |st.lru| < |old(st).lru|) && (!more ==> st == old(st))
    {
      more := EvictMru({o});
      EvolvesTrans(s0, old(st), st);
    }

    /** Wait for the fence at the head of the fenced list. */
    method RoomByWaiting(o: BoId, ghost s0: State)
      requires Making(s0, st, o) && st.fenced != []
      modifies this`st
      ensures Making(s0, st, o) == true && st.thrashing == old(st).thrashing
      ensures |st.fenced| < |old(st).fenced|
    {
      OldestPasses(st);
      FenceWait(st.blocks[st.fenced[0]].emission);
      EvolvesTrans(s0, old(st), st);
      SameBosClash(old(st), st, {o});
    }

    /** Evict from the front of the lru list until the buffer fits. */
    method LruPhase(o: BoId, ghost s0: State) returns (ok: bool)
      requires Struct(s0) && Making(s0, st, o) && FakeState.AllocBlock(st, o).None?
      modifies this`st
      ensures ok ==> Made(s0, st, o) == true && !AllHwBlocked(s0, s0.bos[o])
      ensures !ok ==> Making(s0, st, o) == true && FakeState.AllocBlock(st, o).None? && st.lru == []
      ensures st.thrashing == old(st).thrashing
    {
      ok := false;
      var more := RoomByLru(o, s0);
      while more
        invariant Making(s0, st, o) == true && st.thrashing == old(st).thrashing
        invariant !more ==> FakeState.AllocBlock(st, o).None? && st.lru == []
        decreases more, |st.lru|
      {
        ok := TryAlloc(o, s0);
        if ok { return; }
        more := RoomByLru(o, s0);
      }
    }

    /** Wait on the pending fences one by one, trying to allocate after each. */
    method WaitPhase(o: BoId, ghost s0: State) returns (ok: bool)
      requires Struct(s0) && Making(s0, st, o) && FakeState.AllocBlock(st, o).None?
      modifies this`st
      ensures ok ==> Made(s0, st, o) == true && !AllHwBlocked(s0, s0.bos[o])
      ensures !ok ==> Making(s0, st, o) == true && FakeState.AllocBlock(st, o).None? && st.fenced == []
      ensures st.thrashing == old(st).thrashing
    {
      ok := false;
      while st.fenced != []
        invariant Making(s0, st, o) == true && FakeState.AllocBlock(st, o).None?
        invariant st.thrashing == old(st).thrashing
        decreases |st.fenced|
      {
        RoomByWaiting(o, s0);
        ok := TryAlloc(o, s0);
        if ok { return; }
      }
    }

    /** Evict from the end of the lru list until the buffer fits. */
    method MruPhase(o: BoId, ghost s0: State) returns (ok: bool)
      requires Struct(s0) && Making(s0, st, o) && FakeState.AllocBlock(st, o).None? && st.fenced == []
      modifies this`st
      ensures ok ==> Made(s0, st, o) == true && !AllHwBlocked(s0, s0.bos[o])
      ensures !ok ==> Making(s0, st, o) == true && FakeState.AllocBlock(st, o).None? && st.lru == [] && st.fenced == []
      ensures st.thrashing == old(st).thrashing
    {
      ok := false;
      var more := RoomByMru(o, s0);
      while more
        invariant Making(s0, st, o) == true && st.thrashing == old(st).thrashing && st.fenced == []
        invariant !more ==> FakeState.AllocBlock(st, o).None? && st.lru == []
        decreases more, |st.lru|
      {
        ok := TryAlloc(o, s0);
        if ok { return; }
        more := RoomByMru(o, s0);
      }
    }

    /** Find card memory for `o`: free memory first, then by lru eviction, by waiting for
        fences, and by mru eviction.  It fails exactly when the buffers on the hardware
        leave no aligned place. */
    method EvictAndAlloc(o: BoId) returns (ok: bool)
      requires Inv(st) && ClashOnly(st, {o}) && o in st.bos && st.bos[o].block.None?
      modifies this`st
      ensures ok ==> Made(old(st), st, o) == true
      ensures !ok ==> Making(old(st), st, o) == true && st.lru == [] && st.fenced == []
      ensures !ok <==> AllHwBlocked(old(st), old(st).bos[o])
      ensures st.thrashing == old(st).thrashing || st.thrashing == 20
    {
      EvolvesSelf(st);
      ok := TryAlloc(o, st);
      if ok { return; }
      if st.thrashing == 0 {
        ok := LruPhase(o, old(st));
        if ok { return; }
      }
      if st.thrashing != 0 {
        SetThrashing(o, old(st));
      }
      ok := WaitPhase(o, old(st));
      if ok { return; }
      if st.onHw != [] {
        SetThrashing(o, old(st));
        ok := TryAlloc(o, old(st));
        if ok { return; }
      }
      ok := MruPhase(o, old(st));
      if !ok {
        ExhaustedIsBlocked(st, o);
        HwBlockedFrame(old(st), st, st.bos[o]);
      }
    }

    /** Keep the thrashing counter alive. */
    method SetThrashing(o: BoId, ghost s0: State)
      requires Making(s0, st, o)
      modifies this`st
      ensures st == old(st).(thrashing := 20) && Making(s0, st, o) == true
      ensures FakeState.AllocBlock(old(st), o).None? ==> FakeState.AllocBlock(st, o).None?
    {
      ThrashingOnly(st, st.(thrashing := 20));
      EvolvesTrans(s0, st, st.(thrashing := 20));
      SameBosClash(st, st.(thrashing := 20), {o});
      st := st.(thrashing := 20);
    }

    // ----- mapping

    /** malloc: memory of the right size that may hold anything. */
    static method Malloc(n: nat) returns (m: seq<Byte>)
      ensures |m| == n
    {
      m := seq(n, _ => 0);
    }

    /** drm_intel_fake_bo_wait_rendering_locked: the card is done with the buffer. */
    method WaitRendering(o: BoId)
      requires Inv(st) && o in st.bos
      modifies this`st
      ensures Inv(st) && Evolves(old(st), st) && st.bos == old(st).bos && KeepsCopy(old(st), st, o)
      ensures Close(old(st), o) ==> Quiescent(st, o)
    {
      EvolvesSelf(st);
      HasBlockOf(st, o);
      if st.bos[o].block.None? || !st.blocks[st.bos[o].block.value].fenced {
        return;
      }
      FencedEmission(st, st.bos[o].block.value);
      FenceWait(st.blocks[st.bos[o].block.value].emission);
      WaitKeepsCopies(old(st), st, o);
    }

    /** The backing store of a buffer, allocated if it has none. */
    static method StoreFor(bo: Bo) returns (m: seq<Byte>)
      requires bo.backing.Some? ==> |bo.backing.value| == bo.size
      ensures |m| == bo.size && (bo.backing.Some? ==> m == bo.backing.value)
    {
      if bo.backing.None? {
        m := Malloc(bo.size);
      } else {
        m := bo.backing.value;
      }
    }

    /** Wait for the card to finish with a buffer it has written. */
    method WaitIfCardDirty(o: BoId)
      requires Inv(st) && o in st.bos
      modifies this`st
      ensures Inv(st) && Evolves(old(st), st) && st.bos == old(st).bos && KeepsCopy(old(st), st, o)
      ensures Contents(st, o) == Contents(old(st), o)
      ensures old(st).bos[o].cardDirty && Close(old(st), o) ==> Quiescent(st, o)
    {
      EvolvesSelf(st);
      if st.bos[o].cardDirty && st.bos[o].block.Some? {
        WaitRendering(o);
      }
    }

    /** bo_map of a buffer with a backing store that is not mapped yet.  Card memory is read only
        when the card is done with it. */
    method MapBacking(o: BoId, write: bool)
      requires Inv(st) && ClashOnly(st, {}) && o in st.bos && !st.bos[o].noBacking && st.bos[o].mapCount == 0
      modifies this`st
      ensures Inv(st) && ClashOnly(st, {}) && EvolvesBut(old(st), st, o) && st.fail == old(st).fail
      ensures Contents(old(st), o).Some? ==> Contents(st, o) == Contents(old(st), o)
      ensures MappedFields(old(st).bos[o], st.bos[o], write) == true && KeepsCopy(old(st), st, o)
      ensures st.bos[o].written ==> Contents(st, o).Some? && Contents(st, o) == st.bos[o].backing
      ensures old(st).bos[o].cardDirty && Close(old(st), o) ==> Quiescent(st, o)
    {
      HasBlockOf(st, o);
      var store := StoreFor(st.bos[o]);
      WaitIfCardDirty(o);
      ghost var mid := st;
      st := st.(bos := st.bos[o := Mapped(st, o, write, store)]);
      MapBackingDone(old(st), mid, st, o, write, store);
      MappedCopy(mid, st, o);
    }

    /** Card memory for a buffer that has none; for want of it `fail` is set. */
    method EnsureBlock(o: BoId) returns (ok: bool)
      requires o in st.bos && (st.bos[o].block.None? ==> Inv(st) && ClashOnly(st, {o}))
      modifies this`st
      ensures old(st).bos[o].block.Some? ==> ok && st == old(st)
      ensures old(Inv(st) && ClashOnly(st, {o})) ==> RoomMade(old(st), st, o, ok) == true
    {
      ok := true;
      if st.bos[o].block.None? {
        ok := MakeRoom(o);
      } else if Inv(st) && ClashOnly(st, {o}) {
        RoomKept(st, o);
      }
    }

    method MakeRoom(o: BoId) returns (ok: bool)
      requires Inv(st) && ClashOnly(st, {o}) && o in st.bos && st.bos[o].block.None?
      modifies this`st
      ensures RoomMade(old(st), st, o, ok) == true
    {
      ok := EvictAndAlloc(o);
      EvolvesIsBut(old(st), st, o);
      if !ok {
        SetFail(o, old(st));
      }
    }

    method SetFail(o: BoId, ghost s0: State)
      requires Inv(st) && ClashOnly(st, {o}) && EvolvesBut(s0, st, o)
      modifies this`st
      ensures st == old(st).(fail := true)
      ensures Inv(st) && ClashOnly(st, {o}) && EvolvesBut(s0, st, o)
    {
      st := st.(fail := true);
      FailOnly(old(st), st);
      ButThenFail(s0, old(st), st, o);
    }

    /** bo_map of a buffer without backing store: it needs card memory right away. */
    method MapOnCard(o: BoId) returns (ret: int)
      requires Inv(st) && ClashOnly(st, {}) && o in st.bos && st.bos[o].noBacking && st.bos[o].mapCount == 0
      modifies this`st
      ensures Inv(st) && ClashOnly(st, {}) && EvolvesBut(old(st), st, o)
      ensures MappedOnCard(old(st).bos[o], st.bos[o], ret) == true && (ret != 0 ==> st.fail)
      ensures ret != 0 <==> old(st).bos[o].block.None? && AllHwBlocked(old(st), old(st).bos[o])
    {
      var ok := PlaceOnCard(o);
      if !ok {
        return 1;
      }
      FinishMapOnCard(o, old(st));
      ret := 0;
    }

    method PlaceOnCard(o: BoId) returns (ok: bool)
      requires Inv(st) && ClashOnly(st, {}) && o in st.bos && st.bos[o].noBacking
      modifies this`st
      ensures Inv(st) && ClashOnly(st, {}) == true && EvolvesBut(old(st), st, o)
      ensures st.bos[o] == old(st).bos[o].(mapCount := 1, block := st.bos[o].block)
      ensures ok == st.bos[o].block.Some? && (!ok ==> st.fail)
      ensures !ok <==> old(st).bos[o].block.None? && AllHwBlocked(old(st), old(st).bos[o])
    {
      StartMapOnCard(o);
      ghost var s1 := st;
      ok := EnsureBlock(o);
      ButTrans(old(st), s1, st, o);
      ClashNone(st, o);
    }

    method StartMapOnCard(o: BoId)
      requires Inv(st) && ClashOnly(st, {}) && o in st.bos && st.bos[o].noBacking
      modifies this`st
      ensures Inv(st) && ClashOnly(st, {o}) && EvolvesBut(old(st), st, o)
      ensures st.bos[o] == old(st).bos[o].(mapCount := 1)
      ensures AllHwBlocked(st, st.bos[o]) <==> AllHwBlocked(old(st), old(st).bos[o])
    {
      st := st.(bos := st.bos[o := st.bos[o].(mapCount := 1)]);
      CardFlags(old(st), o, st.bos[o], st);
      SameRoom(old(st), st, old(st).bos[o], st.bos[o]);
      ClashOne(st, o);
    }

    method FinishMapOnCard(o: BoId, ghost s0: State)
      requires Inv(st) && ClashOnly(st, {}) && o in st.bos && st.bos[o].noBacking
      requires EvolvesBut(s0, st, o)
      modifies this`st
      ensures Inv(st) && ClashOnly(st, {}) && EvolvesBut(s0, st, o)
      ensures st.bos[o] == old(st).bos[o].(dirty := false, virt := Card)
      ensures Close(old(st), o) ==> Quiescent(st, o)
    {
      WaitRendering(o);
      ghost var s1 := st;
      ButThenEvolves(s0, old(st), st, o);
      SameBosClash(old(st), st, {});
      st := st.(bos := st.bos[o := st.bos[o].(dirty := false, virt := Card)]);
      CardFlags(s1, o, st.bos[o], st);
      ButTrans(s0, s1, st, o);
    }

    /** drm_intel_fake_bo_map_locked; 0 on success. */
    method MapLocked(o: BoId, write: bool) returns (ret: int)
      requires Inv(st) && ClashOnly(st, {}) && o in st.bos
      modifies this`st
      ensures Inv(st) && ClashOnly(st, {}) && EvolvesBut(old(st), st, o)
      ensures st.bos[o].mapCount == old(st).bos[o].mapCount + 1 && SameHandle(old(st).bos[o], st.bos[o])
      ensures st.bos[o].noBacking == old(st).bos[o].noBacking
      ensures Contents(old(st), o).Some? ==> Contents(st, o) == Contents(old(st), o)
      ensures old(st).bos[o].mapCount > 0 ==>
        ret == 0 && st == old(st).(bos := old(st).bos[o := Deeper(old(st).bos[o])])
      ensures old(st).bos[o].mapCount == 0 && !old(st).bos[o].noBacking ==>
        ret == 0 && st.fail == old(st).fail && MappedFields(old(st).bos[o], st.bos[o], write) == true
        && (st.bos[o].written ==> Contents(st, o).Some? && Contents(st, o) == st.bos[o].backing)
        && KeepsCopy(old(st), st, o)
      ensures old(st).bos[o].mapCount == 0 && old(st).bos[o].noBacking ==>
        && (ret == 0 <==> st.bos[o].block.Some?) && (ret != 0 ==> st.fail && old(st).bos[o].block.None?)
        && (ret == 0 ==> st.bos[o].virt == Card && !st.bos[o].dirty)
        && (ret != 0 <==> old(st).bos[o].block.None? && AllHwBlocked(old(st), old(st).bos[o]))
      ensures ret == 0 ==>
        (st.bos[o].virt != Unmapped <==> old(st).bos[o].mapCount == 0 || old(st).bos[o].virt != Unmapped)
      ensures ret != 0 ==> st.bos[o].virt == old(st).bos[o].virt
    {
      if st.bos[o].mapCount != 0 {
        ghost var was := st;
        st := st.(bos := st.bos[o := Deeper(st.bos[o])]);
        FlagsContents(was, o, st.bos[o], st);
        return 0;
      }
      if !st.bos[o].noBacking {
        MapBacking(o, write);
        return 0;
      }
      ret := MapOnCard(o);
    }

    /** drm_intel_fake_bo_unmap_locked */
    method UnmapLocked(o: BoId)
      requires o in st.bos && st.bos[o].mapCount != 0
      modifies this`st
      ensures st == old(st).(bos := old(st).bos[o := OneUnmapped(old(st).bos[o])])
    {
      var bo := st.bos[o];
      bo := bo.(mapCount := bo.mapCount - 1);
      if bo.mapCount == 0 {
        bo := bo.(virt := Unmapped);
      }
      st := st.(bos := st.bos[o := bo]);
    }

    // ----- validation

    /** wait_idle before an upload. */
    method IdleForUpload(o: BoId)
      requires Running(st, {o}) && Located(st, o)
      modifies this`st
      ensures Running(st, {o}) && Located(st, o) && HasBlock(st, o) && Evolves(old(st), st) && st.bos == old(st).bos
      ensures AllClose(old(st)) ==> st.fenced == []
    {
      WaitIdle();
      assert SamePlace(old(st), st, o) == true;
      WaitedRunning(old(st), st, o);
      HasBlockOf(st, o);
    }

    /** The upload in bo_validate. */
    method UploadIfDirty(o: BoId)
      requires o in st.bos
      requires st.bos[o].dirty ==>
        Running(st, {o}) && Located(st, o) && !st.bos[o].validated && !st.bos[o].noBacking
      modifies this`st
      ensures !old(st).bos[o].dirty ==> st == old(st)
      ensures old(Running(st, {o}) && Located(st, o)) ==> UploadDoneWell(old(st), st, o) == true
      ensures old(st).bos[o].dirty && AllClose(old(st)) ==> st.fenced == []
    {
      if st.bos[o].dirty {
        IdleForUpload(o);
        CopyToCard(o, old(st));
      } else if Running(st, {o}) && Located(st, o) {
        NothingToUpload(st, o);
      }
    }

    /** The memcpy, or for want of a backing store the memset, of the upload. */
    method CopyToCard(o: BoId, ghost s0: State)
      requires Running(st, {o}) && Located(st, o) && HasBlock(st, o) && !st.bos[o].validated && st.bos[o].dirty
      requires Evolves(s0, st) && st.bos == s0.bos
      modifies this`st
      ensures UploadDoneWell(s0, st, o) == true && st.fenced == old(st).fenced
    {
      HasBlockOf(st, o);
      UploadCopies(st, o);
      var bo := st.bos[o];
      var data := ToUpload(bo);
      UploadDone(s0, st, Uploaded(st, o, data), o, data);
      st := Upload(st, st.blocks[bo.block.value].ofs, data);
      st := st.(bos := st.bos[o := bo.(dirty := false)]);
    }

    /** drm_intel_fake_bo_validate: 0 on success, -1 when there is no room, ABORT for the assertion that a
        dirty buffer has a backing store.  Nothing is uploaded for a buffer that is not dirty, whatever
        its backing store holds. */
    method Validate(o: BoId) returns (ret: int)
      requires CanValidate(st, o) || OnCard(st, o)
      modifies this`st
      ensures old(CanValidate(st, o)) ==> ValidateOutcome(old(st), st, o, ret) == true
      ensures old(OnCard(st, o)) ==> ret == 0 && o in st.bos && st.bos[o].validated && KeepsCopy(old(st), st, o)
    {
      ghost var s0, can := st, CanValidate(st, o);
      var ok := EnsureBlock(o);
      ghost var s1 := st;
      if !ok {
        NoRoom(s0, st, o);
        return -1;
      }
      if can {
        NowLocated(s0, s1, o);
      }
      var b := st.bos[o].block.value;
      st := st.(bos := st.bos[o := st.bos[o].(offset := st.blocks[b].ofs)]);
      if st.bos[o].dirty && st.bos[o].noBacking {
        Asserted(s0, s1, o);
        return ABORT;
      }
      UploadIfDirty(o);
      if can {
        NowInPlace(s0, s1, st, o);
      }
      if OnCard(s0, o) {
        StaysOnCard(s0, o);
      }
      st := ToHardware(st, b);
      var bo := st.bos[o];
      st := st.(bos := st.bos[o := bo.(validated := true, written := bo.written || bo.cardDirty)]);
      ret := 0;
    }

    // ----- relocation

    /** Map the buffer if it is not mapped, and write the relocation word. */
    method WriteReloc(o: BoId, i: nat, ghost s0: State, ghost g: set<BoId>)
      requires Relocating(s0, st, o, g, i) && o in g && i < |st.bos[o].relocs|
      requires st.bos[o].relocs[i].target in st.bos && st.bos[st.bos[o].relocs[i].target].validated
      modifies this`st
      ensures Relocating(s0, st, o, g, i + 1) == true && st.fail == old(st).fail
    {
      if st.bos[o].virt == Unmapped {
        MapForReloc(o, i, s0, g);
      }
      PokeWord(o, i, s0, g);
    }

    /** Write the relocation word through the mapping. */
    method PokeWord(o: BoId, i: nat, ghost s0: State, ghost g: set<BoId>)
      requires Relocating(s0, st, o, g, i) && o in g && i < |st.bos[o].relocs| && st.bos[o].mapCount == 1
      requires var y := st.bos[o].relocs[i].target; y in st.bos && st.bos[y].validated
      modifies this`st
      ensures Relocating(s0, st, o, g, i + 1) == true && st.fail == old(st).fail
    {
      MappedSlot(s0, st, o, g, i);
      var r := st.bos[o].relocs[i];
      var address := st.bos[r.target].offset;
      PokeRelocating(s0, st, st.(bos := st.bos[o := Poked(st.bos[o], i, address)]), o, g, i);
      st := st.(bos := st.bos[o := Poked(st.bos[o], i, address)]);
    }

    method MapForReloc(o: BoId, i: nat, ghost s0: State, ghost g: set<BoId>)
      requires Relocating(s0, st, o, g, i) && o in g && st.bos[o].virt == Unmapped
      requires i < |st.bos[o].relocs| && st.bos[o].relocs[i].target in st.bos
      requires st.bos[st.bos[o].relocs[i].target].validated
      modifies this`st
      ensures Relocating(s0, st, o, g, i) == true && st.bos[o].mapCount == 1 && st.fail == old(st).fail
      ensures i < |st.bos[o].relocs| && st.bos[o].relocs == old(st).bos[o].relocs
      ensures st.bos[o].relocs[i].target in st.bos && st.bos[st.bos[o].relocs[i].target].validated
    {
      var ret := MapLocked(o, true);
      MapRelocating(s0, old(st), st, o, g, i);
      assert BoEvolves(old(st), st, st.bos[o].relocs[i].target) == true;
    }

    /** Undo the mapping that writing relocations has made. */
    method UnmapIfMapped(o: BoId, ghost s0: State, ghost g: set<BoId>, ghost n: nat)
      requires Relocating(s0, st, o, g, n) && o in g
      modifies this`st
      ensures Relocating(s0, st, o, g, n) == true && st.bos[o].mapCount == 0 && st.fail == old(st).fail
    {
      if st.bos[o].virt != Unmapped {
        UnmapLocked(o);
        UnmapRelocating(s0, old(st), st, o, g, n);
      }
    }

    /** A buffer with a write domain will be rendered to. */
    method MarkRendered(o: BoId, ghost s0: State, ghost g: set<BoId>)
      requires o in s0.bos && s0.bos[o].mapCount == 0 && s0.bos[o].virt == Unmapped && o in g
      requires o in st.bos && Relocated(s0, st, o, g)
      modifies this`st
      ensures ToValidate(s0, st, o, g) == true && st.fail == old(st).fail
    {
      if !st.bos[o].write {
        NoRenderToValidate(s0, st, o, g);
        return;
      }
      HasBlockOf(st, o);
      assert Coherent(st, o) == true;
      var bo := st.bos[o].(cardDirty := true);
      ghost var store := ToUpload(st.bos[o]);
      if !bo.noBacking {
        var memory := StoreFor(bo);
        store := memory;
        bo := bo.(backing := Some(memory));
      }
      st := st.(bos := st.bos[o := bo], rendered := true);
      RenderToValidate(s0, old(st), st, o, g, store);
    }

    /** One round of the loop over the relocations of `o`. */
    method RelocOne(o: BoId, i: nat, ghost s0: State, ghost g: set<BoId>, ghost rank: BoId -> nat, ghost fail: bool)
        returns (ret: int)
      requires RelocOutcome(s0, st, o, g, i, 0, fail) && Graph(s0, g, rank) && o in g && o in s0.bos
      requires i < |s0.bos[o].relocs|
      requires s0.bos[o].mapCount == 0 && s0.bos[o].virt == Unmapped
      modifies this`st
      ensures RelocOutcome(s0, st, o, g, i + 1, ret, fail)
      decreases rank(o), 0
    {
      TargetBelow(s0, st, o, g, rank, i);
      ghost var t := st;
      ret := ValidateTarget(o, i, s0, g, rank);
      if ret != 0 {
        UnmapIfMapped(o, s0, g, i);
        AbortRelocating(s0, st, o, g, i);
        StoppedAbove(s0, t, st, g, Below(g, rank, o), g, ret);
        return;
      }
      var r := st.bos[o].relocs[i];
      if st.bos[r.target].offset != r.last {
        WriteReloc(o, i, s0, g);
      } else {
        SkipRelocating(s0, st, o, g, i);
      }
    }

    /** Validate the target of a relocation if that has not been done. */
    method ValidateTarget(o: BoId, i: nat, ghost s0: State, ghost g: set<BoId>, ghost rank: BoId -> nat)
        returns (ret: int)
      requires Relocating(s0, st, o, g, i) && i < |st.bos[o].relocs|
      requires st.bos[o].relocs[i].target in Below(g, rank, o) && Graph(st, Below(g, rank, o), rank)
      modifies this`st
      ensures Relocating(s0, st, o, g, i) == true && i < |st.bos[o].relocs|
      ensures ret == 0 ==>
        var y := st.bos[o].relocs[i].target; y in st.bos && st.bos[y].validated && st.fail == old(st).fail
      ensures ret != 0 ==> Stopped(old(st), st, Below(g, rank, o), ret)
      decreases rank(st.bos[o].relocs[i].target), 3
    {
      var y := st.bos[o].relocs[i].target;
      assert GraphNode(st, y, Below(g, rank, o), rank) == true;
      if st.bos[y].validated {
        return 0;
      }
      ret := RelocAndValidate(y, Below(g, rank, o), rank);
      ChildRelocating(s0, old(st), st, o, g, Below(g, rank, o), i);
      AdvancedShape(old(st), st, o, Below(g, rank, o));
    }

    /** drm_intel_fake_reloc_and_validate_buffer on a buffer of an acyclic graph `g`. */
    method RelocAndValidate(o: BoId, ghost g: set<BoId>, ghost rank: BoId -> nat) returns (ret: int)
      requires Running(st, {}) && Graph(st, g, rank) && o in g && !st.bos[o].validated
      modifies this`st
      ensures Settled(old(st), st, g)
      ensures ret == 0 ==> st.bos[o].validated && st.fail == old(st).fail
      ensures ret != 0 ==> Stopped(old(st), st, g, ret) == true
      decreases rank(o), 2
    {
      StartRelocating(st, o, g, rank);
      ret := RelocLoop(o, |st.bos[o].relocs|, old(st), g, rank);
      if ret == 0 {
        ret := FinishReloc(o, old(st), g);
      }
    }

    /** The loop of reloc_and_validate_buffer over the `n` relocations. */
    method RelocLoop(o: BoId, n: nat, ghost s0: State, ghost g: set<BoId>, ghost rank: BoId -> nat) returns (ret: int)
      requires RelocOutcome(s0, st, o, g, 0, 0, st.fail) && Graph(s0, g, rank) && o in g
      requires o in s0.bos && s0.bos[o].mapCount == 0 && s0.bos[o].virt == Unmapped && n == |s0.bos[o].relocs|
      modifies this`st
      ensures RelocOutcome(s0, st, o, g, n, ret, old(st).fail)
      decreases rank(o), 1
    {
      var i: nat := 0;
      ret := 0;
      while i < n
        invariant i <= n && ret == 0 && RelocOutcome(s0, st, o, g, i, 0, old(st).fail) == true
      {
        ret := RelocOne(o, i, s0, g, rank, old(st).fail);
        i := i + 1;
        if ret != 0 {
          RelocFailed(s0, st, o, g, i, n, ret, old(st).fail);
          return;
        }
      }
      assert i == n;
    }

    /** The part of reloc_and_validate_buffer after its loop. */
    method FinishReloc(o: BoId, ghost s0: State, ghost g: set<BoId>) returns (ret: int)
      requires o in s0.bos && s0.bos[o].mapCount == 0 && s0.bos[o].virt == Unmapped && o in g
      requires Relocating(s0, st, o, g, |s0.bos[o].relocs|)
      modifies this`st
      ensures Settled(s0, st, g)
      ensures ret == 0 ==> o in st.bos && st.bos[o].validated && st.fail == old(st).fail
      ensures ret != 0 ==> Stopped(s0, st, g, ret) == true
    {
      UnmapIfMapped(o, s0, g, |s0.bos[o].relocs|);
      MarkRendered(o, s0, g);
      ghost var was := st;
      ValidateNext(s0, was, o, g);
      ret := Validate(o);
      OutcomeSettled(was, st, o, ret);
      ToValidateSettled(s0, was, o, g);
      SettledBelow(s0, was, st, o, g);
      if ret != 0 {
        ValidatedStopped(s0, was, st, o, g, ret);
      }
    }

    // ----- execution

    /** One round of the loop of kick_all_locked. */
    method KickBlock(b: BlockId)
      requires HasOwner(st, b) && st.blocks[b].onHardware && !st.blocks[b].fenced
      modifies this`st
      ensures st == Kick(old(st), b)
    {
      var o := st.blocks[b].bo.value;
      st := st.(blocks := st.blocks[b := st.blocks[b].(onHardware := false)]);
      ghost var s1 := st;
      FreeBlock(b, false);
      KickSteps(old(st), b, o, s1, st);
      st := st.(bos := st.bos[o := KickedFlags(st.bos[o])]);
    }

    /** drm_intel_fake_kick_all_locked: nothing stays on the hardware or validated, no buffer loses
        its contents, and those of the buffers kicked are in their backing stores. */
    method KickAll()
      requires Running(st, {})
      modifies this`st
      ensures Running(st, {}) && Kicking(old(st), st) && st.onHw == [] && ExactlyIn(st, {})
      ensures forall x :: x in old(st).bos && OnHardware(old(st), x) ==>
        x in st.bos && st.bos[x].block.None? && (Contents(st, x).Some? ==> Contents(st, x) == st.bos[x].backing)
    {
      st := st.(rendered := false);
      KickStart(old(st), st);
      while st.onHw != []
        invariant Kicking(old(st), st) == true
        decreases |st.onHw|
      {
        HwHead(st);
        KickShrinks(st, st.onHw[0]);
        KickRound(old(st), st);
        KickBlock(st.onHw[0]);
      }
      KickEnd(old(st), st);
      forall x | x in old(st).bos && OnHardware(old(st), x)
        ensures x in st.bos && st.bos[x].block.None? && (Contents(st, x).Some? ==> Contents(st, x) == st.bos[x].backing)
      {
        KickedHome(old(st), st, x);
      }
    }

    /** fence_blocks */
    method FenceBlocks(e: nat, ghost s0: State)
      requires Fencing(s0, st) && e == st.issued >= 1
      modifies this`st
      ensures Fencing(s0, st) && st.onHw == []
    {
      while st.onHw != []
        invariant Fencing(s0, st) == true && st.issued == e
        decreases |st.onHw|
      {
        var b := st.onHw[0];
        FenceRound(s0, st);
        st := st.(blocks := st.blocks[b := st.blocks[b].(fence := Cookie(e), emission := e, onHardware := false,
          fenced := true)],
                  onHw := Without(st.onHw, b), fenced := st.fenced + [b]);
      }
    }

    /** drm_intel_fake_calculate_domains: the write flags become those of every relocation reached. */
    method CalculateDomains(o: BoId, ghost g: set<BoId>, ghost rank: BoId -> nat)
      requires Graph(st, g, rank) && o in g
      modifies this`st
      ensures Flagged(old(st), st, MarkSet(old(st), o))
      decreases rank(o), 1
    {
      assert GraphNode(st, o, g, rank) == true;
      FlagsNone(st, o);
      var i, n := 0, |st.bos[o].relocs|;
      while i < n
        invariant o in old(st).bos && i <= n == |old(st).bos[o].relocs|
        invariant Flagged(old(st), st, MarkSetUpTo(old(st), o, i)) == true
      {
        DomainsOf(o, i, old(st), g, rank);
        i := i + 1;
      }
      FlagsDone(old(st), o);
    }

    /** One round of the loop of calculate_domains. */
    method DomainsOf(o: BoId, i: nat, ghost s0: State, ghost g: set<BoId>, ghost rank: BoId -> nat)
      requires Graph(s0, g, rank) && o in g && o in s0.bos && i < |s0.bos[o].relocs|
      requires Flagged(s0, st, MarkSetUpTo(s0, o, i))
      modifies this`st
      ensures Flagged(s0, st, MarkSetUpTo(s0, o, i + 1)) == true
      decreases rank(o), 0
    {
      assert GraphNode(s0, o, g, rank) == true;
      FlaggedGraph(s0, st, MarkSetUpTo(s0, o, i), g, rank);
      var r := st.bos[o].relocs[i];
      assert GraphNode(s0, r.target, g, rank) == true;
      CalculateDomains(r.target, g, rank);
      ghost var u := st;
      st := st.(bos := st.bos[r.target := st.bos[r.target].(write := st.bos[r.target].write || r.write)]);
      FlagOne(s0, old(st), u, st, o, i);
    }

    /** drm_intel_bo_fake_post_submit */
    method PostSubmit(o: BoId, ghost g: set<BoId>, ghost rank: BoId -> nat)
      requires Graph(st, g, rank) && Down(st, g) && o in g && o in st.bos
      modifies this`st
      ensures Lowered(old(st), st, g) && Down(st, g) && o in st.bos && !st.bos[o].validated
      decreases rank(o), 1
    {
      var i, n := 0, |st.bos[o].relocs|;
      while i < n
        invariant o in st.bos && i <= n == |st.bos[o].relocs| && TargetsDown(st, o, i) == true
        invariant Lowered(old(st), st, g) == true && Down(st, g) == true
      {
        TakeDown(o, i, old(st), g, rank);
        i := i + 1;
      }
      LowerOne(st, st.(bos := st.bos[o := st.bos[o].(validated := false, write := false)]), o, g);
      LoweredTrans(old(st), st, st.(bos := st.bos[o := st.bos[o].(validated := false, write := false)]), g);
      st := st.(bos := st.bos[o := st.bos[o].(validated := false, write := false)]);
    }

    /** One round of the loop of post_submit. */
    method TakeDown(o: BoId, i: nat, ghost s0: State, ghost g: set<BoId>, ghost rank: BoId -> nat)
      requires Graph(s0, g, rank) && o in g && o in st.bos && i < |st.bos[o].relocs| && TargetsDown(st, o, i)
      requires Lowered(s0, st, g) && Down(st, g)
      modifies this`st
      ensures o in st.bos && st.bos[o].relocs == old(st).bos[o].relocs && TargetsDown(st, o, i + 1) == true
      ensures Lowered(s0, st, g) == true && Down(st, g) == true
      decreases rank(o), 0
    {
      var y := st.bos[o].relocs[i].target;
      LoweredGraph(s0, st, g, rank);
      assert GraphNode(st, o, g, rank) == true && GraphNode(st, y, g, rank) == true;
      if st.bos[y].validated {
        PostSubmit(y, g, rank);
        LoweredTrans(s0, old(st), st, g);
        LowerChild(old(st), st, o, g, i);
      }
    }

    /** Validate the batch and all it uses; when there is no room, kick everything off the
        card and try once more. */
    method Prepare(o: BoId, ghost s0: State, ghost h: set<BoId>, ghost rank: BoId -> nat) returns (ret: int)
      requires Ready(s0, st, o, h, rank)
      modifies this`st
      ensures Prepared(s0, st, h, ret == 0) && (ret != 0 ==> Stopped(old(st), st, h, ret) == true)
    {
      ret := RelocAndValidate(o, h, rank);
      if ret == ABORT {
        NowPrepared(s0, old(st), st, o, h, rank, false);
      } else if st.fail {
        ghost var t := st;
        KickAll();
        ghost var u := st;
        st := st.(fail := false);
        KickedReady(s0, old(st), t, u, st, o, h, rank);
        ghost var v := st;
        ret := Retry(o, s0, h, rank);
        KickedStopped(old(st), t, u, v, st, h, ret);
      } else {
        NowPrepared(s0, old(st), st, o, h, rank, true);
      }
    }

    /** The second attempt. */
    method Retry(o: BoId, ghost s0: State, ghost h: set<BoId>, ghost rank: BoId -> nat) returns (ret: int)
      requires Ready(s0, st, o, h, rank)
      modifies this`st
      ensures Prepared(s0, st, h, ret == 0) && (ret != 0 ==> Stopped(old(st), st, h, ret) == true)
    {
      ret := RelocAndValidate(o, h, rank);
      NowPrepared(s0, old(st), st, o, h, rank, ret == 0);
    }

    /** drm_intel_fake_fence_validated */
    method FenceValidated()
      requires Running(st, {})
      modifies this`st
      ensures FencedUp(old(st), st)
    {
      var e := FenceEmit();
      ghost var s1 := st;
      FenceStart(st);
      FenceBlocks(e, s1);
      FenceEnd(old(st), s1, st);
    }

    /** drm_intel_fake_bo_exec with a successful callback.  `exec` is what the card makes of its
        memory; `at` is the state in which it gets the batch.  A nonzero result is an
        assertion that fails: the buffers do not fit even on an empty card, or one without backing
        store has been marked dirty (ABORT). */
    method Exec(o: BoId, exec: State -> seq<Byte>, ghost g: set<BoId>, ghost rank: BoId -> nat,
        ghost held: multiset<BoId>)
        returns (ret: int, ghost at: State)
      requires Sound(st, held) && Batch(st, g, rank) && o in g
      requires forall s: State :: Draws(s, Drawn(s), exec(s))
      modifies this`st
      ensures ret == 0 ==> Sound(st, held) && Submitted(old(st), at, o, g) && Executed(old(st), at, exec(at), st)
      ensures ret != 0 ==> Stopped(old(st), st, Used(old(st), g, o), ret) && Running(st, {}) && Keeps(old(st), st, {})
    {
      BatchGraph(st, g, rank, held);
      ret := Submit(o, g, rank, held);
      at := st;
      if ret != 0 {
        return;
      }
      st := st.(card := exec(st));
      assert DrawnFrom(at, st);
      Finish(o, old(st), at, g, rank, held);
    }

    /** The first part of bo_exec: domains, then validation. */
    method Submit(o: BoId, ghost g: set<BoId>, ghost rank: BoId -> nat, ghost held: multiset<BoId>) returns (ret: int)
      requires Sound(st, held) && Graph(st, g, rank) && o in g
      modifies this`st
      ensures SubmitOutcome(old(st), st, o, g, rank, held, ret == 0) == true
      ensures ret != 0 ==> Stopped(old(st), st, Used(old(st), g, o), ret) == true
    {
      SetDomains(o, g, rank);
      ghost var t, h := st, Used(old(st), g, o);
      NowReady(old(st), t, o, g, rank, h);
      ret := Prepare(o, t, h, rank);
      NowHanded(old(st), t, st, o, g, rank, held, h, ret == 0);
      if ret != 0 {
        DomainsStopped(old(st), t, st, o, g, rank, h, ret);
      }
    }

    /** Nothing has been rendered yet, and the write domains of the batch are set. */
    method SetDomains(o: BoId, ghost g: set<BoId>, ghost rank: BoId -> nat)
      requires Quiet(st) && Graph(st, g, rank) && o in g
      modifies this`st
      ensures DomainsSet(old(st), st, o, g, rank)
    {
      st := st.(rendered := false);
      ghost var s1 := st;
      RenderedGraph(old(st), st, g, rank);
      CalculateDomains(o, g, rank);
      NowDomains(old(st), s1, st, o, g, rank);
    }

    /** The last part of bo_exec: fence the buffers and take them down. */
    method Finish(o: BoId, ghost s0: State, ghost at: State, ghost g: set<BoId>, ghost rank: BoId -> nat,
        ghost held: multiset<BoId>)
      requires Handed(s0, at, o, g, rank, held) && DrawnFrom(at, st)
      modifies this`st
      ensures Executed(s0, at, old(st).card, st) == true && Sound(st, held) == true
    {
      SubmittedRunning(s0, at, st, o, g);
      FenceValidated();
      LowerBatch(o, s0, at, old(st), g, rank, held);
    }

    /** post_submit for the batch. */
    method LowerBatch(o: BoId, ghost s0: State, ghost at: State, ghost d: State, ghost g: set<BoId>,
        ghost rank: BoId -> nat, ghost held: multiset<BoId>)
      requires Handed(s0, at, o, g, rank, held) && DrawnFrom(at, d) && FencedUp(d, st)
      modifies this`st
      ensures Executed(s0, at, d.card, st) == true && Sound(st, held) == true
    {
      FencedDown(s0, at, d, st, o, g, rank);
      PostSubmit(o, Used(s0, g, o), rank);
      ExecutedEnd(s0, at, d, old(st), st, o, g, rank, held);
    }

    /** Between calls the card may go on with batches whose fence has not passed: it leaves `card`. */
    method CardGoesOn(card: seq<Byte>, ghost held: multiset<BoId>)
      requires Sound(st, held) && Draws(st, Pending(st), card)
      modifies this`st
      ensures Sound(st, held) && st == old(st).(card := card) && Keeps(old(st), st, Pending(old(st)))
      ensures forall x :: x in old(st).bos && x !in Pending(old(st)) ==> Contents(st, x) == Contents(old(st), x)
    {
      LateSound(st, st.(card := card), held);
      st := st.(card := card);
    }

    // ----- the rest of the interface

    /** drm_intel_fake_bo_alloc, for an alignment of 2^align2. */
    method BoAlloc(size: nat, align2: nat, ghost held: multiset<BoId>) returns (o: BoId)
      requires Sound(st, held) && size != 0
      modifies this`st
      ensures Sound(st, held + multiset{o}) && o !in old(st).bos
      ensures st.bos == old(st).bos[o := Fresh(size, align2)]
      ensures forall x :: x in old(st).bos ==> Contents(st, x) == Contents(old(st), x)
    {
      o := st.nextBo;
      var bo := Bo(size, align2, false, 1, false, false, None, None, false, false, 0, Unmapped, [], -1, false);
      st := st.(bos := st.bos[o := bo], nextBo := o + 1);
      FreshQuiet(old(st), st, size, align2);
      FreshRefs(old(st), st, size, align2, held);
      FreshMapsOk(old(st), st, o, size, align2);
    }

    /** drm_intel_bo_fake_disable_backing_store */
    method DisableBackingStore(o: BoId, ghost held: multiset<BoId>)
      requires Sound(st, held) && o in st.bos
      modifies this`st
      ensures Sound(st, held) && EvolvesBut(old(st), st, o)
      ensures st == old(st).(bos := old(st).bos[o := Disabled(old(st).bos[o])])
    {
      DisableSound(st, st.(bos := st.bos[o := Disabled(st.bos[o])]), o, held);
      st := st.(bos := st.bos[o := Disabled(st.bos[o])]);
    }

    /** drm_intel_fake_bo_map: the CPU gets to see the contents. */
    method BoMap(o: BoId, write: bool, ghost held: multiset<BoId>) returns (ret: int)
      requires Sound(st, held) && o in st.bos
      modifies this`st
      ensures Sound(st, held) && EvolvesBut(old(st), st, o) && st.bos[o].mapCount == old(st).bos[o].mapCount + 1
      ensures Contents(old(st), o).Some? ==> Contents(st, o) == Contents(old(st), o)
      ensures old(st).bos[o].mapCount == 0 && !old(st).bos[o].noBacking ==>
        ret == 0 && MappedFields(old(st).bos[o], st.bos[o], write) == true
        && (st.bos[o].written ==> Contents(st, o).Some? && Contents(st, o) == st.bos[o].backing)
        && KeepsCopy(old(st), st, o)
      ensures ret != 0 <==> old(st).bos[o].mapCount == 0 && old(st).bos[o].noBacking && old(st).bos[o].block.None?
                            && AllHwBlocked(old(st), old(st).bos[o])
      ensures ret == 0 ==>
        (st.bos[o].virt != Unmapped <==> old(st).bos[o].mapCount == 0 || old(st).bos[o].virt != Unmapped)
      ensures ret != 0 ==> st.bos[o].virt == old(st).bos[o].virt
      ensures old(st).bos[o].mapCount > 0 ==> st == old(st).(bos := old(st).bos[o := Deeper(old(st).bos[o])])
    {
      ret := MapLocked(o, write);
      MapSound(old(st), st, o, held);
    }

    /** drm_intel_fake_bo_unmap */
    method BoUnmap(o: BoId, ghost held: multiset<BoId>)
      requires Sound(st, held) && o in st.bos && st.bos[o].mapCount != 0
      modifies this`st
      ensures Sound(st, held) && EvolvesBut(old(st), st, o) && Contents(st, o) == Contents(old(st), o)
      ensures st.bos[o].mapCount == old(st).bos[o].mapCount - 1
    {
      UnmapLocked(o);
      UnmapSound(old(st), st, o, held);
    }

    /** A CPU store through a write mapping. */
    method Store(o: BoId, offset: nat, data: seq<Byte>, ghost held: multiset<BoId>)
      requires Sound(st, held) && o in st.bos && st.bos[o].virt == Backing && st.bos[o].dirty && st.bos[o].written
      requires !st.bos[o].noBacking
      requires offset + |data| <= st.bos[o].size && MissesSlots(st.bos[o].relocs, offset, |data|)
      modifies this`st
      ensures Sound(st, held) && EvolvesBut(old(st), st, o) && Contents(old(st), o).Some?
      ensures offset + |data| <= |Contents(old(st), o).value|
      ensures Contents(st, o) == Some(Overwrite(Contents(old(st), o).value, offset, data))
      ensures st.bos[o] == old(st).bos[o].(backing := st.bos[o].backing)
    {
      StoreReady(st, o);
      var bo := st.bos[o];
      st := st.(bos := st.bos[o := bo.(backing := Some(Overwrite(bo.backing.value, offset, data)))]);
      StoreSound(old(st), st, o, offset, data, held);
    }

    /** The store and the two unmappings. */
    method StoreNested(o: BoId, data: seq<Byte>)
      requires o in st.bos && st.bos[o].mapCount == 2
      modifies this`st
      ensures st == old(st).(bos := old(st).bos[o := OneUnmapped(OneUnmapped(old(st).bos[o].(backing := Some(data))))])
    {
      st := st.(bos := st.bos[o := st.bos[o].(backing := Some(data))]);
      UnmapLocked(o);
      assert st.bos[o].mapCount == 1;
      UnmapLocked(o);
    }

    /** A client maps a buffer twice, stores `data` over all of it, and unmaps it twice.  The store is the
        contents if the buffer was dirty or the outer mapping was for writing; otherwise the manager knows
        nothing of it: all is as it should be but for the backing store. */
    method NestedStore(o: BoId, first: bool, second: bool, data: seq<Byte>, ghost held: multiset<BoId>)
      requires Sound(st, held) && o in st.bos && st.bos[o].mapCount == 0 && st.bos[o].written && !st.bos[o].noBacking
      requires |data| == st.bos[o].size
      modifies this`st
      ensures o in st.bos && NestedRecord(old(st).bos[o], st.bos[o], first, data) && KeepsCopy(old(st), st, o)
      ensures (old(st).bos[o].dirty || first) && KeepsSlots(old(st).bos[o].relocs, data) ==>
        Sound(st, held) && Contents(st, o) == Some(data)
      ensures Sound(Unstored(st, o, Contents(old(st), o)), held)
    {
      MapTwice(o, first, second, held);
      ghost var s2 := st;
      StoreNested(o, data);
      NestedSteps(old(st), s2, st, o, first, data);
      NestedSound(s2, st, o, data, held);
    }

    /** The same, followed by bo_validate: the card gets the data exactly in these cases, and otherwise keeps
        the old bytes.  It fails only when there is no room for a buffer that is not on the card. */
    method NestedRun(o: BoId, first: bool, second: bool, data: seq<Byte>, ghost held: multiset<BoId>)
      returns (ret: int)
      requires Sound(st, held) && o in st.bos && st.bos[o].mapCount == 0 && st.bos[o].written && !st.bos[o].noBacking
      requires |data| == st.bos[o].size && Contents(st, o) != Some(data) && st.bos[o].relocs == []
      modifies this`st
      ensures ret != 0 ==> ret == -1 && old(st).bos[o].block.None?
      ensures ret == 0 ==> o in st.bos && st.bos[o].validated && HasBlock(st, o)
      ensures ret == 0 ==> (CardCopy(st, o) == data <==> old(st).bos[o].dirty || first)
      ensures ret == 0 && !old(st).bos[o].dirty && !first ==> Contents(old(st), o) == Some(CardCopy(st, o))
    {
      ghost var lost := !st.bos[o].dirty && !first;
      if lost {
        CleanOnCard(st, o, held);
      }
      NestedStore(o, first, second, data, held);
      if !lost {
        SoundCanValidate(st, o, held);
      }
      ret := Validate(o);
      if !lost && ret == 0 {
        ValidatedShows(st, o);
      }
    }

    method MapTwice(o: BoId, first: bool, second: bool, ghost held: multiset<BoId>)
      requires Sound(st, held) && o in st.bos && st.bos[o].mapCount == 0 && !st.bos[o].noBacking
      modifies this`st
      ensures Sound(st, held) && o in st.bos
      ensures MappedDeeper(old(st).bos[o], st.bos[o], first) && KeepsCopy(old(st), st, o)
      ensures old(st).bos[o].written ==> st.bos[o].backing == Contents(old(st), o)
    {
      WrittenContents(st, o);
      var ret := BoMap(o, first, held);
      ghost var s1 := st;
      ret := BoMap(o, second, held);
      MappedCopy(s1, st, o);
    }

    /** A buffer is mapped twice.  The second call succeeds in any case, but there is a mapping only if the
        first one did. */
    method MapAgain(o: BoId, first: bool, second: bool, ghost held: multiset<BoId>) returns (ret1: int, ret2: int)
      requires Sound(st, held) && o in st.bos && st.bos[o].mapCount == 0
      modifies this`st
      ensures Sound(st, held) && o in st.bos && st.bos[o].mapCount == 2 && ret2 == 0
      ensures st.bos[o].virt != Unmapped <==> ret1 == 0
      ensures ret1 != 0 <==>
        old(st).bos[o].noBacking && old(st).bos[o].block.None? && AllHwBlocked(old(st), old(st).bos[o])
    {
      assert MapsOk(st) == true;
      ret1 := BoMap(o, first, held);
      ret2 := BoMap(o, second, held);
    }

    /** drm_intel_fake_bo_subdata, for a buffer that is not mapped or mapped for writing. */
    method Subdata(o: BoId, offset: nat, data: seq<Byte>, ghost held: multiset<BoId>)
      requires Sound(st, held) && o in st.bos && !st.bos[o].noBacking
      requires offset + |data| <= st.bos[o].size && MissesSlots(st.bos[o].relocs, offset, |data|)
      requires st.bos[o].mapCount > 0 ==> st.bos[o].virt == Backing && st.bos[o].dirty && st.bos[o].written
      modifies this`st
      ensures Sound(st, held) && EvolvesBut(old(st), st, o)
      ensures data == [] ==> st == old(st)
      ensures data != [] ==> Wrote(Contents(old(st), o), Contents(st, o), old(st).bos[o].size, offset, data) == true
    {
      if data == [] {
        EvolvesSelf(st);
        EvolvesIsBut(st, st, o);
        return;
      }
      MapForStore(o, held);
      ghost var s1 := st;
      StoreAndUnmap(o, offset, data, held);
      ButTrans(old(st), s1, st, o);
      WroteThrough(Contents(old(st), o), Contents(s1, o), Contents(st, o), old(st).bos[o].size, offset, data);
    }

    method MapForStore(o: BoId, ghost held: multiset<BoId>)
      requires Sound(st, held) && o in st.bos && !st.bos[o].noBacking
      requires st.bos[o].mapCount > 0 ==> st.bos[o].virt == Backing && st.bos[o].dirty && st.bos[o].written
      modifies this`st
      ensures Sound(st, held) && EvolvesBut(old(st), st, o) == true && o in st.bos && st.bos[o].mapCount > 0
      ensures !st.bos[o].noBacking && st.bos[o].virt == Backing && st.bos[o].dirty && st.bos[o].written
      ensures st.bos[o].size == old(st).bos[o].size && st.bos[o].relocs == old(st).bos[o].relocs
      ensures Contents(old(st), o).Some? ==> Contents(st, o) == Contents(old(st), o)
    {
      var ret := BoMap(o, true, held);
    }

    /** The memcpy and the unmapping of subdata. */
    method StoreAndUnmap(o: BoId, offset: nat, data: seq<Byte>, ghost held: multiset<BoId>)
      requires Sound(st, held) && o in st.bos && st.bos[o].mapCount > 0 && !st.bos[o].noBacking
      requires st.bos[o].virt == Backing && st.bos[o].dirty && st.bos[o].written
      requires offset + |data| <= st.bos[o].size && MissesSlots(st.bos[o].relocs, offset, |data|)
      modifies this`st
      ensures Sound(st, held) && EvolvesBut(old(st), st, o) && Contents(old(st), o).Some?
      ensures |Contents(old(st), o).value| == old(st).bos[o].size
      ensures Contents(st, o) == Some(Overwrite(Contents(old(st), o).value, offset, data))
    {
      StoreReady(st, o);
      Store(o, offset, data, held);
      ghost var s2 := st;
      BoUnmap(o, held);
      ButTrans(old(st), s2, st, o);
    }

    /** drm_intel_fake_emit_reloc.  The client has stored the address at which the target
        was last placed in the slot. */
    method EmitReloc(o: BoId, offset: nat, target: BoId, delta: int, write: bool, ghost held: multiset<BoId>)
      requires Sound(st, held) && target in st.bos
      requires CanEmit(st, o, Reloc(target, offset, st.bos[target].offset, delta, write))
      modifies this`st
      ensures Sound(st, held) && SameContents(old(st), st) == true
      ensures st == Emitted(old(st), o, Reloc(target, offset, old(st).bos[target].offset, delta, write))
    {
      AddReloc(o, Reloc(target, offset, st.bos[target].offset, delta, write), held);
    }

    /** emit_reloc with the lock held. */
    method AddReloc(o: BoId, r: Reloc, ghost held: multiset<BoId>)
      requires Sound(st, held) && CanEmit(st, o, r)
      modifies this`st
      ensures Sound(st, held) && SameContents(old(st), st) == true && st == Emitted(old(st), o, r)
    {
      EmitSound(st, o, r, held);
      st := st.(bos := st.bos[o := st.bos[o].(relocs := st.bos[o].relocs + [r])]);
      ghost var s1 := st;
      st := st.(bos := st.bos[r.target := st.bos[r.target].(refcount := st.bos[r.target].refcount + 1)]);
      EmittedSteps(old(st), s1, o, r, st);
    }

    /** drm_intel_fake_bo_reference */
    method BoReference(o: BoId, ghost held: multiset<BoId>)
      requires Sound(st, held) && o in st.bos
      modifies this`st
      ensures Sound(st, held + multiset{o}) && Released(old(st), st)
      ensures st == old(st).(bos := old(st).bos[o := old(st).bos[o].(refcount := old(st).bos[o].refcount + 1)])
    {
      AddOneQuiet(st, st.(bos := st.bos[o := st.bos[o].(refcount := st.bos[o].refcount + 1)]), o, held);
      st := st.(bos := st.bos[o := st.bos[o].(refcount := st.bos[o].refcount + 1)]);
    }

    /** drm_intel_fake_bo_unreference */
    method BoUnreference(o: BoId, ghost held: multiset<BoId>)
      requires Sound(st, held) && o in held && MapsHeld(st, held - multiset{o})
      modifies this`st
      ensures Sound(st, held - multiset{o}) && Released(old(st), st)
    {
      UnreferenceLocked(o, held);
      ReleasedMapsOk(old(st), st);
    }

    /** drm_intel_fake_bo_unreference_locked: drop one reference; a buffer without references
        is freed and releases the targets of its relocations. */
    method UnreferenceLocked(o: BoId, ghost ext: multiset<BoId>)
      requires Quiet(st) && RefsOk(st, ext) && o in ext && MapsHeld(st, ext - multiset{o})
      modifies this`st
      ensures Quiet(st) && RefsOk(st, ext - multiset{o}) && Released(old(st), st) && MapsHeld(st, ext - multiset{o})
      ensures |st.bos| <= |old(st).bos|
      decreases |st.bos|, 1
    {
      ReferenceLives(st, o, ext);
      if st.bos[o].refcount > 1 {
        DropReference(o, ext);
        return;
      }
      var ts := TargetsOf(st.bos[o].relocs);
      ReleaseStart(st, Gone(st, o), o, ext);
      FreeBo(o);
      ReleaseTargets(ts, ext - multiset{o}, old(st));
      ReleaseEnd(old(st), st, ext - multiset{o}, ts);
    }

    method DropReference(o: BoId, ghost ext: multiset<BoId>)
      requires Quiet(st) && RefsOk(st, ext) && o in ext && MapsHeld(st, ext - multiset{o}) && o in st.bos
      requires st.bos[o].refcount > 1
      modifies this`st
      ensures Quiet(st) && RefsOk(st, ext - multiset{o}) && Released(old(st), st) && MapsHeld(st, ext - multiset{o})
      ensures |st.bos| == |old(st).bos|
    {
      ghost var t := st.(bos := st.bos[o := st.bos[o].(refcount := st.bos[o].refcount - 1)]);
      DropOneQuiet(st, t, o, ext);
      st := st.(bos := st.bos[o := st.bos[o].(refcount := st.bos[o].refcount - 1)]);
    }

    /** The loop of unreference_locked. */
    method ReleaseTargets(ts: seq<BoId>, ghost ext: multiset<BoId>, ghost s0: State)
      requires Releasing(s0, st, ext, ts, 0)
      modifies this`st
      ensures Releasing(s0, st, ext, ts, |ts|) && |st.bos| <= |old(st).bos|
      decreases |st.bos|, 2
    {
      var i := 0;
      while i < |ts|
        invariant i <= |ts| && Releasing(s0, st, ext, ts, i) == true && |st.bos| <= |old(st).bos|
      {
        ReleaseCall(s0, st, ext, ts, i);
        ghost var t := st;
        UnreferenceLocked(ts[i], ext + multiset(ts[i..]));
        ReleaseNext(s0, t, st, ext, ts, i);
        i := i + 1;
      }
    }

    /** Give back the block, or leave it to its fence, and the buffer itself. */
    method FreeBo(o: BoId)
      requires o in st.bos
      requires st.bos[o].block.Some? ==>
        HasOwner(st, st.bos[o].block.value) && st.blocks[st.bos[o].block.value].bo == Some(o)
      modifies this`st
      ensures st == Gone(old(st), o)
    {
      if st.bos[o].block.Some? {
        FreeBlock(st.bos[o].block.value, true);
      }
      st := st.(bos := st.bos - {o});
    }
  }
}
