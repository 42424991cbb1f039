/** What the card draws while a batch runs, and post_submit afterwards. */
module FakeDraw {
  import opened MmLayout
  import opened FakeState
  import opened FakeSteps
  import opened FakeContents
  import opened FakePlacement
  import opened FakeMapping
  import opened FakeReloc
  import opened FakeAdvance
  import opened FakeValidate
  import opened FakeExec
  import opened FakeKick
  import opened FakeSubmit

  // ----- drawing

  /** The card may write address `k` for buffer `x` of `d`: it lies in its block, outside its
      relocation slots. */
  ghost predicate Drawable(s: State, d: set<BoId>, x: BoId, k: int)
  {
    && x in d && x in s.bos && s.bos[x].cardDirty && HasBlock(s, x)
    && s.blocks[s.bos[x].block.value].ofs <= k < s.blocks[s.bos[x].block.value].ofs + s.bos[x].size
    && !InSlot(s.bos[x].relocs, k - s.blocks[s.bos[x].block.value].ofs)
  }

  /** The address lies in a block that lost its buffer before its fence passed. */
  ghost predicate Abandoned(s: State, b: BlockId, k: int)
  {
    b in s.fenced && b in s.blocks && s.blocks[b].bo.None? && s.blocks[b].ofs <= k < s.blocks[b].ofs + s.blocks[b].size
  }

  ghost predicate DrawableAt(s: State, d: set<BoId>, k: int)
  {
    (exists x :: Drawable(s, d, x, k)) || (exists b :: Abandoned(s, b, k))
  }

  /** `card` is card memory after the card has drawn to buffers of `d`. */
  ghost predicate Draws(s: State, d: set<BoId>, card: seq<Byte>)
  {
    && |card| == |s.card|
    && (forall k :: 0 <= k < |card| && card[k] != s.card[k] ==> DrawableAt(s, d, s.lo + k))
  }

  /** The buffers a batch draws to. */
  ghost function Drawn(s: State): set<BoId>
  {
    set x | x in s.bos && s.bos[x].validated && s.bos[x].cardDirty
  }

  /** The buffers that batches which are not done yet may still draw to. */
  ghost function Pending(s: State): set<BoId>
  {
    set x | x in s.bos && s.bos[x].cardDirty && s.bos[x].block.Some? && s.bos[x].block.value in s.fenced
  }

  /** An address in the block of `x` can be drawn at only for `x`. */
  lemma DrawnFor(s: State, d: set<BoId>, x: BoId, at: int)
    requires Struct(s) && x in s.bos && HasBlock(s, x) && DrawableAt(s, d, at)
    requires s.blocks[s.bos[x].block.value].ofs <= at < s.blocks[s.bos[x].block.value].ofs + s.bos[x].size
    ensures Drawable(s, d, x, at)
  {
    if y :| Drawable(s, d, y, at) {
      if y != x {
        CopiesApart(s, x, y);
      }
    } else {
      var b :| Abandoned(s, b, at);
      NotAbandoned(s, x, b, at);
    }
  }

  lemma CopyByte(s: State, x: BoId, card: seq<Byte>, j: nat, k: nat)
    requires x in s.bos && HasBlock(s, x) && j < s.bos[x].size && |card| == |s.card|
    requires k == s.blocks[s.bos[x].block.value].ofs - s.lo + j
    ensures HasBlock(s.(card := card), x) && k < |card|
    ensures CardCopy(s, x)[j] == s.card[k] && CardCopy(s.(card := card), x)[j] == card[k]
  {
  }

  /** A byte of the card memory of `x` changes only if `x` itself may be drawn there. */
  lemma DrawnByte(s: State, d: set<BoId>, card: seq<Byte>, x: BoId, j: nat)
    requires Struct(s) && Draws(s, d, card) && x in s.bos && HasBlock(s, x) && j < s.bos[x].size
    ensures var t := s.(card := card);
      && HasBlock(t, x)
      && (CardCopy(t, x)[j] == CardCopy(s, x)[j] || (x in d && s.bos[x].cardDirty && !InSlot(s.bos[x].relocs, j)))
  {
    var ofs := s.blocks[s.bos[x].block.value].ofs;
    var k: nat := ofs - s.lo + j;
    CopyByte(s, x, card, j, k);
    if card[k] != s.card[k] {
      assert DrawableAt(s, d, s.lo + k);
      DrawnFor(s, d, x, s.lo + k);
      assert s.lo + k - ofs == j;
    }
  }

  /** No buffer lies in an abandoned block. */
  lemma NotAbandoned(s: State, x: BoId, b: BlockId, k: int)
    requires Struct(s) && x in s.bos && HasBlock(s, x) && Abandoned(s, b, k)
    ensures !(s.blocks[s.bos[x].block.value].ofs <= k < s.blocks[s.bos[x].block.value].ofs + s.bos[x].size)
  {
    assert s.blocks[s.bos[x].block.value].bo == Some(x);
    BlocksDisjoint(s, s.bos[x].block.value, b);
  }

  lemma DrawnCopy(s: State, d: set<BoId>, card: seq<Byte>, x: BoId)
    requires Struct(s) && Draws(s, d, card) && x in s.bos && HasBlock(s, x)
    ensures HasBlock(s.(card := card), x)
    ensures x !in d || !s.bos[x].cardDirty ==> CardCopy(s.(card := card), x) == CardCopy(s, x)
    ensures forall j :: 0 <= j < s.bos[x].size && InSlot(s.bos[x].relocs, j) ==>
      CardCopy(s.(card := card), x)[j] == CardCopy(s, x)[j]
  {
    forall j | 0 <= j < s.bos[x].size
      ensures CardCopy(s.(card := card), x)[j] == CardCopy(s, x)[j]
        || (x in d && s.bos[x].cardDirty && !InSlot(s.bos[x].relocs, j))
    {
      DrawnByte(s, d, card, x, j);
    }
  }

  /** Bytes that agree in the slots give the same slots. */
  lemma SlotsKept(c: seq<Byte>, d: seq<Byte>, rs: seq<Reloc>, i: nat)
    requires i < |rs| && |d| == |c| && SlotOk(c, rs[i])
    requires forall j :: 0 <= j < |c| && InSlot(rs, j) ==> d[j] == c[j]
    ensures SlotOk(d, rs[i])
  {
    var at := rs[i].offset;
    forall j | at <= j < at + 4 ensures d[j] == c[j] {
      assert InSlot(rs, j);
    }
    assert Slot(d, at) == Slot(c, at);
  }

  lemma DrawBo(s: State, d: set<BoId>, t: State, x: BoId)
    requires Struct(s) && Draws(s, d, t.card) && t == s.(card := t.card) && x in s.bos && Coherent(s, x)
    requires RelocsOk(s, x)
    ensures Coherent(t, x) && RelocsOk(t, x) && (x !in d ==> Contents(t, x) == Contents(s, x))
  {
    assert HasBlock(t, x) == HasBlock(s, x);
    if HasBlock(s, x) {
      DrawnCopy(s, d, t.card, x);
    }
    DrawRelocs(s, t, x);
  }

  lemma DrawRelocs(s: State, t: State, x: BoId)
    requires t == s.(card := t.card) && |t.card| == |s.card| && x in s.bos && RelocsOk(s, x)
    requires HasBlock(s, x) ==> forall j :: 0 <= j < s.bos[x].size && InSlot(s.bos[x].relocs, j) ==>
      CardCopy(t, x)[j] == CardCopy(s, x)[j]
    ensures RelocsOk(t, x)
  {
    var rs := s.bos[x].relocs;
    if rs != [] && !s.bos[x].noBacking {
      assert Contents(t, x).Some?;
      var c, d := Contents(s, x).value, Contents(t, x).value;
      assert |c| == |d| && forall j :: 0 <= j < |c| && InSlot(rs, j) ==> d[j] == c[j];
      forall i | 0 <= i < |rs| ensures SlotOk(d, rs[i]) == true {
        assert SlotOk(c, rs[i]) == true;
        SlotsKept(c, d, rs, i);
      }
    }
  }

  /** Drawing changes what the buffers drawn to contain, and nothing else. */
  lemma DrawRunning(s: State, d: set<BoId>, t: State)
    requires Running(s, {}) && Draws(s, d, t.card) && t == s.(card := t.card)
    ensures Running(t, {}) && Keeps(s, t, d)
  {
    BosOnlyOk(s, t);
    forall x | x in s.bos
      ensures Coherent(t, x) == true && RelocsOk(t, x) == true && BoKeeps(s, t, x, x in d) == true
    {
      assert Coherent(s, x) == true && RelocsOk(s, x) == true;
      DrawBo(s, d, t, x);
      SlotsOnlySame(Contents(s, x), s.bos[x].relocs);
    }
    DrawPlaced(s, t);
  }

  /** A batch that is not done yet goes on drawing: only buffers whose fence is pending change, and so
      the contents of a buffer that can be evicted, or has been waited for, do not. */
  lemma LateDraw(s: State, t: State)
    requires Quiet(s) && Draws(s, Pending(s), t.card) && t == s.(card := t.card)
    ensures Quiet(t) && Keeps(s, t, Pending(s))
    ensures forall x :: x in s.bos && x !in Pending(s) ==> Contents(t, x) == Contents(s, x)
  {
    DrawRunning(s, Pending(s), t);
    forall x | x in s.bos && x !in Pending(s) ensures Contents(t, x) == Contents(s, x) {
      assert Coherent(s, x) == true && RelocsOk(s, x) == true;
      DrawBo(s, Pending(s), t, x);
    }
    assert Idle(t);
  }

  /** What eviction takes is not drawn to any more. */
  lemma EvictedIsSettled(s: State, b: BlockId)
    requires Struct(s) && b in s.lru
    ensures s.blocks[b].bo.Some? && s.blocks[b].bo.value !in Pending(s)
  {
    var o := s.blocks[b].bo.value;
    assert s.bos[o].block == Some(b);
  }

  /** Nor is what has been waited for. */
  lemma WaitedIsSettled(s: State, o: BoId)
    requires Struct(s) && o in s.bos && Quiescent(s, o)
    ensures o !in Pending(s)
  {
  }

  lemma DrawPlaced(s: State, t: State)
    requires AllPlaced(s) && ClashOnly(s, {}) && t == s.(card := t.card) && |t.card| == |s.card|
    ensures AllPlaced(t) && ClashOnly(t, {})
  {
    forall x | x in t.bos ensures Placed(t, x) == true {
      assert Placed(s, x) == true;
      if s.bos[x].validated {
        assert TargetsReady(s, x, |s.bos[x].relocs|) == true;
        assert TargetsReady(t, x, |t.bos[x].relocs|);
      }
    }
    assert forall x :: x in s.bos && NoClash(s, x) ==> NoClash(t, x);
  }

  // ----- post_submit

  /** Below a buffer already taken down, everything is down. */
  ghost predicate Down(s: State, g: set<BoId>)
  {
    DownFacts(s, g) == true
  }

  ghost predicate DownFacts(s: State, g: set<BoId>)
  {
    && (forall x :: x in g && x in s.bos && !s.bos[x].validated ==> !s.bos[x].write)
    && (forall x, y :: x in g && x in s.bos && y in s.bos && !s.bos[x].validated && Edge(s, x, y) ==>
      !s.bos[y].validated)
  }

  /** Some buffers of `g` have been taken down. */
  ghost predicate Lowered(s: State, t: State, g: set<BoId>)
  {
    LoweredFacts(s, t, g) == true
  }

  ghost predicate LoweredFacts(s: State, t: State, g: set<BoId>)
  {
    && t == s.(bos := t.bos) && t.bos.Keys == s.bos.Keys
    && (forall x :: x in s.bos ==>
      t.bos[x] == s.bos[x] || (x in g && t.bos[x] == s.bos[x].(validated := false, write := false)))
  }

  lemma LoweredTrans(s: State, t: State, u: State, g: set<BoId>)
    requires Lowered(s, t, g) && Lowered(t, u, g)
    ensures Lowered(s, u, g)
  {
  }

  lemma LoweredEdges(s: State, t: State, g: set<BoId>)
    requires Lowered(s, t, g)
    ensures SameEdges(s, t)
  {
    forall x | x in s.bos ensures SameRelocs(s.bos[x].relocs, t.bos[x].relocs) == true {
    }
  }

  /** The first `n` targets of `o` are down. */
  ghost predicate TargetsDown(s: State, o: BoId, n: nat)
    requires o in s.bos && n <= |s.bos[o].relocs|
  {
    TargetsDownFacts(s, o, n) == true
  }

  ghost predicate TargetsDownFacts(s: State, o: BoId, n: nat)
    requires o in s.bos && n <= |s.bos[o].relocs|
  {
    forall i :: 0 <= i < n ==> s.bos[o].relocs[i].target in s.bos && !s.bos[s.bos[o].relocs[i].target].validated
  }

  lemma LowerChild(t: State, u: State, o: BoId, g: set<BoId>, n: nat)
    requires o in t.bos && n <= |t.bos[o].relocs| && TargetsDown(t, o, n) && Lowered(t, u, g)
    ensures o in u.bos && u.bos[o].relocs == t.bos[o].relocs && TargetsDown(u, o, n)
  {
    forall i | 0 <= i < n ensures u.bos[o].relocs[i].target in u.bos && !u.bos[u.bos[o].relocs[i].target].validated {
      assert t.bos[o].relocs[i].target in t.bos;
    }
  }

  /** Taking `o` down after its targets. */
  lemma LowerOne(s: State, t: State, o: BoId, g: set<BoId>)
    requires o in g && o in s.bos && Down(s, g) && TargetsDown(s, o, |s.bos[o].relocs|)
    requires t == s.(bos := s.bos[o := s.bos[o].(validated := false, write := false)])
    ensures Lowered(s, t, g) && Down(t, g)
  {
    forall x, y | x in g && x in t.bos && y in t.bos && !t.bos[x].validated && Edge(t, x, y)
      ensures !t.bos[y].validated
    {
      if x != o {
        assert Edge(s, x, y);
      } else {
        var i :| 0 <= i < |t.bos[o].relocs| && t.bos[o].relocs[i].target == y;
        assert !s.bos[s.bos[o].relocs[i].target].validated;
      }
    }
  }

  /** Once the batch itself is down, so is all it uses. */
  lemma AllDown(s: State, g: set<BoId>, rank: BoId -> nat, o: BoId, x: BoId)
    requires Graph(s, g, rank) && Down(s, g) && o in g && o in s.bos && !s.bos[o].validated && Reaches(s, o, x)
    ensures x in g && x in s.bos && !s.bos[x].validated && !s.bos[x].write
  {
    var p :| Leads(s, o, p, x);
    var v := set y | y in g && y in s.bos && !s.bos[y].validated;
    forall a, b | a in v && Edge(s, a, b) ensures b in v {
      assert GraphNode(s, a, g, rank) == true;
      var i :| 0 <= i < |s.bos[a].relocs| && s.bos[a].relocs[i].target == b;
      assert GraphNode(s, b, g, rank) == true;
    }
    ReachClosed(s, o, p, x, v);
  }

  lemma FencedRelocs(s: State, t: State)
    requires AllRelocs(s) && t.bos == s.bos && forall x :: x in s.bos ==> Contents(t, x) == Contents(s, x)
    ensures AllRelocs(t)
  {
    forall x | x in t.bos ensures RelocsOk(t, x) {
      assert RelocsOk(s, x) == true;
    }
  }

  lemma LowerBo(s: State, t: State, g: set<BoId>, x: BoId)
    requires Lowered(s, t, g) && OwnersOk(s) && x in s.bos && Coherent(s, x) && NoClash(s, x) && RelocsOk(s, x)
    ensures x in t.bos && Coherent(t, x) && NoClash(t, x) && RelocsOk(t, x)
    ensures Contents(t, x) == Contents(s, x) && BoKeeps(s, t, x, false)
  {
    assert HasBlock(t, x) == HasBlock(s, x);
    assert HasBlock(s, x) ==> CardCopy(t, x) == CardCopy(s, x);
    SlotsOnlySame(Contents(s, x), s.bos[x].relocs);
  }

  /** What taking buffers down leaves of one of them. */
  ghost predicate StillGood(s: State, t: State, x: BoId)
    requires x in s.bos && x in t.bos
  {
    Coherent(t, x) && NoClash(t, x) && RelocsOk(t, x) && Contents(t, x) == Contents(s, x) && BoKeeps(s, t, x, false)
  }

  lemma LoweredAll(s: State, t: State, g: set<BoId>)
    requires OwnersOk(s) && AllCoherent(s) && ClashOnly(s, {}) && AllRelocs(s) && Lowered(s, t, g)
    requires t.bos.Keys == s.bos.Keys
    ensures forall x :: x in s.bos ==> StillGood(s, t, x) == true
  {
    forall x | x in s.bos ensures StillGood(s, t, x) == true {
      assert Coherent(s, x) == true && NoClash(s, x) && RelocsOk(s, x) == true;
      LowerBo(s, t, g, x);
    }
  }

  lemma GoodQuiet(s: State, t: State)
    requires Struct(t) && t.onHw == [] && Idle(t) && t.bos.Keys == s.bos.Keys
    requires forall x :: x in s.bos ==> StillGood(s, t, x) == true
    ensures Quiet(t) && forall x :: x in s.bos ==> Contents(t, x) == Contents(s, x) && BoKeeps(s, t, x, false) == true
  {
    NothingPlaced(t);
    assert AllCoherent(t) && ClashOnly(t, {}) && AllRelocs(t);
  }

  /** The end of an execution: nothing is on the hardware and all buffers are down. */
  lemma LoweredQuiet(s: State, t: State, g: set<BoId>)
    requires Inv(s) && ClashOnly(s, {}) && AllRelocs(s) && s.onHw == [] && Lowered(s, t, g) && Idle(t)
    ensures Quiet(t) && Keeps(s, t, {}) && forall x :: x in s.bos ==> Contents(t, x) == Contents(s, x)
  {
    BosOnlyOk(s, t);
    LoweredAll(s, t, g);
    GoodQuiet(s, t);
  }

  lemma FlagBo(s: State, t: State, m: set<BoId>, x: BoId)
    requires Flagged(s, t, m) && x in s.bos && Coherent(s, x) && NoClash(s, x) && RelocsOk(s, x)
    ensures x in t.bos && Coherent(t, x) && NoClash(t, x) && RelocsOk(t, x) && BoKeeps(s, t, x, false)
    ensures Contents(t, x) == Contents(s, x)
  {
    assert HasBlock(t, x) == HasBlock(s, x);
    assert HasBlock(s, x) ==> CardCopy(t, x) == CardCopy(s, x);
    SlotsOnlySame(Contents(s, x), s.bos[x].relocs);
  }

  lemma HwOwner(s: State)
    requires AllPlaced(s) && ListsOk(s) && s.onHw != []
    ensures exists x :: x in s.bos && s.bos[x].validated
  {
    assert s.onHw[0] in s.onHw;
  }

  lemma HwEmpty(s: State)
    requires AllPlaced(s) && ListsOk(s) && ExactlyIn(s, {})
    ensures s.onHw == []
  {
    if s.onHw != [] {
      HwOwner(s);
    }
  }

  /** Write flags do not matter before anything is validated. */
  lemma FlaggedRunning(s: State, t: State, m: set<BoId>)
    requires Quiet(s) && Flagged(s, t, m)
    ensures Running(t, {}) && Keeps(s, t, {}) && ExactlyIn(t, {})
    ensures forall x :: x in t.bos ==> (t.bos[x].write <==> x in m)
  {
    BosOnlyOk(s, t);
    HwEmpty(s);
    forall x | x in s.bos
      ensures Coherent(t, x) == true && NoClash(t, x) && RelocsOk(t, x) == true && Placed(t, x) == true
      ensures BoKeeps(s, t, x, false) == true
    {
      assert Coherent(s, x) == true && NoClash(s, x) && RelocsOk(s, x) == true;
      FlagBo(s, t, m, x);
    }
    assert AllCoherent(t) && ClashOnly(t, {}) && AllRelocs(t) && AllPlaced(t);
  }

  // ----- the batch as it is submitted

  /** The validated buffers are those of `h`. */
  ghost predicate ExactlyIn(t: State, h: set<BoId>)
  {
    forall x :: x in t.bos ==> (t.bos[x].validated <==> x in h)
  }

  ghost predicate AllReached(s: State, o: BoId, h: set<BoId>)
  {
    forall x :: x in h ==> Reaches(s, o, x)
  }

  /** The state in which the batch `o` is handed to the card: exactly the
      buffers it uses are in place, and exactly those it writes to are marked. */
  ghost predicate Submitted(s: State, at: State, o: BoId, g: set<BoId>)
  {
    SubmittedFacts(s, at, o, g) == true
  }

  ghost predicate SubmittedFacts(s: State, at: State, o: BoId, g: set<BoId>)
  {
    && Running(at, {}) == true && Keeps(s, at, {}) == true
    && ExactlyIn(at, Used(s, g, o)) == true
    && (forall x :: x in at.bos ==> (at.bos[x].write <==> x in MarkSet(s, o)))
  }

  lemma PreparedValid(s: State, t: State, h: set<BoId>, o: BoId)
    requires Settled(s, t, h) && o in t.bos && t.bos[o].validated
    requires ExactlyIn(s, {}) && AllReached(s, o, h)
    ensures ExactlyIn(t, h)
  {
    SettledKeeps(s, t, h);
    KeepsEdges(s, t, {});
    forall x | x in t.bos ensures t.bos[x].validated <==> x in h {
      assert BoAdvance(s, t, x, h) == true;
      if x in h {
        ReachesFrame(s, t, o, x);
        ReachedValidated(t, o, x);
      }
    }
  }

  /** What the card finds: every word the batch follows is the address of its target. */
  lemma SubmittedWords(s: State, at: State, o: BoId, g: set<BoId>, x: BoId, i: nat)
    requires Submitted(s, at, o, g) && x in Used(s, g, o) && x in at.bos && i < |at.bos[x].relocs|
    ensures var r := at.bos[x].relocs[i];
      && HasBlock(at, x) && r.offset + 4 <= at.bos[x].size && r.target in at.bos && HasBlock(at, r.target)
      && Slot(CardCopy(at, x), r.offset) == LeBytes(at.blocks[at.bos[r.target].block.value].ofs + r.delta)
  {
    CardWords(at, x, i);
  }

  /** What the card finds: the contents of every buffer it may read, and the
      buffers it writes to are the ones that will be copied back. */
  lemma SubmittedContents(s: State, at: State, o: BoId, g: set<BoId>, x: BoId)
    requires Submitted(s, at, o, g) && x in Used(s, g, o) && x in at.bos
    ensures HasBlock(at, x) && (Contents(at, x).Some? ==> Contents(at, x) == Some(CardCopy(at, x)))
    ensures Marked(s, o, x) ==> x in Drawn(at)
  {
    assert Placed(at, x) == true && Coherent(at, x) == true;
    PlacedHasBlock(at, x);
  }

  lemma FlaggedGraph(s: State, t: State, m: set<BoId>, g: set<BoId>, rank: BoId -> nat)
    requires Flagged(s, t, m) && Graph(s, g, rank)
    ensures Graph(t, g, rank)
  {
    forall x | x in g ensures GraphNode(t, x, g, rank) == true {
      assert GraphNode(s, x, g, rank) == true;
    }
  }

  lemma LoweredGraph(s: State, t: State, g: set<BoId>, rank: BoId -> nat)
    requires Lowered(s, t, g) && Graph(s, g, rank)
    ensures Graph(t, g, rank)
  {
    forall x | x in g ensures GraphNode(t, x, g, rank) == true {
      assert GraphNode(s, x, g, rank) == true;
    }
  }

  /** Forgetting a failure. */
  lemma FailRunning(s: State, t: State)
    requires Running(s, {}) && t == s.(fail := t.fail)
    ensures Running(t, {})
  {
    FailOnly(s, t);
    forall x | x in t.bos ensures RelocsOk(t, x) == true && Placed(t, x) == true {
      assert RelocsOk(s, x) == true && Placed(s, x) == true && BoEvolves(s, t, x);
      assert s.bos[x].validated ==> TargetsReady(s, x, |s.bos[x].relocs|) == true;
    }
  }

  lemma FailKeeps(s: State, t: State)
    requires Inv(s) && t == s.(fail := t.fail)
    ensures Keeps(s, t, {})
  {
    FailOnly(s, t);
    forall x | x in s.bos ensures BoKeeps(s, t, x, false) == true {
      assert BoEvolves(s, t, x);
      SlotsOnlySame(Contents(s, x), s.bos[x].relocs);
    }
  }

  ghost predicate SameWrites(s: State, t: State)
  {
    forall x :: x in s.bos && x in t.bos ==> t.bos[x].write == s.bos[x].write
  }

  lemma SettledWrites(s: State, t: State, g: set<BoId>)
    requires Settled(s, t, g)
    ensures SameWrites(s, t)
  {
    forall x | x in s.bos && x in t.bos ensures t.bos[x].write == s.bos[x].write {
      assert BoAdvance(s, t, x, g) == true;
    }
  }

  lemma KickingWrites(s: State, t: State)
    requires Kicking(s, t)
    ensures SameWrites(s, t)
  {
    forall x | x in s.bos && x in t.bos ensures t.bos[x].write == s.bos[x].write {
      assert BoKicked(s, t, x) == true;
    }
  }

  /** The state in which a batch can be validated. */
  ghost predicate Ready(s0: State, s: State, o: BoId, h: set<BoId>, rank: BoId -> nat)
  {
    ReadyFacts(s0, s, o, h, rank) == true
  }

  ghost predicate ReadyFacts(s0: State, s: State, o: BoId, h: set<BoId>, rank: BoId -> nat)
  {
    && Running(s, {}) == true && Keeps(s0, s, {}) == true && SameWrites(s0, s) == true
    && Graph(s, h, rank) == true && o in h && o in s.bos
    && ExactlyIn(s, {}) == true && AllReached(s, o, h) == true
  }

  lemma KeepsReaches(s: State, t: State, h: set<BoId>, o: BoId)
    requires Keeps(s, t, {}) && AllReached(s, o, h)
    ensures AllReached(t, o, h)
  {
    KeepsEdges(s, t, {});
    forall x | x in h ensures Reaches(t, o, x) {
      ReachesFrame(s, t, o, x);
    }
  }

  lemma ReadyAgain(s0: State, s: State, v: State, o: BoId, h: set<BoId>, rank: BoId -> nat)
    requires Keeps(s0, s, {}) && SameWrites(s0, s) && Graph(s, h, rank) && o in h && AllReached(s, o, h)
    requires Keeps(s, v, {}) && SameWrites(s, v) && Running(v, {}) && ExactlyIn(v, {})
    ensures Ready(s0, v, o, h, rank)
  {
    KeepsTrans(s0, s, v, {}, {});
    KeepsGraph(s, v, {}, h, rank);
    KeepsReaches(s, v, h, o);
    assert GraphNode(v, o, h, rank) == true;
    assert SameWrites(s0, v);
  }

  lemma KickedKeeps(s: State, t: State, u: State, v: State, h: set<BoId>)
    requires Settled(s, t, h) && Kicking(t, u) && v == u.(fail := false)
    ensures Keeps(s, v, {}) && SameWrites(s, v)
  {
    SettledKeeps(s, t, h);
    KickingKeeps(t, u);
    FailKeeps(u, v);
    SettledWrites(s, t, h);
    KickingWrites(t, u);
    KeepsTrans(s, t, u, {}, {});
    KeepsTrans(s, u, v, {}, {});
    assert SameWrites(s, v);
  }

  /** After everything was kicked off the card the batch is ready again. */
  lemma KickedReady(s0: State, s: State, t: State, u: State, v: State, o: BoId, h: set<BoId>, rank: BoId -> nat)
    requires Ready(s0, s, o, h, rank) && Settled(s, t, h) && Kicking(t, u) && Running(u, {})
    requires ExactlyIn(u, {}) && v == u.(fail := false)
    ensures Ready(s0, v, o, h, rank)
  {
    KickedKeeps(s, t, u, v, h);
    FailRunning(u, v);
    ReadyAgain(s0, s, v, o, h, rank);
  }

  lemma UnbackedBefore(s: State, t: State, h: set<BoId>, g: set<BoId>)
    requires Keeps(s, t, {}) && Unbacked(t, h) && h <= g
    ensures Unbacked(s, g)
  {
    var x :| x in h && x in t.bos && t.bos[x].noBacking;
    assert BoKeeps(s, t, x, false) == true;
  }

  lemma KickedStopped(s: State, t: State, u: State, v: State, w: State, h: set<BoId>, ret: int)
    requires Settled(s, t, h) && Kicking(t, u) && Running(u, {}) && v == u.(fail := false)
    requires ret != 0 ==> Stopped(v, w, h, ret)
    ensures ret != 0 ==> Stopped(s, w, h, ret)
  {
    KickedKeeps(s, t, u, v, h);
    if ret == ABORT {
      UnbackedBefore(s, v, h, h);
    }
  }

  /** The batch has been validated, or has not for want of room. */
  ghost predicate Prepared(s0: State, t: State, h: set<BoId>, ok: bool)
  {
    PreparedFacts(s0, t, h, ok) == true
  }

  ghost predicate PreparedFacts(s0: State, t: State, h: set<BoId>, ok: bool)
  {
    && Running(t, {}) == true && Keeps(s0, t, {}) == true && SameWrites(s0, t) == true
    && (ok ==> ExactlyIn(t, h) == true)
  }

  lemma PreparedKeeps(s0: State, s: State, t: State, h: set<BoId>)
    requires Keeps(s0, s, {}) && SameWrites(s0, s) && Settled(s, t, h)
    ensures Keeps(s0, t, {}) && SameWrites(s0, t)
  {
    SettledKeeps(s, t, h);
    SettledWrites(s, t, h);
    KeepsTrans(s0, s, t, {}, {});
  }

  lemma NowPrepared(s0: State, s: State, t: State, o: BoId, h: set<BoId>, rank: BoId -> nat, ok: bool)
    requires Ready(s0, s, o, h, rank) && Settled(s, t, h) && (ok ==> o in t.bos && t.bos[o].validated)
    ensures Prepared(s0, t, h, ok)
  {
    PreparedKeeps(s0, s, t, h);
    if ok {
      PreparedValid(s, t, h, o);
    }
  }

  // ----- after the card has the batch

  /** All write domains are set; the batch can be validated. */
  lemma FirstReady(s: State, s1: State, t: State, o: BoId, g: set<BoId>, rank: BoId -> nat)
    requires Quiet(s) && Graph(s, g, rank) && o in g && s1 == s.(rendered := false) && Flagged(s1, t, MarkSet(s1, o))
    ensures Ready(t, t, o, Used(s, g, o), rank) && Keeps(s, t, {})
    ensures forall x :: x in t.bos ==> (t.bos[x].write <==> x in MarkSet(s, o))
  {
    RenderedQuiet(s, s1);
    MarkSetFrame(s, s1, o);
    FlaggedRunning(s1, t, MarkSet(s1, o));
    KeepsTrans(s, s1, t, {}, {});
    UsedGraph(s, g, rank, o);
    KeepsReaches(s, t, Used(s, g, o), o);
    KeepsGraph(s, t, {}, Used(s, g, o), rank);
    assert GraphNode(t, o, Used(s, g, o), rank) == true;
    KeepsSelf(t);
  }

  lemma KeepsSelf(t: State)
    ensures Keeps(t, t, {}) && SameWrites(t, t)
  {
    forall x | x in t.bos ensures BoKeeps(t, t, x, false) == true {
      SlotsOnlySame(Contents(t, x), t.bos[x].relocs);
    }
  }

  lemma RenderedQuiet(s: State, t: State)
    requires Quiet(s) && t == s.(rendered := false)
    ensures Quiet(t) && Keeps(s, t, {}) && SameEdges(s, t)
  {
    KickStart(s, t);
    HwEmpty(s);
    KickEnd(s, t);
    KickingKeeps(s, t);
    KeepsEdges(s, t, {});
  }

  lemma NowSubmitted(s: State, t: State, at: State, o: BoId, g: set<BoId>)
    requires Keeps(s, t, {}) && Prepared(t, at, Used(s, g, o), true)
    requires forall x :: x in t.bos ==> (t.bos[x].write <==> x in MarkSet(s, o))
    ensures Submitted(s, at, o, g)
  {
    KeepsTrans(s, t, at, {}, {});
  }

  /** The state after fence_validated: nothing on the hardware, nothing else changed. */
  ghost predicate FencedUp(s: State, t: State)
  {
    FencedUpFacts(s, t) == true
  }

  ghost predicate FencedUpFacts(s: State, t: State)
  {
    && Inv(t) == true && ClashOnly(t, {}) == true && AllRelocs(t) == true && t.onHw == []
    && t.bos == s.bos && t.lo == s.lo && |t.card| == |s.card| && t.nextBo == s.nextBo && t.issued == s.issued + 1
    && (forall x :: x in s.bos ==> Contents(t, x) == Contents(s, x))
    && FencedInPlace(s, t) == true
  }

  lemma FenceStart(s: State)
    requires Struct(s)
    ensures Fencing(s, s)
  {
  }

  lemma FenceEndInv(s: State, s1: State, t: State)
    requires AllRelocs(s) && ClashOnly(s, {}) && s1 == s.(issued := s.issued + 1) && Inv(s1) && Evolves(s, s1)
    requires Fencing(s1, t)
    ensures Inv(t) && ClashOnly(t, {}) && AllRelocs(t)
    ensures forall x :: x in s.bos ==> Contents(t, x) == Contents(s, x)
  {
    SameBosClash(s, s1, {});
    FencedContents(s1, t);
    forall x | x in s.bos ensures Contents(t, x) == Contents(s, x) {
      assert BoEvolves(s, s1, x) == true;
    }
    FencedRelocs(s, t);
  }

  /** The blocks that were on the hardware are where they were, fenced with the new emission. */
  ghost predicate FencedInPlace(s: State, t: State)
  {
    forall b :: b in s.onHw && b in s.blocks ==>
      b in t.fenced && b in t.blocks && t.blocks[b].emission == t.issued && t.blocks[b].ofs == s.blocks[b].ofs
  }

  lemma FenceEndPlace(s: State, s1: State, t: State)
    requires s1 == s.(issued := s.issued + 1) && Fencing(s1, t) && t.onHw == []
    ensures FencedInPlace(s, t)
  {
    forall b | b in s.onHw && b in s.blocks ensures b in t.blocks && t.blocks[b].ofs == s.blocks[b].ofs {
      assert CellOf(t.blocks[b]) == CellOf(s1.blocks[b]);
    }
  }

  lemma FenceEnd(s: State, s1: State, t: State)
    requires Running(s, {}) && s1 == s.(issued := s.issued + 1) && Inv(s1) && Evolves(s, s1) && Fencing(s1, t)
    requires t.onHw == []
    ensures FencedUp(s, t)
  {
    FenceEndInv(s, s1, t);
    FenceEndPlace(s, s1, t);
  }

  lemma FencedKeeps(s: State, t: State)
    requires FencedUp(s, t)
    ensures Keeps(s, t, {})
  {
    forall x | x in s.bos ensures BoKeeps(s, t, x, false) == true {
      SlotsOnlySame(Contents(s, x), s.bos[x].relocs);
    }
  }

  /** All of the batch is still up, so nothing is below a buffer that is down. */
  lemma DownStart(s: State, h: set<BoId>)
    requires ExactlyIn(s, h)
    ensures Down(s, h)
  {
  }

  lemma DownEnd(s: State, t: State, h: set<BoId>, rank: BoId -> nat, o: BoId)
    requires Graph(s, h, rank) && o in h && AllReached(s, o, h) && ExactlyIn(s, h)
    requires forall x :: x in s.bos && x !in h ==> !s.bos[x].write
    requires Lowered(s, t, h) && Down(t, h) && o in t.bos && !t.bos[o].validated
    ensures Idle(t)
  {
    LoweredGraph(s, t, h, rank);
    LoweredEdges(s, t, h);
    forall x | x in t.bos ensures !t.bos[x].validated && !t.bos[x].write {
      if x in h {
        ReachesFrame(s, t, o, x);
        AllDown(t, h, rank, o, x);
      }
    }
  }

  /** The outcome of a batch: its buffers hold what the card left in `card`, stay
      where they are, and are fenced with the newest emission; no other buffer changed. */
  ghost predicate Executed(s: State, at: State, card: seq<Byte>, t: State)
  {
    ExecutedFacts(s, at, card, t) == true
  }

  ghost predicate ExecutedFacts(s: State, at: State, card: seq<Byte>, t: State)
  {
    && Quiet(t) == true && Keeps(s, t, Drawn(at)) == true && t.bos.Keys == at.bos.Keys
    && (forall x :: x in at.bos ==> Contents(t, x) == Contents(at.(card := card), x))
    && (forall x :: x in at.bos && at.bos[x].validated ==> FencedAt(at, t, x) == true)
  }

  ghost predicate FencedAt(at: State, t: State, x: BoId)
    requires x in at.bos && x in t.bos
  {
    && t.bos[x].block == at.bos[x].block && t.bos[x].block.Some?
    && t.bos[x].block.value in at.blocks && t.bos[x].block.value in t.blocks
    && t.blocks[t.bos[x].block.value].ofs == at.blocks[t.bos[x].block.value].ofs
    && t.blocks[t.bos[x].block.value].fenced && t.blocks[t.bos[x].block.value].emission == t.issued
  }

  lemma FencedAtEnd(at: State, d: State, f: State, t: State, h: set<BoId>, x: BoId)
    requires AllPlaced(at) && ListsOk(f) && d == at.(card := d.card) && FencedUp(d, f) && Lowered(f, t, h)
    requires x in at.bos && at.bos[x].validated
    ensures x in t.bos && FencedAt(at, t, x)
  {
    assert Placed(at, x) == true;
    var b := at.bos[x].block.value;
    assert b in d.onHw && b in d.blocks;
    assert b in f.fenced;
  }

  lemma ExecutedKeeps(s: State, at: State, d: State, f: State, t: State)
    requires Keeps(s, at, {}) && Keeps(at, d, Drawn(at)) && FencedUp(d, f) && Keeps(f, t, {})
    ensures Keeps(s, t, Drawn(at))
  {
    FencedKeeps(d, f);
    KeepsTrans(s, at, d, {}, Drawn(at));
    KeepsTrans(s, d, f, {} + Drawn(at), {});
    KeepsTrans(s, f, t, {} + Drawn(at) + {}, {});
    assert {} + Drawn(at) + {} + {} == Drawn(at);
  }

  lemma ExecutedContents(at: State, d: State, f: State, t: State)
    requires d == at.(card := d.card) && FencedUp(d, f) && f.bos.Keys == t.bos.Keys
    requires forall x :: x in f.bos ==> Contents(t, x) == Contents(f, x)
    ensures t.bos.Keys == at.bos.Keys && forall x :: x in at.bos ==> Contents(t, x) == Contents(at.(card := d.card), x)
  {
  }

  lemma ExecutedFences(at: State, d: State, f: State, t: State, h: set<BoId>)
    requires AllPlaced(at) && ListsOk(f) && d == at.(card := d.card) && FencedUp(d, f) && Lowered(f, t, h)
    ensures forall x :: x in at.bos && at.bos[x].validated ==> x in t.bos && FencedAt(at, t, x) == true
  {
    forall x | x in at.bos && at.bos[x].validated ensures x in t.bos && FencedAt(at, t, x) == true {
      FencedAtEnd(at, d, f, t, h, x);
    }
  }

  lemma ExecutedQuiet(s: State, at: State, d: State, f: State, t: State, h: set<BoId>)
    requires Running(at, {}) && Keeps(s, at, {}) && Draws(at, Drawn(at), d.card) && d == at.(card := d.card)
    requires FencedUp(d, f) && Lowered(f, t, h) && Idle(t)
    ensures Quiet(t) && Keeps(s, t, Drawn(at)) && forall x :: x in f.bos ==> Contents(t, x) == Contents(f, x)
  {
    DrawRunning(at, Drawn(at), d);
    LoweredQuiet(f, t, h);
    ExecutedKeeps(s, at, d, f, t);
  }

  lemma NowExecuted(s: State, at: State, d: State, f: State, t: State, h: set<BoId>)
    requires Running(at, {}) && Keeps(s, at, {}) && Draws(at, Drawn(at), d.card) && d == at.(card := d.card)
    requires FencedUp(d, f) && Lowered(f, t, h) && Idle(t)
    ensures Executed(s, at, d.card, t)
  {
    ExecutedQuiet(s, at, d, f, t, h);
    ExecutedContents(at, d, f, t);
    FencesAt(at, d, f, t, h);
    ExecutedParts(s, at, d.card, t);
  }

  lemma FencesAt(at: State, d: State, f: State, t: State, h: set<BoId>)
    requires Running(at, {}) && FencedUp(d, f) && Lowered(f, t, h) && d == at.(card := d.card)
    ensures forall x :: x in at.bos && at.bos[x].validated ==> x in t.bos && FencedAt(at, t, x) == true
  {
    ExecutedFences(at, d, f, t, h);
  }

  lemma ExecutedParts(s: State, at: State, card: seq<Byte>, t: State)
    requires Quiet(t) && Keeps(s, t, Drawn(at)) && t.bos.Keys == at.bos.Keys
    requires forall x :: x in at.bos ==> Contents(t, x) == Contents(at.(card := card), x)
    requires forall x :: x in at.bos && at.bos[x].validated ==> x in t.bos && FencedAt(at, t, x) == true
    ensures Executed(s, at, card, t)
  {
  }

  /** Ready for post_submit. */
  lemma FencedDown(s: State, at: State, d: State, f: State, o: BoId, g: set<BoId>, rank: BoId -> nat)
    requires Graph(s, g, rank) && o in g && Submitted(s, at, o, g) && d == at.(card := d.card) && FencedUp(d, f)
    ensures var h := Used(s, g, o);
      Graph(f, h, rank) && Down(f, h) && o in h && o in f.bos && AllReached(f, o, h) && ExactlyIn(f, h)
    ensures forall x :: x in f.bos && x !in Used(s, g, o) ==> !f.bos[x].write
  {
    var h := Used(s, g, o);
    UsedGraph(s, g, rank, o);
    KeepsGraph(s, at, {}, h, rank);
    KeepsReaches(s, at, h, o);
    SameBosGraph(at, f, h, rank, o);
    DownStart(f, h);
    forall x | x in f.bos && x !in h ensures !f.bos[x].write {
      MarkedUsed(s, g, rank, o, x);
    }
  }

  lemma SameBosGraph(s: State, t: State, h: set<BoId>, rank: BoId -> nat, o: BoId)
    requires t.bos == s.bos && Graph(s, h, rank) && AllReached(s, o, h) && o in h
    ensures Graph(t, h, rank) && AllReached(t, o, h) && o in t.bos
  {
    forall x | x in h ensures GraphNode(t, x, h, rank) == true {
      assert GraphNode(s, x, h, rank) == true;
    }
    assert GraphNode(t, o, h, rank) == true;
    assert SameEdges(s, t);
    forall x | x in h ensures Reaches(t, o, x) {
      ReachesFrame(s, t, o, x);
    }
  }

  /** A batch writes only to buffers it uses. */
  lemma MarkedUsed(s: State, g: set<BoId>, rank: BoId -> nat, o: BoId, x: BoId)
    requires Graph(s, g, rank) && o in g
    ensures x in MarkSet(s, o) ==> x in Used(s, g, o)
  {
    if x in MarkSet(s, o) {
      var y :| Reaches(s, o, y) && WriteEdge(s, y, x);
      assert Edge(s, y, x);
      ReachesSnoc(s, o, y, x);
      var p :| Leads(s, o, p, x);
      forall a, b | a in g && Edge(s, a, b) ensures b in g {
        assert GraphNode(s, a, g, rank) == true;
      }
      ReachClosed(s, o, p, x, g);
    }
  }

  lemma RenderedGraph(s: State, t: State, g: set<BoId>, rank: BoId -> nat)
    requires Graph(s, g, rank) && t.bos == s.bos
    ensures Graph(t, g, rank)
  {
    forall x | x in g ensures GraphNode(t, x, g, rank) == true {
      assert GraphNode(s, x, g, rank) == true;
    }
  }
}
