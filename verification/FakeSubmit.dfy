/** Around the execution of a batch: the relocation graph, write domains, what
    the card draws, and post_submit. */
module FakeSubmit {
  import opened MmLayout
  import opened FakeState
  import opened FakeSteps
  import opened FakeContents
  import opened FakePlacement
  import opened FakeReloc
  import opened FakeAdvance
  import opened FakeValidate
  import opened FakeExec
  import opened FakeKick

  // ----- the relocation graph

  ghost predicate Edge(s: State, x: BoId, y: BoId)
  {
    x in s.bos && exists i :: 0 <= i < |s.bos[x].relocs| && s.bos[x].relocs[i].target == y
  }

  /** Following the relocations from `o` through `p` leads to `x`. */
  ghost predicate Leads(s: State, o: BoId, p: seq<BoId>, x: BoId)
    decreases |p|
  {
    if p == [] then x == o else Edge(s, o, p[0]) && Leads(s, p[0], p[1..], x)
  }

  ghost predicate Reaches(s: State, o: BoId, x: BoId)
  {
    exists p :: Leads(s, o, p, x)
  }

  lemma ReachesSelf(s: State, o: BoId)
    ensures Reaches(s, o, o)
  {
    assert Leads(s, o, [], o);
  }

  lemma {:induction false} LeadsSnoc(s: State, o: BoId, p: seq<BoId>, x: BoId, y: BoId)
    requires Leads(s, o, p, x) && Edge(s, x, y)
    ensures Leads(s, o, p + [y], y)
    decreases |p|
  {
    if p == [] {
      assert Leads(s, y, [], y) && [y][1..] == [] && p + [y] == [y];
    } else {
      LeadsSnoc(s, p[0], p[1..], x, y);
      assert (p + [y])[1..] == p[1..] + [y];
    }
  }

  lemma ReachesSnoc(s: State, o: BoId, x: BoId, y: BoId)
    requires Reaches(s, o, x) && Edge(s, x, y)
    ensures Reaches(s, o, y)
  {
    var p :| Leads(s, o, p, x);
    LeadsSnoc(s, o, p, x, y);
  }

  lemma ReachesCons(s: State, o: BoId, y: BoId, x: BoId)
    requires Edge(s, o, y) && Reaches(s, y, x)
    ensures Reaches(s, o, x)
  {
    var p :| Leads(s, y, p, x);
    assert ([y] + p)[1..] == p;
    assert Leads(s, o, [y] + p, x);
  }

  /** A set closed under relocations contains whatever its members reach. */
  lemma {:induction false} ReachClosed(s: State, o: BoId, p: seq<BoId>, x: BoId, v: set<BoId>)
    requires Leads(s, o, p, x) && o in v && forall a, b :: a in v && Edge(s, a, b) ==> b in v
    ensures x in v
    decreases |p|
  {
    if p != [] {
      ReachClosed(s, p[0], p[1..], x, v);
    }
  }

  ghost predicate SameEdges(s: State, t: State)
  {
    && t.bos.Keys == s.bos.Keys
    && (forall x :: x in s.bos ==> SameRelocs(s.bos[x].relocs, t.bos[x].relocs) == true)
  }

  lemma EdgeFrame(s: State, t: State, x: BoId, y: BoId)
    requires SameEdges(s, t)
    ensures Edge(s, x, y) <==> Edge(t, x, y)
  {
    if x in s.bos {
      assert SameRelocs(s.bos[x].relocs, t.bos[x].relocs) == true;
      forall i | 0 <= i < |s.bos[x].relocs| ensures t.bos[x].relocs[i].target == s.bos[x].relocs[i].target {
      }
    }
  }

  lemma {:induction false} LeadsFrame(s: State, t: State, o: BoId, p: seq<BoId>, x: BoId)
    requires SameEdges(s, t)
    ensures Leads(s, o, p, x) == Leads(t, o, p, x)
    decreases |p|
  {
    if p != [] {
      EdgeFrame(s, t, o, p[0]);
      LeadsFrame(s, t, p[0], p[1..], x);
    }
  }

  lemma ReachesFrame(s: State, t: State, o: BoId, x: BoId)
    requires SameEdges(s, t)
    ensures Reaches(s, o, x) == Reaches(t, o, x)
  {
    if Reaches(s, o, x) {
      var p :| Leads(s, o, p, x);
      LeadsFrame(s, t, o, p, x);
    }
    if Reaches(t, o, x) {
      var p :| Leads(t, o, p, x);
      LeadsFrame(s, t, o, p, x);
    }
  }

  /** The buffers of `g` that a batch `o` uses. */
  ghost function Used(s: State, g: set<BoId>, o: BoId): set<BoId>
  {
    set x | x in g && Reaches(s, o, x)
  }

  lemma UsedGraph(s: State, g: set<BoId>, rank: BoId -> nat, o: BoId)
    requires Graph(s, g, rank) && o in g
    ensures Graph(s, Used(s, g, o), rank) && o in Used(s, g, o)
  {
    var h := Used(s, g, o);
    ReachesSelf(s, o);
    forall x | x in h ensures GraphNode(s, x, h, rank) == true {
      assert GraphNode(s, x, g, rank) == true;
      forall i | 0 <= i < |s.bos[x].relocs| ensures s.bos[x].relocs[i].target in h {
        assert Edge(s, x, s.bos[x].relocs[i].target);
        ReachesSnoc(s, o, x, s.bos[x].relocs[i].target);
      }
    }
  }

  /** Everything a validated buffer reaches is validated. */
  lemma ReachedValidated(s: State, o: BoId, x: BoId)
    requires AllPlaced(s) && o in s.bos && s.bos[o].validated && Reaches(s, o, x)
    ensures x in s.bos && s.bos[x].validated
  {
    var p :| Leads(s, o, p, x);
    var v := set y | y in s.bos && s.bos[y].validated;
    forall a, b | a in v && Edge(s, a, b) ensures b in v {
      assert Placed(s, a) == true;
      assert TargetsReady(s, a, |s.bos[a].relocs|) == true;
      var i :| 0 <= i < |s.bos[a].relocs| && s.bos[a].relocs[i].target == b;
    }
    ReachClosed(s, o, p, x, v);
  }

  // ----- calculate_domains

  ghost predicate WriteEdge(s: State, x: BoId, y: BoId)
  {
    x in s.bos && exists i :: 0 <= i < |s.bos[x].relocs| && s.bos[x].relocs[i].target == y && s.bos[x].relocs[i].write
  }

  /** A batch `o` writes to `x`: some relocation it reaches says so. */
  ghost predicate Marked(s: State, o: BoId, x: BoId)
  {
    exists y :: Reaches(s, o, y) && WriteEdge(s, y, x)
  }

  /** As Marked, by way of relocation `i` of `o`. */
  ghost predicate MarkedBy(s: State, o: BoId, i: nat, x: BoId)
    requires o in s.bos && i < |s.bos[o].relocs|
  {
    var r := s.bos[o].relocs[i];
    (r.target == x && r.write) || Marked(s, r.target, x)
  }

  ghost predicate MarkedUpTo(s: State, o: BoId, n: nat, x: BoId)
    requires o in s.bos && n <= |s.bos[o].relocs|
  {
    exists i :: 0 <= i < n && MarkedBy(s, o, i, x)
  }

  lemma MarkedIsByOne(s: State, o: BoId, x: BoId)
    requires o in s.bos
    ensures Marked(s, o, x) <==> MarkedUpTo(s, o, |s.bos[o].relocs|, x)
  {
    if Marked(s, o, x) {
      var y :| Reaches(s, o, y) && WriteEdge(s, y, x);
      var p :| Leads(s, o, p, y);
      if p == [] {
        var i :| 0 <= i < |s.bos[o].relocs| && s.bos[o].relocs[i].target == x && s.bos[o].relocs[i].write;
        assert MarkedBy(s, o, i, x);
      } else {
        var i :| 0 <= i < |s.bos[o].relocs| && s.bos[o].relocs[i].target == p[0];
        assert Leads(s, p[0], p[1..], y);
        assert Reaches(s, p[0], y) && Marked(s, p[0], x);
        assert MarkedBy(s, o, i, x);
      }
    }
    if MarkedUpTo(s, o, |s.bos[o].relocs|, x) {
      var i :| 0 <= i < |s.bos[o].relocs| && MarkedBy(s, o, i, x);
      var r := s.bos[o].relocs[i];
      if r.target == x && r.write {
        ReachesSelf(s, o);
        assert WriteEdge(s, o, x);
      } else {
        var y :| Reaches(s, r.target, y) && WriteEdge(s, y, x);
        assert Edge(s, o, r.target);
        ReachesCons(s, o, r.target, y);
      }
    }
  }

  lemma MarkedFrame(s: State, t: State, o: BoId, x: BoId)
    requires SameEdges(s, t)
    ensures Marked(s, o, x) == Marked(t, o, x)
  {
    forall y ensures Reaches(s, o, y) == Reaches(t, o, y) && WriteEdge(s, y, x) == WriteEdge(t, y, x) {
      ReachesFrame(s, t, o, y);
      WriteEdgeFrame(s, t, y, x);
    }
  }

  lemma WriteEdgeFrame(s: State, t: State, x: BoId, y: BoId)
    requires SameEdges(s, t)
    ensures WriteEdge(s, x, y) <==> WriteEdge(t, x, y)
  {
    if x in s.bos {
      assert SameRelocs(s.bos[x].relocs, t.bos[x].relocs) == true;
      forall i | 0 <= i < |s.bos[x].relocs|
        ensures t.bos[x].relocs[i].target == s.bos[x].relocs[i].target
        ensures t.bos[x].relocs[i].write == s.bos[x].relocs[i].write
      {
      }
    }
  }

  /** The buffers a batch writes to, and those found after `n` relocations. */
  ghost function MarkSet(s: State, o: BoId): set<BoId>
  {
    set x | x in s.bos && Marked(s, o, x)
  }

  ghost function MarkSetUpTo(s: State, o: BoId, n: nat): set<BoId>
    requires o in s.bos && n <= |s.bos[o].relocs|
  {
    set x | x in s.bos && MarkedUpTo(s, o, n, x)
  }

  /** The state with the write flags of `m` set. */
  ghost predicate Flagged(s: State, t: State, m: set<BoId>)
  {
    FlaggedFacts(s, t, m) == true
  }

  ghost predicate FlaggedFacts(s: State, t: State, m: set<BoId>)
  {
    && t == s.(bos := t.bos) && t.bos.Keys == s.bos.Keys
    && (forall x :: x in s.bos ==> t.bos[x] == s.bos[x].(write := s.bos[x].write || x in m))
  }

  lemma FlaggedEdges(s: State, t: State, m: set<BoId>)
    requires Flagged(s, t, m)
    ensures SameEdges(s, t)
  {
    forall x | x in s.bos ensures SameRelocs(s.bos[x].relocs, t.bos[x].relocs) == true {
    }
  }

  lemma FlaggedTwice(s: State, t: State, u: State, m: set<BoId>, n: set<BoId>)
    requires Flagged(s, t, m) && Flagged(t, u, n)
    ensures Flagged(s, u, m + n)
  {
  }

  lemma MarkSetFrame(s: State, t: State, o: BoId)
    requires SameEdges(s, t)
    ensures MarkSet(s, o) == MarkSet(t, o)
  {
    forall x | x in s.bos ensures Marked(s, o, x) == Marked(t, o, x) {
      MarkedFrame(s, t, o, x);
    }
  }

  lemma MarkSetOneMore(s: State, o: BoId, i: nat)
    requires o in s.bos && i < |s.bos[o].relocs| && s.bos[o].relocs[i].target in s.bos
    ensures var r := s.bos[o].relocs[i];
      MarkSetUpTo(s, o, i + 1) == MarkSetUpTo(s, o, i) + MarkSet(s, r.target) + (if r.write then {r.target} else {})
  {
    forall x | x in s.bos ensures MarkedUpTo(s, o, i + 1, x) <==> MarkedUpTo(s, o, i, x) || MarkedBy(s, o, i, x) {
      MarkedOneMore(s, o, i, x);
    }
  }

  lemma FlagLast(u: State, v: State, r: Reloc)
    requires r.target in u.bos
    requires v == u.(bos := u.bos[r.target := u.bos[r.target].(write := u.bos[r.target].write || r.write)])
    ensures Flagged(u, v, if r.write then {r.target} else {})
  {
    assert v.bos.Keys == u.bos.Keys;
  }

  /** The recursive call for relocation `i`, then the flag of its target. */
  lemma FlagOne(s: State, t: State, u: State, v: State, o: BoId, i: nat)
    requires o in s.bos && i < |s.bos[o].relocs| && s.bos[o].relocs[i].target in s.bos
    requires Flagged(s, t, MarkSetUpTo(s, o, i)) && Flagged(t, u, MarkSet(t, s.bos[o].relocs[i].target))
    requires s.bos[o].relocs[i].target in u.bos
    requires var y := s.bos[o].relocs[i].target;
      v == u.(bos := u.bos[y := u.bos[y].(write := u.bos[y].write || s.bos[o].relocs[i].write)])
    ensures Flagged(s, v, MarkSetUpTo(s, o, i + 1))
  {
    var r := s.bos[o].relocs[i];
    FlaggedEdges(s, t, MarkSetUpTo(s, o, i));
    MarkSetFrame(s, t, r.target);
    FlaggedTwice(s, t, u, MarkSetUpTo(s, o, i), MarkSet(s, r.target));
    FlagLast(u, v, r);
    FlaggedTwice(s, u, v, MarkSetUpTo(s, o, i) + MarkSet(s, r.target), if r.write then {r.target} else {});
    MarkSetOneMore(s, o, i);
  }

  lemma MarkedOneMore(s: State, o: BoId, i: nat, x: BoId)
    requires o in s.bos && i < |s.bos[o].relocs|
    ensures MarkedUpTo(s, o, i + 1, x) <==> MarkedUpTo(s, o, i, x) || MarkedBy(s, o, i, x)
  {
    if MarkedUpTo(s, o, i, x) {
      var j :| 0 <= j < i && MarkedBy(s, o, j, x);
      assert j < i + 1 && MarkedBy(s, o, j, x);
    }
  }

  lemma FlagsNone(s: State, o: BoId)
    requires o in s.bos
    ensures Flagged(s, s, MarkSetUpTo(s, o, 0))
  {
  }

  lemma FlagsDone(s: State, o: BoId)
    requires o in s.bos
    ensures MarkSetUpTo(s, o, |s.bos[o].relocs|) == MarkSet(s, o)
  {
    forall x | x in s.bos ensures Marked(s, o, x) <==> MarkedUpTo(s, o, |s.bos[o].relocs|, x) {
      MarkedIsByOne(s, o, x);
    }
  }

  // ----- between batches

  /** Nothing is validated and no write domain is pending. */
  ghost predicate Idle(s: State)
  {
    forall x :: x in s.bos ==> !s.bos[x].validated && !s.bos[x].write
  }

  /** The state between operations of the interface. */
  ghost predicate Quiet(s: State)
  {
    QuietFacts(s) == true
  }

  ghost predicate QuietFacts(s: State)
  {
    Running(s, {}) == true && Idle(s) == true
  }

  /** What a whole execution may change in a buffer that is not drawn to. */
  ghost predicate BoKeeps(s: State, t: State, x: BoId, drawn: bool)
    requires x in s.bos && x in t.bos
  {
    && t.bos[x] == s.bos[x].(dirty := t.bos[x].dirty, cardDirty := t.bos[x].cardDirty, block := t.bos[x].block,
                             backing := t.bos[x].backing, validated := t.bos[x].validated, offset := t.bos[x].offset,
                             written := t.bos[x].written, relocs := t.bos[x].relocs, write := t.bos[x].write)
    && SameRelocs(s.bos[x].relocs, t.bos[x].relocs) && (s.bos[x].written ==> t.bos[x].written)
    && (!drawn ==> SlotsOnly(Contents(s, x), Contents(t, x), s.bos[x].relocs))
  }

  ghost predicate Keeps(s: State, t: State, drawn: set<BoId>)
  {
    KeepsFacts(s, t, drawn) == true
  }

  ghost predicate KeepsFacts(s: State, t: State, drawn: set<BoId>)
  {
    && t.lo == s.lo && |t.card| == |s.card| && t.bos.Keys == s.bos.Keys && t.nextBo == s.nextBo && t.issued >= s.issued
    && (forall x :: x in s.bos ==> BoKeeps(s, t, x, x in drawn) == true)
  }

  lemma BoKeepsTrans(s: State, t: State, u: State, x: BoId, d: bool, e: bool)
    requires x in s.bos && x in t.bos && x in u.bos && BoKeeps(s, t, x, d) && BoKeeps(t, u, x, e)
    ensures BoKeeps(s, u, x, d || e)
  {
    if !d && !e && Contents(s, x).Some? {
      var c, w := Contents(s, x).value, Contents(u, x).value;
      forall k | 0 <= k < |c| && !InSlot(s.bos[x].relocs, k) ensures w[k] == c[k] {
        SameRelocsSlots(s.bos[x].relocs, t.bos[x].relocs, k);
      }
    }
  }

  lemma KeepsTrans(s: State, t: State, u: State, d: set<BoId>, e: set<BoId>)
    requires Keeps(s, t, d) && Keeps(t, u, e)
    ensures Keeps(s, u, d + e)
  {
    forall x | x in s.bos ensures BoKeeps(s, u, x, x in d + e) == true {
      assert BoKeeps(s, t, x, x in d) == true && BoKeeps(t, u, x, x in e) == true;
      BoKeepsTrans(s, t, u, x, x in d, x in e);
    }
  }

  lemma SettledKeeps(s: State, t: State, g: set<BoId>)
    requires Settled(s, t, g)
    ensures Keeps(s, t, {})
  {
    forall x | x in s.bos ensures BoKeeps(s, t, x, false) == true {
      assert BoAdvance(s, t, x, g) == true;
    }
  }

  lemma KickingKeeps(s: State, t: State)
    requires Kicking(s, t)
    ensures Keeps(s, t, {})
  {
    forall x | x in s.bos ensures BoKeeps(s, t, x, false) == true {
      assert BoKicked(s, t, x) == true;
      SlotsOnlySame(Contents(s, x), s.bos[x].relocs);
    }
  }

  lemma KeepsEdges(s: State, t: State, d: set<BoId>)
    requires Keeps(s, t, d)
    ensures SameEdges(s, t)
  {
    forall x | x in s.bos ensures SameRelocs(s.bos[x].relocs, t.bos[x].relocs) == true {
      assert BoKeeps(s, t, x, x in d) == true;
    }
  }

  lemma KeepsGraph(s: State, t: State, d: set<BoId>, g: set<BoId>, rank: BoId -> nat)
    requires Keeps(s, t, d) && Graph(s, g, rank)
    ensures Graph(t, g, rank)
  {
    forall x | x in g ensures GraphNode(t, x, g, rank) == true {
      assert GraphNode(s, x, g, rank) == true && BoKeeps(s, t, x, x in d) == true;
    }
  }
}
