/** Command streams of radeon/radeon_cs_gem.c that share buffers: the bit mask a
    buffer keeps must agree with the relocation lists of all streams. */
module CsGem {
  import opened MmLayout
  import opened BitMasks

  type BoId = nat
  type CsId = nat

  const DOMAIN_CPU: bv32 := 1
  const EINVAL: int := 22
  const RELOC_SIZE: int := 4
  const PACKET: int := 0xc0001000

  /** struct cs_reloc_gem */
  datatype Reloc = Reloc(handle: nat, read: bv32, write: bv32, flags: bv32)

  /** struct cs_gem.  `bit` is the position of the one bit of its id, None when
      the id is 0; `bos` is relocs_bo, as long as crelocs. */
  datatype Stream = Stream(bit: Option<nat>, relocs: seq<Reloc>, bos: seq<Option<BoId>>, packets: seq<int>)
  {
    function Id(): nat { if bit.Some? then Pow2(bit.value) else 0 }
  }

  /** struct radeon_bo_int, with the reloc_in_cs of its bo_gem. */
  datatype Bo = Bo(handle: nat, refs: int, inCs: int)

  datatype State = State(idSource: nat, streams: map<CsId, Stream>, bos: map<BoId, Bo>)

  // ----- the invariant

  /** Streams with an id of their own that list the buffer. */
  ghost function Holders(s: State, b: BoId): set<nat>
  {
    set c | c in s.streams && s.streams[c].bit.Some? && Some(b) in s.streams[c].bos :: s.streams[c].bit.value
  }

  ghost function Taken(s: State): set<nat>
  {
    set c | c in s.streams && s.streams[c].bit.Some? :: s.streams[c].bit.value
  }

  /** The relocations that keep a reference to the buffer. */
  ghost function Uses(s: State, b: BoId): set<(CsId, int)>
  {
    set c, i | c in s.streams && 0 <= i < |s.streams[c].bos| && s.streams[c].bos[i] == Some(b) :: (c, i)
  }

  /** Entries that were released form a prefix; the others name the buffer of
      their handle, and each at most once if the stream has an id. */
  ghost predicate StreamOk(s: State, x: Stream)
  {
    && |x.bos| == |x.relocs| && (x.bit.Some? ==> x.bit.value < BITS)
    && (forall i, j :: 0 <= i < j < |x.bos| && x.bos[i].Some? ==> x.bos[j].Some?)
    && (forall i :: 0 <= i < |x.bos| && x.bos[i].Some? ==>
      x.bos[i].value in s.bos && x.relocs[i].handle == s.bos[x.bos[i].value].handle)
    && (x.bit.Some? ==> forall i, j :: 0 <= i < j < |x.bos| && x.bos[i].Some? ==> x.bos[i] != x.bos[j])
  }

  ghost predicate StreamsOk(s: State)
  {
    && (forall c :: c in s.streams ==> StreamOk(s, s.streams[c]) == true)
    && (forall c, d :: c in s.streams && d in s.streams && c != d && s.streams[c].bit.Some? ==>
      s.streams[c].bit != s.streams[d].bit)
    && s.idSource == Mask(Taken(s))
  }

  /** reloc_in_cs is the sum of the ids of the streams that list the buffer, and
      the reference count what clients hold, `ext`, plus one for each relocation. */
  ghost predicate BoOk(s: State, b: BoId, ext: BoId -> nat)
    requires b in s.bos
  {
    s.bos[b].inCs == Mask(Holders(s, b)) && s.bos[b].refs == ext(b) + |Uses(s, b)|
  }

  ghost predicate BosOk(s: State, ext: BoId -> nat)
  {
    && (forall b :: b in s.bos ==> BoOk(s, b, ext) == true)
    && (forall a, b :: a in s.bos && b in s.bos && a != b ==> s.bos[a].handle != s.bos[b].handle)
  }

  ghost predicate Ok(s: State, ext: BoId -> nat)
  {
    OkFacts(s, ext) == true
  }

  ghost predicate OkFacts(s: State, ext: BoId -> nat)
  {
    StreamsOk(s) == true && BosOk(s, ext) == true
  }

  /** The bit of a stream in the mask of a buffer is set exactly when the stream lists the buffer. */
  lemma FilterIsExact(s: State, ext: BoId -> nat, c: CsId, b: BoId)
    requires Ok(s, ext) && c in s.streams && s.streams[c].bit.Some? && b in s.bos
    ensures s.bos[b].inCs >= 0
    ensures TestBit(s.bos[b].inCs, s.streams[c].bit.value) <==> Some(b) in s.streams[c].bos
  {
    assert BoOk(s, b, ext) == true && StreamOk(s, s.streams[c]) == true;
    var k := s.streams[c].bit.value;
    MaskBit(Holders(s, b), k);
    if k in Holders(s, b) {
      var d :| d in s.streams && s.streams[d].bit.Some? && Some(b) in s.streams[d].bos && s.streams[d].bit.value == k;
    }
  }

  // ----- steps

  /** A new relocation. */
  function Append(s: State, c: CsId, b: BoId, r: Reloc): State
    requires c in s.streams && b in s.bos
  {
    var x := s.streams[c];
    s.(streams := s.streams[c := x.(relocs := x.relocs + [r], bos := x.bos + [Some(b)],
                                    packets := x.packets + [PACKET, |x.relocs| * RELOC_SIZE])],
       bos := s.bos[b := s.bos[b].(refs := s.bos[b].refs + 1, inCs := s.bos[b].inCs + x.Id())])
  }

  /** One round of the release loops of cs_gem_emit and cs_gem_erase. */
  function LetGo(s: State, c: CsId, i: nat): State
    requires c in s.streams && i < |s.streams[c].bos| && s.streams[c].bos[i].Some? && s.streams[c].bos[i].value in s.bos
  {
    var x := s.streams[c];
    var b := x.bos[i].value;
    s.(streams := s.streams[c := x.(bos := x.bos[i := None])],
       bos := s.bos[b := s.bos[b].(refs := s.bos[b].refs - 1, inCs := s.bos[b].inCs - x.Id())])
  }

  /** Nothing of the stream is left to release. */
  ghost predicate AllReleased(x: Stream)
  {
    forall i :: 0 <= i < |x.bos| ==> x.bos[i].None?
  }

  /** The end of cs_gem_erase. */
  function Reset(s: State, c: CsId): State
    requires c in s.streams
  {
    s.(streams := s.streams[c := s.streams[c].(relocs := [], bos := [], packets := [])])
  }

  /** generate_id and the rest of cs_gem_create. */
  function Create(s: State, c: CsId): State
  {
    var k := LowestClear(s.idSource, 0);
    if s.idSource != Pow2(BITS) - 1 && k < BITS then
      s.(idSource := s.idSource + Pow2(k), streams := s.streams[c := Stream(Some(k), [], [], [])])
    else s.(streams := s.streams[c := Stream(None, [], [], [])])
  }

  /** free_id and cs_gem_destroy. */
  function Destroy(s: State, c: CsId): State
    requires c in s.streams && s.idSource >= s.streams[c].Id()
  {
    s.(idSource := s.idSource - s.streams[c].Id(), streams := s.streams - {c})
  }

  /** Domains and packets of a stream may change without touching the books. */
  function Rewrite(s: State, c: CsId, relocs: seq<Reloc>, packets: seq<int>): State
    requires c in s.streams
  {
    s.(streams := s.streams[c := s.streams[c].(relocs := relocs, packets := packets)])
  }

  // ----- the steps keep the invariant

  lemma TakenFrame(s: State, t: State)
    requires t.streams.Keys == s.streams.Keys && forall c :: c in s.streams ==> t.streams[c].bit == s.streams[c].bit
    ensures Taken(t) == Taken(s)
  {
    forall k | k in Taken(s) ensures k in Taken(t) {
      var c :| c in s.streams && s.streams[c].bit == Some(k);
      assert t.streams[c].bit == Some(k);
    }
    forall k | k in Taken(t) ensures k in Taken(s) {
      var c :| c in t.streams && t.streams[c].bit == Some(k);
      assert s.streams[c].bit == Some(k);
    }
  }

  lemma AppendStreams(s: State, c: CsId, b: BoId, r: Reloc)
    requires StreamsOk(s) && c in s.streams && b in s.bos && r.handle == s.bos[b].handle
    requires s.streams[c].bit.Some? ==> Some(b) !in s.streams[c].bos
    ensures StreamsOk(Append(s, c, b, r))
  {
    var t := Append(s, c, b, r);
    forall d | d in t.streams ensures StreamOk(t, t.streams[d]) == true {
      assert StreamOk(s, s.streams[d]) == true;
    }
    TakenFrame(s, t);
  }

  lemma AppendHolders(s: State, c: CsId, b: BoId, r: Reloc, a: BoId)
    requires StreamsOk(s) && c in s.streams && b in s.bos
    ensures a == b && s.streams[c].bit.Some? ==>
      Holders(Append(s, c, b, r), a) == Holders(s, a) + {s.streams[c].bit.value}
    ensures a != b || s.streams[c].bit.None? ==> Holders(Append(s, c, b, r), a) == Holders(s, a)
  {
    var t := Append(s, c, b, r);
    forall d | d in s.streams
      ensures Some(a) in t.streams[d].bos <==> Some(a) in s.streams[d].bos || (d == c && a == b)
    {
    }
  }

  lemma UsesHas(s: State, b: BoId, q: (CsId, int))
    ensures q in Uses(s, b) <==>
      q.0 in s.streams && 0 <= q.1 < |s.streams[q.0].bos| && s.streams[q.0].bos[q.1] == Some(b)
  {
  }

  lemma AppendUses(s: State, c: CsId, b: BoId, r: Reloc, a: BoId)
    requires c in s.streams && b in s.bos
    ensures |Uses(Append(s, c, b, r), a)| == |Uses(s, a)| + if a == b then 1 else 0
  {
    var t := Append(s, c, b, r);
    var p := (c, |s.streams[c].bos|);
    var more := if a == b then {p} else {};
    forall q ensures q in Uses(t, a) <==> q in Uses(s, a) || q in more {
      UsesHas(s, a, q);
      UsesHas(t, a, q);
    }
    UsesHas(s, a, p);
    OneMore(Uses(s, a), Uses(t, a), more);
  }

  lemma OneMore(u: set<(CsId, int)>, v: set<(CsId, int)>, more: set<(CsId, int)>)
    requires u !! more && forall q :: q in v <==> q in u || q in more
    ensures |v| == |u| + |more|
  {
    assert v == u + more;
  }

  lemma AppendOk(s: State, c: CsId, b: BoId, r: Reloc, ext: BoId -> nat)
    requires Ok(s, ext) && c in s.streams && b in s.bos && r.handle == s.bos[b].handle
    requires s.streams[c].bit.Some? ==> Some(b) !in s.streams[c].bos
    ensures Ok(Append(s, c, b, r), ext)
  {
    var t := Append(s, c, b, r);
    AppendStreams(s, c, b, r);
    forall a | a in t.bos ensures BoOk(t, a, ext) == true {
      assert BoOk(s, a, ext) == true;
      AppendBo(s, c, b, r, ext, a);
    }
  }

  lemma AppendBo(s: State, c: CsId, b: BoId, r: Reloc, ext: BoId -> nat, a: BoId)
    requires StreamsOk(s) && c in s.streams && b in s.bos && a in s.bos && BoOk(s, a, ext)
    requires s.streams[c].bit.Some? ==> Some(b) !in s.streams[c].bos
    ensures BoOk(Append(s, c, b, r), a, ext)
  {
    AppendHolders(s, c, b, r, a);
    AppendUses(s, c, b, r, a);
    if a == b && s.streams[c].bit.Some? {
      NotHolder(s, c, b);
      MaskAdd(Holders(s, b), s.streams[c].bit.value);
    }
  }

  /** A stream that does not list the buffer does not lend its bit to the mask. */
  lemma NotHolder(s: State, c: CsId, b: BoId)
    requires StreamsOk(s) && c in s.streams && s.streams[c].bit.Some? && Some(b) !in s.streams[c].bos
    ensures s.streams[c].bit.value !in Holders(s, b) && s.streams[c].bit.value < BITS
  {
    assert StreamOk(s, s.streams[c]) == true;
  }

  lemma ReleaseStreams(s: State, c: CsId, i: nat)
    requires StreamsOk(s) && c in s.streams && i < |s.streams[c].bos| && s.streams[c].bos[i].Some?
    requires s.streams[c].bos[i].value in s.bos
    requires forall j :: 0 <= j < i ==> s.streams[c].bos[j].None?
    ensures StreamsOk(LetGo(s, c, i))
  {
    var t := LetGo(s, c, i);
    forall d | d in t.streams ensures StreamOk(t, t.streams[d]) == true {
      assert StreamOk(s, s.streams[d]) == true;
    }
    TakenFrame(s, t);
  }

  lemma ReleaseHolders(s: State, c: CsId, i: nat, a: BoId)
    requires StreamsOk(s) && c in s.streams && i < |s.streams[c].bos| && s.streams[c].bos[i].Some?
    requires s.streams[c].bos[i].value in s.bos
    ensures Some(a) == s.streams[c].bos[i] && s.streams[c].bit.Some? ==>
      Holders(LetGo(s, c, i), a) == Holders(s, a) - {s.streams[c].bit.value}
    ensures Some(a) != s.streams[c].bos[i] || s.streams[c].bit.None? ==> Holders(LetGo(s, c, i), a) == Holders(s, a)
  {
    var t := LetGo(s, c, i);
    var x, b := s.streams[c], s.streams[c].bos[i].value;
    assert StreamOk(s, x) == true;
    forall d | d in s.streams && s.streams[d].bit.Some?
      ensures Some(a) in t.streams[d].bos <==> Some(a) in s.streams[d].bos && !(d == c && a == b)
    {
      if d == c && a != b && Some(a) in x.bos {
        var j :| 0 <= j < |x.bos| && x.bos[j] == Some(a);
        assert t.streams[c].bos[j] == Some(a);
      }
    }
    if x.bit.Some? {
      forall d | d in s.streams && d != c && s.streams[d].bit.Some? ensures s.streams[d].bit != x.bit {
      }
    }
  }

  lemma ReleaseUses(s: State, c: CsId, i: nat, a: BoId)
    requires c in s.streams && i < |s.streams[c].bos| && s.streams[c].bos[i].Some? && s.streams[c].bos[i].value in s.bos
    ensures |Uses(LetGo(s, c, i), a)| == |Uses(s, a)| - if Some(a) == s.streams[c].bos[i] then 1 else 0
  {
    var t := LetGo(s, c, i);
    var less := if Some(a) == s.streams[c].bos[i] then {(c, i as int)} else {};
    forall q ensures q in Uses(s, a) <==> q in Uses(t, a) || q in less {
      UsesHas(s, a, q);
      UsesHas(t, a, q);
    }
    UsesHas(t, a, (c, i));
    OneMore(Uses(t, a), Uses(s, a), less);
  }

  lemma ReleaseOk(s: State, c: CsId, i: nat, ext: BoId -> nat)
    requires Ok(s, ext) && c in s.streams && i < |s.streams[c].bos| && s.streams[c].bos[i].Some?
    requires forall j :: 0 <= j < i ==> s.streams[c].bos[j].None?
    ensures s.streams[c].bos[i].value in s.bos && Ok(LetGo(s, c, i), ext)
  {
    assert StreamOk(s, s.streams[c]) == true;
    var t := LetGo(s, c, i);
    var b := s.streams[c].bos[i].value;
    ReleaseStreams(s, c, i);
    forall a | a in t.bos ensures BoOk(t, a, ext) == true {
      assert BoOk(s, a, ext) == true;
      ReleaseHolders(s, c, i, a);
      ReleaseUses(s, c, i, a);
      if a == b && s.streams[c].bit.Some? {
        assert s.streams[c].bit.value in Holders(s, b);
        MaskDrop(Holders(s, b), s.streams[c].bit.value);
      }
    }
  }

  /** Streams whose lists and bits are the same use the same buffers. */
  ghost predicate SameLists(s: State, t: State)
  {
    && t.bos == s.bos && t.streams.Keys == s.streams.Keys
    && (forall c :: c in s.streams ==> t.streams[c].bit == s.streams[c].bit && t.streams[c].bos == s.streams[c].bos)
  }

  lemma SameListsOk(s: State, t: State, ext: BoId -> nat)
    requires BosOk(s, ext) && SameLists(s, t)
    ensures BosOk(t, ext)
  {
    forall b | b in t.bos ensures BoOk(t, b, ext) == true {
      assert BoOk(s, b, ext) == true;
      SameBooks(s, t, b);
    }
  }

  lemma SameBooks(s: State, t: State, b: BoId)
    requires SameLists(s, t)
    ensures Holders(t, b) == Holders(s, b) && Uses(t, b) == Uses(s, b)
  {
    forall k | k in Holders(s, b) ensures k in Holders(t, b) {
      var c :| c in s.streams && s.streams[c].bit == Some(k) && Some(b) in s.streams[c].bos;
      assert c in t.streams;
    }
    forall k | k in Holders(t, b) ensures k in Holders(s, b) {
      var c :| c in t.streams && t.streams[c].bit == Some(k) && Some(b) in t.streams[c].bos;
      assert c in s.streams;
    }
  }

  /** A change of the domains or packets of one stream. */
  lemma RewriteOk(s: State, c: CsId, relocs: seq<Reloc>, packets: seq<int>, ext: BoId -> nat)
    requires Ok(s, ext) && c in s.streams && |relocs| == |s.streams[c].relocs|
    requires forall i :: 0 <= i < |relocs| ==> relocs[i].handle == s.streams[c].relocs[i].handle
    ensures Ok(Rewrite(s, c, relocs, packets), ext)
  {
    var t := Rewrite(s, c, relocs, packets);
    forall d | d in t.streams ensures StreamOk(t, t.streams[d]) == true {
      assert StreamOk(s, s.streams[d]) == true;
    }
    TakenFrame(s, t);
    SameListsOk(s, t, ext);
  }

  ghost predicate SameOthers(s: State, t: State, c: CsId)
  {
    forall d :: d != c ==> (d in s.streams <==> d in t.streams) && (d in s.streams ==> t.streams[d] == s.streams[d])
  }

  /** A stream that lists nothing can come, be cleared and go. */
  lemma EmptyBooks(s: State, t: State, c: CsId, b: BoId)
    requires SameOthers(s, t, c)
    requires c in s.streams ==> AllReleased(s.streams[c])
    requires c in t.streams ==> AllReleased(t.streams[c])
    ensures Holders(t, b) == Holders(s, b) && Uses(t, b) == Uses(s, b)
  {
    forall d | d in s.streams && Some(b) in s.streams[d].bos ensures d in t.streams && t.streams[d] == s.streams[d] {
    }
    forall d | d in t.streams && Some(b) in t.streams[d].bos ensures d in s.streams && t.streams[d] == s.streams[d] {
    }
    assert Holders(t, b) == Holders(s, b);
    assert Uses(t, b) == Uses(s, b);
  }

  lemma EmptyOk(s: State, t: State, c: CsId, ext: BoId -> nat)
    requires BosOk(s, ext) && t.bos == s.bos
    requires SameOthers(s, t, c)
    requires c in s.streams ==> AllReleased(s.streams[c])
    requires c in t.streams ==> AllReleased(t.streams[c])
    ensures BosOk(t, ext)
  {
    forall b | b in t.bos ensures BoOk(t, b, ext) == true {
      assert BoOk(s, b, ext) == true;
      EmptyBooks(s, t, c, b);
    }
  }

  lemma ResetOk(s: State, c: CsId, ext: BoId -> nat)
    requires Ok(s, ext) && c in s.streams && AllReleased(s.streams[c])
    ensures Ok(Reset(s, c), ext)
  {
    var t := Reset(s, c);
    forall d | d in t.streams ensures StreamOk(t, t.streams[d]) == true {
      assert StreamOk(s, s.streams[d]) == true;
    }
    TakenFrame(s, t);
    EmptyOk(s, t, c, ext);
  }

  /** A new stream gets the lowest free bit; with all 32 taken its id is 0. */
  lemma CreateOk(s: State, c: CsId, ext: BoId -> nat)
    requires Ok(s, ext) && c !in s.streams
    ensures Ok(Create(s, c), ext)
    ensures Create(s, c).streams[c].bit.None? <==> forall k :: 0 <= k < BITS ==> k in Taken(s)
    ensures Create(s, c).streams[c].bit.Some? ==>
      var k := Create(s, c).streams[c].bit.value; k !in Taken(s) && k < BITS && forall j :: 0 <= j < k ==> j in Taken(s)
  {
    var t := Create(s, c);
    FreeBit(Taken(s));
    var k := t.streams[c].bit;
    assert t.streams == s.streams[c := t.streams[c]] && t.streams[c].bos == [];
    CreateTaken(s, t, c);
    if k.Some? {
      MaskAdd(Taken(s), k.value);
    }
    CreateStreams(s, t, c);
    EmptyOk(s, t, c, ext);
  }

  lemma CreateTaken(s: State, t: State, c: CsId)
    requires c !in s.streams && c in t.streams && t.streams == s.streams[c := t.streams[c]]
    ensures t.streams[c].bit.Some? ==> Taken(t) == Taken(s) + {t.streams[c].bit.value}
    ensures t.streams[c].bit.None? ==> Taken(t) == Taken(s)
  {
    forall d | d in s.streams ensures t.streams[d] == s.streams[d] {
    }
  }

  lemma CreateStreams(s: State, t: State, c: CsId)
    requires StreamsOk(s) && c !in s.streams && c in t.streams && t.streams == s.streams[c := t.streams[c]]
    requires t.bos == s.bos
    requires t.streams[c].bos == [] && t.streams[c].relocs == [] && t.idSource == Mask(Taken(t))
    requires t.streams[c].bit.Some? ==> t.streams[c].bit.value !in Taken(s) && t.streams[c].bit.value < BITS
    ensures StreamsOk(t)
  {
    forall d | d in t.streams ensures StreamOk(t, t.streams[d]) == true {
      assert d != c ==> StreamOk(s, s.streams[d]) == true;
    }
    forall d | d in s.streams && s.streams[d].bit.Some? ensures s.streams[d].bit != t.streams[c].bit {
      assert s.streams[d].bit.value in Taken(s);
    }
  }

  lemma DestroyTaken(s: State, c: CsId)
    requires StreamsOk(s) && c in s.streams
    ensures s.idSource >= s.streams[c].Id()
    ensures Destroy(s, c).idSource == Mask(Taken(Destroy(s, c)))
  {
    assert StreamOk(s, s.streams[c]) == true;
    var k := s.streams[c].bit;
    if k.Some? {
      assert k.value in Taken(s);
      MaskDrop(Taken(s), k.value);
    }
    TakenWithout(s, Destroy(s, c), c);
  }

  lemma TakenWithout(s: State, t: State, c: CsId)
    requires StreamsOk(s) && c in s.streams && t.streams == s.streams - {c}
    ensures s.streams[c].bit.Some? ==> Taken(t) == Taken(s) - {s.streams[c].bit.value}
    ensures s.streams[c].bit.None? ==> Taken(t) == Taken(s)
  {
    forall j | j in Taken(s) && Some(j) != s.streams[c].bit ensures j in Taken(t) {
      var d :| d in s.streams && s.streams[d].bit == Some(j);
      assert d in t.streams && t.streams[d] == s.streams[d];
    }
    forall j | j in Taken(t) ensures j in Taken(s) && Some(j) != s.streams[c].bit {
      var d :| d in t.streams && t.streams[d].bit == Some(j);
      assert d in s.streams && t.streams[d] == s.streams[d];
    }
  }

  /** An emitted or erased stream gives its id back. */
  lemma DestroyOk(s: State, c: CsId, ext: BoId -> nat)
    requires Ok(s, ext) && c in s.streams && AllReleased(s.streams[c])
    ensures s.idSource >= s.streams[c].Id() && Ok(Destroy(s, c), ext)
  {
    DestroyTaken(s, c);
    var t := Destroy(s, c);
    forall d | d in t.streams ensures StreamOk(t, t.streams[d]) == true {
      assert StreamOk(s, s.streams[d]) == true;
    }
    EmptyOk(s, t, c, ext);
  }

  // ----- cs_gem_write_reloc

  /** The latest relocation before `n` for the handle. */
  function LastWith(rs: seq<Reloc>, handle: nat, n: nat): (r: Option<nat>)
    requires n <= |rs|
    ensures r.Some? ==> r.value < n && rs[r.value].handle == handle
    ensures r.None? ==> forall i :: 0 <= i < n ==> rs[i].handle != handle
    ensures r.Some? ==> forall i :: r.value < i < n ==> rs[i].handle != handle
  {
    if n == 0 then None
    else if rs[n - 1].handle == handle then Some(n - 1)
    else LastWith(rs, handle, n - 1)
  }

  /** An existing relocation takes in another use of its buffer; None is -EINVAL. */
  function Merge(r: Reloc, read: bv32, write: bv32, flags: bv32): Option<Reloc>
  {
    if write != 0 && r.read & write != 0 then
      Some(Reloc(r.handle, 0 | read, write | write, r.flags | (flags & r.flags)))
    else if read & r.write != 0 then
      Some(Reloc(r.handle, 0 | read, r.write | write, r.flags | (flags & r.flags)))
    else if write != r.write || read != r.read then None
    else Some(Reloc(r.handle, r.read | read, r.write | write, r.flags | (flags & r.flags)))
  }

  predicate BadDomains(read: bv32, write: bv32)
  {
    || (read != 0 && write != 0) || (read == 0 && write == 0)
    || read == DOMAIN_CPU || write == DOMAIN_CPU
  }

  /** One domain, for reading or for writing. */
  predicate OneDomain(r: Reloc)
  {
    (r.read == 0) != (r.write == 0)
  }

  /** The comment that a buffer is in a read or in a write domain, never both,
      fails when a buffer already written to is read: exactly then. */
  lemma MergeDomains(r: Reloc, read: bv32, write: bv32, flags: bv32)
    requires OneDomain(r) && !BadDomains(read, write) && Merge(r, read, write, flags).Some?
    ensures OneDomain(Merge(r, read, write, flags).value) <==> read & r.write == 0
  {
    if write != 0 && r.read & write != 0 {
      MergeNowWritten(r, read, write, flags);
    } else if read & r.write != 0 {
      MergeReadToo(r, read, write, flags);
    } else {
      MergeSame(r, read, write, flags);
    }
  }

  lemma MergeNowWritten(r: Reloc, read: bv32, write: bv32, flags: bv32)
    requires !BadDomains(read, write) && write != 0 && r.read & write != 0
    ensures Merge(r, read, write, flags).Some? && OneDomain(Merge(r, read, write, flags).value) && read & r.write == 0
  {
    NowWritten(r.read, r.write, read, write);
  }

  lemma MergeReadToo(r: Reloc, read: bv32, write: bv32, flags: bv32)
    requires !(write != 0 && r.read & write != 0) && read & r.write != 0
    ensures Merge(r, read, write, flags).Some? && !OneDomain(Merge(r, read, write, flags).value)
  {
    var a, b := 0 | read, r.write | write;
    assert Merge(r, read, write, flags) == Some(Reloc(r.handle, a, b, r.flags | (flags & r.flags)));
    assert a != 0 && b != 0 by { ReadToo(r.write, read, write); }
  }

  lemma MergeSame(r: Reloc, read: bv32, write: bv32, flags: bv32)
    requires OneDomain(r) && !(write != 0 && r.read & write != 0) && read & r.write == 0
    ensures Merge(r, read, write, flags).Some? ==> OneDomain(Merge(r, read, write, flags).value)
  {
    if write == r.write && read == r.read {
      SameAgain(r.read, r.write, read, write);
    }
  }

  lemma NowWritten(rr: bv32, rw: bv32, read: bv32, write: bv32)
    requires read == 0 || write == 0
    requires write != 0 && rr & write != 0
    ensures 0 | read == 0 && write | write != 0 && read & rw == 0
  {
  }

  lemma ReadToo(rw: bv32, read: bv32, write: bv32)
    requires read & rw != 0
    ensures 0 | read != 0 && rw | write != 0
  {
  }

  lemma SameAgain(rr: bv32, rw: bv32, read: bv32, write: bv32)
    requires read == rr && write == rw
    ensures rr | read == rr && rw | write == rw
  {
  }

  /** For example, after a write to VRAM (4) a read of it leaves both domains set. */
  lemma ReadAfterWrite()
    ensures var r := Merge(Reloc(1, 0, 4, 0), 4, 0, 0); r.Some? && r.value.read == 4 && r.value.write == 4
  {
  }

  /** The line that updates the flags never changes them. */
  lemma FlagsNeverChange(r: Reloc, read: bv32, write: bv32, flags: bv32)
    ensures Merge(r, read, write, flags).Some? ==> Merge(r, read, write, flags).value.flags == r.flags
  {
    FlagsAbsorb(r.flags, flags);
  }

  lemma FlagsAbsorb(x: bv32, y: bv32)
    ensures x | (y & x) == x
  {
  }

  predicate Listed(s: State, c: CsId, b: BoId)
    requires c in s.streams && b in s.bos
  {
    var x := s.streams[c];
    x.bit.Some? && s.bos[b].inCs >= 0 && TestBit(s.bos[b].inCs, x.bit.value)
      && LastWith(x.relocs, s.bos[b].handle, |x.relocs|).Some?
  }

  /** cs_gem_write_reloc */
  function WriteReloc(s: State, c: CsId, b: BoId, read: bv32, write: bv32, flags: bv32): (State, int)
    requires c in s.streams && b in s.bos
  {
    var x := s.streams[c];
    var at := LastWith(x.relocs, s.bos[b].handle, |x.relocs|);
    if BadDomains(read, write) then (s, -EINVAL)
    else if Listed(s, c, b) then
      var m := Merge(x.relocs[at.value], read, write, flags);
      if m.None? then (s, -EINVAL)
      else (Rewrite(s, c, x.relocs[at.value := m.value], x.packets + [PACKET, at.value * RELOC_SIZE]), 0)
    else (Append(s, c, b, Reloc(s.bos[b].handle, read, write, flags)), 0)
  }

  /** The latest relocation with the handle of a listed buffer is that of the buffer. */
  lemma LatestIsIt(s: State, ext: BoId -> nat, x: Stream, b: BoId)
    requires BosOk(s, ext) && StreamOk(s, x) && b in s.bos && Some(b) in x.bos
    ensures var at := LastWith(x.relocs, s.bos[b].handle, |x.relocs|);
      at.Some? && |x.bos| == |x.relocs| && x.bos[at.value] == Some(b)
  {
    var i :| 0 <= i < |x.bos| && x.bos[i] == Some(b);
    assert x.relocs[i].handle == s.bos[b].handle;
    var at := LastWith(x.relocs, s.bos[b].handle, |x.relocs|);
    assert i <= at.value && x.bos[at.value].Some?;
  }

  /** The bit test never hides a relocation of the buffer, and the one found is it. */
  lemma ListedExactly(s: State, ext: BoId -> nat, c: CsId, b: BoId)
    requires Ok(s, ext) && c in s.streams && b in s.bos && s.streams[c].bit.Some?
    ensures Listed(s, c, b) <==> Some(b) in s.streams[c].bos
    ensures Listed(s, c, b) ==>
      var at := LastWith(s.streams[c].relocs, s.bos[b].handle, |s.streams[c].relocs|);
      |s.streams[c].bos| == |s.streams[c].relocs| && s.streams[c].bos[at.value] == Some(b)
  {
    FilterIsExact(s, ext, c, b);
    assert StreamOk(s, s.streams[c]) == true;
    if Some(b) in s.streams[c].bos {
      LatestIsIt(s, ext, s.streams[c], b);
    }
  }

  /** What write_reloc leaves: the stream lists the buffer, and one with an id lists it
      once however often it is used. */
  ghost predicate Written(s: State, t: State, c: CsId, b: BoId)
    requires c in s.streams
  {
    && c in t.streams && t.streams.Keys == s.streams.Keys && t.bos.Keys == s.bos.Keys && Some(b) in t.streams[c].bos
    && (s.streams[c].bit.Some? ==>
        t.streams[c].bos == if Some(b) in s.streams[c].bos then s.streams[c].bos else s.streams[c].bos + [Some(b)])
  }

  lemma AppendWritten(s: State, c: CsId, b: BoId, r: Reloc)
    requires c in s.streams && b in s.bos && (s.streams[c].bit.Some? ==> Some(b) !in s.streams[c].bos)
    ensures Written(s, Append(s, c, b, r), c, b)
  {
    assert Append(s, c, b, r).streams[c].bos[|s.streams[c].bos|] == Some(b);
  }

  lemma RewriteWritten(s: State, c: CsId, b: BoId, relocs: seq<Reloc>, packets: seq<int>)
    requires c in s.streams && Some(b) in s.streams[c].bos
    ensures Written(s, Rewrite(s, c, relocs, packets), c, b)
  {
  }

  /** write_reloc keeps the books, and after a success the stream lists the buffer. */
  lemma WriteRelocOk(s: State, ext: BoId -> nat, c: CsId, b: BoId, read: bv32, write: bv32, flags: bv32)
    requires Ok(s, ext) && c in s.streams && b in s.bos
    ensures var w := WriteReloc(s, c, b, read, write, flags);
      Ok(w.0, ext) == true && (w.1 == 0 || (w.1 == -EINVAL && w.0 == s)) && (w.1 == 0 ==> Written(s, w.0, c, b) == true)
  {
    var x := s.streams[c];
    if x.bit.Some? {
      ListedExactly(s, ext, c, b);
    }
    if Listed(s, c, b) {
      var at := LastWith(x.relocs, s.bos[b].handle, |x.relocs|).value;
      var m := Merge(x.relocs[at], read, write, flags);
      ReuseOk(s, ext, c, at, read, write, flags);
      if m.Some? {
        RewriteWritten(s, c, b, x.relocs[at := m.value], x.packets + [PACKET, at * RELOC_SIZE]);
      }
    } else {
      AppendOk(s, c, b, Reloc(s.bos[b].handle, read, write, flags), ext);
      AppendWritten(s, c, b, Reloc(s.bos[b].handle, read, write, flags));
    }
  }

  lemma ReuseOk(s: State, ext: BoId -> nat, c: CsId, at: nat, read: bv32, write: bv32, flags: bv32)
    requires Ok(s, ext) && c in s.streams && at < |s.streams[c].relocs|
    ensures var x := s.streams[c]; var m := Merge(x.relocs[at], read, write, flags);
      m.Some? ==> Ok(Rewrite(s, c, x.relocs[at := m.value], x.packets + [PACKET, at * RELOC_SIZE]), ext)
  {
    var x := s.streams[c];
    var m := Merge(x.relocs[at], read, write, flags);
    if m.Some? {
      RewriteOk(s, c, x.relocs[at := m.value], x.packets + [PACKET, at * RELOC_SIZE], ext);
    }
  }

  // ----- all interleavings

  /** What the streams of any number of threads do, one atomic action at a time. */
  datatype Op =
    | OpCreate(c: CsId)
    | OpWrite(c: CsId, b: BoId, read: bv32, write: bv32, flags: bv32)
    | OpRelease(c: CsId, i: nat)
    | OpReset(c: CsId)
    | OpDestroy(c: CsId)

  ghost predicate Legal(s: State, op: Op)
  {
    match op
    case OpCreate(c) => c !in s.streams
    case OpWrite(c, b, _, _, _) => c in s.streams && b in s.bos
    case OpRelease(c, i) => c in s.streams && i < |s.streams[c].bos| && s.streams[c].bos[i].Some?
      && forall j :: 0 <= j < i ==> s.streams[c].bos[j].None?
    case OpReset(c) => c in s.streams && AllReleased(s.streams[c])
    case OpDestroy(c) => c in s.streams && AllReleased(s.streams[c])
  }

  ghost function Step(s: State, op: Op): State
  {
    match op
    case OpCreate(c) => Create(s, c)
    case OpWrite(c, b, read, write, flags) =>
      if c in s.streams && b in s.bos then WriteReloc(s, c, b, read, write, flags).0 else s
    case OpRelease(c, i) =>
      if c in s.streams && i < |s.streams[c].bos| && s.streams[c].bos[i].Some? && s.streams[c].bos[i].value in s.bos
      then LetGo(s, c, i) else s
    case OpReset(c) => if c in s.streams then Reset(s, c) else s
    case OpDestroy(c) => if c in s.streams && s.idSource >= s.streams[c].Id() then Destroy(s, c) else s
  }

  ghost function Run(s: State, ops: seq<Op>): State
    decreases |ops|
  {
    if ops == [] then s else Run(Step(s, ops[0]), ops[1..])
  }

  ghost predicate LegalRun(s: State, ops: seq<Op>)
    decreases |ops|
  {
    ops == [] || (Legal(s, ops[0]) && LegalRun(Step(s, ops[0]), ops[1..]))
  }

  lemma StepOk(s: State, op: Op, ext: BoId -> nat)
    requires Ok(s, ext) && Legal(s, op)
    ensures Ok(Step(s, op), ext)
  {
    match op
    case OpCreate(c) => CreateOk(s, c, ext);
    case OpWrite(c, b, read, write, flags) => WriteRelocOk(s, ext, c, b, read, write, flags);
    case OpRelease(c, i) => ReleaseOk(s, c, i, ext);
    case OpReset(c) => ResetOk(s, c, ext);
    case OpDestroy(c) => DestroyOk(s, c, ext);
  }

  /** In every state of every interleaving the masks, the lists and the reference counts agree. */
  lemma {:induction false} EveryRunOk(s: State, ops: seq<Op>, ext: BoId -> nat)
    requires Ok(s, ext) && LegalRun(s, ops)
    ensures Ok(Run(s, ops), ext)
    decreases |ops|
  {
    if ops != [] {
      StepOk(s, ops[0], ext);
      EveryRunOk(Step(s, ops[0]), ops[1..], ext);
    }
  }

  /** Buffers that only clients refer to. */
  ghost predicate Unused(bos: map<BoId, Bo>, ext: BoId -> nat)
  {
    && (forall b :: b in bos ==> bos[b].inCs == 0 && bos[b].refs == ext(b))
    && (forall a, b :: a in bos && b in bos && a != b ==> bos[a].handle != bos[b].handle)
  }

  lemma {:induction false} MaskNone(n: nat)
    ensures MaskBelow({}, n) == 0
  {
    if n > 0 {
      MaskNone(n - 1);
    }
  }

  /** Where every run may begin. */
  lemma FirstOk(bos: map<BoId, Bo>, ext: BoId -> nat)
    requires Unused(bos, ext)
    ensures Ok(State(0, map[], bos), ext)
  {
    var s := State(0, map[], bos);
    MaskNone(BITS);
    assert Taken(s) == {};
    forall b | b in bos ensures BoOk(s, b, ext) == true {
      assert Holders(s, b) == {} && Uses(s, b) == {};
    }
  }

  // ----- the functions of the interface

  /** All streams and buffers of a process. */
  class Gem {
    var st: State

    /** No stream yet, and no buffer used by one. */
    constructor (bos: map<BoId, Bo>, ghost ext: BoId -> nat)
      requires Unused(bos, ext)
      ensures Ok(st, ext) && st.streams == map[] && st.bos == bos
    {
      FirstOk(bos, ext);
      st := State(0, map[], bos);
    }

    /** cs_gem_create, with generate_id. */
    method CreateStream(c: CsId, ghost ext: BoId -> nat)
      requires Ok(st, ext) && c !in st.streams
      modifies this
      ensures Ok(st, ext) && st == Create(old(st), c)
    {
      CreateOk(st, c, ext);
      var id := None;
      if st.idSource != Pow2(BITS) - 1 {
        var k := LowestClear(st.idSource, 0);
        FreeBit(Taken(st));
        id := Some(k);
        st := st.(idSource := st.idSource + Pow2(k));
      }
      st := st.(streams := st.streams[c := Stream(id, [], [], [])]);
    }

    /** cs_gem_destroy */
    method DestroyStream(c: CsId, ghost ext: BoId -> nat)
      requires Ok(st, ext) && c in st.streams && AllReleased(st.streams[c])
      modifies this
      ensures Ok(st, ext) && st.streams == old(st).streams - {c} && st.bos == old(st).bos
    {
      DestroyOk(st, c, ext);
      st := Destroy(st, c);
    }

    /** cs_gem_write_reloc */
    method Write(c: CsId, b: BoId, read: bv32, write: bv32, flags: bv32, ghost ext: BoId -> nat) returns (ret: int)
      requires Ok(st, ext) && c in st.streams && b in st.bos
      modifies this
      ensures Ok(st, ext) && (st, ret) == WriteReloc(old(st), c, b, read, write, flags)
      ensures ret == 0 ==> Written(old(st), st, c, b)
    {
      WriteRelocOk(st, ext, c, b, read, write, flags);
      if (read != 0 && write != 0) || (read == 0 && write == 0) || read == DOMAIN_CPU || write == DOMAIN_CPU {
        return -EINVAL;
      }
      var at := Search(c, b);
      if at.Some? {
        ret := Reuse(c, at.value, read, write, flags);
        return;
      }
      st := Append(st, c, b, Reloc(st.bos[b].handle, read, write, flags));
      ret := 0;
    }

    /** The bit test and the scan from the end. */
    method Search(c: CsId, b: BoId) returns (at: Option<nat>)
      requires c in st.streams && b in st.bos
      ensures at ==
        if Listed(st, c, b) then LastWith(st.streams[c].relocs, st.bos[b].handle, |st.streams[c].relocs|) else None
    {
      var x := st.streams[c];
      if x.bit.Some? && st.bos[b].inCs >= 0 && TestBit(st.bos[b].inCs, x.bit.value) {
        var i := |x.relocs|;
        while i != 0
          invariant 0 <= i <= |x.relocs|
          invariant LastWith(x.relocs, st.bos[b].handle, i) == LastWith(x.relocs, st.bos[b].handle, |x.relocs|)
        {
          i := i - 1;
          if x.relocs[i].handle == st.bos[b].handle {
            return Some(i);
          }
        }
      }
      return None;
    }

    method Reuse(c: CsId, i: nat, read: bv32, write: bv32, flags: bv32) returns (ret: int)
      requires c in st.streams && i < |st.streams[c].relocs|
      modifies this
      ensures var x := old(st).streams[c]; var m := Merge(x.relocs[i], read, write, flags);
        if m.None? then ret == -EINVAL && st == old(st)
        else ret == 0 && st == Rewrite(old(st), c, x.relocs[i := m.value], x.packets + [PACKET, i * RELOC_SIZE])
    {
      var x := st.streams[c];
      var m := Merge(x.relocs[i], read, write, flags);
      if m.None? {
        return -EINVAL;
      }
      st := Rewrite(st, c, x.relocs[i := m.value], x.packets + [PACKET, i * RELOC_SIZE]);
      ret := 0;
    }

    /** The release loop of cs_gem_erase; that of cs_gem_emit is the same on a
        list without released entries, which is all it may be called on. */
    method ReleaseAll(c: CsId, ghost ext: BoId -> nat)
      requires Ok(st, ext) && c in st.streams
      modifies this
      ensures Ok(st, ext) && ReleasedFrom(old(st), st, c)
    {
      var i, n := 0, |st.streams[c].bos|;
      while i < n
        invariant Ok(st, ext) == true && i <= n && Releasing(old(st), st, c, i) == true
      {
        ReleaseOne(c, i, old(st), ext);
        i := i + 1;
      }
      assert i == n;
      ReleasingEnd(old(st), st, c);
    }

    method ReleaseOne(c: CsId, i: nat, ghost s0: State, ghost ext: BoId -> nat)
      requires Ok(st, ext) && Releasing(s0, st, c, i) && i < |s0.streams[c].bos|
      modifies this
      ensures Ok(st, ext) == true && Releasing(s0, st, c, i + 1) == true
    {
      if st.streams[c].bos[i].Some? {
        ReleaseOk(st, c, i, ext);
        ReleasingNext(s0, st, c, i);
        st := LetGo(st, c, i);
      } else {
        ReleasingSkip(s0, st, c, i);
      }
    }

    /** cs_gem_emit after the ioctl. */
    method Emit(c: CsId, ghost ext: BoId -> nat)
      requires Ok(st, ext) && c in st.streams && forall i :: 0 <= i < |st.streams[c].bos| ==> st.streams[c].bos[i].Some?
      modifies this
      ensures Ok(st, ext) && ReleasedFrom(old(st), st, c)
    {
      ReleaseAll(c, ext);
    }

    /** cs_gem_erase */
    method Erase(c: CsId, ghost ext: BoId -> nat)
      requires Ok(st, ext) && c in st.streams
      modifies this
      ensures Ok(st, ext) && c in st.streams
      ensures st.streams[c] == old(st).streams[c].(relocs := [], bos := [], packets := [])
      ensures forall b :: Uses(st, b) == UsesElsewhere(old(st), b, c)
    {
      ReleaseAll(c, ext);
      ResetOk(st, c, ext);
      ghost var was := st;
      st := Reset(st, c);
      forall b ensures Uses(st, b) == UsesElsewhere(old(st), b, c) {
        EmptyBooks(was, st, c, b);
      }
    }
  }

  ghost function UsesElsewhere(s: State, b: BoId, c: CsId): set<(CsId, int)>
  {
    set p | p in Uses(s, b) && p.0 != c
  }

  /** The stream lists nothing any more; every other relocation keeps its
      reference, so each of its own was dropped once. */
  ghost predicate ReleasedFrom(s: State, t: State, c: CsId)
  {
    && c in s.streams && c in t.streams && AllReleased(t.streams[c])
    && t.streams == s.streams[c := t.streams[c]] && t.bos.Keys == s.bos.Keys
    && t.streams[c] == s.streams[c].(bos := t.streams[c].bos)
    && (forall b :: Uses(t, b) == UsesElsewhere(s, b, c))
  }

  ghost predicate Releasing(s: State, t: State, c: CsId, i: nat)
  {
    ReleasingFacts(s, t, c, i) == true
  }

  ghost predicate ReleasingFacts(s: State, t: State, c: CsId, i: nat)
  {
    && c in s.streams && c in t.streams && t.streams == s.streams[c := t.streams[c]] && t.bos.Keys == s.bos.Keys
    && t.streams[c] == s.streams[c].(bos := t.streams[c].bos) && |t.streams[c].bos| == |s.streams[c].bos|
    && i <= |s.streams[c].bos|
    && (forall j :: 0 <= j < i ==> t.streams[c].bos[j].None?)
    && (forall j :: i <= j < |s.streams[c].bos| ==> t.streams[c].bos[j] == s.streams[c].bos[j])
  }

  lemma ReleasingNext(s: State, t: State, c: CsId, i: nat)
    requires Releasing(s, t, c, i) && i < |s.streams[c].bos| && t.streams[c].bos[i].Some?
    requires t.streams[c].bos[i].value in t.bos
    ensures Releasing(s, LetGo(t, c, i), c, i + 1)
  {
    var u := LetGo(t, c, i);
    assert u.streams[c].bos == t.streams[c].bos[i := None];
    assert u.streams == s.streams[c := u.streams[c]];
  }

  lemma ReleasingSkip(s: State, t: State, c: CsId, i: nat)
    requires Releasing(s, t, c, i) && i < |s.streams[c].bos| && t.streams[c].bos[i].None?
    ensures Releasing(s, t, c, i + 1)
  {
  }

  lemma ReleasingEnd(s: State, t: State, c: CsId)
    requires c in s.streams && Releasing(s, t, c, |s.streams[c].bos|)
    ensures ReleasedFrom(s, t, c)
  {
    forall b ensures Uses(t, b) == UsesElsewhere(s, b, c) {
      forall d | d in s.streams && d != c ensures t.streams[d] == s.streams[d] {
      }
    }
  }
}
