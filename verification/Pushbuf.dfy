/** Placement of buffers for a push buffer (nouveau/pushbuf.c): how much VRAM and
    GART the buffers of a kernel record take, with earlier decisions narrowed
    when space runs out, and failed groups rolled back. */
module Pushbuf {
  import opened MmLayout

  const MAX_BUFFERS: nat := 1024
  const ENOSPC: int := 28

  /** NOUVEAU_GEM_DOMAIN_VRAM and _GART. */
  datatype Domains = Domains(vram: bool, gart: bool)
  {
    predicate Any() { vram || gart }
    predicate VramOnly() { vram && !gart }
    function And(d: Domains): Domains { Domains(vram && d.vram, gart && d.gart) }
    function Or(d: Domains): Domains { Domains(vram || d.vram, gart || d.gart) }
  }

  const NONE: Domains := Domains(false, false)
  const VRAM: Domains := Domains(true, false)

  /** struct nouveau_bo */
  datatype Bo = Bo(handle: nat, size: nat)

  /** struct drm_nouveau_gem_pushbuf_bo */
  datatype Kref = Kref(bo: Bo, valid: Domains, write: Domains, read: Domains)

  /** The part of struct nouveau_pushbuf_krec that accounts for buffers. */
  datatype Krec = Krec(buffers: seq<Kref>, vram: int, gart: int)

  datatype Limits = Limits(vram: nat, gart: nat)

  // ----- accounting

  /** Bytes of the buffers that must be in VRAM. */
  function VramTotal(bs: seq<Kref>): (n: nat)
  {
    if bs == [] then 0
    else VramTotal(bs[..|bs| - 1]) + var k := bs[|bs| - 1]; if k.valid.VramOnly() then k.bo.size else 0
  }

  /** Bytes of the buffers that are accounted to GART. */
  function GartTotal(bs: seq<Kref>): (n: nat)
  {
    if bs == [] then 0
    else GartTotal(bs[..|bs| - 1]) + var k := bs[|bs| - 1]; if k.valid.VramOnly() then 0 else k.bo.size
  }

  ghost predicate Within(k: Krec, max: Limits)
  {
    0 <= k.vram <= max.vram && 0 <= k.gart <= max.gart
  }

  /** The counters cover the buffers that are placed. */
  ghost predicate Covers(k: Krec)
  {
    k.vram >= VramTotal(k.buffers) && k.gart >= GartTotal(k.buffers)
  }

  /** The counters are the sizes of the buffers placed. */
  ghost predicate Exact(k: Krec)
  {
    k.vram == VramTotal(k.buffers) && k.gart == GartTotal(k.buffers)
  }

  ghost predicate Accounted(k: Krec, max: Limits)
  {
    Within(k, max) && Covers(k) && |k.buffers| <= MAX_BUFFERS
  }

  lemma {:induction false} TotalsUpdate(bs: seq<Kref>, i: nat, k: Kref)
    requires i < |bs| && k.bo == bs[i].bo
    ensures VramTotal(bs[i := k]) ==
      VramTotal(bs) + (if k.valid.VramOnly() then k.bo.size else 0) - (if bs[i].valid.VramOnly() then k.bo.size else 0)
    ensures GartTotal(bs[i := k]) ==
      GartTotal(bs) - (if k.valid.VramOnly() then k.bo.size else 0) + (if bs[i].valid.VramOnly() then k.bo.size else 0)
    ensures bs[i].valid.VramOnly() || GartTotal(bs) >= bs[i].bo.size
  {
    var n := |bs| - 1;
    if i < n {
      TotalsUpdate(bs[..n], i, k);
      assert bs[i := k][..n] == bs[..n][i := k];
    } else {
      assert bs[i := k][..n] == bs[..n];
    }
  }

  lemma TotalsAppend(bs: seq<Kref>, k: Kref)
    ensures VramTotal(bs + [k]) == VramTotal(bs) + if k.valid.VramOnly() then k.bo.size else 0
    ensures GartTotal(bs + [k]) == GartTotal(bs) + if k.valid.VramOnly() then 0 else k.bo.size
  {
    assert (bs + [k])[..|bs|] == bs;
  }

  lemma {:induction false} TotalsPrefix(bs: seq<Kref>, n: nat)
    requires n <= |bs|
    ensures VramTotal(bs[..n]) <= VramTotal(bs) && GartTotal(bs[..n]) <= GartTotal(bs)
    decreases |bs|
  {
    if n < |bs| {
      TotalsPrefix(bs[..|bs| - 1], n);
      assert bs[..|bs| - 1][..n] == bs[..n];
    } else {
      assert bs[..n] == bs;
    }
  }

  lemma {:induction false} TotalsDropped(bs: seq<Kref>, n: nat)
    requires n <= |bs|
    ensures VramTotal(bs[..n]) == VramTotal(bs) && GartTotal(bs[..n]) == GartTotal(bs)
      <==> forall i :: n <= i < |bs| ==> bs[i].bo.size == 0
    decreases |bs|
  {
    if n < |bs| {
      var m := |bs| - 1;
      TotalsDropped(bs[..m], n);
      TotalsPrefix(bs[..m], n);
      assert bs[..m][..n] == bs[..n];
    } else {
      assert bs[..n] == bs;
    }
  }

  /** A roll-back drops buffers but not what was counted for them: the counters
      stay exact exactly when the buffers dropped have no size. */
  lemma RollBackExact(k: Krec, n: nat)
    requires Exact(k) && n <= |k.buffers|
    ensures Exact(k.(buffers := k.buffers[..n])) <==> forall i :: n <= i < |k.buffers| ==> k.buffers[i].bo.size == 0
  {
    TotalsDropped(k.buffers, n);
  }

  // ----- narrowing

  /** The same buffers, with domains that may have been narrowed but not emptied. */
  ghost predicate Narrowed(a: seq<Kref>, b: seq<Kref>)
  {
    && |a| == |b|
    && (forall i :: 0 <= i < |a| ==>
        && b[i] == a[i].(valid := b[i].valid)
        && (b[i].valid == a[i].valid || (a[i].valid == Domains(true, true) && b[i].valid == VRAM)))
  }

  lemma NarrowedTrans(a: seq<Kref>, b: seq<Kref>, c: seq<Kref>)
    requires Narrowed(a, b) && Narrowed(b, c)
    ensures Narrowed(a, c)
  {
  }

  /** Moving a VRAM|GART buffer to VRAM keeps the counters right. */
  lemma NarrowOne(k: Krec, i: nat, max: Limits)
    requires Accounted(k, max) && i < |k.buffers| && k.buffers[i].valid == Domains(true, true)
    requires k.vram + k.buffers[i].bo.size <= max.vram
    ensures k.gart >= k.buffers[i].bo.size
    ensures var size := k.buffers[i].bo.size;
      var t := Krec(k.buffers[i := k.buffers[i].(valid := VRAM)], k.vram + size, k.gart - size);
      Accounted(t, max) && (Exact(k) ==> Exact(t)) && Narrowed(k.buffers, t.buffers)
  {
    TotalsUpdate(k.buffers, i, k.buffers[i].(valid := VRAM));
  }

  /** A new buffer whose size has been added to the counter of its domains. */
  lemma AddOne(k: Krec, r: Kref, max: Limits)
    requires |k.buffers| < MAX_BUFFERS && Within(k, max)
    requires r.valid.VramOnly() ==> k.vram - r.bo.size >= VramTotal(k.buffers) && k.gart >= GartTotal(k.buffers)
    requires !r.valid.VramOnly() ==> k.vram >= VramTotal(k.buffers) && k.gart - r.bo.size >= GartTotal(k.buffers)
    ensures Accounted(k.(buffers := k.buffers + [r]), max)
    ensures Exact(k.(vram := k.vram - (if r.valid.VramOnly() then r.bo.size else 0),
      gart := k.gart - (if r.valid.VramOnly() then 0 else r.bo.size)))
      ==> Exact(k.(buffers := k.buffers + [r]))
  {
    TotalsAppend(k.buffers, r);
  }

  // ----- the kref table

  /** Where a client finds the reference to a buffer: the push buffer and the index in its record. */
  datatype Slot = Slot(push: nat, index: nat)

  /** cli_kref_get and cli_push_get. */
  function Get(table: seq<Option<Slot>>, handle: nat): Option<Slot>
  {
    if handle < |table| then table[handle] else None
  }

  /** cli_kref_set, which grows the table to twice the handle.  Handle 0 would be written outside an
      empty table; the kernel never hands it out. */
  method KrefSet(table: seq<Option<Slot>>, handle: nat, slot: Option<Slot>)
      returns (inside: bool, t: seq<Option<Slot>>)
    ensures inside <==> handle > 0 || table != []
    ensures inside ==> handle < |t| && |t| == if |table| <= handle then 2 * handle else |table|
    ensures inside ==> forall h :: Get(t, h) == if h == handle then slot else Get(table, h)
  {
    t := table;
    if |t| <= handle {
      while |t| < handle * 2
        invariant |table| <= |t| <= handle * 2 && t[..|table|] == table
        invariant forall h :: |table| <= h < |t| ==> t[h] == None
      {
        t := t + [None];
      }
    }
    assert forall h :: 0 <= h < |table| ==> t[h] == t[..|table|][h];
    inside := handle < |t|;
    if inside {
      t := t[handle := slot];
    }
  }

  // ----- pushbuf_kref_fits

  /** The counters without a buffer of `size` in domains `d`. */
  ghost function Minus(k: Krec, d: Domains, size: nat): Krec
  {
    if d.VramOnly() then k.(vram := k.vram - size) else k.(gart := k.gart - size)
  }

  /** No more VRAM|GART buffer can be moved to VRAM. */
  ghost predicate Stuck(k: Krec, max: Limits)
  {
    forall i :: 0 <= i < |k.buffers| && k.buffers[i].valid == Domains(true, true) ==>
      k.vram + k.buffers[i].bo.size > max.vram
  }

  /** pushbuf_kref_fits: room for one more buffer, narrowing its domains or those of
      buffers placed before.  It fails only when nothing can be moved to VRAM any more. */
  method KrefFits(k: Krec, bo: Bo, domains: Domains, max: Limits) returns (ok: bool, t: Krec, d: Domains)
    requires Accounted(k, max)
    ensures Narrowed(k.buffers, t.buffers) && Within(t, max)
    ensures d == domains || (domains == Domains(true, true) && d == VRAM)
    ensures ok ==> Accounted(Minus(t, d, bo.size), max) && (Exact(k) ==> Exact(Minus(t, d, bo.size)))
    ensures !ok ==> Accounted(t, max) && (Exact(k) ==> Exact(t)) && d == domains
    ensures !ok && domains.VramOnly() ==> t == k && k.vram + bo.size > max.vram
    ensures !ok && !domains.VramOnly() ==>
      t.gart + bo.size > max.gart && Stuck(t, max) && (domains.vram ==> k.vram + bo.size > max.vram)
  {
    t, d := k, domains;
    if domains == VRAM {
      if t.vram + bo.size > max.vram {
        return false, t, d;
      }
      return true, t.(vram := t.vram + bo.size), d;
    }
    if t.gart + bo.size <= max.gart {
      return true, t.(gart := t.gart + bo.size), d;
    }
    if domains.vram && t.vram + bo.size <= max.vram {
      return true, t.(vram := t.vram + bo.size), domains.And(VRAM);
    }
    ok, t := Narrow(k, bo.size, max);
    if ok {
      t := t.(gart := t.gart + bo.size);
    }
  }

  /** The last resort of pushbuf_kref_fits: turn VRAM|GART buffers into VRAM buffers
      until `size` bytes of GART are free. */
  method Narrow(k: Krec, size: nat, max: Limits) returns (ok: bool, t: Krec)
    requires Accounted(k, max) && k.gart + size > max.gart
    ensures Accounted(t, max) && Narrowed(k.buffers, t.buffers) && (Exact(k) ==> Exact(t))
    ensures ok <==> t.gart + size <= max.gart
    ensures !ok ==> Stuck(t, max)
  {
    t := k;
    var i := 0;
    while i < |t.buffers|
      invariant Accounted(t, max) && Narrowed(k.buffers, t.buffers) && (Exact(k) ==> Exact(t)) && 0 <= i <= |t.buffers|
      invariant t.gart + size > max.gart
      invariant forall j :: 0 <= j < i && t.buffers[j].valid == Domains(true, true) ==>
        t.vram + t.buffers[j].bo.size > max.vram
    {
      var r := t.buffers[i];
      if r.valid.gart && r.valid.vram && t.vram + r.bo.size <= max.vram {
        NarrowOne(t, i, max);
        ghost var was := t;
        t := Krec(t.buffers[i := r.(valid := r.valid.And(VRAM))], t.vram + r.bo.size, t.gart - r.bo.size);
        NarrowedTrans(k.buffers, was.buffers, t.buffers);
        if t.gart + size <= max.gart {
          return true, t;
        }
      }
      i := i + 1;
    }
    ok := false;
  }

  // ----- a client with its push buffers

  /** The table names, for every handle, the one record that has the buffer. */
  ghost predicate TableOk(table: seq<Option<Slot>>, pushes: map<nat, Krec>)
  {
    && (forall h :: Get(table, h).Some? ==> Named(table, pushes, h))
    && (forall p, i :: p in pushes && 0 <= i < |pushes[p].buffers| ==>
        pushes[p].buffers[i].bo.handle > 0 && Get(table, pushes[p].buffers[i].bo.handle) == Some(Slot(p, i)))
  }

  ghost predicate Named(table: seq<Option<Slot>>, pushes: map<nat, Krec>, h: nat)
    requires Get(table, h).Some?
  {
    var s := Get(table, h).value;
    s.push in pushes && s.index < |pushes[s.push].buffers| && pushes[s.push].buffers[s.index].bo.handle == h
  }

  ghost predicate PushesOk(pushes: map<nat, Krec>, max: Limits)
  {
    forall p :: p in pushes ==> Accounted(pushes[p], max) == true
  }

  /** The same buffers in the same order, whatever their domains. */
  ghost predicate SameBos(a: seq<Kref>, b: seq<Kref>)
  {
    |a| == |b| && forall i :: 0 <= i < |a| ==> a[i].bo == b[i].bo
  }

  lemma TableNew(table: seq<Option<Slot>>, pushes: map<nat, Krec>, p: nat)
    requires TableOk(table, pushes) && p !in pushes
    ensures TableOk(table, pushes[p := Krec([], 0, 0)])
  {
    forall h | Get(table, h).Some? ensures Named(table, pushes[p := Krec([], 0, 0)], h) {
      assert Named(table, pushes, h);
    }
  }

  lemma TableSameBos(table: seq<Option<Slot>>, pushes: map<nat, Krec>, p: nat, k: Krec)
    requires TableOk(table, pushes) && p in pushes && SameBos(pushes[p].buffers, k.buffers)
    ensures TableOk(table, pushes[p := k])
  {
    forall h | Get(table, h).Some? ensures Named(table, pushes[p := k], h) {
      assert Named(table, pushes, h);
    }
  }

  /** Adding a buffer to the end of a record, with the table updated. */
  lemma TableAdd(table: seq<Option<Slot>>, pushes: map<nat, Krec>, p: nat, k: Krec, r: Kref, table2: seq<Option<Slot>>)
    requires TableOk(table, pushes) && p in pushes && SameBos(pushes[p].buffers, k.buffers) && r.bo.handle > 0
    requires Get(table, r.bo.handle).None?
    requires forall h :: Get(table2, h) == if h == r.bo.handle then Some(Slot(p, |k.buffers|)) else Get(table, h)
    ensures TableOk(table2, pushes[p := k.(buffers := k.buffers + [r])])
  {
    var pushes2 := pushes[p := k.(buffers := k.buffers + [r])];
    forall h | Get(table2, h).Some? ensures Named(table2, pushes2, h) {
      if h != r.bo.handle {
        assert Named(table, pushes, h);
      }
    }
    forall q, i | q in pushes2 && 0 <= i < |pushes2[q].buffers|
      ensures pushes2[q].buffers[i].bo.handle > 0 && Get(table2, pushes2[q].buffers[i].bo.handle) == Some(Slot(q, i))
    {
      if q != p || i < |k.buffers| {
        assert pushes2[q].buffers[i].bo == pushes[q].buffers[i].bo;
      }
    }
  }

  /** A handle of the buffers `from`..`to` of a record. */
  ghost predicate InRange(bs: seq<Kref>, from: nat, to: nat, h: nat)
    requires to <= |bs|
  {
    exists i :: from <= i < to && bs[i].bo.handle == h
  }

  /** The table without the buffers `from`..`to`. */
  ghost predicate Cleared(table: seq<Option<Slot>>, t: seq<Option<Slot>>, bs: seq<Kref>, from: nat, to: nat)
    requires to <= |bs|
  {
    forall h :: Get(t, h) == if InRange(bs, from, to, h) then None else Get(table, h)
  }

  lemma ClearedMore(table: seq<Option<Slot>>, t: seq<Option<Slot>>, u: seq<Option<Slot>>, bs: seq<Kref>, from: nat,
      to: nat)
    requires from <= to < |bs| && Cleared(table, t, bs, from, to)
    requires forall h :: Get(u, h) == if h == bs[to].bo.handle then None else Get(t, h)
    ensures Cleared(table, u, bs, from, to + 1)
  {
    forall h: nat ensures Get(u, h) == if InRange(bs, from, to + 1, h) then None else Get(table, h) {
      if InRange(bs, from, to, h) {
        var i :| from <= i < to && bs[i].bo.handle == h;
        assert InRange(bs, from, to + 1, h);
      } else if h == bs[to].bo.handle {
        assert InRange(bs, from, to + 1, h);
      }
    }
  }

  /** Cutting a record off at `n` with the table cleared accordingly. */
  lemma TableCut(table: seq<Option<Slot>>, pushes: map<nat, Krec>, p: nat, n: nat, t: seq<Option<Slot>>, k: Krec)
    requires TableOk(table, pushes) && p in pushes && n <= |pushes[p].buffers| && k.buffers == pushes[p].buffers[..n]
    requires Cleared(table, t, pushes[p].buffers, n, |pushes[p].buffers|)
    ensures TableOk(t, pushes[p := k])
  {
    var bs := pushes[p].buffers;
    var pushes2 := pushes[p := k];
    forall j | n <= j < |bs| ensures Get(t, bs[j].bo.handle).None? {
      assert InRange(bs, n, |bs|, bs[j].bo.handle);
    }
    forall h | Get(t, h).Some? ensures Named(t, pushes2, h) {
      assert Named(table, pushes, h);
    }
    forall q, i | q in pushes2 && 0 <= i < |pushes2[q].buffers|
      ensures pushes2[q].buffers[i].bo.handle > 0 && Get(t, pushes2[q].buffers[i].bo.handle) == Some(Slot(q, i))
    {
      assert pushes2[q].buffers[i] == pushes[q].buffers[i];
      StillThere(table, pushes, p, n, q, i);
    }
  }

  lemma StillThere(table: seq<Option<Slot>>, pushes: map<nat, Krec>, p: nat, n: nat, q: nat, i: nat)
    requires TableOk(table, pushes) && p in pushes && q in pushes && i < |pushes[q].buffers| && (q == p ==> i < n)
    ensures !InRange(pushes[p].buffers, n, |pushes[p].buffers|, pushes[q].buffers[i].bo.handle)
  {
    forall j | n <= j < |pushes[p].buffers| ensures pushes[p].buffers[j].bo.handle != pushes[q].buffers[i].bo.handle {
      assert Get(table, pushes[p].buffers[j].bo.handle) == Some(Slot(p, j));
      assert Get(table, pushes[q].buffers[i].bo.handle) == Some(Slot(q, i));
    }
  }

  class Client {
    var table: seq<Option<Slot>>
    var pushes: map<nat, Krec>
    const max: Limits

    ghost predicate Valid()
      reads this
    {
      TableOk(table, pushes) == true && PushesOk(pushes, max) == true
    }

    constructor (max: Limits)
      ensures Valid() && table == [] && pushes == map[] && this.max == max
    {
      this.max := max;
      table := [];
      pushes := map[];
    }

    /** nouveau_pushbuf_new: an empty record. */
    method NewPush(p: nat)
      requires Valid() && p !in pushes
      modifies this`pushes
      ensures Valid() && pushes == old(pushes)[p := Krec([], 0, 0)] && Exact(pushes[p])
    {
      TableNew(table, pushes, p);
      pushes := pushes[p := Krec([], 0, 0)];
    }

    /** Forget the buffers of a record from `from` on. */
    method ClearFrom(bs: seq<Kref>, from: nat) returns (t: seq<Option<Slot>>)
      requires from <= |bs| && forall i :: 0 <= i < |bs| ==> bs[i].bo.handle > 0
      ensures Cleared(table, t, bs, from, |bs|)
    {
      t := table;
      var i := from;
      while i < |bs|
        invariant from <= i <= |bs| && Cleared(table, t, bs, from, i)
      {
        ghost var was := t;
        var inside;
        inside, t := KrefSet(t, bs[i].bo.handle, None);
        ClearedMore(table, was, t, bs, from, i);
        i := i + 1;
      }
    }

    /** The reset part of pushbuf_flush, for a push buffer with a channel. */
    method Flush(p: nat)
      requires Valid() && p in pushes
      modifies this
      ensures Valid() && pushes == old(pushes)[p := Krec([], 0, 0)] && Exact(pushes[p])
    {
      var t := ClearFrom(pushes[p].buffers, 0);
      TableCut(table, pushes, p, 0, t, Krec([], 0, 0));
      table := t;
      pushes := pushes[p := Krec([], 0, 0)];
    }

    /** pushbuf_refn_fail: forget the buffers from `sref` on.  The counters stay. */
    method RefnFail(p: nat, sref: nat)
      requires Valid() && p in pushes && sref <= |pushes[p].buffers|
      modifies this
      ensures Valid() && pushes == old(pushes)[p := old(pushes)[p].(buffers := old(pushes)[p].buffers[..sref])]
    {
      var k := pushes[p];
      var t := ClearFrom(k.buffers, sref);
      TableCut(table, pushes, p, sref, t, k.(buffers := k.buffers[..sref]));
      TotalsPrefix(k.buffers, sref);
      assert Accounted(k, max) == true;
      table := t;
      pushes := pushes[p := k.(buffers := k.buffers[..sref])];
    }

    /** pushbuf_kref for a buffer that its record has already; false means a flush is needed. */
    method Again(p: nat, i: nat, domains: Domains, write: bool, read: bool) returns (ok: bool)
      requires Valid() && p in pushes && i < |pushes[p].buffers|
      modifies this`pushes
      ensures Valid() && (!ok ==> pushes == old(pushes))
      ensures ok ==>
        p in pushes && pushes == old(pushes)[p := pushes[p]] && SameBos(old(pushes)[p].buffers, pushes[p].buffers)
      ensures ok ==> Merged(old(pushes)[p].buffers[i], pushes[p].buffers[i], domains, write, read)
      ensures ok && Exact(old(pushes)[p]) ==> Exact(pushes[p])
      ensures !ok <==> Refused(old(pushes)[p], i, domains, max)
    {
      var k := pushes[p];
      var r := k.buffers[i];
      AgainOk(k, i, domains, write, read, max);
      if !r.valid.And(domains).Any() {
        return false;
      }
      if r.valid.gart && domains == VRAM {
        if k.vram + r.bo.size > max.vram {
          return false;
        }
        k := k.(vram := k.vram + r.bo.size, gart := k.gart - r.bo.size);
      }
      k := k.(buffers := k.buffers[i := Merge(r, domains, write, read)]);
      TableSameBos(table, pushes, p, k);
      pushes := pushes[p := k];
      ok := true;
    }

    /** pushbuf_kref for a buffer that no record has. */
    method Add(p: nat, bo: Bo, domains: Domains, write: bool, read: bool) returns (ok: bool)
      requires Valid() && p in pushes && bo.handle > 0 && Get(table, bo.handle).None?
      modifies this
      ensures Valid() && p in pushes && pushes == old(pushes)[p := pushes[p]]
      ensures Exact(old(pushes)[p]) ==> Exact(pushes[p])
      ensures !ok ==> table == old(table) && Narrowed(old(pushes)[p].buffers, pushes[p].buffers)
      ensures !ok ==> Full(old(pushes)[p], pushes[p], bo, domains, max)
      ensures ok ==> Appended(old(pushes)[p].buffers, pushes[p].buffers, Ref(bo, domains, write, read))
    {
      var k := pushes[p];
      assert Accounted(k, max) == true;
      if |k.buffers| == MAX_BUFFERS {
        TableSameBos(table, pushes, p, k);
        return false;
      }
      var t, d;
      ok, t, d := KrefFits(k, bo, domains, max);
      if !ok {
        TableSameBos(table, pushes, p, t);
        pushes := pushes[p := t];
        return;
      }
      var r := Kref(bo, d, if write then domains else NONE, if read then domains else NONE);
      AddOne(t, r, max);
      var inside, tab := KrefSet(table, bo.handle, Some(Slot(p, |t.buffers|)));
      TableAdd(table, pushes, p, t, r, tab);
      table := tab;
      pushes := pushes[p := t.(buffers := t.buffers + [r])];
    }

    /** pushbuf_kref: refer to a buffer, flushing another push buffer that has it. */
    method KrefBo(p: nat, ref: Ref) returns (ok: bool)
      requires Valid() && p in pushes && ref.bo.handle > 0
      modifies this
      ensures Valid() && pushes.Keys == old(pushes).Keys && p in pushes
      ensures Referred(old(table), p, old(pushes)[p], pushes[p], ref, max, ok) == true
      ensures Adds(old(pushes)[p].buffers, pushes[p].buffers, [ref]) == true
      ensures ok ==> Has(pushes[p].buffers, ref.bo.handle)
      ensures Exact(old(pushes)[p]) ==> Exact(pushes[p])
      ensures forall q :: q in pushes && q != p ==> pushes[q] == old(pushes)[q] || pushes[q] == Krec([], 0, 0)
    {
      FlushOther(p, ref.bo.handle);
      ghost var table1 := table;
      ok := KrefHere(p, ref);
      ReferredAt(old(table), table1, p, old(pushes)[p], pushes[p], ref, max, ok);
    }

    /** Another push buffer that has the buffer is flushed first, to keep the commands in order. */
    method FlushOther(p: nat, handle: nat)
      requires Valid() && p in pushes
      modifies this
      ensures Valid() && pushes.Keys == old(pushes).Keys && p in pushes && pushes[p] == old(pushes)[p]
      ensures forall q :: q in pushes && q != p ==> pushes[q] == old(pushes)[q] || pushes[q] == Krec([], 0, 0)
      ensures var s := Get(old(table), handle);
        Get(table, handle) == if s.Some? && s.value.push == p then s else None
    {
      var other := Get(table, handle);
      if other.Some? {
        assert Named(table, pushes, handle);
        if other.value.push != p {
          Flush(other.value.push);
          FlushedOut(old(table), old(pushes), table, other.value.push, handle);
        }
      }
    }

    method KrefHere(p: nat, ref: Ref) returns (ok: bool)
      requires Valid() && p in pushes && ref.bo.handle > 0
      requires Get(table, ref.bo.handle).Some? ==> Get(table, ref.bo.handle).value.push == p
      modifies this
      ensures Valid() && p in pushes && pushes == old(pushes)[p := pushes[p]]
      ensures Referred(old(table), p, old(pushes)[p], pushes[p], ref, max, ok) == true
      ensures Adds(old(pushes)[p].buffers, pushes[p].buffers, [ref]) == true
      ensures ok ==> Has(pushes[p].buffers, ref.bo.handle)
      ensures Exact(old(pushes)[p]) ==> Exact(pushes[p])
    {
      var slot := Get(table, ref.bo.handle);
      if slot.Some? {
        assert Named(table, pushes, ref.bo.handle);
        ok := Again(p, slot.value.index, ref.domains, ref.write, ref.read);
        AgainReferred(old(table), p, old(pushes)[p], pushes[p], ref, max, ok);
      } else {
        ok := Add(p, ref.bo, ref.domains, ref.write, ref.read);
        AddReferred(old(table), p, old(pushes)[p], pushes[p], ref, max, ok);
      }
    }

    /** pushbuf_refn: refer to a group of buffers, all or none; on failure flush and try once more.
        `own` is the buffer that the push buffer writes to, and `bound` what its context holds. */
    method Refn(p: nat, retry: bool, refs: seq<Ref>, own: Ref, bound: seq<Ref>) returns (ret: int)
      requires Valid() && p in pushes && AllNamed(refs) && AllNamed(bound) && own.bo.handle > 0
      modifies this
      ensures Valid() && p in pushes && (ret == 0 || ret == -ENOSPC)
      ensures ret == 0 ==> AllIn(pushes[p].buffers, refs)
      ensures ret != 0 && !retry ==> SameBos(old(pushes)[p].buffers, pushes[p].buffers)
      ensures ret != 0 && retry ==> Renewed(pushes[p].buffers, own, bound, max)
      ensures ret == 0 && !retry && Exact(old(pushes)[p]) ==> Exact(pushes[p])
      decreases retry
    {
      var sref := |pushes[p].buffers|;
      ret := RefAll(p, refs);
      if ret == 0 {
        return;
      }
      AddsPrefix(old(pushes)[p].buffers, pushes[p].buffers, refs);
      RefnFail(p, sref);
      if retry {
        Flush(p);
        Space(p, own, bound);
        ghost var was := pushes[p].buffers;
        ret := Refn(p, false, refs, own, bound);
        if ret != 0 {
          RenewedSame(was, pushes[p].buffers, own, bound, max);
        }
      }
    }

    /** nouveau_pushbuf_space on a record that was just flushed: the push buffer's own buffer is
        referenced again, if there is room for it alone, and, if the buffer was switched, what the
        context holds. */
    method Space(p: nat, own: Ref, bound: seq<Ref>)
      requires Valid() && p in pushes && own.bo.handle > 0 && AllNamed(bound) && pushes[p] == Krec([], 0, 0)
      modifies this
      ensures Valid() && p in pushes && Renewed(pushes[p].buffers, own, bound, max) == true
    {
      NotInEmpty(table, pushes, p, own.bo.handle);
      var ok := KrefBo(p, own);
      ReferredAlone(old(table), p, pushes[p], own, max, ok);
      ghost var first := pushes[p].buffers;
      var sref := |pushes[p].buffers|;
      var ret := RefAll(p, bound);
      if ret != 0 {
        AddsPrefix(first, pushes[p].buffers, bound);
        RefnFail(p, sref);
        RenewedSame(first, pushes[p].buffers, own, bound, max);
      } else {
        RenewedMore(first, pushes[p].buffers, own, bound, max);
      }
    }

    /** The loop of pushbuf_refn. */
    method RefAll(p: nat, refs: seq<Ref>) returns (ret: int)
      requires Valid() && p in pushes && AllNamed(refs)
      modifies this
      ensures Valid() && p in pushes && (ret == 0 || ret == -ENOSPC)
      ensures Adds(old(pushes)[p].buffers, pushes[p].buffers, refs)
      ensures ret == 0 ==> AllIn(pushes[p].buffers, refs)
      ensures Exact(old(pushes)[p]) ==> Exact(pushes[p])
    {
      var i := 0;
      assert refs[..0] == [];
      while i < |refs|
        invariant Valid() && p in pushes && 0 <= i <= |refs|
        invariant Adds(old(pushes)[p].buffers, pushes[p].buffers, refs) == true
        invariant AllIn(pushes[p].buffers, refs[..i]) == true
        invariant Exact(old(pushes)[p]) ==> Exact(pushes[p])
      {
        ghost var was := pushes[p].buffers;
        var ok := KrefBo(p, refs[i]);
        AddsOne(old(pushes)[p].buffers, was, pushes[p].buffers, refs, i);
        if !ok {
          return -ENOSPC;
        }
        AllInOne(was, pushes[p].buffers, refs, i);
        i := i + 1;
      }
      assert refs[..i] == refs;
      ret := 0;
    }
  }

  /** struct nouveau_pushbuf_refn */
  datatype Ref = Ref(bo: Bo, domains: Domains, write: bool, read: bool)

  ghost predicate AllNamed(refs: seq<Ref>)
  {
    forall i :: 0 <= i < |refs| ==> refs[i].bo.handle > 0
  }

  /** The record still has its buffers, in place. */
  ghost predicate Grown(a: seq<Kref>, b: seq<Kref>)
  {
    |a| <= |b| && forall i :: 0 <= i < |a| ==> b[i].bo == a[i].bo
  }

  ghost predicate Has(bs: seq<Kref>, handle: nat)
  {
    exists i :: 0 <= i < |bs| && bs[i].bo.handle == handle
  }

  ghost predicate AllIn(bs: seq<Kref>, refs: seq<Ref>)
  {
    forall i :: 0 <= i < |refs| ==> Has(bs, refs[i].bo.handle)
  }

  ghost predicate Asked(refs: seq<Ref>, bo: Bo)
  {
    exists j :: 0 <= j < |refs| && refs[j].bo == bo
  }

  /** The buffers from `n` on were asked for by `refs`. */
  ghost predicate OnlyFrom(bs: seq<Kref>, n: nat, refs: seq<Ref>)
  {
    forall i :: n <= i < |bs| ==> Asked(refs, bs[i].bo)
  }

  /** The old buffers are in place, and any new ones were asked for. */
  ghost predicate Adds(a: seq<Kref>, b: seq<Kref>, refs: seq<Ref>)
  {
    Grown(a, b) && OnlyFrom(b, |a|, refs)
  }

  lemma AddsOne(a: seq<Kref>, b: seq<Kref>, c: seq<Kref>, refs: seq<Ref>, i: nat)
    requires i < |refs| && Adds(a, b, refs) && Adds(b, c, [refs[i]])
    ensures Adds(a, c, refs)
  {
    forall k | |a| <= k < |c| ensures Asked(refs, c[k].bo) {
      if k < |b| {
        assert Asked(refs, b[k].bo);
      } else {
        assert Asked([refs[i]], c[k].bo);
        assert refs[i].bo == c[k].bo;
      }
    }
  }

  lemma AllInOne(b: seq<Kref>, c: seq<Kref>, refs: seq<Ref>, i: nat)
    requires i < |refs| && Grown(b, c) && AllIn(b, refs[..i]) && Has(c, refs[i].bo.handle)
    ensures AllIn(c, refs[..i + 1])
  {
    var some, more := refs[..i], refs[..i + 1];
    forall j | 0 <= j < i + 1 ensures Has(c, more[j].bo.handle) {
      if j < i {
        assert Has(b, some[j].bo.handle);
        var k :| 0 <= k < |b| && b[k].bo.handle == refs[j].bo.handle;
        assert c[k].bo.handle == refs[j].bo.handle;
      }
    }
  }

  lemma AddsPrefix(a: seq<Kref>, b: seq<Kref>, refs: seq<Ref>)
    requires Adds(a, b, refs)
    ensures SameBos(a, b[..|a|])
  {
  }

  /** There is room for the buffer in an empty record. */
  predicate FitsAlone(bo: Bo, domains: Domains, max: Limits)
  {
    if domains.VramOnly() then bo.size <= max.vram
    else bo.size <= max.gart || (domains.vram && bo.size <= max.vram)
  }

  /** What nouveau_pushbuf_space puts into an empty record: `own` first, if it fits, and buffers of `bound`. */
  ghost predicate Renewed(bs: seq<Kref>, own: Ref, bound: seq<Ref>, max: Limits)
  {
    if FitsAlone(own.bo, own.domains, max) then bs != [] && bs[0].bo == own.bo && OnlyFrom(bs, 1, bound)
    else OnlyFrom(bs, 0, bound)
  }

  lemma RenewedSame(a: seq<Kref>, b: seq<Kref>, own: Ref, bound: seq<Ref>, max: Limits)
    requires Renewed(a, own, bound, max) && SameBos(a, b)
    ensures Renewed(b, own, bound, max)
  {
    var n := if FitsAlone(own.bo, own.domains, max) then 1 else 0;
    forall i | n <= i < |b| ensures Asked(bound, b[i].bo) {
      assert Asked(bound, a[i].bo);
    }
  }

  lemma RenewedMore(a: seq<Kref>, b: seq<Kref>, own: Ref, bound: seq<Ref>, max: Limits)
    requires Renewed(a, own, bound, max) && Adds(a, b, bound)
    ensures Renewed(b, own, bound, max)
  {
    var n := if FitsAlone(own.bo, own.domains, max) then 1 else 0;
    forall i | n <= i < |b| ensures Asked(bound, b[i].bo) {
      assert i < |a| ==> Asked(bound, a[i].bo);
    }
  }

  lemma NotInEmpty(table: seq<Option<Slot>>, pushes: map<nat, Krec>, p: nat, h: nat)
    requires TableOk(table, pushes) && p in pushes && pushes[p].buffers == []
    ensures Get(table, h).Some? ==> Get(table, h).value.push != p
  {
    if Get(table, h).Some? {
      assert Named(table, pushes, h);
    }
  }

  /** No room for one more buffer: the record is full, VRAM is, or GART is and no buffer `t` still has in GART
      can be moved to VRAM. */
  ghost predicate Full(k: Krec, t: Krec, bo: Bo, domains: Domains, max: Limits)
  {
    || |k.buffers| == MAX_BUFFERS
    || (domains.VramOnly() && k.vram + bo.size > max.vram)
    || (!domains.VramOnly() && t.gart + bo.size > max.gart && Stuck(t, max)
        && (domains.vram ==> k.vram + bo.size > max.vram) && (Exact(k) ==> Exact(t)))
  }

  /** What a reference does to a record: the buffer it has already takes in the new use, or refuses it; a new
      one goes to the end, or does not fit. */
  ghost predicate Referred(table: seq<Option<Slot>>, p: nat, k: Krec, t: Krec, ref: Ref, max: Limits, ok: bool)
  {
    var s := Get(table, ref.bo.handle);
    if s.Some? && s.value.push == p then
      var i := s.value.index;
      && i < |k.buffers| == |t.buffers| && (ok <==> !Refused(k, i, ref.domains, max))
      && (ok ==> Merged(k.buffers[i], t.buffers[i], ref.domains, ref.write, ref.read)) && (!ok ==> t == k)
    else
      && (ok ==> Appended(k.buffers, t.buffers, ref))
      && (!ok ==> Narrowed(k.buffers, t.buffers) && Full(k, t, ref.bo, ref.domains, max))
  }

  lemma AgainReferred(table: seq<Option<Slot>>, p: nat, k: Krec, t: Krec, ref: Ref, max: Limits, ok: bool)
    requires Get(table, ref.bo.handle).Some? && Get(table, ref.bo.handle).value.push == p
    requires var i := Get(table, ref.bo.handle).value.index;
      && i < |k.buffers| && k.buffers[i].bo.handle == ref.bo.handle && SameBos(k.buffers, t.buffers)
      && (ok <==> !Refused(k, i, ref.domains, max)) && (!ok ==> t == k)
      && (ok ==> Merged(k.buffers[i], t.buffers[i], ref.domains, ref.write, ref.read))
    ensures Referred(table, p, k, t, ref, max, ok) && Adds(k.buffers, t.buffers, [ref])
    ensures ok ==> Has(t.buffers, ref.bo.handle)
  {
    var i := Get(table, ref.bo.handle).value.index;
    assert t.buffers[i].bo == k.buffers[i].bo;
  }

  lemma AddReferred(table: seq<Option<Slot>>, p: nat, k: Krec, t: Krec, ref: Ref, max: Limits, ok: bool)
    requires Get(table, ref.bo.handle).None?
    requires ok ==> Appended(k.buffers, t.buffers, ref)
    requires !ok ==> Narrowed(k.buffers, t.buffers) && Full(k, t, ref.bo, ref.domains, max)
    ensures Referred(table, p, k, t, ref, max, ok) && Adds(k.buffers, t.buffers, [ref])
    ensures ok ==> Has(t.buffers, ref.bo.handle)
  {
    if ok {
      var n := |k.buffers|;
      assert t.buffers[n].bo == ref.bo == [ref][0].bo;
      forall i | 0 <= i < n ensures t.buffers[i].bo == k.buffers[i].bo {
        assert t.buffers[..n][i] == t.buffers[i];
      }
    }
  }

  /** A buffer whose push buffer has been flushed is in no record. */
  lemma FlushedOut(table: seq<Option<Slot>>, pushes: map<nat, Krec>, table1: seq<Option<Slot>>, q: nat, h: nat)
    requires TableOk(table, pushes) && q in pushes && Get(table, h).Some? && Get(table, h).value.push == q
    requires TableOk(table1, pushes[q := Krec([], 0, 0)])
    ensures Get(table1, h).None?
  {
    var pushes1 := pushes[q := Krec([], 0, 0)];
    assert forall r, i :: r in pushes1 && 0 <= i < |pushes1[r].buffers| ==> pushes1[r].buffers[i].bo.handle != h;
    assert Get(table1, h).Some? ==> Named(table1, pushes1, h);
  }

  /** Flushing another push buffer changes nothing here. */
  lemma ReferredAt(table: seq<Option<Slot>>, table1: seq<Option<Slot>>, p: nat, k: Krec, t: Krec, ref: Ref, max: Limits,
      ok: bool)
    requires Referred(table1, p, k, t, ref, max, ok)
    requires var s, s1 := Get(table, ref.bo.handle), Get(table1, ref.bo.handle);
      if s.Some? && s.value.push == p then s1 == s else s1.None?
    ensures Referred(table, p, k, t, ref, max, ok)
  {
  }

  /** A reference from an empty record succeeds exactly when the buffer fits alone. */
  lemma ReferredAlone(table: seq<Option<Slot>>, p: nat, t: Krec, ref: Ref, max: Limits, ok: bool)
    requires Referred(table, p, Krec([], 0, 0), t, ref, max, ok) && Accounted(t, max)
    requires Get(table, ref.bo.handle).Some? ==> Get(table, ref.bo.handle).value.push != p
    ensures ok <==> FitsAlone(ref.bo, ref.domains, max)
    ensures Renewed(t.buffers, ref, [], max)
  {
    if ok {
      assert t.buffers == [t.buffers[0]];
    }
  }

  /** The domains conflict, or the buffer does not fit into VRAM. */
  ghost predicate Refused(k: Krec, i: nat, domains: Domains, max: Limits)
    requires i < |k.buffers|
  {
    || !k.buffers[i].valid.And(domains).Any()
    || (k.buffers[i].valid.gart && domains == VRAM && k.vram + k.buffers[i].bo.size > max.vram)
  }

  /** The reference with another use of its buffer taken in. */
  function Merge(r: Kref, domains: Domains, write: bool, read: bool): Kref
  {
    r.(valid := r.valid.And(domains), write := r.write.Or(if write then domains else NONE),
       read := r.read.Or(if read then domains else NONE))
  }

  /** The record after another use of buffer `i`, which moves to VRAM if it must. */
  function Reused(k: Krec, i: nat, domains: Domains, write: bool, read: bool): Krec
    requires i < |k.buffers|
  {
    var r := k.buffers[i];
    var m := if r.valid.gart && domains == VRAM then r.bo.size else 0;
    Krec(k.buffers[i := Merge(r, domains, write, read)], k.vram + m, k.gart - m)
  }

  lemma AgainOk(k: Krec, i: nat, domains: Domains, write: bool, read: bool, max: Limits)
    requires Accounted(k, max) && i < |k.buffers|
    ensures !Refused(k, i, domains, max) ==>
      var t := Reused(k, i, domains, write, read);
      Accounted(t, max) && (Exact(k) ==> Exact(t)) && SameBos(k.buffers, t.buffers)
  {
    TotalsUpdate(k.buffers, i, Merge(k.buffers[i], domains, write, read));
  }

  /** A reference that takes in another use of its buffer. */
  ghost predicate Merged(a: Kref, b: Kref, domains: Domains, write: bool, read: bool)
  {
    && b.bo == a.bo && b.valid == a.valid.And(domains) && b.valid.Any()
    && b.write == a.write.Or(if write then domains else NONE) && b.read == a.read.Or(if read then domains else NONE)
  }

  /** The old buffers, some narrowed, and a new one in the domains asked for, or narrowed to VRAM. */
  ghost predicate Appended(a: seq<Kref>, b: seq<Kref>, ref: Ref)
  {
    && |b| == |a| + 1 && Narrowed(a, b[..|a|])
    && b[|a|] == Kref(ref.bo, b[|a|].valid, if ref.write then ref.domains else NONE,
                      if ref.read then ref.domains else NONE)
    && (b[|a|].valid == ref.domains || (ref.domains == Domains(true, true) && b[|a|].valid == VRAM))
  }
}
