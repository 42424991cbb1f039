/** The length-delimited tree format of radeon/bof.c: building, printing and parsing. */
module Bof {
  import opened MmLayout

  type Byte = b: int | 0 <= b < 256

  const STRING: nat := 0
  const NULL: nat := 1
  const BLOB: nat := 2
  const OBJECT: nat := 3
  const ARRAY: nat := 4
  const INT32: nat := 5

  const EINVAL: int := 22
  const WORD: int := 0x1_0000_0000

  /** struct bof.  `count` is array_size, `nentry` the room in the array, and
      `entries` the part of it in use. */
  datatype Node = Node(kind: nat, size: nat, count: nat, value: seq<Byte>, nentry: nat, entries: seq<Node>)

  predicate IsLeaf(kind: nat)
  {
    kind == STRING || kind == INT32 || kind == BLOB
  }

  predicate IsBox(kind: nat)
  {
    kind == OBJECT || kind == ARRAY
  }

  // ----- building

  /** bof_entry_grow: room for one more beyond array_size. */
  function Grow(n: Node): (m: Node)
    ensures n.count >= n.nentry || m == n
    ensures n.count <= n.nentry ==> m.nentry > n.count
  {
    if n.count < n.nentry then n else n.(nentry := n.nentry + 16)
  }

  /** bof_object and bof_array. */
  function NewBox(kind: nat): Node
  {
    Node(kind, 12, 0, [], 0, [])
  }

  lemma BoxComplete(kind: nat)
    requires IsBox(kind)
    ensures Complete(NewBox(kind)) && Roomy(NewBox(kind))
  {
  }

  /** bof_blob, and bof_string and bof_int32 on their bytes. */
  function NewLeaf(kind: nat, value: seq<Byte>): Node
  {
    Node(kind, |value| + 12, 0, value, 0, [])
  }

  /** bof_string: the characters and a terminating 0. */
  function NewString(s: seq<Byte>): Node
  {
    NewLeaf(STRING, s + [0])
  }

  function Push(n: Node, value: Node): Node
  {
    n.(entries := n.entries + [value], count := n.count + 1, size := n.size + value.size)
  }

  /** bof_array_append */
  function ArrayAppend(n: Node, value: Node): (Node, int)
  {
    if n.kind != ARRAY then (n, -EINVAL) else (Push(Grow(n), value), 0)
  }

  /** bof_object_set: one growth, two entries. */
  function ObjectSet(n: Node, key: seq<Byte>, value: Node): (Node, int)
  {
    if n.kind != OBJECT then (n, -EINVAL) else (Push(Push(Grow(n), NewString(key)), value), 0)
  }

  ghost function SumSizes(ns: seq<Node>): nat
  {
    if ns == [] then 0 else SumSizes(ns[..|ns| - 1]) + ns[|ns| - 1].size
  }

  /** The size fields tell the truth all the way down, and no leaf is empty. */
  ghost predicate Complete(n: Node)
  {
    && n.size < WORD && n.count < WORD && n.count == |n.entries|
    && (IsLeaf(n.kind) ==> n.entries == [] && n.value != [] && n.size == 12 + |n.value|)
    && (!IsLeaf(n.kind) ==> IsBox(n.kind) && n.value == [] && n.size == 12 + SumSizes(n.entries))
    && (forall i :: 0 <= i < |n.entries| ==> Complete(n.entries[i]))
  }

  /** As Complete, but the counts may be anything: what a file can hold whose sizes are right. */
  ghost predicate Truthful(n: Node)
  {
    && n.size < WORD && n.count < WORD
    && (IsLeaf(n.kind) ==> n.entries == [] && n.value != [] && n.size == 12 + |n.value|)
    && (!IsLeaf(n.kind) ==> IsBox(n.kind) && n.value == [] && n.size == 12 + SumSizes(n.entries))
    && (forall i :: 0 <= i < |n.entries| ==> Truthful(n.entries[i]))
  }

  /** The room that bof_entry_grow makes in the end for an array_size of `count`. */
  function Room(count: nat): nat
  {
    16 * (count / 16 + 1)
  }

  /** No box has more entries than its count makes room for. */
  ghost predicate Fits(n: Node)
  {
    |n.entries| <= Room(n.count) && forall i :: 0 <= i < |n.entries| ==> Fits(n.entries[i])
  }

  lemma {:induction false} CompleteFits(n: Node)
    requires Complete(n)
    ensures Truthful(n) && Fits(n)
  {
    forall i | 0 <= i < |n.entries| ensures Truthful(n.entries[i]) && Fits(n.entries[i]) {
      CompleteFits(n.entries[i]);
    }
  }

  /** The array has room for what is in it; an object's entries come in pairs. */
  ghost predicate Roomy(n: Node)
  {
    && n.nentry % 16 == 0 && n.count == |n.entries| <= n.nentry
    && (n.kind == OBJECT ==> n.count % 2 == 0)
  }

  lemma SumPush(ns: seq<Node>, v: Node)
    ensures SumSizes(ns + [v]) == SumSizes(ns) + v.size
  {
    assert (ns + [v])[..|ns|] == ns;
  }

  lemma PushComplete(n: Node, v: Node)
    requires Complete(n) && Complete(v) && IsBox(n.kind) && n.size + v.size < WORD && n.count + 1 < WORD
    ensures Complete(Push(n, v))
  {
    SumPush(n.entries, v);
  }

  lemma RoomChange(n: Node, nentry: nat)
    requires Complete(n)
    ensures Complete(n.(nentry := nentry))
  {
  }

  lemma GrowRoom(n: Node)
    requires n.nentry % 16 == 0 && n.count <= n.nentry
    ensures var g := Grow(n); g.nentry % 16 == 0 && g.nentry > g.count && g == n.(nentry := g.nentry)
  {
  }

  lemma GrowComplete(n: Node)
    requires Complete(n) && Roomy(n)
    ensures var g := Grow(n);
      Complete(g) == true && g.nentry % 16 == 0 && g.nentry > g.count && g == n.(nentry := g.nentry)
  {
    GrowRoom(n);
    RoomChange(n, Grow(n).nentry);
  }

  lemma LeafComplete(kind: nat, value: seq<Byte>)
    requires IsLeaf(kind) && value != [] && |value| + 12 < WORD
    ensures Complete(NewLeaf(kind, value)) && Roomy(NewLeaf(kind, value))
  {
  }

  /** Appending a complete value keeps an array complete and inside its room. */
  lemma ArrayAppendOk(n: Node, v: Node)
    requires Complete(n) && Roomy(n) && Complete(v) && n.kind == ARRAY && n.size + v.size < WORD && n.count + 1 < WORD
    ensures var (m, r) := ArrayAppend(n, v);
      r == 0 && Complete(m) && Roomy(m) && m.entries == n.entries + [v]
  {
    GrowComplete(n);
    PushComplete(Grow(n), v);
  }

  lemma EvenRoom(nentry: nat, count: nat)
    requires nentry % 16 == 0 && count % 2 == 0 && nentry > count
    ensures nentry >= count + 2 && (count + 2) % 2 == 0
  {
  }

  /** The one growth check of bof_object_set makes room for both entries. */
  lemma ObjectSetOk(n: Node, key: seq<Byte>, v: Node)
    requires Complete(n) && Roomy(n) && Complete(v) && n.kind == OBJECT
    requires n.size + v.size + |key| + 13 < WORD && n.count + 2 < WORD
    ensures var (m, r) := ObjectSet(n, key, v);
      r == 0 && Complete(m) == true && Roomy(m) == true && m.entries == n.entries + [NewString(key), v]
  {
    var g, k := Grow(n), NewString(key);
    GrowComplete(n);
    LeafComplete(STRING, key + [0]);
    PushBoth(g, k, v);
    RoomForBoth(g, k, v);
  }

  lemma RoomForBoth(g: Node, k: Node, v: Node)
    requires g.nentry % 16 == 0 && g.count == |g.entries| < g.nentry && g.count % 2 == 0
    ensures Roomy(Push(Push(g, k), v))
  {
    EvenRoom(g.nentry, g.count);
  }

  lemma PushBoth(g: Node, k: Node, v: Node)
    requires Complete(g) && Complete(k) && Complete(v) && IsBox(g.kind)
    requires g.size + k.size + v.size < WORD && g.count + 2 < WORD
    ensures Complete(Push(Push(g, k), v)) == true && Push(Push(g, k), v).entries == g.entries + [k, v]
  {
    PushComplete(g, k);
    PushComplete(Push(g, k), v);
    assert g.entries + [k] + [v] == g.entries + [k, v];
  }

  // ----- printing

  /** The bytes of a 32-bit word. */
  function Le(w: nat): (b: seq<Byte>)
    ensures |b| == 4
  {
    [w % 256, w / 256 % 256, w / 65536 % 256, w / 16777216 % 256]
  }

  /** A word read back. */
  function Word(f: seq<Byte>, pos: nat): (w: nat)
    requires pos + 4 <= |f|
    ensures w < WORD
  {
    f[pos] as int + 256 * f[pos + 1] as int + 65536 * f[pos + 2] as int + 16777216 * f[pos + 3] as int
  }

  lemma WordLe(w: nat)
    requires w < WORD
    ensures Word(Le(w), 0) == w
  {
    assert w / 256 == 256 * (w / 65536) + w / 256 % 256;
    assert w / 65536 == 256 * (w / 16777216) + w / 65536 % 256;
  }

  function Header(n: Node): (b: seq<Byte>)
    ensures |b| == 12
  {
    Le(n.kind) + Le(n.size) + Le(n.count)
  }

  /** What bof_file_write writes for a complete node. */
  ghost function Bytes(n: Node): seq<Byte>
    decreases n, 1
  {
    Header(n) + n.value + AllBytes(n, |n.entries|)
  }

  /** The first `k` entries. */
  ghost function AllBytes(n: Node, k: nat): seq<Byte>
    requires k <= |n.entries|
    decreases n, 0, k
  {
    if k == 0 then [] else AllBytes(n, k - 1) + Bytes(n.entries[k - 1])
  }

  lemma {:induction false} BytesSize(n: Node)
    requires Truthful(n)
    ensures |Bytes(n)| == n.size >= 12
    decreases n, 1
  {
    AllBytesSize(n, |n.entries|);
    assert n.entries[..|n.entries|] == n.entries;
  }

  lemma {:induction false} AllBytesSize(n: Node, k: nat)
    requires Truthful(n) && k <= |n.entries|
    ensures |AllBytes(n, k)| == SumSizes(n.entries[..k])
    decreases n, 0, k
  {
    if k > 0 {
      AllBytesSize(n, k - 1);
      BytesSize(n.entries[k - 1]);
      assert n.entries[..k][..k - 1] == n.entries[..k - 1];
    }
  }

  /** bof_file_write; `out` is what the file holds so far. */
  method FileWrite(n: Node, out: seq<Byte>) returns (r: int, out2: seq<Byte>)
    ensures r == 0 || r == -EINVAL
    ensures Complete(n) ==> r == 0 && out2 == out + Bytes(n)
    decreases n
  {
    out2 := out + Header(n);
    if n.kind == NULL {
      return (if n.size != 0 then -EINVAL else 0), out2;
    } else if IsLeaf(n.kind) {
      if n.value == [] {
        return -EINVAL, out2;
      }
      out2 := out2 + n.value;
      assert Complete(n) ==> AllBytes(n, |n.entries|) == [];
      return 0, out2;
    } else if IsBox(n.kind) {
      var i := 0;
      while i < |n.entries|
        invariant 0 <= i <= |n.entries|
        invariant Complete(n) ==> out2 == out + Header(n) + AllBytes(n, i)
      {
        r, out2 := FileWrite(n.entries[i], out2);
        if r != 0 {
          return;
        }
        i := i + 1;
      }
      return 0, out2;
    }
    return -EINVAL, out2;
  }

  // ----- parsing

  /** The outcome of bof_read: the node and the file position, an error, or a
      store past the end of the array. */
  datatype Parsed = Done(root: Node, pos: nat) | Bad | Overrun

  /** The entry goes into the next place of the array, if there is one. */
  function Store(root: Node, n: Node): Option<Node>
  {
    if |root.entries| < root.nentry then Some(root.(entries := root.entries + [n])) else None
  }

  /** bof_read */
  function Read(root: Node, f: seq<Byte>, pos: nat, end: int): (r: Parsed)
    ensures r.Done? ==> r.pos >= pos
    decreases |f| - pos
  {
    if pos >= end then Done(root, pos)
    else if pos + 12 > |f| then Bad
    else
      var root := Grow(root);
      var n := Node(Word(f, pos), Word(f, pos + 4), Word(f, pos + 8), [], 0, []);
      if IsLeaf(n.kind) then
        var len: int := (n.size - 12) % WORD;
        if len == 0 || pos + 12 + len > |f| then Bad
        else
          var s := Store(root, n.(value := f[pos + 12..pos + 12 + len]));
          if s.None? then Overrun else Read(s.value, f, pos + 12 + len, end)
      else if n.kind == NULL then Done(root, pos + 12)
      else if IsBox(n.kind) then
        var r := Read(n, f, pos + 12, pos + n.size);
        if !r.Done? then r
        else
          var s := Store(root, r.root);
          if s.None? then Overrun else Read(s.value, f, r.pos, end)
      else Bad
  }

  /** bof_load_file on the bytes of the file. */
  function Load(f: seq<Byte>): Parsed
  {
    if 12 > |f| then Bad
    else Read(Node(Word(f, 0), Word(f, 4), Word(f, 8), [], 0, []), f, 12, Word(f, 4))
  }

  /** bof_dump_file: the header of the root and its entries. */
  ghost function Dump(n: Node): seq<Byte>
  {
    Header(n) + AllBytes(n, |n.entries|)
  }

  // ----- parsing undoes printing

  /** The same types, sizes, counts, payloads and children; the room in the arrays may differ. */
  ghost predicate Same(a: Node, b: Node)
  {
    && a.kind == b.kind && a.size == b.size && a.count == b.count && a.value == b.value
    && |a.entries| == |b.entries| && (forall i :: 0 <= i < |a.entries| ==> Same(a.entries[i], b.entries[i]))
  }

  /** The file has these bytes at this position. */
  ghost predicate At(f: seq<Byte>, pos: nat, b: seq<Byte>)
  {
    pos + |b| <= |f| && f[pos..pos + |b|] == b
  }

  lemma AtParts(f: seq<Byte>, pos: nat, a: seq<Byte>, b: seq<Byte>)
    requires At(f, pos, a + b)
    ensures At(f, pos, a) && At(f, pos + |a|, b)
  {
    assert f[pos..pos + |a|] == (a + b)[..|a|];
    assert f[pos + |a|..pos + |a| + |b|] == (a + b)[|a|..];
  }

  lemma WordAt(f: seq<Byte>, pos: nat, w: nat)
    requires w < WORD && At(f, pos, Le(w))
    ensures pos + 4 <= |f| && Word(f, pos) == w
  {
    WordLe(w);
    var g := f[pos..pos + 4];
    assert g[0] == f[pos] && g[1] == f[pos + 1] && g[2] == f[pos + 2] && g[3] == f[pos + 3];
  }

  lemma HeaderAt(f: seq<Byte>, pos: nat, n: Node)
    requires n.kind < WORD && n.size < WORD && n.count < WORD && At(f, pos, Header(n))
    ensures pos + 12 <= |f| && Word(f, pos) == n.kind && Word(f, pos + 4) == n.size && Word(f, pos + 8) == n.count
  {
    AtParts(f, pos, Le(n.kind) + Le(n.size), Le(n.count));
    AtParts(f, pos, Le(n.kind), Le(n.size));
    WordAt(f, pos, n.kind);
    WordAt(f, pos + 4, n.size);
    WordAt(f, pos + 8, n.count);
  }

  lemma {:induction false} AllBytesPrefix(n: Node, k: nat, m: nat)
    requires k <= m <= |n.entries|
    ensures AllBytes(n, k) <= AllBytes(n, m)
    decreases m
  {
    if k < m {
      AllBytesPrefix(n, k, m - 1);
    }
  }

  /** The bytes of entry `k` lie behind those of the entries before it. */
  lemma EntryAt(f: seq<Byte>, base: nat, n: Node, k: nat)
    requires k < |n.entries| && At(f, base, AllBytes(n, |n.entries|))
    ensures At(f, base + |AllBytes(n, k)|, Bytes(n.entries[k]))
    ensures |AllBytes(n, k + 1)| == |AllBytes(n, k)| + |Bytes(n.entries[k])| <= |AllBytes(n, |n.entries|)|
  {
    AllBytesPrefix(n, k + 1, |n.entries|);
    var all, some := AllBytes(n, |n.entries|), AllBytes(n, k + 1);
    assert all == some + all[|some|..];
    AtParts(f, base, some, all[|some|..]);
    AtParts(f, base, AllBytes(n, k), Bytes(n.entries[k]));
  }

  /** Room in the array after `k` entries have been read. */
  function Cap(count: nat, k: nat): nat
  {
    if 16 * k < Room(count) then 16 * k else Room(count)
  }

  /** How far the entries of `n` have been read into `root`. */
  ghost predicate Reading(root: Node, n: Node, k: nat)
  {
    && k <= |n.entries| && |root.entries| == k <= Room(n.count) && root.count == n.count
    && root.nentry == Cap(n.count, k)
    && (forall j :: 0 <= j < k ==> Same(root.entries[j], n.entries[j]) == true)
  }

  lemma GrowCap(root: Node, k: nat)
    requires root.nentry == Cap(root.count, k)
    ensures Grow(root) == root.(nentry := Cap(root.count, k + 1))
    ensures k < Cap(root.count, k + 1) <==> k < Room(root.count)
  {
  }

  /** The entry fits into the array after bof_entry_grow, if there is room for it at all. */
  lemma StoreOk(root: Node, n: Node, k: nat, e: Node)
    requires Reading(root, n, k) && k < |n.entries| && Same(e, n.entries[k])
    ensures k >= Room(n.count) ==> Store(Grow(root), e).None?
    ensures k < Room(n.count) ==> Store(Grow(root), e).Some? && Reading(Store(Grow(root), e).value, n, k + 1)
    ensures k < Room(n.count) ==>
      var s := Store(Grow(root), e).value; s == root.(entries := s.entries, nentry := s.nentry)
  {
    GrowCap(root, k);
  }

  /** A leaf is read back. */
  lemma LeafAt(f: seq<Byte>, pos: nat, e: Node)
    requires Truthful(e) && IsLeaf(e.kind) && At(f, pos, Bytes(e))
    ensures var len := (e.size - 12) % WORD;
      && pos + 12 + len <= |f| && len == |e.value| > 0 && f[pos + 12..pos + 12 + len] == e.value
    ensures pos + 12 <= |f| && Word(f, pos) == e.kind && Word(f, pos + 4) == e.size && Word(f, pos + 8) == e.count
  {
    assert Bytes(e) == Header(e) + e.value;
    AtParts(f, pos, Header(e), e.value);
    HeaderAt(f, pos, e);
  }

  lemma BoxAt(f: seq<Byte>, pos: nat, e: Node)
    requires Truthful(e) && IsBox(e.kind) && At(f, pos, Bytes(e))
    ensures At(f, pos + 12, AllBytes(e, |e.entries|)) && |AllBytes(e, |e.entries|)| == e.size - 12
    ensures pos + 12 <= |f| && Word(f, pos) == e.kind && Word(f, pos + 4) == e.size && Word(f, pos + 8) == e.count
  {
    assert Bytes(e) == Header(e) + AllBytes(e, |e.entries|);
    AtParts(f, pos, Header(e), AllBytes(e, |e.entries|));
    HeaderAt(f, pos, e);
    BytesSize(e);
  }

  /** What bof_read makes of the entry at `pos` of a file, before it is stored. */
  ghost predicate Found(e: Node, f: seq<Byte>, pos: nat, got: Parsed)
  {
    && pos + 12 <= |f| && Word(f, pos) == e.kind && Word(f, pos + 4) == e.size && Word(f, pos + 8) == e.count
    && (IsLeaf(e.kind) ==>
        && (e.size - 12) % WORD == |e.value| > 0 && pos + 12 + |e.value| <= |f|
        && f[pos + 12..pos + 12 + |e.value|] == e.value
        && got == Done(Node(e.kind, e.size, e.count, e.value, 0, []), pos + 12 + |e.value|))
    && (!IsLeaf(e.kind) ==>
      IsBox(e.kind) && got == Read(Node(e.kind, e.size, e.count, [], 0, []), f, pos + 12, pos + e.size))
  }

  /** How a round of bof_read goes on from there. */
  function Onward(root: Node, f: seq<Byte>, end: int, got: Parsed): Parsed
  {
    if !got.Done? then got
    else
      var s := Store(Grow(root), got.root);
      if s.None? then Overrun else Read(s.value, f, got.pos, end)
  }

  lemma LeafRound(root: Node, e: Node, f: seq<Byte>, pos: nat, end: int, got: Parsed)
    requires pos < end && IsLeaf(e.kind) && Found(e, f, pos, got)
    ensures Read(root, f, pos, end) == Onward(root, f, end, got)
  {
    var n := Node(Word(f, pos), Word(f, pos + 4), Word(f, pos + 8), [], 0, []);
    assert n.(value := f[pos + 12..pos + 12 + |e.value|]) == got.root;
  }

  lemma BoxRound(root: Node, e: Node, f: seq<Byte>, pos: nat, end: int, got: Parsed)
    requires pos < end && IsBox(e.kind) && Found(e, f, pos, got)
    ensures Read(root, f, pos, end) == Onward(root, f, end, got)
  {
  }

  /** One round of bof_read. */
  lemma OneRound(root: Node, e: Node, f: seq<Byte>, pos: nat, end: int, got: Parsed)
    requires pos < end && Found(e, f, pos, got)
    ensures Read(root, f, pos, end) == Onward(root, f, end, got)
  {
    if IsLeaf(e.kind) {
      LeafRound(root, e, f, pos, end, got);
    } else {
      BoxRound(root, e, f, pos, end, got);
    }
  }

  lemma ReadNothing(root: Node, f: seq<Byte>, pos: nat, end: int)
    requires pos == end
    ensures Read(root, f, pos, end) == Done(root, pos)
  {
  }

  /** The entries from `k` on fit, and so does their number. */
  ghost predicate FitsFrom(n: Node, k: nat)
  {
    |n.entries| <= Room(n.count) && forall i :: k <= i < |n.entries| ==> Fits(n.entries[i]) == true
  }

  /** The result of reading entries `k` on: all of them, or a store outside the array. */
  ghost predicate Right(r: Parsed, root: Node, n: Node, k: nat, end: nat)
  {
    && (FitsFrom(n, k) ==>
        && r.Done? && r.pos == end && Reading(r.root, n, |n.entries|)
        && r.root == root.(entries := r.root.entries, nentry := r.root.nentry))
    && (!FitsFrom(n, k) ==> r == Overrun)
  }

  /** The result of reading one entry. */
  ghost predicate RightEntry(got: Parsed, e: Node, pos: nat)
  {
    && (Fits(e) ==> got.Done? && got.pos == pos + e.size && Same(got.root, e) == true)
    && (!Fits(e) ==> got == Overrun)
  }

  /** bof_read, started behind entry `k`, reads the rest of the entries and stops exactly at their
      end, or stores outside the array; the latter exactly when a box has too many entries. */
  lemma {:induction false} ReadEntries(root: Node, n: Node, k: nat, f: seq<Byte>, base: nat, pos: nat, end: nat)
      returns (r: Parsed)
    requires Truthful(n) && At(f, base, AllBytes(n, |n.entries|)) && Reading(root, n, k)
    requires pos == base + |AllBytes(n, k)| && end == base + |AllBytes(n, |n.entries|)|
    ensures Read(root, f, pos, end) == r && Right(r, root, n, k, end) == true
    decreases n, |n.entries| - k
  {
    if k == |n.entries| {
      r := Done(root, pos);
      ReadNothing(root, f, pos, end);
    } else {
      EntryAt(f, base, n, k);
      var got := ReadEntry(n.entries[k], f, pos);
      OneRound(root, n.entries[k], f, pos, end, got);
      r := ReadRest(root, n, k, f, base, pos, end, got);
    }
  }

  /** The rounds after entry `k`. */
  lemma {:induction false} ReadRest(root: Node, n: Node, k: nat, f: seq<Byte>, base: nat, pos: nat, end: nat,
      got: Parsed) returns (r: Parsed)
    requires Truthful(n) && At(f, base, AllBytes(n, |n.entries|)) && Reading(root, n, k) && k < |n.entries|
    requires pos == base + |AllBytes(n, k)| && end == base + |AllBytes(n, |n.entries|)|
    requires pos + n.entries[k].size == base + |AllBytes(n, k + 1)| && RightEntry(got, n.entries[k], pos)
    ensures Onward(root, f, end, got) == r && Right(r, root, n, k, end) == true
    decreases n, |n.entries| - k, 0
  {
    if got == Overrun {
      r := Overrun;
    } else {
      StoreOk(root, n, k, got.root);
      if k >= Room(n.count) {
        r := Overrun;
      } else {
        var s := Store(Grow(root), got.root).value;
        r := ReadEntries(s, n, k + 1, f, base, got.pos, end);
        FitsOneMore(r, root, s, n, k, end);
      }
    }
  }

  lemma FitsOneMore(r: Parsed, root: Node, s: Node, n: Node, k: nat, end: nat)
    requires k < |n.entries| && Fits(n.entries[k]) && Right(r, s, n, k + 1, end)
    requires s == root.(entries := s.entries, nentry := s.nentry)
    ensures Right(r, root, n, k, end)
  {
    assert FitsFrom(n, k) <==> FitsFrom(n, k + 1);
  }

  /** The node that reading one entry gives. */
  lemma {:induction false} ReadEntry(e: Node, f: seq<Byte>, pos: nat) returns (got: Parsed)
    requires Truthful(e) && At(f, pos, Bytes(e))
    ensures Found(e, f, pos, got) == true && RightEntry(got, e, pos) == true && |Bytes(e)| == e.size
    decreases e, |e.entries| + 2
  {
    BytesSize(e);
    if IsLeaf(e.kind) {
      got := ReadLeaf(e, f, pos);
    } else {
      BoxAt(f, pos, e);
      var from, end := pos + 12, pos + e.size;
      got := ReadBox(e, f, from, end);
      BoxFound(e, f, pos, got, from, end);
      BoxRight(got, e, pos);
    }
  }

  /** The nested call of bof_read. */
  function Boxed(e: Node, f: seq<Byte>, from: nat, end: int): Parsed
  {
    Read(Node(e.kind, e.size, e.count, [], 0, []), f, from, end)
  }

  lemma {:induction false} ReadBox(e: Node, f: seq<Byte>, from: nat, end: nat) returns (got: Parsed)
    requires Truthful(e) && IsBox(e.kind) && At(f, from, AllBytes(e, |e.entries|))
    requires end == from + |AllBytes(e, |e.entries|)|
    ensures Boxed(e, f, from, end) == got && Right(got, Node(e.kind, e.size, e.count, [], 0, []), e, 0, end) == true
    decreases e, |e.entries| + 1
  {
    got := ReadEntries(Node(e.kind, e.size, e.count, [], 0, []), e, 0, f, from, from, end);
  }

  lemma ReadLeaf(e: Node, f: seq<Byte>, pos: nat) returns (got: Parsed)
    requires Truthful(e) && IsLeaf(e.kind) && At(f, pos, Bytes(e))
    ensures Found(e, f, pos, got) == true && RightEntry(got, e, pos) == true
  {
    LeafAt(f, pos, e);
    got := Done(Node(e.kind, e.size, e.count, e.value, 0, []), pos + 12 + |e.value|);
    assert Fits(e) && Same(got.root, e);
  }

  lemma BoxFound(e: Node, f: seq<Byte>, pos: nat, got: Parsed, from: nat, end: int)
    requires IsBox(e.kind) && Boxed(e, f, from, end) == got && from == pos + 12 && end == pos + e.size
    requires pos + 12 <= |f| && Word(f, pos) == e.kind && Word(f, pos + 4) == e.size && Word(f, pos + 8) == e.count
    ensures Found(e, f, pos, got)
  {
  }

  lemma BoxRight(got: Parsed, e: Node, pos: nat)
    requires IsBox(e.kind) && e.value == [] && Right(got, Node(e.kind, e.size, e.count, [], 0, []), e, 0, pos + e.size)
    ensures RightEntry(got, e, pos)
  {
    assert FitsFrom(e, 0) <==> Fits(e);
    if Fits(e) {
      AllSame(got.root, e);
    }
  }

  lemma AllSame(m: Node, n: Node)
    requires Reading(m, n, |n.entries|) && m.kind == n.kind && m.size == n.size && m.value == n.value
    ensures Same(m, n)
  {
    forall i | 0 <= i < |n.entries| ensures Same(m.entries[i], n.entries[i]) {
      assert Same(m.entries[i], n.entries[i]) == true;
    }
  }

  /** Loading a file whose sizes are right: the tree is rebuilt if every box has room for its entries,
      and otherwise, and only then, something is stored outside an array. */
  lemma LoadIff(n: Node) returns (m: Parsed)
    requires Truthful(n) && IsBox(n.kind)
    ensures m == Load(Dump(n))
    ensures m == Overrun <==> !Fits(n)
    ensures Fits(n) ==> m.Done? && m.pos == n.size && Same(m.root, n)
  {
    var f := Dump(n);
    assert f[0..|f|] == f;
    AtParts(f, 0, Header(n), AllBytes(n, |n.entries|));
    HeaderAt(f, 0, n);
    BytesSize(n);
    m := ReadEntries(Node(n.kind, n.size, n.count, [], 0, []), n, 0, f, 12, 12, n.size);
    BoxRight(m, n, 0);
  }

  /** Loading a dumped tree rebuilds it. */
  lemma RoundTrip(n: Node) returns (m: Node)
    requires Complete(n) && IsBox(n.kind)
    ensures Load(Dump(n)) == Done(m, n.size) && Same(m, n)
  {
    CompleteFits(n);
    var r := LoadIff(n);
    m := r.root;
  }

  // ----- a file that overruns

  /** An array that says it has no entries but holds `k` blobs of one byte. */
  function Liar(k: nat): Node
  {
    Node(ARRAY, 12 + 13 * k, 0, [], 0, seq(k, _ => NewLeaf(BLOB, [7])))
  }

  lemma {:induction false} LiarSize(ns: seq<Node>)
    requires forall i :: 0 <= i < |ns| ==> ns[i].size == 13
    ensures SumSizes(ns) == 13 * |ns|
  {
    if ns != [] {
      LiarSize(ns[..|ns| - 1]);
    }
  }

  /** With 16 blobs the file is read; the 17th is stored outside the array. */
  lemma LiarOverruns(k: nat)
    requires k < 1000
    ensures Load(Dump(Liar(k))) == Overrun <==> k > 16
  {
    var n := Liar(k);
    LiarSize(n.entries);
    LeafComplete(BLOB, [7]);
    CompleteFits(NewLeaf(BLOB, [7]));
    assert Truthful(n) && (Fits(n) <==> k <= 16);
    var m := LoadIff(n);
  }
}
