/** The state of the fake buffer manager (intel/intel_bufmgr_fake.c) and its
    invariant.  Buffer objects and blocks are records found by their address, so
    that the pointers between them can be followed both ways. */
module FakeState {
  import opened MmLayout
  import opened MmTheorems
  import opened FenceOrder

  type Byte = b: int | 0 <= b < 256
  type BoId = nat
  type BlockId = nat

  /** struct fake_buffer_reloc; `write` is write_domain != 0. */
  datatype Reloc = Reloc(target: BoId, offset: nat, last: int, delta: int, write: bool)

  /** struct block.  `ofs` and `size` are those of its mem_block; `emission` is
      the unbounded number of the emission whose cookie is `fence`. */
  datatype Block = Block(ofs: int, size: int, bo: Option<BoId>, onHardware: bool, fenced: bool, fence: int,
    emission: nat)

  /** What bo->virtual points at. */
  datatype Virtual = Unmapped | Backing | Card

  /** drm_intel_bo_fake.  `written` records that the buffer has been mapped for
      writing or rendered to since it was created. */
  datatype Bo = Bo(size: nat, align2: nat, noBacking: bool, refcount: nat,
                   dirty: bool, cardDirty: bool, block: Option<BlockId>, backing: Option<seq<Byte>>,
                   write: bool, validated: bool, mapCount: nat, virt: Virtual,
                   relocs: seq<Reloc>, offset: int, written: bool)

  /** drm_intel_bufmgr_fake with the card memory it manages. */
  datatype State = State(lo: int, card: seq<Byte>, heap: Layout,
                         blocks: map<BlockId, Block>, bos: map<BoId, Bo>,
                         lru: seq<BlockId>, onHw: seq<BlockId>, fenced: seq<BlockId>,
                         lastFence: int, issued: nat, fail: bool, thrashing: int, rendered: bool,
                         nextBlock: BlockId, nextBo: BoId)
  {
    function Hi(): int { lo + |card| }
  }

  // ----- card memory

  predicate InCard(s: State, ofs: int, n: nat)
  {
    s.lo <= ofs && ofs + n <= s.Hi()
  }

  /** The `n` bytes at card address `ofs`. */
  function Window(s: State, ofs: int, n: nat): (w: seq<Byte>)
    requires InCard(s, ofs, n)
    ensures |w| == n
  {
    s.card[ofs - s.lo..ofs - s.lo + n]
  }

  /** memcpy of `data` to card address `ofs`. */
  function Upload(s: State, ofs: int, data: seq<Byte>): (t: State)
    requires InCard(s, ofs, |data|)
    ensures |t.card| == |s.card|
  {
    s.(card := s.card[..ofs - s.lo] + data + s.card[ofs - s.lo + |data|..])
  }

  /** The bytes just written are read back; disjoint ranges keep theirs. */
  lemma UploadWindow(s: State, ofs: int, data: seq<Byte>, ofs2: int, n: nat)
    requires InCard(s, ofs, |data|) && InCard(s, ofs2, n)
    ensures Window(Upload(s, ofs, data), ofs, |data|) == data
    ensures ofs2 + n <= ofs || ofs + |data| <= ofs2 ==> Window(Upload(s, ofs, data), ofs2, n) == Window(s, ofs2, n)
  {
    var t := Upload(s, ofs, data);
    assert Window(t, ofs, |data|) == data;
    if ofs2 + n <= ofs || ofs + |data| <= ofs2 {
      assert Window(t, ofs2, n) == Window(s, ofs2, n);
    }
  }

  // ----- structural invariant

  ghost predicate HeapOk(s: State)
  {
    s.lo >= 0 && Valid(s.heap, s.lo, s.Hi()) == true
  }

  function CellOf(k: Block): Cell
  {
    Cell(k.ofs, k.size, false)
  }

  /** Some block owns the heap cell `c`. */
  ghost predicate Owned(s: State, c: Cell)
  {
    exists b :: b in s.blocks && CellOf(s.blocks[b]) == c
  }

  /** Allocated heap cells and blocks correspond one to one. */
  ghost predicate BlocksOk(s: State)
  {
    && (forall b :: b in s.blocks ==> UsedIn(s.heap, CellOf(s.blocks[b])) && b < s.nextBlock)
    && (forall b, c :: b in s.blocks && c in s.blocks && b != c ==> s.blocks[b].ofs != s.blocks[c].ofs)
    && (forall c :: UsedIn(s.heap, c) ==> Owned(s, c))
  }

  /** Every block is on the one list its flags name. */
  ghost predicate ListsOk(s: State)
  {
    && Distinct(s.lru) && Distinct(s.onHw) && Distinct(s.fenced)
    && (forall b :: b in s.lru <==> b in s.blocks && !s.blocks[b].onHardware && !s.blocks[b].fenced)
    && (forall b :: b in s.onHw <==> b in s.blocks && s.blocks[b].onHardware && !s.blocks[b].fenced)
    && (forall b :: b in s.fenced <==> b in s.blocks && !s.blocks[b].onHardware && s.blocks[b].fenced)
    && (forall b :: b in s.blocks ==> !(s.blocks[b].onHardware && s.blocks[b].fenced))
  }

  /** bo->block and block->bo are mutual, only a fenced block may have lost its
      owner, and a block is large enough for its buffer. */
  ghost predicate OwnersOk(s: State)
  {
    && (forall b :: b in s.blocks && s.blocks[b].bo.Some? ==>
        s.blocks[b].bo.value in s.bos && s.bos[s.blocks[b].bo.value].block == Some(b))
    && (forall o :: o in s.bos && s.bos[o].block.Some? ==>
        && s.bos[o].block.value in s.blocks
        && s.blocks[s.bos[o].block.value].bo == Some(o)
        && s.bos[o].size <= s.blocks[s.bos[o].block.value].size)
    && (forall b :: b in s.blocks && !s.blocks[b].fenced ==> s.blocks[b].bo.Some?)
    && (forall o :: o in s.bos ==> s.bos[o].size > 0 && o < s.nextBo)
  }

  /** Fences carry the cookies of their emissions, and the fenced list is in emission order. */
  ghost predicate FencesOk(s: State)
  {
    && (forall b :: b in s.fenced && b in s.blocks ==>
        1 <= s.blocks[b].emission <= s.issued && s.blocks[b].fence == Cookie(s.blocks[b].emission))
    && (forall i, j :: 0 <= i < j < |s.fenced| && s.fenced[i] in s.blocks && s.fenced[j] in s.blocks ==>
        s.blocks[s.fenced[i]].emission <= s.blocks[s.fenced[j]].emission)
  }

  /** The structural invariant (`== true` keeps its parts folded in proofs). */
  ghost predicate Struct(s: State)
  {
    && HeapOk(s) == true && BlocksOk(s) == true && ListsOk(s) == true
    && OwnersOk(s) == true && FencesOk(s) == true
  }

  /** Blocks of different buffers never overlap, and all lie in the aperture. */
  lemma BlocksDisjoint(s: State, b: BlockId, c: BlockId)
    requires Struct(s) && b in s.blocks && c in s.blocks && b != c
    ensures s.blocks[b].ofs + s.blocks[b].size <= s.blocks[c].ofs
      || s.blocks[c].ofs + s.blocks[c].size <= s.blocks[b].ofs
    ensures s.lo <= s.blocks[b].ofs && s.blocks[b].ofs + s.blocks[b].size <= s.Hi()
  {
    CellsDisjoint(s.heap.cells, s.lo, s.Hi(), CellOf(s.blocks[b]), CellOf(s.blocks[c]));
  }

  lemma BlockInCard(s: State, b: BlockId)
    requires Struct(s) && b in s.blocks
    ensures InCard(s, s.blocks[b].ofs, s.blocks[b].size)
    ensures s.blocks[b].size > 0
  {
    AllOrdered(s.heap.cells, s.lo, s.Hi());
  }

  // ----- steps

  /** Bytes the block of a buffer takes. */
  function CardSize(bo: Bo): int
  {
    AlignUp(bo.size, Pow2(bo.align2))
  }

  /** alloc_block; None when mmAllocMem fails. */
  function AllocBlock(s: State, o: BoId): Option<State>
    requires o in s.bos
  {
    var bo := s.bos[o];
    var r := Alloc(s.heap, CardSize(bo), bo.align2, 0);
    if r.None? then None
    else
      Some(s.(heap := r.value.0,
              blocks := s.blocks[s.nextBlock := Block(r.value.1, CardSize(bo), Some(o), false, false, 0, 0)],
              lru := s.lru + [s.nextBlock],
              bos := s.bos[o := bo.(block := Some(s.nextBlock))],
              nextBlock := s.nextBlock + 1))
  }

  /** DRMLISTDEL, mmFreeMem and free of a block. */
  function Drop(s: State, b: BlockId): State
    requires b in s.blocks
  {
    s.(heap := Free(s.heap, s.blocks[b].ofs), blocks := s.blocks - {b},
       lru := Without(s.lru, b), onHw := Without(s.onHw, b), fenced := Without(s.fenced, b))
  }

  /** The block has an owner, whose bytes lie in card memory. */
  predicate HasOwner(s: State, b: BlockId)
  {
    && b in s.blocks && s.blocks[b].bo.Some? && s.blocks[b].bo.value in s.bos
    && InCard(s, s.blocks[b].ofs, s.bos[s.blocks[b].bo.value].size)
  }

  /** The copy-back part of free_block. */
  function CopyBack(s: State, b: BlockId, skipDirtyCopy: bool): State
    requires HasOwner(s, b)
  {
    var o := s.blocks[b].bo.value;
    var bo := s.bos[o];
    if !skipDirtyCopy && !bo.noBacking && bo.cardDirty then
      s.(bos := s.bos[o := bo.(backing := Some(Window(s, s.blocks[b].ofs, bo.size)), cardDirty := false,
        dirty := true)])
    else s
  }

  /** free_block. */
  function FreeBlock(s: State, b: BlockId, skipDirtyCopy: bool): State
    requires HasOwner(s, b)
  {
    var t := CopyBack(s, b, skipDirtyCopy);
    if s.blocks[b].onHardware || s.blocks[b].fenced then
      t.(blocks := t.blocks[b := t.blocks[b].(bo := None)])
    else Drop(t, b)
  }

  /** What an eviction leaves of the buffer: the card copy, if it was the newer
      one, is in the backing store. */
  function Evicted(s: State, b: BlockId): Bo
    requires HasOwner(s, b)
  {
    var bo := s.bos[s.blocks[b].bo.value];
    if !bo.noBacking && bo.cardDirty then
      bo.(backing := Some(Window(s, s.blocks[b].ofs, bo.size)), cardDirty := false, dirty := true, block := None)
    else bo.(dirty := true, block := None)
  }

  /** The effect of evict_lru and evict_mru on the block they pick. */
  function Evict(s: State, b: BlockId): State
  {
    if !HasOwner(s, b) then s
    else Drop(s, b).(bos := s.bos[s.blocks[b].bo.value := Evicted(s, b)])
  }

  /** A block with an owner goes back to the end of the lru list. */
  function ToLru(s: State, b: BlockId): State
    requires b in s.blocks
  {
    s.(blocks := s.blocks[b := s.blocks[b].(fenced := false)], fenced := Without(s.fenced, b), lru := s.lru + [b])
  }

  /** One round of the loop of clear_fenced. */
  function Unfence(s: State, b: BlockId): State
    requires b in s.blocks
  {
    if s.blocks[b].bo.None? then Drop(s, b) else ToLru(s, b)
  }

  /** One round of the loop of fence_blocks. */
  function Fence(s: State, b: BlockId, emission: nat): State
    requires b in s.blocks && emission >= 1
  {
    s.(blocks := s.blocks[b := s.blocks[b].(fence := Cookie(emission), emission := emission, onHardware := false,
      fenced := true)],
       onHw := Without(s.onHw, b), fenced := s.fenced + [b])
  }

  /** The last part of bo_validate: the block moves to the on_hardware list. */
  function ToHardware(s: State, b: BlockId): State
    requires b in s.blocks
  {
    s.(blocks := s.blocks[b := s.blocks[b].(fenced := false, onHardware := true)],
       lru := Without(s.lru, b), fenced := Without(s.fenced, b), onHw := Without(s.onHw, b) + [b])
  }

  /** The effect of one round of the loop of kick_all_locked. */
  function Kick(s: State, b: BlockId): State
  {
    if !HasOwner(s, b) then s
    else
      var o := s.blocks[b].bo.value;
      Drop(s, b).(bos := s.bos[o := Evicted(s, b).(validated := false, dirty := s.bos[o].dirty || !s.bos[o].noBacking)])
  }
}
