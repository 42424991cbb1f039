# libdrm: a verified model

This project models the parts of libdrm that keep books: the software buffer manager of `intel/intel_bufmgr_fake.c`
on the range allocator of `intel/mm.c`, the skip list, hash table and random numbers of the core library, the buffer
accounting of nouveau push buffers, the command stream masks and the BOF files of radeon, and the layout of radeon
surfaces. `dafny verify dfyconfig.toml` checks it.

| files | component |
|---|---|
| `MmLayout`, `MmTheorems`, `MmHeap` | `intel/mm.c`: the heap as a sequence of cells with its free list, its theorems, and the doubly linked rings as they are, proved to refine it |
| `FenceOrder` | the wrapping fence cookies |
| `FakeState` to `FakeRefs`, `FakeClient` | the state of the fake buffer manager, its steps and its invariants, one file for each stage of an operation |
| `FakeBufMgr` | class `Manager`: the operations of `intel/intel_bufmgr_fake.c` with their loops |
| `SkipList`, `HashTable`, `Random` | `xf86drmSL.c`, `xf86drmHash.c`, `xf86drmRandom.c` |
| `Pushbuf` | `nouveau/pushbuf.c` with `nouveau/private.h` |
| `BitMasks`, `CsGem` | `radeon/radeon_cs_gem.c` |
| `Bof` | `radeon/bof.c` |
| `SurfaceMath`, `Surface`, `SurfaceTrees`, `SurfaceInit`, `SurfaceAlign` | `radeon/radeon_surface.c` |
| `Arithmetic` | products, quotients and powers of two |

## The buffer manager

`Manager` has one field, the whole state. Between calls it is `Sound(st, held)`, where `held` counts the references
of the clients: heap cells and blocks correspond, every block is on the list that its flags name, a block and its
buffer point at each other, the fenced list is in emission order, reference counts equal the references there are, a
buffer that is not mapped has no mapping, and each buffer has its newest contents in at least one place. The contents of a buffer (`Contents`) are its backing
store when it is dirty, its card memory when the card has written it, and its backing store otherwise. Everything an
operation does to the place of a buffer leaves them alone; only a store, a relocation word and the card change them.

The card is a parameter. `Exec` takes what the card makes of its memory as a function that may change only the
buffers the batch writes to, and `CardGoesOn` lets a batch whose fence has not passed go on drawing at any time
between calls. Random numbers, the levels of skip list entries and the results of `malloc` are parameters too.

## Names ending in Facts

The larger predicates are written twice, as `P`, which says `PFacts(..) == true`, and as `PFacts`, which says what it
means. The equation keeps `P` in one piece in preconditions, postconditions and invariants, where the prover would
otherwise take it apart and prove every conjunct at every call. `Q(..) == true` in a contract is there for the same
reason. The two are equal; read `P` as `PFacts`.

## Findings

Where the code does not do what its comments, its documentation or its other half expect, the model follows the code.

- A write mapping nested in a read mapping loses its stores (`intel/intel_bufmgr_fake.c:1018-1052`: the second map
  returns before it calls `set_dirty`). After two maps, a store, two unmaps and validation the card has the data exactly
  when the buffer was dirty before or the outer mapping was for writing: `FakeBufMgr.Manager.NestedRun`, with
  `FakeBufMgr.Manager.NestedStore` and `FakeClient.StoreNeedsDirty`.
- A map of a buffer without backing store that finds no room has raised `map_count` already, so the next map returns
  0 and no mapping: `FakeBufMgr.Manager.MapAgain`.
- A buffer without backing store that is dirty fails the assertion at `intel/intel_bufmgr_fake.c:1204`, and eviction
  makes it dirty, even while another buffer of the same batch is placed. `FakeBufMgr.Manager.Validate` states exactly
  when; `FakeBufMgr.Manager.Exec` that no other batch ends that way.
- A buffer that was never written has no contents that survive a move; the model marks it (`written`) and promises
  nothing.
- Fence order holds for emissions less than 2^24 apart and fails at 2^24: `FenceOrder.FenceLteIsOrder`,
  `FenceOrder.FenceWindowIsTight`.
- `drmSLLookup` hands out the list entry where its caller expects the value (`xf86drmSL.c:255`): `SkipLists.SkipList.Lookup`.
- Iteration over a hash table visits chain 0 twice and chain 511 never. It is fair exactly when no key is in those two
  chains, and unfair for keys 0 and 204: `HashTables.SweepIsFair`, `HashTables.SweepIsUnfair`.
- `pushbuf_refn_fail` takes buffers back but not what was counted for them. The counters stay exact exactly when the
  buffers that go have size 0: `Pushbuf.RollBackExact`. `cli_kref_set` doubles the handle to get
  the size of the table, so handle 0, and no other, is written outside an empty one: `Pushbuf.KrefSet`.
- After a flush a failing `pushbuf_refn` leaves what `nouveau_pushbuf_space` refers to again: first the buffer of the
  push buffer itself, exactly if it fits into an empty record. `Pushbuf.Client.Refn`, `Pushbuf.Client.Space`.
- A relocation that reads what an earlier one writes ends up in a read and in a write domain, against the comment at
  `radeon/radeon_cs_gem.c:210-215`; exactly when the new read domains meet the old write domain: `CsGem.MergeDomains`,
  `CsGem.ReadAfterWrite`. The line that updates the flags never changes them (`CsGem.FlagsNeverChange`), and a 33rd
  stream gets id 0, which no mask can hold (`CsGem.CreateOk`).
- `bof_read` stores outside its array exactly when a box has more entries than `16 * (count / 16 + 1)`, where `count`
  is the count its header states; a header with count 0 and 17 blobs is enough: `Bof.LoadIff`, `Bof.LiarOverruns`.
- Counting macro tiles loses bytes exactly when the tile split does not divide the tile: `Surface.MacroExactIff`.
  Seven bytes per element with a split of 128, which pass `eg_surface_sanity`, lose 8 of 3584: `SurfaceAlign.MacroLoses`.
- "level0 and first mipmap need to have alignment" (`radeon/radeon_surface.c:689` and its likes): for tile parameters
  that pass `eg_surface_sanity`, level 1 of every surface is aligned exactly when a tile has a power of two of bytes in
  each of its slices, which is a matter of the bytes per element or, for a split tile, of the split:
  `SurfaceAlign.LevelOneIff`. Otherwise some surface that is accepted fails (`SurfaceAlign.Uneven`), such as 24 by 64
  blocks of twelve bytes on four banks, whose level 1 begins 2048 bytes into a macro tile (`SurfaceAlign.UnevenTile`).
  Twelve bytes with a split of 256 are fine (`SurfaceAlign.SplitSaves`).

## Model

| member | source | states |
|---|---|---|
| `FakeBufMgr.Manager.Exec` | intel/intel_bufmgr_fake.c:1433-1497 | A batch that is submitted finds every buffer it uses on the card, with its contents and with every relocation word equal to the address of its target, and the buffers marked for writing are those some relocation writes; afterwards all it used is fenced with the newest emission, what the card did not draw to keeps its contents, and the interface invariant holds. Otherwise an assertion of the source fails: there is no room even after kicking everything off, or the batch uses a buffer without backing store, found dirty when its turn came; no buffer has lost contents |
| `FakeDraw.SubmittedWords` | intel/intel_bufmgr_fake.c:1336-1390 | In the submitted state the four bytes of every relocation slot of every buffer the batch reaches are, in card memory, the address where its target lies plus the delta |
| `FakeDraw.SubmittedContents` | intel/intel_bufmgr_fake.c:1163-1233 | The card memory of every buffer the batch reaches holds its contents, and every buffer reached by a write relocation is one the card may draw to, so that it will be copied back |
| `FakeBufMgr.Manager.EvictAndAlloc` | intel/intel_bufmgr_fake.c:661-723 | Finding card memory fails exactly when every aligned place for the buffer is blocked by a block on the hardware in the state before the call; on success the block is in the lru list and no buffer lost contents |
| `FakePlacement.ExhaustedIsBlocked` | intel/intel_bufmgr_fake.c:716-722 | With nothing left to evict or to wait for, a failing allocation means that blocks on the hardware are in every aligned place |
| `FakePlacement.PlacedIsNotBlocked` | intel/intel_bufmgr_fake.c:426-459 | A place that alloc_block finds is not blocked by the hardware |
| `FakeBufMgr.Manager.ClearFenced` | intel/intel_bufmgr_fake.c:596-637 | Exactly the longest prefix of the fenced list whose fences pass the test is released, to the lru list or, without owner, to the heap, and no buffer changes |
| `FakePlacement.ClearFencedExact` | intel/intel_bufmgr_fake.c:596-637 | While emissions are less than 2^24 apart, stopping at the first fence that has not passed loses nothing: the released prefix is exactly what was emitted at or before the cookie |
| `FakePlacement.WaitedExact` | intel/intel_bufmgr_fake.c:289-301 | So waiting for an emission takes every block emitted at or before it off the fenced list |
| `FenceOrder.FenceLteExact` | intel/intel_bufmgr_fake.c:235-250 | FENCE_LTE for any two emissions less than a counter round apart: the exact distances at which it holds |
| `FenceOrder.FenceLteIsOrder` | intel/intel_bufmgr_fake.c:235-250 | While emissions span less than 2^24, FENCE_LTE is the order of emission, across the wrap-around of the counter |
| `FenceOrder.FenceWindowIsTight` | intel/intel_bufmgr_fake.c:235-250 | It fails for any two emissions 2^24 apart |
| `FakeBufMgr.Manager.FenceEmit` | intel/intel_bufmgr_fake.c:266-287 | A new emission gets the next cookie, and no other state changes |
| `FakeBufMgr.Manager.WaitRendering` | intel/intel_bufmgr_fake.c:747-758 | Afterwards the buffer is not fenced, if its emission is in the window, and no buffer or card copy has changed |
| `FakeBufMgr.Manager.WaitIdle` | intel/intel_bufmgr_fake.c:732-739 | If all emissions are in the window nothing is fenced afterwards, and no block with an owner has moved |
| `FakeBufMgr.Manager.EvictLru` | intel/intel_bufmgr_fake.c:543-568 | The head of the lru list goes, its buffer with contents saved; with max_fence 0 it fails only on an empty list |
| `FakeBufMgr.Manager.EvictMru` | intel/intel_bufmgr_fake.c:570-591 | The same for the tail of the lru list |
| `FakeContents.EvictContents` | intel/intel_bufmgr_fake.c:543-591 | Eviction moves the newer copy into the backing store: every buffer keeps its contents |
| `FakeState.BlocksDisjoint` | intel/intel_bufmgr_fake.c:426-459 | Blocks never overlap and lie inside the aperture |
| `FakeBufMgr.Manager.BoAlloc` | intel/intel_bufmgr_fake.c:806-843 | A new buffer with one reference; all others are as they were |
| `FakeBufMgr.Manager.BoMap` | intel/intel_bufmgr_fake.c:1002-1087 | The CPU sees the contents through the mapping, which survive the map; it fails exactly for a buffer without backing store that has no place and finds none, and then there is no new mapping; a successful map has a mapping exactly when it was the first or the one before had |
| `FakeBufMgr.Manager.MapAgain` | intel/intel_bufmgr_fake.c:1021-1036 | Of two maps the second always succeeds, but there is a mapping only if the first did |
| `FakeBufMgr.Manager.MapBacking` | intel/intel_bufmgr_fake.c:1051-1066 | A buffer the card has written is read back only after its fence has passed, and the backing store then holds its contents |
| `FakeBufMgr.Manager.BoUnmap` | intel/intel_bufmgr_fake.c:1089-1123 | Unmapping keeps the contents and lowers the map count by one |
| `FakeBufMgr.Manager.Store` | intel/intel_bufmgr_fake.c:1125-1140 | A CPU store through a write mapping changes exactly the bytes stored of exactly that buffer |
| `FakeBufMgr.Manager.Subdata` | intel/intel_bufmgr_fake.c:1125-1140 | Map, store and unmap: the bytes are part of the contents, the other bytes and all other buffers stay, and no data do nothing |
| `FakeBufMgr.Manager.NestedStore` | intel/intel_bufmgr_fake.c:1002-1055 | After two nested maps, a store over the whole buffer and two unmaps, the data are the contents and all is well if the buffer was dirty or the outer map was for writing; otherwise all is well but for the backing store |
| `FakeBufMgr.Manager.NestedRun` | intel/intel_bufmgr_fake.c:1002-1233 | The same followed by bo_validate: the card has the data exactly in these cases, and else the old contents |
| `FakeClient.StoreNeedsDirty` | intel/intel_bufmgr_fake.c:1018-1052 | A store that changes a buffer leaves its two copies consistent exactly when the buffer is dirty |
| `FakeBufMgr.Manager.DisableBackingStore` | intel/intel_bufmgr_fake.c:966-996 | The buffer gives up its backing store; nothing else changes |
| `FakeBufMgr.Manager.EmitReloc` | intel/intel_bufmgr_fake.c:1257-1311 | The relocation is appended, its target gets a reference, and all contents stay |
| `FakeBufMgr.Manager.CalculateDomains` | intel/intel_bufmgr_fake.c:1317-1334 | The write flags end up set on exactly the buffers that some relocation reachable from the batch writes, counted by paths, and nothing else changes |
| `FakeSubmit.MarkedIsByOne` | intel/intel_bufmgr_fake.c:1317-1334 | Marking by paths through the graph agrees with marking relocation by relocation, as the recursion does |
| `FakeSubmit.ReachedValidated` | intel/intel_bufmgr_fake.c:1336-1390 | Everything a validated buffer reaches is validated |
| `FakeBufMgr.Manager.RelocAndValidate` | intel/intel_bufmgr_fake.c:1336-1390 | On any acyclic graph: the buffer and all it reaches are validated on success, buffers outside the graph only move, contents change in relocation slots alone, and mappings are as before; it stops for want of room, or at a buffer of the graph without backing store |
| `FakeBufMgr.Manager.Validate` | intel/intel_bufmgr_fake.c:1163-1233 | The buffer is on the hardware with its contents; -1 exactly when it has no place and the hardware blocks every one, and then its record is as it was; the assertion fails exactly when it is dirty and has no backing store; whatever is in its backing store, a clean buffer on the card keeps its card memory |
| `FakeBufMgr.Manager.UploadIfDirty` | intel/intel_bufmgr_fake.c:1200-1222 | A dirty buffer is uploaded after the card is idle, when nothing is fenced any more, and keeps its contents; for a clean one nothing happens |
| `FakeReloc.CardWords` | intel/intel_bufmgr_fake.c:1363-1374 | The relocation words in the card memory of a validated buffer are the current addresses of its targets |
| `FakeBufMgr.Manager.KickAll` | intel/intel_bufmgr_fake.c:1142-1161 | Nothing stays on the hardware or validated, every buffer keeps its contents, and those of the buffers that were on the hardware are in their backing stores |
| `FakeBufMgr.Manager.FenceValidated` | intel/intel_bufmgr_fake.c:1235-1245 | All blocks on the hardware move to the fenced list with the newest emission |
| `FakeBufMgr.Manager.PostSubmit` | intel/intel_bufmgr_fake.c:1392-1418 | All buffers the batch reaches are taken down, with write flags cleared, and no other buffer changes |
| `FakeBufMgr.Manager.CardGoesOn` | intel/intel_bufmgr_fake.c:596-606 | A batch whose fence has not passed may draw at any time between calls: the invariant holds, and buffers without a pending fence keep their contents |
| `FakeDraw.LateDraw` | intel/intel_bufmgr_fake.c:596-606 | The same as a statement about states |
| `FakeDraw.EvictedIsSettled` | intel/intel_bufmgr_fake.c:543-591 | What eviction takes is not waiting for a fence, so late drawing cannot touch it |
| `FakeDraw.WaitedIsSettled` | intel/intel_bufmgr_fake.c:747-758 | Nor is a buffer that has been waited for |
| `FakeBufMgr.Manager.BoReference` | intel/intel_bufmgr_fake.c:904-922 | One more reference, in the count and in the books |
| `FakeBufMgr.Manager.BoUnreference` | intel/intel_bufmgr_fake.c:951-960 | One reference less; buffers without references go, with all they refer to, and all others keep contents and counts |
| `FakeBufMgr.Manager.UnreferenceLocked` | intel/intel_bufmgr_fake.c:924-949 | The recursion over the targets of a freed buffer keeps every count equal to the references there are |
| `FakeRefs.NoBufferLeaks` | intel/intel_bufmgr_fake.c:924-949 | Once the clients hold no reference, an acyclic graph of buffers is empty |
| `FakeRefs.NoBlockLeaks` | intel/intel_bufmgr_fake.c:463-496 | Without buffers and pending fences the heap is one free range again |
| `MmHeap.Heap.constructor` | intel/mm.c:57-90 | A well-formed heap of one free block |
| `MmHeap.Heap.SliceBlock` | intel/mm.c:92-160 | On both linked rings: cutting a range out of a free block gives the layout with one to three blocks in its place |
| `MmHeap.Heap.AllocMem` | intel/mm.c:162-192 | On the linked rings: NULL exactly when the layout has no fit, else the block of the layout; every block in use stays as it is |
| `MmHeap.Heap.Join2Blocks` | intel/mm.c:206-228 | On the linked rings: two neighbouring free blocks become one; every block in use stays as it is |
| `MmHeap.Heap.FreeMem` | intel/mm.c:230-255 | -1 exactly for a free or reserved block, else the layout with the block freed and joined; NULL is fine |
| `MmTheorems.AllocKeepsValid` | intel/mm.c:162-192 | An allocation takes exactly the requested range, aligned, and keeps the heap well formed: blocks tile the aperture, no two free ones touch, the free list has each free one once |
| `MmTheorems.AllocFailsIff` | intel/mm.c:162-192 | It fails exactly when every aligned range in the aperture meets an allocated block |
| `MmTheorems.FreeKeepsValid` | intel/mm.c:230-255 | Freeing takes out exactly the block and keeps the heap well formed |
| `MmTheorems.FreeUndoesAlloc` | intel/mm.c:230-255 | Freeing what was just allocated restores the layout |
| `MmTheorems.EveryRunValid` | intel/mm.c:162-255 | The heap is well formed after every sequence of allocations and releases |
| `MmTheorems.EveryHeapValid` | intel/mm.c:57-255 | From mmInit on |
| `MmTheorems.EmptyIsInit` | intel/mm.c:230-255 | A heap with nothing allocated is one free range: no fragmentation stays |
| `SkipLists.SkipList.constructor` | xf86drmSL.c:132-147 | An empty list |
| `SkipLists.RandomLevel` | xf86drmSL.c:121-130 | The level is one more than the number of odd draws in a row, at most 16 |
| `SkipLists.SkipList.Locate` | xf86drmSL.c:169-184 | The entry behind the last smaller key, and on every level in use the last node with a smaller key |
| `SkipLists.SkipList.Insert` | xf86drmSL.c:186-217 | The map gets the key, or nothing changes and 1 comes back when it has it; the pointers of all levels stay those of a sorted skip list |
| `SkipLists.SkipList.Delete` | xf86drmSL.c:219-244 | The map loses the key, or nothing changes; the list level comes down |
| `SkipLists.SkipList.Lookup` | xf86drmSL.c:246-260 | 0 exactly when the key is in the list, and then its entry |
| `SkipLists.SkipList.Sweep` | xf86drmSL.c:286-313 | First and Next deliver every entry once, with ascending keys |
| `SkipLists.NextIsFirst` | xf86drmSL.c:169-184 | The pointer of a level leads to the first entry left of the list of the level |
| `SkipLists.LevelsNest` | xf86drmSL.c:121-130 | The list of a level is a part of the list of the level below |
| `HashTables.HashHash` | xf86drmHash.c:129-155 | The loop over the scatter table computes the hash that the theorems speak of |
| `HashTables.FillScatter` | xf86drmHash.c:135-143 | The table is filled with the first 256 draws from the seed 37 |
| `HashTables.HashTable.HashFind` | xf86drmHash.c:197-223 | The bucket of the key, moved to the front of its chain, which is only permuted; no chain changes when the key is missing |
| `HashTables.HashTable.Lookup` | xf86drmHash.c:225-236 | 0 and the value exactly for a key of the map; the map stays, and chains are only permuted |
| `HashTables.HashTable.Insert` | xf86drmHash.c:238-258 | 1 exactly for a key of the map, which stays; else the key is added |
| `HashTables.HashTable.Delete` | xf86drmHash.c:260-275 | 0 exactly for a key of the map, which loses it |
| `HashTables.HashTable.Sweep` | xf86drmHash.c:277-303 | What iteration with First and Next delivers, entry by entry |
| `HashTables.SweepVisits` | xf86drmHash.c:277-303 | How often a sweep visits a key: twice in chain 0, never in chain 511, else once |
| `HashTables.SweepIsFair` | xf86drmHash.c:277-303 | Every entry is visited once exactly when no key hashes to 0 or 511 |
| `HashTables.SweepIsUnfair` | xf86drmHash.c:277-303 | Keys 0 and 204: the one is visited twice, the other never |
| `HashTables.FirstAndLast` | xf86drmHash.c:129-155 | Key 0 hashes to 0 and key 204 to 511 |
| `Random.Schrage` | xf86drmRandom.c:147-159 | The split by quotient and remainder computes seed * 48271 mod 2^31 - 1 with every intermediate value inside 31 bits |
| `Random.StepInjective` | xf86drmRandom.c:147-159 | Different states have different successors |
| `Random.IterateIsPower` | xf86drmRandom.c:147-159 | n draws multiply the seed by the n-th power of the multiplier |
| `Random.PureCycle` | xf86drmRandom.c:147-159 | Every seed comes back to itself |
| `Random.CheckValue` | xf86drmRandom.c:125-128 | 10000 draws from 1 give the check value of the source |
| `Random.RandomState.Random` | xf86drmRandom.c:147-159 | One draw steps the state and stays legal |
| `Random.RandomState.constructor` | xf86drmRandom.c:111-139 | A seed that is not legal is replaced by the closest one |
| `Pushbuf.KrefSet` | nouveau/private.h:62-79 | Exactly the entry of the handle changes, and the table grows to twice the handle when it must; only handle 0 in an empty table is written outside |
| `Pushbuf.KrefFits` | nouveau/pushbuf.c:82-148 | Whether one more buffer fits, after narrowing domains when needed; the limits are kept, exact counters stay exact, and a refusal means that VRAM or GART is full and no placed buffer can be narrowed |
| `Pushbuf.Narrow` | nouveau/pushbuf.c:124-147 | Turning VRAM or GART buffers into VRAM buffers until there is room in GART; it fails only when no more can be turned |
| `Pushbuf.Client.NewPush` | nouveau/pushbuf.c:532-601 | An empty record with exact counters |
| `Pushbuf.Client.Again` | nouveau/pushbuf.c:178-197 | For a buffer the record has: refused exactly when the domains clash or VRAM is full, else merged, with the counters exact |
| `Pushbuf.Client.KrefBo` | nouveau/pushbuf.c:150-220 | A buffer the record has is refused exactly when the domains clash or VRAM is full, and else takes in the new use; a new one goes to the end in the domains asked for, or does not fit; older buffers keep their places, another record that had it is flushed, and the table points where the buffers are |
| `Pushbuf.Client.Flush` | nouveau/pushbuf.c:411-422 | The record is empty with exact counters, and no table entry points into it |
| `Pushbuf.Client.RefnFail` | nouveau/pushbuf.c:433-449 | The record is cut back to the buffers it had, the table with it; the counters stay |
| `Pushbuf.RollBackExact` | nouveau/pushbuf.c:433-449 | Which keeps the counters exact exactly when the buffers that go have size 0 |
| `Pushbuf.Client.Refn` | nouveau/pushbuf.c:451-479 | On success all buffers of the group are referred to; on failure without retry the record has the buffers of before, and after a retry those of nouveau_pushbuf_space |
| `Pushbuf.Client.Space` | nouveau/pushbuf.c:637-699 | A flushed record begins with the buffer of the push buffer itself exactly if that fits alone, and goes on with buffers of the context |
| `CsGem.EveryRunOk` | radeon/radeon_cs_gem.c:97-495 | In every interleaving of creating, writing, emitting, erasing and destroying streams, the mask of a buffer is the set of ids of the streams that list it, ids are not shared, and reference counts equal the uses |
| `CsGem.FirstOk` | radeon/radeon_cs_gem.c:81-91 | Which holds before the first stream |
| `CsGem.FilterIsExact` | radeon/radeon_cs_gem.c:199-201 | The bit of a stream in the mask of a buffer is set exactly when the stream lists the buffer |
| `CsGem.ListedExactly` | radeon/radeon_cs_gem.c:199-239 | The bit test never hides a relocation of the buffer, and the latest entry with its handle is the buffer |
| `CsGem.CreateOk` | radeon/radeon_cs_gem.c:97-170 | A new stream gets the lowest free id; none is left exactly when 32 streams have one |
| `BitMasks.FreeBit` | radeon/radeon_cs_gem.c:84-111 | A mask is full exactly when all bits are taken, and else the lowest clear bit is not taken |
| `CsGem.MergeDomains` | radeon/radeon_cs_gem.c:210-230 | A repeated relocation stays in one domain exactly when what it reads was not written before |
| `CsGem.ReadAfterWrite` | radeon/radeon_cs_gem.c:210-230 | Reading VRAM after writing it sets both |
| `CsGem.FlagsNeverChange` | radeon/radeon_cs_gem.c:231-232 | Flags of a repeated relocation never change |
| `CsGem.WriteRelocOk` | radeon/radeon_cs_gem.c:172-274 | Adding or merging a relocation keeps the books and lists the buffer; a failing one changes nothing |
| `CsGem.Gem.CreateStream` | radeon/radeon_cs_gem.c:125-170 | The method creates the stream that CreateOk is about |
| `CsGem.Gem.Write` | radeon/radeon_cs_gem.c:172-274 | The method with its scan from the end of the list does just that |
| `CsGem.Gem.Emit` | radeon/radeon_cs_gem.c:424-459 | All relocations are released and every mask loses the bit of the stream, so each buffer is used exactly as often as by the other streams; the stream keeps its id |
| `CsGem.Gem.Erase` | radeon/radeon_cs_gem.c:473-495 | The stream is empty, and each buffer is used exactly as often as by the other streams |
| `CsGem.Gem.DestroyStream` | radeon/radeon_cs_gem.c:461-471 | The stream is gone and its id free; no buffer changes |
| `Bof.BoxComplete` | radeon/bof.c:51-62 | A new object or array is complete |
| `Bof.ArrayAppendOk` | radeon/bof.c:111-123 | Appending a complete value gives a complete array with the value last, inside its room |
| `Bof.ObjectSetOk` | radeon/bof.c:76-95 | The one growth check makes room for the key and the value |
| `Bof.FileWrite` | radeon/bof.c:399-437 | A complete tree is written byte for byte in the file format |
| `Bof.RoundTrip` | radeon/bof.c:279-477 | Loading a dumped tree rebuilds it, to its last byte |
| `Bof.LoadIff` | radeon/bof.c:279-370 | For every file with right sizes: loading stores outside an array exactly when some box has more entries than its header makes room for, and else rebuilds the tree |
| `Bof.LiarOverruns` | radeon/bof.c:34-46 | A header that states no entries over k blobs overruns exactly for k > 16 |
| `Bof.ReadEntries` | radeon/bof.c:279-334 | bof_read, started behind any entry of a box, reads the rest or overruns |
| `SurfaceMath.AlignExactIff` | radeon/radeon_surface.c:45-45 | ALIGN gives multiples for every value exactly when the alignment is a power of two |
| `SurfaceMath.AlignStays` | radeon/radeon_surface.c:45-45 | A multiple of the alignment is left where it is exactly when it has no bit in common with the alignment less one; else the result is no multiple |
| `SurfaceMath.NextPowerOfTwoIsLeast` | radeon/radeon_surface.c:144-150 | The least power of two that is not smaller |
| `SurfaceMath.MipShrinks` | radeon/radeon_surface.c:152-160 | Behind level 0 the sides of a mip chain never grow |
| `Surface.MacroExactIff` | radeon/radeon_surface.c:563-602 | A macro tiled slice has the bytes of its blocks exactly when the tile split divides a tile evenly, in spite of four integer divisions |
| `Surface.MacroExact` | radeon/radeon_surface.c:563-602 | So it has for powers of two |
| `SurfaceAlign.MacroLoses` | radeon/radeon_surface.c:563-602 | Seven bytes per element with a split of 128, accepted by the checks: 3576 bytes for 3584 |
| `SurfaceInit.SurfaceState.R6Init1d` | radeon/radeon_surface.c:323-354 | Every level is the one surf_minify gives for 1D tiles, level 1 begins at the aligned end of level 0, any other right behind the level before it, and the buffer ends with the last |
| `SurfaceInit.SurfaceState.R6Init2d` | radeon/radeon_surface.c:356-395 | Macro tiled levels up to exactly the first one that is too small, 1D tiled ones from there, packed the same way across the fallback, and the resulting alignment |
| `SurfaceInit.SurfaceState.EgInit1d` | radeon/radeon_surface.c:604-643 | As on r600, from an aligned offset on |
| `SurfaceInit.SurfaceState.EgInit2d` | radeon/radeon_surface.c:645-696 | Macro tiled levels of eg_surf_minify up to the first one that is too small, 1D tiled ones from there, where each begins, and the alignment of the buffer |
| `SurfaceInit.SurfaceState.SiInit1d` | radeon/radeon_surface.c:1540-1587 | The levels of si_surf_minify, packed, with level 1 aligned for 1D tiles |
| `SurfaceInit.SurfaceState.SiInit2d` | radeon/radeon_surface.c:1607-1689 | It fails exactly when a level is too small and the tile mode has no 1D mode; else the macro tiled and the 1D tiled levels, the latter placed from the offset that is not aligned |
| `SurfaceInit.SurfaceState.EgTrees1d` | radeon/radeon_surface.c:781-801 | Depth tree from 0, stencil tree at the first aligned place behind it, buffer ends with the stencil tree |
| `SurfaceInit.SurfaceState.EgTrees2d` | radeon/radeon_surface.c:803-824 | The same with macro tiles |
| `SurfaceInit.SurfaceState.SiTrees1d` | radeon/radeon_surface.c:1589-1605 | The same on southern islands |
| `SurfaceInit.SurfaceState.SiTrees2d` | radeon/radeon_surface.c:1691-1713 | The same with macro tiles; it fails exactly when one of the two trees does |
| `SurfaceTrees.Tree2dDisjoint` | radeon/radeon_surface.c:356-395 | The levels of such a tree are disjoint and in order across the fallback, and none is empty if the tile sides are powers of two |
| `SurfaceTrees.Tree1dDisjoint` | radeon/radeon_surface.c:323-354 | The same for a tree of 1D tiles |
| `SurfaceTrees.PowersMakeTiles` | radeon/radeon_surface.c:658-672 | Power-of-two parameters make macro tiles with power-of-two sides that hold at least one byte |
| `SurfaceTrees.LevelsDisjoint` | radeon/radeon_surface.c:323-354 | In a chain of levels every level ends before any later one begins |
| `SurfaceTrees.EgTreesDisjoint` | radeon/radeon_surface.c:803-824 | For every last level and both fallback levels: every depth level ends before every stencil level begins, lower levels before higher ones, and the last stencil level ends last |
| `SurfaceTrees.SiTreesDisjoint` | radeon/radeon_surface.c:1691-1713 | The same on southern islands |
| `SurfaceTrees.FirstTwoAligned` | radeon/radeon_surface.c:347-352 | Levels 0 and 1 are aligned when the alignments are powers of two |
| `SurfaceAlign.TilePowerIff` | radeon/radeon_surface.c:656-668 | For accepted parameters the bytes of a tile in a slice are a power of two exactly when the bytes per element are or, for a split tile, when the split leaves less than its number of slices |
| `SurfaceAlign.LevelOneIff` | radeon/radeon_surface.c:645-776 | Level 1 of every accepted surface with these tile parameters is aligned exactly then |
| `SurfaceAlign.Uneven` | radeon/radeon_surface.c:645-776 | Otherwise there is an accepted surface with two macro tiled levels whose second is not aligned |
| `SurfaceAlign.UnevenTile` | radeon/radeon_surface.c:645-776 | Twelve bytes per element, 24 by 64 blocks, four banks: level 1 begins 2048 bytes into a macro tile of 3072 |
| `SurfaceAlign.SplitSaves` | radeon/radeon_surface.c:656-668 | Twelve bytes per element with a split of 256 make tiles of a power of two of bytes |

## Left out

- Manager.Exec: a `ret` other than 0 stands for an assertion that the source fails; the exec callback always succeeds, and the ioctl that replaces it is not modelled.
- Manager.Exec: the graph of buffers is acyclic, which `ghost rank` witnesses; on a cycle the recursion of the source does not end.
- Manager.Exec: a buffer without backing store has no relocations of its own in the graph; `drm_intel_bo_fake_disable_backing_store` on a buffer that has some is modelled, executing it then is not. The same holds for `RelocAndValidate`, `Validate`, `CalculateDomains` and `PostSubmit`.
- Manager.Exec: the card never writes to relocation slots.
- Manager.Exec: the card draws at once or, as `Manager.CardGoesOn`, until the fence passes. The model does not let an old batch draw to a buffer that is validated again before its old fence has passed, during `Manager.KickAll`.
- Manager.CardGoesOn: late drawing happens between calls, not inside one.
- Manager.EmitReloc: the buffer has contents, and its slot holds the address at which the target was last placed; the source takes the client's word for that.
- Manager.Store: stores only through mappings of a backing store, outside relocation slots; through a mapping of card memory nothing is promised. The same holds for `Subdata`.
- Manager.NestedRun: for a buffer without relocations, and validation follows directly; an eviction in between would mark the buffer dirty.
- Manager.WaitRendering: passes when the fence is within 2^24 emissions, which the source takes for granted.
- Manager: buffers and blocks are records found by id, and its heap is the layout of `MmLayout`; that the linked rings refine the layout is proved in `MmHeap`. Alignments are exponents.
- Manager: static and pinned buffers, `BM_NO_FENCE_SUBDATA`, invalidate callbacks, `contended_lock_take`, `evict_all`, `check_aperture_space`, `child_size`, the fence ioctl with its error paths, and the inner wait loop of `evict_and_alloc_block`, whose condition never holds, are not modelled; neither are 32-bit overflows of sizes and addresses.
- SkipList: magic numbers, `drmSLLookupNeighbors`, destroying, dumping and deleting during an iteration are left out; keys and values are integers.
- HashTable: magic numbers and destroying are left out; of the statistics only the number of searches is kept.
- Client: the limits are constant, while `pushbuf_submit` updates them from the kernel. Submitting, relocations (`pushbuf_krel`), `pushbuf_validate` beyond its references, push buffers without channel, reference counts of buffers and overflows of the 64-bit counters are left out; a handle names one buffer.
- Bof: nodes are values, so sharing, reference counts and `bof_object_get` are left out; trees with leaves without bytes are not complete and do not make the round trip.
- Gem: packets are a list; the growth of the packet buffer, begin and end, the space accounting, the ioctl and its failure are left out.
- SurfaceState: linear layouts, `*_surface_best`, `tiling_index`, the tables of tile modes, cik and 32-bit overflows are left out; of the sanity checks those of evergreen are in `SurfaceAlign`.
