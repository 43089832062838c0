# Virtual-memory simulator core in Dafny

A model of the core of a small Python virtual-memory simulator, with
proofs of its properties. The model covers:

- **Page table** (`page_table.dfy`, module `PageTables`). This is the
  `PageTable` class: a mutable dictionary from virtual page number to
  physical page number. It also holds the `get_page_number` /
  `get_offset` helpers, which split a virtual address with `>>` and
  `& (PAGE_SIZE - 1)`.
- **Mapping calculator** (`address_mapping.dfy`, module `AddressMapping`).
  This is the integer part of `calculate_page_info`: it computes the
  offset width, the offset and the page number, maps the page in a
  one-entry table, reads it back and forms
  `(ppn << OFFSET_BITS) | offset`.
- **Cache hierarchy** (`cache_set.dfy`, `cache_level.dfy`,
  `cache_system.dfy`).
  - `CacheSet` is an ordered dictionary, oldest entry first, modelled as
    a sequence of distinct (tag, block) pairs.
  - `SetAssociativeCache` decomposes an address into set index, tag and
    offset.
  - `CacheSystem` is a list of levels that are probed in order, written
    together and filled together.
  - Each class keeps its Python fields. Its methods are proved equal to
    functions on values (`Put`, `LevelWriteBlock`, `SystemRead`, …), and
    the properties are proved about those functions.
- **Stand-alone LRU cache** (`lru_cache.dfy`, module `NwayLru`). Each set
  keeps the tags it holds and a usage counter per tag. Hits and inserts
  take the counter `max + 1`, and a miss into a full set evicts the tag
  with the smallest counter. The hit/miss vectors of the default test
  run are computed for two and four ways.
- **Memory and MMU** (`memory.dfy`, `mmu.dfy`).
  - Translation goes through an unbounded TLB keyed by the whole virtual
    address, then the page table. A page fault installs a frame.
  - `process_virtual_address` covers read and write, hit and miss.
    Writes are write-through and write-allocate. Misses go through
    `Memory.get_block`, which synthesizes a fresh block.
- **Shared modules.** `Bits` models Python's `>>`, `<<`, `&`, `|` and
  `bit_length` on non-negative integers, bit by bit. `Common` holds the
  shared value types. A raised exception is a `Failure` carrying
  `KeyError`, `ValueError` or `ZeroDivisionError`.

The model follows the code as written, including behaviour a reader of
the code might not expect:

- **Tag shift.** The tag of an address is shifted by the bit length of
  the set-index *value* (`cache_system.py:128`,
  `TestNwaySetAssociativeCacheWithLRU.py:23`), not by `log2(num_sets)`.
  `CacheLevels.BlockNumberFromIndexAndTag` proves that index and tag
  still determine the block.
- **Block geometry.** `offset_bits` comes from `block_size` (16), while
  `num_sets` is computed from `line_size` (`cache_system.py:108-113`).
- **Level read.** A level's `read_data` tests the tuple returned by
  `check_hit`, which is always true. An address whose tag is absent from
  its set therefore raises `KeyError` (`cache_system.py:153`, `:102`).
  So `CacheSystem.read_data` raises as soon as level 1 misses, instead of
  returning `None` (`CacheSystems.ReadMissInFirstLevelRaises`).
- **Promotion.** After a hit, `read_data` only calls `write_data` on the
  levels above the hit. That changes only levels that already hold the
  tag, and copies no block (`cache_system.py:42-43`, `:95-99`).
- **Recency.** Within the hierarchy, only `add_or_update` changes a
  set's order. `CacheSet.access`, which moves a hit to the end, is never
  called by `SetAssociativeCache` or `CacheSystem`, so hits through the
  hierarchy do not refresh recency.
- **`CacheSet.write_data` on an absent tag** returns `False` instead of
  failing.
- **`Memory.get_block`** ignores stored data. It always returns
  `{i: b"data" + bytes([i])}` and stores it under the unaligned address
  (`memory_management_unit.py:146-150`).
- **Page-fault frames.** The frame handed out on a page fault is a
  caller-supplied value in `0x1000 <= frame < 0xFFFFF`, the range of
  `randint` at `memory_management_unit.py:99`. Page-fault service never
  fails.
- **Sizes need not be powers of two.** `&` and `|` are modelled bit by
  bit, so nothing assumes power-of-two sizes. The power-of-two facts are
  lemmas.
- **The TLB is unbounded** and is never invalidated.

## Model

| member | source | states |
|---|---|---|
| PageTables.Add | PageTable.py:35-37 | `add_entry` as a value: afterwards the page maps to the new frame, every other page keeps its lookup, and the key set gains exactly that page |
| PageTables.Remove | PageTable.py:44-47 | `remove_entry` as a value: the page is gone afterwards, every other lookup is unchanged, it is a no-op for an absent page, and exactly that key leaves a present page's table |
| PageTables.Update | PageTable.py:49-55 | `update_entry` as a value: fails with `KeyError` exactly when the page is absent; otherwise the key set is unchanged, the page maps to the new frame and every other page keeps its lookup |
| PageTables.PageTable.constructor | PageTable.py:28-33 | an empty table with `page_size == PAGE_SIZE_KiB * 1024` |
| PageTables.PageTable.AddEntry | PageTable.py:35-37 | the new entries are `Add` of the old entries |
| PageTables.PageTable.GetPhysicalPageNumber | PageTable.py:39-42 | returns the mapped frame exactly when the page is present, `None` otherwise; changes nothing |
| PageTables.PageTable.RemoveEntry | PageTable.py:44-47 | the new entries are `Remove` of the old entries |
| PageTables.PageTable.UpdateEntry | PageTable.py:49-55 | on an absent page raises `KeyError` and leaves the table unchanged; otherwise the entries become `Update` of the old ones |
| PageTables.PageTable.Clear | PageTable.py:60-62 | the table is empty and every lookup returns `None` |
| PageTables.GetPageNumber | PageTable.py:91-94 | `get_page_number` is the address divided by `2^offset_bits`; `PageTables.SplitRebuild` rebuilds the address from it |
| PageTables.GetOffset | PageTable.py:96-98 | for a positive page size the offset is below the page size, and a page size of 0 (mask `-1`) keeps the whole address; `PageTables.OffsetIsLowBits` gives it as the address modulo a power-of-two page |
| PageTables.OffsetWidthsAgree | PageTable.py:136-139 | for a page of `2^k` bytes, `PAGE_SIZE.bit_length() - 1` and `(PAGE_SIZE - 1).bit_length()` are both `k` |
| PageTables.OffsetIsLowBits | PageTable.py:96-98 | for a page of `2^k` bytes, `get_offset` is the address modulo the page size, hence below it |
| PageTables.SplitRebuild | PageTable.py:91-98 | `get_page_number(va, k) << k` combined with `get_offset(va, 2^k)` by bitwise or, and by addition, gives back `va` |
| AddressMapping.CalculatePageInfo | TestVirtualToPhysicalAddressMapping.py:131-156 | raises `ZeroDivisionError` exactly for a page size of 0; otherwise the page size is `KiB * 1024` and `OFFSET_BITS == (PAGE_SIZE - 1).bit_length()` |
| AddressMapping.PhysicalAddressParts | TestVirtualToPhysicalAddressMapping.py:142-152 | for every positive page size the retrieved frame is the supplied one, so the physical address exists; it equals `(ppn << OFFSET_BITS) + offset`, its low bits are the offset and shifting it right gives back the frame |
| AddressMapping.PowerOfTwoSplit | TestVirtualToPhysicalAddressMapping.py:9-17 | for a page of `2^j` KiB the offset is `va mod 2^(j+10)` and the page number is `va div 2^(j+10)` |
| AddressMapping.FourKiBPagesHaveTwelveOffsetBits | TestVirtualToPhysicalAddressMapping.py:132-133 | with 4 KiB pages the page size is 4096 and `OFFSET_BITS` is 12 |
| CacheSets.BlockOf | cache_system.py:92-93 | `entries.get(tag, None)` is a block exactly when the tag is present |
| CacheSets.WithDatum | cache_system.py:95-99 | `entries[tag][offset] = data` keeps every key in its place; `CacheSets.WriteDatumChangesOneEntry` says which datum changes |
| CacheSets.DatumAt | cache_system.py:101-102 | `block.get(offset, None)` is a datum exactly when the offset is a key |
| CacheSets.Put | cache_system.py:76-90 | `add_or_update` fails exactly for a block with more than `block_size` entries (`ValueError`) or for an insert into an empty set of zero ways (`popitem` on an empty dictionary, `KeyError`) |
| CacheSets.PutStores | cache_system.py:81-90 | after a successful `add_or_update` the tag maps to the block and is the newest entry, tags stay distinct, and a set within `n_way` stays within it |
| CacheSets.PutUpdateKeepsOthers | cache_system.py:81-84 | updating a present tag evicts nothing: every other tag keeps its presence and block, and the size is unchanged |
| CacheSets.PutInsertEvictsOldest | cache_system.py:86-90 | inserting an absent tag into a full set drops exactly the oldest entry and keeps the size; into a set with room, the empty set of the first insert included, it drops nothing and grows by one |
| CacheSets.MoveToEnd | cache_system.py:68-72 | `move_to_end` keeps the set of keys and is a no-op for an absent tag; `CacheSets.MoveToEndKeepsBlocks` proves the blocks kept and the tag last |
| CacheSets.MoveToEndKeepsBlocks | cache_system.py:68-72 | `move_to_end` keeps every tag's block and distinctness, and puts the tag last |
| CacheSets.WriteDatumChangesOneEntry | cache_system.py:95-99 | writing a datum keeps every key in place, changes only the offset of the tag's block, and changes nothing for an absent tag |
| CacheSets.CacheSet.constructor | cache_system.py:60-63 | an empty set with the given associativity and block size |
| CacheSets.CacheSet.CheckHit | cache_system.py:65-66 | true exactly when the tag is present; changes nothing |
| CacheSets.CacheSet.Access | cache_system.py:68-74 | returns the tag's block or `None`, and moves a present tag to the end |
| CacheSets.CacheSet.AddOrUpdate | cache_system.py:76-90 | the entries become `Put` of the old ones, or stay unchanged when it raises; the invariant (distinct tags, at most `n_way`) is kept |
| CacheSets.CacheSet.GetBlock | cache_system.py:92-93 | returns `BlockOf`, a block exactly when the tag is present; changes nothing |
| CacheSets.CacheSet.WriteData | cache_system.py:95-99 | returns `False` exactly for an absent tag; the entries become `WithDatum` of the old ones |
| CacheSets.CacheSet.ReadData | cache_system.py:101-102 | raises `KeyError` exactly for an absent tag, else the block's datum at the offset or `None`; changes nothing |
| CacheLevels.SetIndex | cache_system.py:116-121 | the set index is `(a >> offset_bits) mod 2^index_bits` and always below `num_sets` (0 when fully associative) |
| CacheLevels.TagOf | cache_system.py:123-129 | the tag drops low bits and never exceeds the address; `CacheLevels.BlockNumberFromIndexAndTag` proves that with the index it still names the block |
| CacheLevels.BlockOffset | cache_system.py:131-133 | `address % block_size` is below the block size |
| CacheLevels.BlockNumberFromIndexAndTag | cache_system.py:116-129 | despite the shift by the index value's bit length, `a >> offset_bits == (tag << index.bit_length()) + index` |
| CacheLevels.SameIndexAndTagSameBlock | cache_system.py:123-129 | two addresses with equal set index and tag have equal `a >> offset_bits` |
| CacheLevels.LevelGetBlock | cache_system.py:170-173 | a level's `get_block` returns a block exactly when the address hits |
| CacheLevels.LevelRead | cache_system.py:151-160 | a level's `read_data` raises `KeyError` exactly when the address's tag is absent (the tuple guard is always true), else returns the block's datum at the offset |
| CacheLevels.LevelWriteBlock | cache_system.py:144-149 | a level's `write_block` raises `ValueError` exactly for a block larger than `block_size`; otherwise the geometry and every other set are kept; `CacheLevels.WriteBlockStores` and `CacheLevels.WriteBlockThenRead` prove the read-back |
| CacheLevels.LevelWriteData | cache_system.py:162-168 | a level's `write_data` keeps the geometry and whether the address hits; `CacheLevels.WriteDataThenRead` proves the read-back and the frame |
| CacheLevels.WriteBlockStores | cache_system.py:144-149 | a block that fits is stored: the address hits, `get_block` returns the block, the geometry and invariant are kept |
| CacheLevels.WriteBlockThenRead | cache_system.py:144-160 | too large a block raises `ValueError`; otherwise `read_data` returns the block's entry at the offset and only the address's set changes |
| CacheLevels.WriteDataThenRead | cache_system.py:162-168 | `write_data` changes nothing on a miss; on a hit `read_data` returns the datum; the invariant and every address's hit status are kept; every other set is unchanged and every other cell (set, tag, offset) reads as before |
| CacheLevels.WriteDataKeepsOtherCell | cache_system.py:162-168 | after a level's `write_data`, any address naming a different (set, tag, offset) cell reads as before |
| CacheLevels.SetAssociativeCache.ValidState | cache_system.py:104-114 | a valid level object's state satisfies the level invariant |
| CacheLevels.SetAssociativeCache.constructor | cache_system.py:105-114 | `num_sets` empty sets, with `num_sets` 1 for fully associative and `size // (line_size * n_way)` otherwise |
| CacheLevels.SetAssociativeCache.CheckHit | cache_system.py:139-142 | returns whether the tag is in its set, and the level number |
| CacheLevels.SetAssociativeCache.WriteBlock | cache_system.py:144-149 | the state becomes `LevelWriteBlock` of the old one, unchanged when it raises |
| CacheLevels.SetAssociativeCache.ReadData | cache_system.py:151-160 | returns `LevelRead` of the state |
| CacheLevels.SetAssociativeCache.WriteData | cache_system.py:162-168 | the state becomes `LevelWriteData` of the old one |
| CacheLevels.SetAssociativeCache.GetBlock | cache_system.py:170-173 | returns `LevelGetBlock` of the state |
| CacheSystems.FirstHit | cache_system.py:29-34 | the first level from a position on that holds the address: it hits, the levels before it miss, and `None` means every level misses |
| CacheSystems.SystemCheckHit | cache_system.py:29-34 | `check_hit` returns the 1-based number of the first level that holds the address, and `None` exactly when no level does |
| CacheSystems.ReadScan | cache_system.py:36-47 | the probing loop of `read_data`: a level raising stops it with `KeyError`, and a found datum comes from a level that returns it |
| CacheSystems.SystemRead | cache_system.py:36-47 | `read_data` keeps the number of levels, raises only `KeyError`, and changes nothing on a raise or a `None`; `CacheSystems.ReadPromotes` proves the promotion |
| CacheSystems.Promote | cache_system.py:42-43 | the promotion keeps the number of levels; what it writes and keeps is proved in `CacheSystems.ReadPromotes` |
| CacheSystems.SystemWrite | cache_system.py:49-52 | `write_data` keeps the number of levels; which levels and cells it changes is proved in `CacheSystems.WriteOnlyHoldingLevels` |
| CacheSystems.LoadFrom | cache_system.py:54-56 | `load_block` keeps the number of levels; that it fills every level, or raises at level 1 with nothing changed, is proved in `CacheSystems.LoadFillsEveryLevel`, `CacheSystems.LoadFromFills` and `CacheSystems.LoadTooLargeRaises` |
| CacheSystems.ReadMissInFirstLevelRaises | cache_system.py:36-47 | when level 1 does not hold the address, `read_data` raises `KeyError` and changes nothing |
| CacheSystems.ReadPromotes | cache_system.py:36-47 | after a hit at level `k + 1`, every level above it holds the address and returns the datum while its other cells read as before, the others are unchanged and the invariants hold; a raise or `None` changes nothing |
| CacheSystems.WriteOnlyHoldingLevels | cache_system.py:49-52 | `write_data` changes exactly the levels holding the address, each then returns the datum, no level's hit status changes, and every other cell of every level reads as before |
| CacheSystems.LoadTooLargeRaises | cache_system.py:54-56 | a block too large for level 1 makes `load_block` raise `ValueError` with nothing changed |
| CacheSystems.LoadFillsEveryLevel | cache_system.py:54-56 | a block that fits every level makes every level hold the address with that block, keeping geometry and invariants |
| CacheSystems.LoadFromFills | cache_system.py:54-56 | the loop of `load_block` from any level on, by induction, keeps filling every level |
| CacheSystems.EmptyLevelsMiss | cache_system.py:25-34 | after a reset every address misses in every level |
| CacheSystems.CacheSystem.constructor | cache_system.py:8-18 | one empty level per size, with 16-entry blocks and `size // (line_size * n_way)` sets, and the fields as given |
| CacheSystems.CacheSystem.ConfigureCache | cache_system.py:20-23 | three fresh, empty levels built from the new sizes and associativity |
| CacheSystems.CacheSystem.ResetCaches | cache_system.py:25-27 | a fresh, empty level for every configured size |
| CacheSystems.CacheSystem.CheckHit | cache_system.py:29-34 | returns `SystemCheckHit` of the levels |
| CacheSystems.CacheSystem.ReadData | cache_system.py:36-47 | returns the datum of `SystemRead`, and the levels become its levels |
| CacheSystems.CacheSystem.WriteAbove | cache_system.py:42-43 | the promotion loop leaves the levels as `Promote` of the old ones |
| CacheSystems.CacheSystem.WriteData | cache_system.py:49-52 | the levels become `SystemWrite` of the old ones |
| CacheSystems.CacheSystem.LoadBlock | cache_system.py:54-56 | the levels and the outcome are those of `LoadFrom` |
| CacheSystems.CacheSystem.WriteBlockAt | cache_system.py:55-56 | one step of `load_block` updates one level as `LevelWriteBlock` does |
| CacheSystems.CacheSystem.WriteDataAt | cache_system.py:51-52 | one step of `write_data` updates one level as `LevelWriteData` does |
| NwayLru.SetIndexOf | TestNwaySetAssociativeCacheWithLRU.py:11-18 | the set index is `(a >> offset_bits) mod 2^index_bits` and names an existing set |
| NwayLru.TagOf | TestNwaySetAssociativeCacheWithLRU.py:23 | the tag drops low bits and never exceeds the address |
| NwayLru.MaxValue | TestNwaySetAssociativeCacheWithLRU.py:28 | `max(usage.values(), default=0)`: at least every counter, and one of them unless 0 |
| NwayLru.MaxUnique | TestNwaySetAssociativeCacheWithLRU.py:28 | the maximum is unique |
| NwayLru.LruVictim | TestNwaySetAssociativeCacheWithLRU.py:37 | `min(usage, key=usage.get)` is a key with the smallest counter |
| NwayLru.MinKeyUnique | TestNwaySetAssociativeCacheWithLRU.py:37 | with distinct counters the least recently used tag is unique |
| NwayLru.VictimIsTheMinimum | TestNwaySetAssociativeCacheWithLRU.py:37 | the victim is the tag with the smallest counter |
| NwayLru.EmptyState | TestNwaySetAssociativeCacheWithLRU.py:8-9 | `num_sets` empty tag sets and counter maps |
| NwayLru.AccessSet | TestNwaySetAssociativeCacheWithLRU.py:26-43 | an access keeps the set's tags equal to its counters' keys |
| NwayLru.Access | TestNwaySetAssociativeCacheWithLRU.py:20-44 | `access_cache` returns `True` exactly when the address's set already holds its tag, and keeps the number of sets; `NwayLru.AccessHitOrMiss`, `NwayLru.AccessKeepsSetOk` and `NwayLru.AccessTouchesOneSet` prove the rest |
| NwayLru.Touch | TestNwaySetAssociativeCacheWithLRU.py:43 | bumping a counter adds exactly that tag to the keys |
| NwayLru.BumpIsNewest | TestNwaySetAssociativeCacheWithLRU.py:28 | the bumped tag's counter is strictly above every other, so counters stay pairwise distinct |
| NwayLru.EvictKeepsSetOk | TestNwaySetAssociativeCacheWithLRU.py:36-40 | evicting the victim and inserting keeps `n` tags and the set invariant |
| NwayLru.AccessKeepsSetOk | TestNwaySetAssociativeCacheWithLRU.py:20-44 | after every access the set holds at most `n` tags, its tags are its counters' keys, and the accessed tag's counter is the largest |
| NwayLru.AccessHitOrMiss | TestNwaySetAssociativeCacheWithLRU.py:26-44 | a hit returns `True` and keeps the tags; a miss returns `False`, adds the tag, and into a full set removes exactly the smallest-counter tag |
| NwayLru.AccessTouchesOneSet | TestNwaySetAssociativeCacheWithLRU.py:20-44 | an access changes only the addressed set and keeps the cache invariant |
| NwayLru.RunFrom | TestNwaySetAssociativeCacheWithLRU.py:46-51 | a run yields one flag per address |
| NwayLru.RunFromStep | TestNwaySetAssociativeCacheWithLRU.py:50 | a run is the first access followed by the run of the rest |
| NwayLru.DefaultAddrsShareSetZero | TestNwaySetAssociativeCacheWithLRU.py:49 | with 64-byte blocks and 8 or 16 sets every default address falls in set 0 with tag `a / 64` |
| NwayLru.SetZeroForMultiples | TestNwaySetAssociativeCacheWithLRU.py:11-23 | multiples of `0x1000_0000` fall in set 0 with tag `a / 64` |
| NwayLru.RunStaysInSet | TestNwaySetAssociativeCacheWithLRU.py:46-51 | a run whose addresses share a set behaves as that set alone |
| NwayLru.DefaultTags | TestNwaySetAssociativeCacheWithLRU.py:23 | the default addresses' tags, all in set 0 |
| NwayLru.TwoWaySetRun | TestNwaySetAssociativeCacheWithLRU.py:26-44 | two ways: the default tag pattern misses eight times |
| NwayLru.FourWaySetRun | TestNwaySetAssociativeCacheWithLRU.py:26-44 | four ways: the default tag pattern gives `[F, F, F, F, T, T, F, T]` |
| NwayLru.TwoWayDefaultRun | TestNwaySetAssociativeCacheWithLRU.py:61-62 | `SetAssociativeCache(2048, 64, 2).test_lru_effectiveness()` is eight misses |
| NwayLru.FourWayDefaultRun | TestNwaySetAssociativeCacheWithLRU.py:65-66 | `SetAssociativeCache(2048, 64, 4).test_lru_effectiveness()` is `[F, F, F, F, T, T, F, T]` |
| NwayLru.SetAssociativeCache.constructor | TestNwaySetAssociativeCacheWithLRU.py:4-9 | `cache_size // (block_size * n)` empty sets |
| NwayLru.SetAssociativeCache.MaxCounter | TestNwaySetAssociativeCacheWithLRU.py:28 | the loop computes `MaxValue` |
| NwayLru.SetAssociativeCache.LeastRecentlyUsed | TestNwaySetAssociativeCacheWithLRU.py:37 | the loop computes `LruVictim` |
| NwayLru.SetAssociativeCache.Bump | TestNwaySetAssociativeCacheWithLRU.py:43 | the tag gets the counter `max + 1` |
| NwayLru.SetAssociativeCache.Evict | TestNwaySetAssociativeCacheWithLRU.py:36-43 | the victim leaves, the tag enters with the counter `max + 1` of the remaining counters |
| NwayLru.SetAssociativeCache.AccessOneSet | TestNwaySetAssociativeCacheWithLRU.py:26-44 | the set's new tags, counters and hit flag are those of `AccessSet` |
| NwayLru.SetAssociativeCache.AccessCache | TestNwaySetAssociativeCacheWithLRU.py:20-44 | the new state and the flag are those of `Access`, and the invariant holds |
| NwayLru.SetAssociativeCache.TestLruEffectiveness | TestNwaySetAssociativeCacheWithLRU.py:46-51 | an empty list means the default addresses; the flags and final state are those of the run |
| NwayLru.SetAssociativeCache.AccessNext | TestNwaySetAssociativeCacheWithLRU.py:50 | one access extends the flags so far by the next flag of the run |
| NwayLru.SetAssociativeCache.AccessAll | TestNwaySetAssociativeCacheWithLRU.py:50 | the loop's flags and final state are those of `RunFrom` |
| Memories.DataBytes | memory_management_unit.py:148 | `b"data" + bytes([i])` is five bytes ending in `i` |
| Memories.FreshBlock | memory_management_unit.py:148 | the keys are exactly `0 .. n-1`, each mapping to `b"data" + bytes([i])` |
| Memories.FreshBlockSize | memory_management_unit.py:148 | the fresh block has `n` entries |
| Memories.GetBlockOf | memory_management_unit.py:146-150 | raises `ZeroDivisionError` for a block size of 0 and `ValueError` above 256, otherwise stores the block under the address |
| Memories.GetBlockIgnoresStorage | memory_management_unit.py:146-150 | whatever was stored, the same block of `block_size` entries `b"data" + bytes([i])` comes back, sits under the unaligned address, and every other cell is unchanged |
| Memories.Memory.constructor | memory_management_unit.py:129-132 | empty storage, the size recorded |
| Memories.Memory.Read | memory_management_unit.py:134-140 | returns the stored value exactly when the address is present |
| Memories.Memory.Write | memory_management_unit.py:142-144 | the value replaces the cell |
| Memories.Memory.GetBlock | memory_management_unit.py:146-150 | the loop builds the block; result and storage are those of `GetBlockOf` |
| Memories.Memory.WriteData | memory_management_unit.py:152-153 | the datum replaces the cell |
| Mmu.PageArithmetic | memory_management_unit.py:68-84 | for pages of `2^k` bytes the page number is `va >> k` and the physical address is `(ppn << k) + va mod 2^k`, keeping the offset and the frame |
| Mmu.PageNumberOf | memory_management_unit.py:72-73 | the virtual page number is the address divided by the page size rounded up to a power of two (for a page size of 0, where `(-1).bit_length()` is 1, the address divided by 2) |
| Mmu.PhysicalAddressOf | memory_management_unit.py:70-84 | for a positive page size, shifting the physical address right by `offset_bits` gives back the frame and its low `offset_bits` bits are the offset |
| Mmu.Translate | memory_management_unit.py:63-91 | afterwards the TLB maps the address to the result; a TLB hit returns the cached address with no fault and no change |
| Mmu.TranslateWalk | memory_management_unit.py:68-90 | on a TLB miss a mapped page gives `ppn << k` bitwise-or the offset and leaves the page table alone; an unmapped page installs the frame for that page only and reports the fault |
| Mmu.FaultAddressInRange | memory_management_unit.py:93-103 | after a fault the physical address lies between `0x1000 << k` and `0xFFFFF << k` |
| Mmu.TranslateTwice | memory_management_unit.py:65-67 | translating again gives the same address from the TLB, no fault and no change, whatever frame the handler would pick |
| Mmu.FaultMapsWholePage | memory_management_unit.py:76-84 | after a fault, another address of the same page is found in the page table with the installed frame and no new fault |
| Mmu.MappedPage | memory_management_unit.py:68-84 | with 4 KiB pages, a mapped page translates to `(ppn << 12) + offset` with no fault |
| Mmu.DemoFirst | memory_management_unit.py:176-180 | with the demo page table `0x1112000` maps to `0x1102000`, without a fault |
| Mmu.DemoSecond | memory_management_unit.py:185-187 | with the demo page table `0x0002000` maps to `0x1002000`, without a fault |
| Mmu.DemoThird | memory_management_unit.py:192-194 | with the demo page table `0x0001000` maps to `0x1001000`, without a fault |
| Mmu.ReadOrWrite | memory_management_unit.py:35-43 | the access after the block is present keeps TLB, page table and flag, and reports the given hit, fault and address |
| Mmu.OnMiss | memory_management_unit.py:44-56 | the miss path keeps TLB, page table and flag, and reports no hit with the given fault and address |
| Mmu.ProcessTranslates | memory_management_unit.py:29-32 | every call leaves TLB, page table and `is_palt` as translation does, and a result carries the physical address and `page_fault == is_palt` |
| Mmu.Process | memory_management_unit.py:18-56 | `process_virtual_address` leaves TLB, page table and `is_palt` as translation leaves them and reports the translated address and fault; `Mmu.ReadHit`, `Mmu.ReadMissLoads`, `Mmu.ReadWithoutLevels` and `Mmu.WriteThrough` prove the read and write paths |
| Mmu.WriteThrough | memory_management_unit.py:40-56 | a write always returns without data; memory holds the datum at the physical address; every level that held it, and after a miss every level, returns the datum |
| Mmu.LoadedHierarchy | memory_management_unit.py:48 | loading the fresh block into a built hierarchy succeeds and fills every level |
| Mmu.WrittenHierarchy | memory_management_unit.py:41 | writing into a built hierarchy keeps it built, writes every holding level and leaves the others |
| Mmu.WriteGoesThrough | memory_management_unit.py:40-43 | the write on a hit reaches every holding level and memory and leaves other levels alone |
| Mmu.WriteMissAllocates | memory_management_unit.py:51-56 | a write miss loads the fresh block everywhere, then the datum reaches every level and memory |
| Mmu.ReadMissLoads | memory_management_unit.py:44-50 | with at least one level, a read that misses everywhere loads the fresh block into every level and memory and returns `b"data" + bytes([pa % 16])` with no cache hit (`Mmu.ReadWithoutLevels` covers no levels) |
| Mmu.ReadMissReturnsBlockDatum | memory_management_unit.py:46-50 | the miss path of a read returns the fresh block's entry at the offset, with memory and every level holding the block |
| Mmu.ReadWithoutLevels | memory_management_unit.py:44-50 | with no cache levels a read misses, stores the fresh block in memory and returns no data |
| Mmu.ReadHit | memory_management_unit.py:35-39 | a read hit leaves memory alone; a hit below level 1 raises `KeyError` with no change; a level-1 hit with a datum returns it unchanged |
| Mmu.MMU.constructor | memory_management_unit.py:11-16 | the given parts, the given TLB or an empty one, and `is_palt` false |
| Mmu.MMU.UpdateTlb | memory_management_unit.py:105-109 | the TLB maps the address to the physical address, which is returned |
| Mmu.MMU.HandlePageFault | memory_management_unit.py:93-103 | the frame, in range, is installed for the page and returned |
| Mmu.MMU.TranslateAddress | memory_management_unit.py:63-91 | the result, TLB, page table and `is_palt` are those of `Translate` |
| Mmu.MMU.ProcessVirtualAddress | memory_management_unit.py:18-56 | the result and the new state of TLB, page table, flag, levels and memory are those of `Process` |
| Mmu.MMU.ReadOrWriteStep | memory_management_unit.py:35-43 | result and new state are those of `ReadOrWrite` |
| Mmu.MMU.OnMissStep | memory_management_unit.py:44-56 | result and new state are those of `OnMiss` |
| Mmu.MMU.LoadFromMemory | memory_management_unit.py:48 | memory and levels are those of `get_block` followed by `load_block` |

## Left out

- Printing, Streamlit output and the explanatory demonstration functions are left out. So are `size_in_different_units`, the `2 ** 64 / PAGE_SIZE` page count and the hex-string display helpers (`get_page_table_entries`, `get_set`, `get_page_number_and_offset`). They are I/O, floating point and string formatting.
- The `except MemoryError` branch of `process_virtual_address` is left out. It reports through Streamlit, and it cannot be reached once the page-fault handler returns a frame.
- The random frame of `handle_page_fault` is a parameter `frame` with `0x1000 <= frame < 0xFFFFF`. Randomness is a foreign call.
- The stub methods `lookup_tlb`, `manage_caches`, `set_page_protection` and `share_page` have empty bodies.
- Python aliasing is not modelled. Block dictionaries shared between levels and memory are values here, so a write through one level does not show up in another level's copy.
- `add_or_update`'s `isinstance(block, dict)` check is not modelled: a block is always a dictionary.
- The fourth and fifth demonstration addresses (`0x0011000`, `0x1234567890ABCDEF`) fault, so their frames are random. `Mmu.TranslateWalk` and `Mmu.FaultAddressInRange` cover them for every frame.
- `demo_streamlit.py` is not part of this model.
- CacheLevels.SetAssociativeCache.constructor: requires a positive line size, associativity, block size and set count. With zero sizes, Python raises `ZeroDivisionError` or builds a level whose address operations raise `ValueError` on a negative shift.
- CacheSystems.CacheSystem.constructor: requires sizes that give every level at least one set (`Buildable`). The same holds for `ConfigureCache` and `ResetCaches`, for the reason above.
- NwayLru.SetAssociativeCache.constructor: requires a positive block size, associativity and set count. Python divides by zero or shifts by a negative count otherwise.
- NwayLru.LruVictim: `min` picks the first-inserted of tied counters. The model needs distinct counters, which every access keeps (`NwayLru.BumpIsNewest`).
- Mmu.MMU.constructor: requires the page table, the memory and the MMU to lie outside the hierarchy's objects. Python does not check this.
- Mmu.ReadHit: does not state the result of a level-1 hit whose block lacks the address's offset. Blocks loaded by the MMU always have all 16 offsets.
