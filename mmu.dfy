/** The memory management unit: address translation through an unbounded
    TLB keyed by the whole virtual address, then the page table, then a
    page fault that installs a frame; and the read and write paths through
    the cache hierarchy and main memory (write-through, write-allocate). */
module Mmu {
  import opened Common
  import opened Bits
  import opened PageTables
  import opened CacheSets
  import opened CacheLevels
  import opened CacheSystems
  import opened Memories

  // ---------------------------------------------------------------------
  // Translation

  /** The frame the page-fault handler may hand out: numpy's
      `randint(0x1000, 0xFFFFF)`, whose upper bound is exclusive. */
  predicate FrameInRange(frame: nat)
  {
    0x1000 <= frame < 0xFFFFF
  }

  /** What `translate_address` returns and leaves behind. */
  datatype Translation = Translation(physicalAddress: nat, tlb: map<nat, nat>, entries: map<nat, nat>, pageFault: bool)

  /** `virtual_address >> offset_bits` with `offset_bits =
      (page_size - 1).bit_length()`: the address divided by the page size
      rounded up to a power of two (for a page size of 0, where
      `(-1).bit_length()` is 1, the address divided by 2). */
  function PageNumberOf(pageSize: nat, virtualAddress: nat): (r: nat)
    ensures r == virtualAddress / Pow2(OffsetBits(pageSize))
  {
    GetPageNumber(virtualAddress, OffsetBits(pageSize))
  }

  /** `(physical_page_number << offset_bits) | (virtual_address &
      (page_size - 1))`. For a positive page size the frame and the offset
      occupy separate bits: shifting right by `offset_bits` gives back the
      frame and the low `offset_bits` bits are the offset. */
  function PhysicalAddressOf(pageSize: nat, virtualAddress: nat, physicalPageNumber: nat): (r: nat)
    ensures pageSize >= 1 ==> Shr(r, OffsetBits(pageSize)) == physicalPageNumber
    ensures pageSize >= 1 ==> r % Pow2(OffsetBits(pageSize)) == GetOffset(virtualAddress, pageSize)
  {
    var k := OffsetBits(pageSize);
    var offset := GetOffset(virtualAddress, pageSize);
    if pageSize == 0 then Or(Shl(physicalPageNumber, k), offset)
    else
      BitLengthBounds(pageSize - 1);
      OrShifted(physicalPageNumber, k, offset);
      ShlPlusLowBits(physicalPageNumber, k, offset);
      Or(Shl(physicalPageNumber, k), offset)
  }

  /** For pages of `2^k` bytes the page number is `va >> k`, and the
      physical address is the frame shifted left by `k` plus the offset
      `va mod 2^k`: its low `k` bits are the offset and the bits above are
      the frame. */
  lemma PageArithmetic(k: nat, virtualAddress: nat, physicalPageNumber: nat)
    ensures PageNumberOf(Pow2(k), virtualAddress) == Shr(virtualAddress, k)
    ensures PhysicalAddressOf(Pow2(k), virtualAddress, physicalPageNumber) == Shl(physicalPageNumber, k) + virtualAddress % Pow2(k)
    ensures PhysicalAddressOf(Pow2(k), virtualAddress, physicalPageNumber) % Pow2(k) == virtualAddress % Pow2(k)
    ensures Shr(PhysicalAddressOf(Pow2(k), virtualAddress, physicalPageNumber), k) == physicalPageNumber
  {
    OffsetWidthsAgree(k);
    OffsetIsLowBits(virtualAddress, k);
    OrShifted(physicalPageNumber, k, virtualAddress % Pow2(k));
    ShlPlusLowBits(physicalPageNumber, k, virtualAddress % Pow2(k));
  }

  /** `translate_address(virtual_address)` with the TLB `tlb`, the page
      table `entries` of pages of `pageSize` bytes, and `frame` as the
      physical page number the page-fault handler would pick. */
  function Translate(tlb: map<nat, nat>, entries: map<nat, nat>, pageSize: nat, virtualAddress: nat, frame: nat): (r: Translation)
    ensures r.tlb == tlb[virtualAddress := r.physicalAddress]
    ensures virtualAddress in tlb ==> r == Translation(tlb[virtualAddress], tlb, entries, false)
  {
    if virtualAddress in tlb then Translation(tlb[virtualAddress], tlb, entries, false)
    else
      var virtualPageNumber := PageNumberOf(pageSize, virtualAddress);
      var found := Lookup(entries, virtualPageNumber);
      var fault := found.None?;
      var physicalPageNumber := if fault then frame else found.value;
      var entries' := if fault then Add(entries, virtualPageNumber, frame) else entries;
      var physicalAddress := PhysicalAddressOf(pageSize, virtualAddress, physicalPageNumber);
      Translation(physicalAddress, tlb[virtualAddress := physicalAddress], entries', fault)
  }

  /** A page of `2^k` bytes: the address misses the TLB and its page number
      `va >> k` is or is not mapped. A mapped page gives
      `(ppn << k) | (va & (2^k - 1))`, which keeps the offset in its low
      `k` bits and the physical page number above them, and leaves the page
      table alone; an unmapped page installs `frame` for that page number,
      touching no other page, and reports the fault. */
  lemma TranslateWalk(tlb: map<nat, nat>, entries: map<nat, nat>, k: nat, virtualAddress: nat, frame: nat)
    requires virtualAddress !in tlb
    ensures var r := Translate(tlb, entries, Pow2(k), virtualAddress, frame);
      var vpn := Shr(virtualAddress, k);
      var ppn := if vpn in entries then entries[vpn] else frame;
      && r.pageFault == (vpn !in entries)
      && r.entries == (if vpn in entries then entries else entries[vpn := frame])
      && r.physicalAddress == Shl(ppn, k) + virtualAddress % Pow2(k)
      && r.physicalAddress % Pow2(k) == virtualAddress % Pow2(k)
      && Shr(r.physicalAddress, k) == ppn
  {
    var vpn := Shr(virtualAddress, k);
    var ppn := if vpn in entries then entries[vpn] else frame;
    PageArithmetic(k, virtualAddress, ppn);
    assert Translate(tlb, entries, Pow2(k), virtualAddress, frame).physicalAddress == PhysicalAddressOf(Pow2(k), virtualAddress, ppn);
  }

  /** A page fault puts the address inside the frame it installs, so the
      physical address lies between `0x1000 << k` and `0xFFFFF << k`. */
  lemma FaultAddressInRange(tlb: map<nat, nat>, entries: map<nat, nat>, k: nat, virtualAddress: nat, frame: nat)
    requires virtualAddress !in tlb && Shr(virtualAddress, k) !in entries && FrameInRange(frame)
    ensures var r := Translate(tlb, entries, Pow2(k), virtualAddress, frame);
      r.pageFault && Shl(0x1000, k) <= r.physicalAddress < Shl(0xFFFFF, k)
  {
    TranslateWalk(tlb, entries, k, virtualAddress, frame);
    ShlWindow(frame, k, virtualAddress % Pow2(k), 0x1000, 0xFFFFF);
  }

  /** Translating an address again, whatever frame the handler would pick,
      gives the same physical address from the TLB, reports no fault and
      changes nothing. */
  lemma TranslateTwice(tlb: map<nat, nat>, entries: map<nat, nat>, pageSize: nat, virtualAddress: nat, frame: nat, frame': nat)
    ensures var r := Translate(tlb, entries, pageSize, virtualAddress, frame);
      var again := Translate(r.tlb, r.entries, pageSize, virtualAddress, frame');
      again == Translation(r.physicalAddress, r.tlb, r.entries, false)
  {
  }

  /** After a fault on one address, another address of the same page that
      is not in the TLB is found in the page table: it gets the installed
      frame, with its own offset, and no new fault. */
  lemma FaultMapsWholePage(tlb: map<nat, nat>, entries: map<nat, nat>, k: nat, va: nat, va': nat, frame: nat, frame': nat)
    requires va !in tlb && va' !in tlb && va' != va
    requires Shr(va, k) == Shr(va', k) && Shr(va, k) !in entries
    ensures var r := Translate(tlb, entries, Pow2(k), va, frame);
      var r' := Translate(r.tlb, r.entries, Pow2(k), va', frame');
      && r.pageFault && !r'.pageFault
      && r'.entries == r.entries
      && Shr(r'.physicalAddress, k) == frame
      && r'.physicalAddress % Pow2(k) == va' % Pow2(k)
  {
    var r := Translate(tlb, entries, Pow2(k), va, frame);
    TranslateWalk(tlb, entries, k, va, frame);
    TranslateWalk(r.tlb, r.entries, k, va', frame');
  }

  /** The page table the demonstration sets up: pages `0x1111`, `0x1112`,
      `0x1` and `0x2` mapped to frames `0x1101`, `0x1102`, `0x1001` and
      `0x1002`. */
  function DemoEntries(): map<nat, nat>
  {
    map[0x1111 := 0x1101, 0x1112 := 0x1102, 0x0001 := 0x1001, 0x0002 := 0x1002]
  }

  /** With 4 KiB pages, an address outside the TLB on a mapped page keeps
      its offset inside that page's frame and is added to the TLB. */
  lemma MappedPage(tlb: map<nat, nat>, entries: map<nat, nat>, virtualAddress: nat, vpn: nat, offset: nat, frame: nat)
    requires virtualAddress !in tlb && vpn in entries
    requires Shr(virtualAddress, 12) == vpn && virtualAddress % 4096 == offset
    ensures var pa := Shl(entries[vpn], 12) + offset;
      Translate(tlb, entries, 4096, virtualAddress, frame) == Translation(pa, tlb[virtualAddress := pa], entries, false)
  {
    assert Pow2(12) == 4096;
    TranslateWalk(tlb, entries, 12, virtualAddress, frame);
  }

  /** The demonstration's translations with 4 KiB pages, whatever else the
      TLB holds: `0x1112000` becomes `0x1102000` without a fault. */
  lemma DemoFirst(tlb: map<nat, nat>, f: nat)
    requires 0x1112000 !in tlb
    ensures var t := Translate(tlb, DemoEntries(), 4096, 0x1112000, f);
      t.physicalAddress == 0x1102000 && !t.pageFault && t.entries == DemoEntries()
  {
    assert Shr(0x1112000, 12) == 0x1112;
    MappedPage(tlb, DemoEntries(), 0x1112000, 0x1112, 0, f);
  }

  /** `0x2000` becomes `0x1002000` without a fault. */
  lemma DemoSecond(tlb: map<nat, nat>, f: nat)
    requires 0x0002000 !in tlb
    ensures var t := Translate(tlb, DemoEntries(), 4096, 0x0002000, f);
      t.physicalAddress == 0x1002000 && !t.pageFault && t.entries == DemoEntries()
  {
    assert Shr(0x0002000, 12) == 0x2;
    MappedPage(tlb, DemoEntries(), 0x0002000, 0x2, 0, f);
  }

  /** `0x1000` becomes `0x1001000` without a fault. */
  lemma DemoThird(tlb: map<nat, nat>, f: nat)
    requires 0x0001000 !in tlb
    ensures var t := Translate(tlb, DemoEntries(), 4096, 0x0001000, f);
      t.physicalAddress == 0x1001000 && !t.pageFault && t.entries == DemoEntries()
  {
    assert Shr(0x0001000, 12) == 0x1;
    MappedPage(tlb, DemoEntries(), 0x0001000, 0x1, 0, f);
  }

  // ---------------------------------------------------------------------
  // Reads and writes

  /** The dictionary `process_virtual_address` returns: `cache_hit` is the
      number of the level that hit, or `False` (`None` here). */
  datatype OperationResult = OperationResult(cacheHit: Option<nat>, pageFault: bool, physicalAddress: nat, data: Option<Datum>)

  /** Everything the MMU reaches: its TLB and `is_palt` flag, the page
      table's entries, the cache levels and the memory's storage. */
  datatype MmuState = MmuState(tlb: map<nat, nat>, entries: map<nat, nat>, isPalt: bool, levels: seq<LevelState>, storage: map<nat, Stored>)

  /** A hierarchy built by `CacheSystem`: every level keeps its invariant
      and takes 16-entry blocks. */
  predicate Hierarchy(levels: seq<LevelState>)
  {
    AllOk(levels) && forall i :: 0 <= i < |levels| ==> levels[i].geom.blockSize == 16
  }

  /** `load_block` keeps every level's shape. */
  lemma {:induction false} LoadKeepsShape(levels: seq<LevelState>, address: nat, block: Block, i: nat)
    requires AllShaped(levels) && i <= |levels|
    ensures AllShaped(LoadFrom(levels, address, block, i).0)
    decreases |levels| - i
  {
    if i < |levels| {
      LoadFromStep(levels, address, block, i);
      var w := LevelWriteBlock(levels[i], address, block);
      if w.Success? {
        LoadKeepsShape(levels[i := w.value], address, block, i + 1);
      }
    }
  }

  /** The access once the address's block is in the hierarchy (`cacheHit`
      is the level that hit, `None` after a miss): a read returns the
      hierarchy's `read_data`; a write goes to every level holding the
      address and, write-through, to memory. */
  function ReadOrWrite(s: MmuState, pa: nat, cacheHit: Option<nat>, pageFault: bool, input: Option<Datum>): (r: (Result<OperationResult>, MmuState))
    requires AllShaped(s.levels)
    ensures r.1.tlb == s.tlb && r.1.entries == s.entries && r.1.isPalt == s.isPalt
    ensures r.0.Success? ==> r.0.value.cacheHit == cacheHit && r.0.value.physicalAddress == pa && r.0.value.pageFault == pageFault
  {
    if input.None? then
      var (d, after) := SystemRead(s.levels, pa);
      (if d.Failure? then Failure(d.error) else Success(OperationResult(cacheHit, pageFault, pa, d.value)),
       s.(levels := after))
    else
      (Success(OperationResult(cacheHit, pageFault, pa, None)),
       s.(levels := SystemWrite(s.levels, pa, input.value), storage := s.storage[pa := StoredDatum(input.value)]))
  }

  /** A cache miss: memory makes up the block and stores it, every level
      loads it (write-allocate for a write), then the access proceeds as
      after a hit. */
  function OnMiss(s: MmuState, pa: nat, pageFault: bool, input: Option<Datum>): (r: (Result<OperationResult>, MmuState))
    requires AllShaped(s.levels)
    ensures r.1.tlb == s.tlb && r.1.entries == s.entries && r.1.isPalt == s.isPalt
    ensures r.0.Success? ==> r.0.value.cacheHit == None && r.0.value.physicalAddress == pa && r.0.value.pageFault == pageFault
  {
    var storage := GetBlockOf(s.storage, pa, 16).value.1;
    var (loaded, o) := LoadFrom(s.levels, pa, FreshBlock(16), 0);
    LoadKeepsShape(s.levels, pa, FreshBlock(16), 0);
    if o.Fail? then (Failure(o.error), s.(levels := loaded, storage := storage))
    else ReadOrWrite(s.(levels := loaded, storage := storage), pa, None, pageFault, input)
  }

  /** `process_virtual_address(virtual_address, input_data)`, a read when
      `input` is `None`: translate, then probe the hierarchy. An exception
      of the hierarchy propagates with the translation already done. */
  function Process(s: MmuState, pageSize: nat, virtualAddress: nat, input: Option<Datum>, frame: nat): (r: (Result<OperationResult>, MmuState))
    requires AllShaped(s.levels)
    ensures var t := Translate(s.tlb, s.entries, pageSize, virtualAddress, frame);
      && r.1.tlb == t.tlb && r.1.entries == t.entries && r.1.isPalt == t.pageFault
      && (r.0.Success? ==> r.0.value.physicalAddress == t.physicalAddress && r.0.value.pageFault == t.pageFault)
  {
    var t := Translate(s.tlb, s.entries, pageSize, virtualAddress, frame);
    var s' := s.(tlb := t.tlb, entries := t.entries, isPalt := t.pageFault);
    match SystemCheckHit(s.levels, t.physicalAddress)
    case Some(level) => ReadOrWrite(s', t.physicalAddress, Some(level), t.pageFault, input)
    case None => OnMiss(s', t.physicalAddress, t.pageFault, input)
  }

  /** Every call leaves the TLB, the page table and `is_palt` as
      translation leaves them; when it returns, the result carries the
      physical address and `page_fault == is_palt`. */
  lemma ProcessTranslates(s: MmuState, pageSize: nat, virtualAddress: nat, input: Option<Datum>, frame: nat)
    requires AllShaped(s.levels)
    ensures var (r, after) := Process(s, pageSize, virtualAddress, input, frame);
      var t := Translate(s.tlb, s.entries, pageSize, virtualAddress, frame);
      && after.tlb == t.tlb && after.entries == t.entries && after.isPalt == t.pageFault
      && after.tlb[virtualAddress] == t.physicalAddress
      && (r.Success? ==> r.value.physicalAddress == t.physicalAddress && r.value.pageFault == after.isPalt)
  {
  }

  /** A write always returns, leaves the datum in memory at the physical
      address, and every level that holds that address afterwards returns
      the datum from it; after a miss that is every level. */
  lemma WriteThrough(s: MmuState, pageSize: nat, virtualAddress: nat, data: Datum, frame: nat)
    requires Hierarchy(s.levels)
    ensures var (r, after) := Process(s, pageSize, virtualAddress, Some(data), frame);
      var pa := Translate(s.tlb, s.entries, pageSize, virtualAddress, frame).physicalAddress;
      && r.Success? && r.value.data == None
      && after.storage[pa] == StoredDatum(data)
      && |after.levels| == |s.levels| && Hierarchy(after.levels)
      && (r.value.cacheHit.None? ==> forall j :: 0 <= j < |s.levels| ==> LevelRead(after.levels[j], pa) == Success(Some(data)))
      && (forall j :: 0 <= j < |s.levels| && LevelHit(s.levels[j], pa) ==> LevelRead(after.levels[j], pa) == Success(Some(data)))
  {
    var t := Translate(s.tlb, s.entries, pageSize, virtualAddress, frame);
    var s' := s.(tlb := t.tlb, entries := t.entries, isPalt := t.pageFault);
    match SystemCheckHit(s.levels, t.physicalAddress)
    case Some(level) => WriteGoesThrough(s', t.physicalAddress, Some(level), t.pageFault, data);
    case None => WriteMissAllocates(s', t.physicalAddress, t.pageFault, data);
  }

  /** `load_block` with the made-up block fills every level of a built
      hierarchy. */
  lemma LoadedHierarchy(levels: seq<LevelState>, pa: nat)
    requires Hierarchy(levels)
    ensures var (loaded, o) := LoadFrom(levels, pa, FreshBlock(16), 0);
      && o == Pass && Hierarchy(loaded)
      && Filled(levels, loaded, pa, FreshBlock(16))
  {
    FreshBlockSize(16);
    LoadFillsEveryLevel(levels, pa, FreshBlock(16));
  }

  /** The hierarchy's `write_data` keeps a built hierarchy built, writes
      the datum into every level holding the address and leaves every other
      level alone. */
  lemma WrittenHierarchy(levels: seq<LevelState>, pa: nat, data: Datum)
    requires Hierarchy(levels)
    ensures var after := SystemWrite(levels, pa, data);
      && Hierarchy(after)
      && (forall j :: 0 <= j < |levels| && LevelHit(levels[j], pa) ==> LevelRead(after[j], pa) == Success(Some(data)))
      && (forall j :: 0 <= j < |levels| && !LevelHit(levels[j], pa) ==> after[j] == levels[j])
  {
    WriteOnlyHoldingLevels(levels, pa, data);
  }

  /** A write stores the datum in every level holding the address and in
      memory, and leaves every other level alone. */
  lemma WriteGoesThrough(s: MmuState, pa: nat, cacheHit: Option<nat>, pageFault: bool, data: Datum)
    requires Hierarchy(s.levels)
    ensures var (r, after) := ReadOrWrite(s, pa, cacheHit, pageFault, Some(data));
      && r == Success(OperationResult(cacheHit, pageFault, pa, None))
      && after.storage == s.storage[pa := StoredDatum(data)]
      && |after.levels| == |s.levels| && Hierarchy(after.levels)
      && (forall j :: 0 <= j < |s.levels| && LevelHit(s.levels[j], pa) ==> LevelRead(after.levels[j], pa) == Success(Some(data)))
      && (forall j :: 0 <= j < |s.levels| && !LevelHit(s.levels[j], pa) ==> after.levels[j] == s.levels[j])
  {
    WrittenHierarchy(s.levels, pa, data);
  }

  /** A write that misses allocates: the made-up block is loaded into every
      level, then the datum is written into every level and into memory,
      so every level now returns it. */
  lemma WriteMissAllocates(s: MmuState, pa: nat, pageFault: bool, data: Datum)
    requires Hierarchy(s.levels)
    ensures var (r, after) := OnMiss(s, pa, pageFault, Some(data));
      && r == Success(OperationResult(None, pageFault, pa, None))
      && after.storage == s.storage[pa := StoredDatum(data)]
      && |after.levels| == |s.levels| && Hierarchy(after.levels)
      && (forall j :: 0 <= j < |s.levels| ==> LevelRead(after.levels[j], pa) == Success(Some(data)))
  {
    var loaded := MissLoads(s, pa, pageFault, Some(data));
    var stored := s.storage[pa := StoredBlock(FreshBlock(16))];
    WriteIntoFilled(s.(levels := loaded, storage := stored), pa, pageFault, data);
    Overwrite(s.storage, pa, StoredBlock(FreshBlock(16)), StoredDatum(data));
  }

  /** The second store to a cell replaces the first. */
  lemma Overwrite(storage: map<nat, Stored>, pa: nat, first: Stored, second: Stored)
    ensures storage[pa := first][pa := second] == storage[pa := second]
  {
  }

  /** After a miss in a built hierarchy the load succeeds, so the access
      goes on against the filled levels and the memory holding the block. */
  lemma MissLoads(s: MmuState, pa: nat, pageFault: bool, input: Option<Datum>) returns (loaded: seq<LevelState>)
    requires Hierarchy(s.levels)
    ensures loaded == LoadFrom(s.levels, pa, FreshBlock(16), 0).0
    ensures Hierarchy(loaded) && Filled(s.levels, loaded, pa, FreshBlock(16))
    ensures OnMiss(s, pa, pageFault, input)
      == ReadOrWrite(s.(levels := loaded, storage := s.storage[pa := StoredBlock(FreshBlock(16))]), pa, None, pageFault, input)
  {
    LoadedHierarchy(s.levels, pa);
    loaded := LoadFrom(s.levels, pa, FreshBlock(16), 0).0;
  }

  /** A write into a hierarchy whose every level holds the address leaves
      the datum in every level. */
  lemma WriteIntoFilled(s: MmuState, pa: nat, pageFault: bool, data: Datum)
    requires Hierarchy(s.levels)
    requires forall j :: 0 <= j < |s.levels| ==> LevelHit(s.levels[j], pa)
    ensures var (r, after) := ReadOrWrite(s, pa, None, pageFault, Some(data));
      && r == Success(OperationResult(None, pageFault, pa, None))
      && after.storage == s.storage[pa := StoredDatum(data)]
      && |after.levels| == |s.levels| && Hierarchy(after.levels)
      && (forall j :: 0 <= j < |s.levels| ==> LevelRead(after.levels[j], pa) == Success(Some(data)))
  {
    WrittenHierarchy(s.levels, pa, data);
  }

  /** A read that misses every level loads the made-up block into every
      level and stores it in memory under the physical address, then reads
      it back from level 1: the data is `b"data" + bytes([pa % 16])`,
      nothing counts as a cache hit, and the levels stay as loaded. */
  lemma ReadMissLoads(s: MmuState, pageSize: nat, virtualAddress: nat, frame: nat)
    requires Hierarchy(s.levels) && s.levels != []
    requires SystemCheckHit(s.levels, Translate(s.tlb, s.entries, pageSize, virtualAddress, frame).physicalAddress).None?
    ensures var (r, after) := Process(s, pageSize, virtualAddress, None, frame);
      var pa := Translate(s.tlb, s.entries, pageSize, virtualAddress, frame).physicalAddress;
      && r.Success? && r.value.cacheHit.None?
      && r.value.data == Some(Bytes([100, 97, 116, 97, pa % 16]))
      && after.storage[pa] == StoredBlock(FreshBlock(16))
      && Filled(s.levels, after.levels, pa, FreshBlock(16))
  {
    var t := Translate(s.tlb, s.entries, pageSize, virtualAddress, frame);
    var s' := s.(tlb := t.tlb, entries := t.entries, isPalt := t.pageFault);
    ReadMissReturnsBlockDatum(s', t.physicalAddress, t.pageFault);
  }

  /** The miss path of a read: memory stores the made-up block, every level
      loads it and level 1 returns the block's entry at the address's
      offset. */
  lemma ReadMissReturnsBlockDatum(s: MmuState, pa: nat, pageFault: bool)
    requires Hierarchy(s.levels) && s.levels != []
    ensures var (r, after) := OnMiss(s, pa, pageFault, None);
      && r == Success(OperationResult(None, pageFault, pa, Some(DataBytes(pa % 16))))
      && after.storage == s.storage[pa := StoredBlock(FreshBlock(16))]
      && Filled(s.levels, after.levels, pa, FreshBlock(16))
  {
    var block := FreshBlock(16);
    LoadedHierarchy(s.levels, pa);
    var loaded := LoadFrom(s.levels, pa, block, 0).0;
    assert LevelRead(loaded[0], pa) == Success(Some(DataBytes(pa % 16)));
    assert Promote(loaded, pa, DataBytes(pa % 16), 0) == loaded;
  }

  /** With no cache levels at all every access misses: a read still stores
      the made-up block in memory under the physical address, but there is
      no level to read it back from, so it returns no data. */
  lemma ReadWithoutLevels(s: MmuState, pageSize: nat, virtualAddress: nat, frame: nat)
    requires s.levels == []
    ensures var (r, after) := Process(s, pageSize, virtualAddress, None, frame);
      var pa := Translate(s.tlb, s.entries, pageSize, virtualAddress, frame).physicalAddress;
      && r.Success? && r.value.cacheHit.None? && r.value.data.None?
      && after.storage == s.storage[pa := StoredBlock(FreshBlock(16))]
      && after.levels == []
  {
  }

  /** A read that hits never touches memory. When level 1 holds the
      address and its block has a datum at the offset, the read returns it
      as a level-1 hit and changes no level. When only a lower level holds
      the address, level 1's `read_data` raises `KeyError` (its guard tests
      a tuple, which is always true), so the read raises and no level
      changes. */
  lemma ReadHit(s: MmuState, pageSize: nat, virtualAddress: nat, frame: nat)
    requires Hierarchy(s.levels)
    requires SystemCheckHit(s.levels, Translate(s.tlb, s.entries, pageSize, virtualAddress, frame).physicalAddress).Some?
    ensures var (r, after) := Process(s, pageSize, virtualAddress, None, frame);
      var pa := Translate(s.tlb, s.entries, pageSize, virtualAddress, frame).physicalAddress;
      var level := SystemCheckHit(s.levels, pa).value;
      && after.storage == s.storage
      && (level > 1 ==> r == Failure(KeyError) && after.levels == s.levels)
      && (level == 1 && LevelRead(s.levels[0], pa).value.Some? ==>
            r == Success(OperationResult(Some(1), after.isPalt, pa, LevelRead(s.levels[0], pa).value)) && after.levels == s.levels)
  {
    var pa := Translate(s.tlb, s.entries, pageSize, virtualAddress, frame).physicalAddress;
    var level := SystemCheckHit(s.levels, pa).value;
    if level > 1 {
      ReadMissInFirstLevelRaises(s.levels, pa);
    } else if LevelRead(s.levels[0], pa).value.Some? {
      assert Promote(s.levels, pa, LevelRead(s.levels[0], pa).value.value, 0) == s.levels;
    }
  }

  // ---------------------------------------------------------------------
  // The MMU object

  /** `MMU`: the TLB, the `is_palt` flag, and the page table, cache
      hierarchy and memory it works on. */
  class MMU {
    var tlb: map<nat, nat>
    var isPalt: bool
    const pageTable: PageTable
    const cacheSystem: CacheSystem
    const memory: Memory

    /** The parts are separate objects, none inside the hierarchy. */
    ghost predicate Valid()
      reads this, pageTable, memory, cacheSystem, cacheSystem.Repr
    {
      && cacheSystem.Valid()
      && this !in cacheSystem.Repr
      && pageTable !in cacheSystem.Repr
      && memory !in cacheSystem.Repr
    }

    ghost function State(): MmuState
      reads this, pageTable, memory, cacheSystem
    {
      MmuState(tlb, pageTable.entries, isPalt, cacheSystem.Levels, memory.storage)
    }

    /** The hierarchy of a valid MMU is one `CacheSystem` builds. */
    lemma StateHierarchy()
      requires Valid()
      ensures Hierarchy(State().levels)
    {
      cacheSystem.LevelsOk();
    }

    /** `MMU(page_table, cache_system, memory, tlb=None)`: `tlb or {}`
        starts from the given TLB, or an empty one. */
    constructor (pageTable: PageTable, cacheSystem: CacheSystem, memory: Memory, tlb: map<nat, nat> := map[])
      requires cacheSystem.Valid()
      requires pageTable !in cacheSystem.Repr && memory !in cacheSystem.Repr
      ensures Valid()
      ensures this.pageTable == pageTable && this.cacheSystem == cacheSystem && this.memory == memory
      ensures this.tlb == tlb && !isPalt
    {
      this.tlb := tlb;
      this.pageTable := pageTable;
      this.cacheSystem := cacheSystem;
      this.memory := memory;
      isPalt := false;
    }

    /** `update_tlb(virtual_address, physical_address)`. */
    method UpdateTlb(virtualAddress: nat, physicalAddress: nat) returns (r: nat)
      modifies this
      ensures tlb == old(tlb)[virtualAddress := physicalAddress] && r == physicalAddress
      ensures isPalt == old(isPalt)
    {
      tlb := tlb[virtualAddress := physicalAddress];
      r := physicalAddress;
    }

    /** `handle_page_fault(virtual_page_number)`, with `frame` standing for
        the random frame the operating system picks. */
    method HandlePageFault(virtualPageNumber: nat, frame: nat) returns (r: nat)
      requires FrameInRange(frame)
      modifies pageTable
      ensures r == frame && FrameInRange(r)
      ensures pageTable.entries == Add(old(pageTable.entries), virtualPageNumber, frame)
    {
      pageTable.AddEntry(virtualPageNumber, frame);
      r := frame;
    }

    /** `translate_address(virtual_address)`. */
    method TranslateAddress(virtualAddress: nat, frame: nat) returns (physicalAddress: nat)
      requires Valid() && FrameInRange(frame)
      modifies this, pageTable
      ensures Valid()
      ensures var t := Translate(old(tlb), old(pageTable.entries), pageTable.pageSize, virtualAddress, frame);
        && physicalAddress == t.physicalAddress
        && tlb == t.tlb && pageTable.entries == t.entries && isPalt == t.pageFault
    {
      isPalt := false;
      if virtualAddress in tlb {
        return tlb[virtualAddress];
      }
      var pageSize := pageTable.pageSize;
      var offset := GetOffset(virtualAddress, pageSize);
      var offsetBits := OffsetBits(pageSize);
      var virtualPageNumber := GetPageNumber(virtualAddress, offsetBits);
      var found := pageTable.GetPhysicalPageNumber(virtualPageNumber);
      var physicalPageNumber: nat;
      if found.None? {
        isPalt := true;
        physicalPageNumber := HandlePageFault(virtualPageNumber, frame);
      } else {
        physicalPageNumber := found.value;
      }
      physicalAddress := Or(Shl(physicalPageNumber, offsetBits), offset);
      var _ := UpdateTlb(virtualAddress, physicalAddress);
    }

    /** `process_virtual_address(virtual_address, input_data)`: a read when
        `input` is `None`, a write otherwise. */
    method ProcessVirtualAddress(virtualAddress: nat, input: Option<Datum>, frame: nat) returns (r: Result<OperationResult>)
      requires Valid() && FrameInRange(frame)
      modifies this, pageTable, memory, cacheSystem, cacheSystem.Repr
      ensures Valid() && cacheSystem.Repr == old(cacheSystem.Repr)
      ensures (r, State()) == Process(old(State()), pageTable.pageSize, virtualAddress, input, frame)
    {
      var physicalAddress := TranslateAddress(virtualAddress, frame);
      var pageFault := isPalt;
      var hit := cacheSystem.CheckHit(physicalAddress);
      if hit.Some? {
        r := ReadOrWriteStep(physicalAddress, hit, pageFault, input);
      } else {
        r := OnMissStep(physicalAddress, pageFault, input);
      }
    }

    /** The access once the block is in the hierarchy. */
    method ReadOrWriteStep(physicalAddress: nat, cacheHit: Option<nat>, pageFault: bool, input: Option<Datum>) returns (r: Result<OperationResult>)
      requires Valid()
      modifies cacheSystem, cacheSystem.Repr, memory
      ensures Valid() && cacheSystem.Repr == old(cacheSystem.Repr)
      ensures (r, State()) == ReadOrWrite(old(State()), physicalAddress, cacheHit, pageFault, input)
    {
      if input.None? {
        var d := cacheSystem.ReadData(physicalAddress);
        if d.Failure? {
          return Failure(d.error);
        }
        return Success(OperationResult(cacheHit, pageFault, physicalAddress, d.value));
      }
      cacheSystem.WriteData(physicalAddress, input.value);
      memory.WriteData(physicalAddress, input.value);
      return Success(OperationResult(cacheHit, pageFault, physicalAddress, None));
    }

    /** The cache-miss branch of `process_virtual_address`. */
    method OnMissStep(physicalAddress: nat, pageFault: bool, input: Option<Datum>) returns (r: Result<OperationResult>)
      requires Valid()
      modifies cacheSystem, cacheSystem.Repr, memory
      ensures Valid() && cacheSystem.Repr == old(cacheSystem.Repr)
      ensures (r, State()) == OnMiss(old(State()), physicalAddress, pageFault, input)
    {
      var o := LoadFromMemory(physicalAddress);
      if o.Fail? {
        return Failure(o.error);
      }
      r := ReadOrWriteStep(physicalAddress, None, pageFault, input);
    }

    /** `load_block(physical_address, memory.get_block(physical_address))`. */
    method LoadFromMemory(physicalAddress: nat) returns (o: Outcome)
      requires Valid()
      modifies cacheSystem, cacheSystem.Repr, memory
      ensures Valid() && cacheSystem.Repr == old(cacheSystem.Repr)
      ensures memory.storage == GetBlockOf(old(memory.storage), physicalAddress, 16).value.1
      ensures var (loaded, outcome) := LoadFrom(old(cacheSystem.Levels), physicalAddress, FreshBlock(16), 0);
        cacheSystem.Levels == loaded && o == outcome
    {
      var got := memory.GetBlock(physicalAddress);
      o := cacheSystem.LoadBlock(physicalAddress, got.value);
    }
  }
}
