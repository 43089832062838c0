/** One level of the cache hierarchy: `num_sets` cache sets, and the
    arithmetic that splits an address into set index, tag and block
    offset. */
module CacheLevels {
  import opened Common
  import opened Bits
  import opened CacheSets

  /** The `cache_type` string of a level. */
  datatype CacheType = DirectMapped | SetAssociative | FullyAssociative

  /** The constants a level is built with. */
  datatype Geometry = Geometry(cacheType: CacheType, lineSize: nat, nWay: nat, blockSize: nat, numSets: nat)

  /** `1` for a fully associative level, else `size // (line_size * n_way)`. */
  function NumSets(cacheType: CacheType, size: nat, lineSize: nat, nWay: nat): nat
    requires lineSize >= 1 && nWay >= 1
  {
    if cacheType == FullyAssociative then 1 else size / (lineSize * nWay)
  }

  /** Sizes for which every address operation is defined: a zero line size
      divides by zero, a zero block size or set count makes a shift count
      negative. */
  predicate Wellformed(g: Geometry)
  {
    g.lineSize >= 1 && g.nWay >= 1 && g.blockSize >= 1 && g.numSets >= 1
  }

  /** `offset_bits = block_size.bit_length() - 1`. */
  function OffsetBitsOf(g: Geometry): nat
    requires g.blockSize >= 1
  {
    BitLength(g.blockSize) - 1
  }

  /** `index_bits = num_sets.bit_length() - 1`. */
  function IndexBitsOf(g: Geometry): nat
    requires g.numSets >= 1
  {
    BitLength(g.numSets) - 1
  }

  /** `_get_set_index`: `(address >> offset_bits) & ((1 << index_bits) - 1)`,
      or 0 for a fully associative level. It is the low `index_bits` bits of
      the block number, and always names an existing set. */
  function SetIndex(g: Geometry, address: nat): (r: nat)
    requires Wellformed(g)
    ensures g.cacheType != FullyAssociative ==> r == Shr(address, OffsetBitsOf(g)) % Pow2(IndexBitsOf(g))
    ensures r < g.numSets
  {
    if g.cacheType == FullyAssociative then 0
    else
      var blockNumber := Shr(address, OffsetBitsOf(g));
      AndLowMask(blockNumber, IndexBitsOf(g));
      BitLengthBounds(g.numSets);
      And(blockNumber, Pow2(IndexBitsOf(g)) - 1)
  }

  /** `get_tag`: `address // line_size` for a fully associative level, else
      the address shifted right by `set_index.bit_length() +
      block_size.bit_length() - 1` (the bit length of the index VALUE, not
      `index_bits`). Either way the tag drops low bits of the address and
      never exceeds it. */
  function TagOf(g: Geometry, address: nat): (r: Tag)
    requires Wellformed(g)
    ensures r <= address
  {
    if g.cacheType == FullyAssociative then
      DivAtMost(address, g.lineSize);
      address / g.lineSize
    else
      var k := BitLength(SetIndex(g, address)) + BitLength(g.blockSize) - 1;
      ShrIsDiv(address, k);
      DivAtMost(address, Pow2(k));
      Shr(address, k)
  }

  /** `get_offset`: `address % block_size`. */
  function BlockOffset(g: Geometry, address: nat): (r: nat)
    requires g.blockSize >= 1
    ensures r < g.blockSize
  {
    address % g.blockSize
  }

  /** Despite the shift by the index's own bit length, index and tag
      together still determine the block number `address >> offset_bits`:
      it is the tag shifted back by that bit length, plus the index. */
  lemma BlockNumberFromIndexAndTag(g: Geometry, address: nat)
    requires Wellformed(g) && g.cacheType != FullyAssociative
    ensures Shr(address, OffsetBitsOf(g)) == Shl(TagOf(g, address), BitLength(SetIndex(g, address))) + SetIndex(g, address)
  {
    var ob, ib := OffsetBitsOf(g), IndexBitsOf(g);
    var s := Shr(address, ob);
    var idx := SetIndex(g, address);
    var b := BitLength(idx);
    BitLengthBounds(idx);
    BitLengthBounds(g.numSets);
    BitLengthBelow(idx, ib);
    ShrShr(address, ob, b);
    assert TagOf(g, address) == Shr(s, b);
    ModModPow2(s, b, ib);
    assert s % Pow2(b) == idx % Pow2(b);
    DivModUnique(idx, Pow2(b), 0, idx);
    ShrShlPlusMod(s, b);
  }

  /** Two addresses of a (non fully associative) level with the same set
      index and the same tag lie in the same block. */
  lemma SameIndexAndTagSameBlock(g: Geometry, a: nat, b: nat)
    requires Wellformed(g) && g.cacheType != FullyAssociative
    requires SetIndex(g, a) == SetIndex(g, b) && TagOf(g, a) == TagOf(g, b)
    ensures Shr(a, OffsetBitsOf(g)) == Shr(b, OffsetBitsOf(g))
  {
    BlockNumberFromIndexAndTag(g, a);
    BlockNumberFromIndexAndTag(g, b);
  }

  // ---------------------------------------------------------------------
  // A level's contents as a value

  datatype LevelState = LevelState(geom: Geometry, sets: seq<Entries>)

  /** The level has one set per `num_sets`. */
  predicate Shape(s: LevelState)
  {
    Wellformed(s.geom) && |s.sets| == s.geom.numSets
  }

  /** Shape plus the invariant of every set. */
  predicate LevelOk(s: LevelState)
  {
    Shape(s) && forall i :: 0 <= i < |s.sets| ==> DistinctTags(s.sets[i]) && |s.sets[i]| <= s.geom.nWay
  }

  /** `check_hit(address)[0]`: the address's tag is in its set. */
  predicate LevelHit(s: LevelState, address: nat)
    requires Shape(s)
  {
    HasTag(s.sets[SetIndex(s.geom, address)], TagOf(s.geom, address))
  }

  /** `get_block(address)`. */
  function LevelGetBlock(s: LevelState, address: nat): (r: Option<Block>)
    requires Shape(s)
    ensures r.Some? <==> LevelHit(s, address)
  {
    BlockOf(s.sets[SetIndex(s.geom, address)], TagOf(s.geom, address))
  }

  /** `read_data(address)`. The guard `if self.check_hit(address)` tests a
      tuple, which is always true, so an absent tag reaches
      `entries[tag]` and raises `KeyError` instead of giving `None`. */
  function LevelRead(s: LevelState, address: nat): (r: Result<Option<Datum>>)
    requires Shape(s)
    ensures r.Failure? <==> !LevelHit(s, address)
    ensures r.Failure? ==> r.error == KeyError
    ensures r.Success? ==> r.value == DatumAt(LevelGetBlock(s, address).value, BlockOffset(s.geom, address))
  {
    var b := BlockOf(s.sets[SetIndex(s.geom, address)], TagOf(s.geom, address));
    if b.None? then Failure(KeyError) else Success(DatumAt(b.value, BlockOffset(s.geom, address)))
  }

  /** `write_block(address, block)`: `ValueError` for a block with more than
      `block_size` entries, otherwise `add_or_update` on the address's set. */
  function LevelWriteBlock(s: LevelState, address: nat, block: Block): (r: Result<LevelState>)
    requires Shape(s)
    ensures r.Failure? <==> |block| > s.geom.blockSize
    ensures r.Failure? ==> r.error == ValueError
    ensures r.Success? ==> Shape(r.value) && r.value.geom == s.geom
    ensures r.Success? ==> forall j :: 0 <= j < |s.sets| && j != SetIndex(s.geom, address) ==> r.value.sets[j] == s.sets[j]
  {
    if |block| > s.geom.blockSize then Failure(ValueError)
    else
      var i := SetIndex(s.geom, address);
      match Put(s.sets[i], TagOf(s.geom, address), block, s.geom.nWay, s.geom.blockSize)
      case Failure(e) => Failure(e)
      case Success(e) => Success(s.(sets := s.sets[i := e]))
  }

  /** `write_data(address, data)`: the datum goes to the address's offset in
      its block if the set holds the tag, and nowhere otherwise. */
  function LevelWriteData(s: LevelState, address: nat, data: Datum): (r: LevelState)
    requires Shape(s)
    ensures Shape(r) && r.geom == s.geom
    ensures LevelHit(r, address) == LevelHit(s, address)
  {
    var i := SetIndex(s.geom, address);
    s.(sets := s.sets[i := WithDatum(s.sets[i], TagOf(s.geom, address), BlockOffset(s.geom, address), data)])
  }

  /** A block that fits is stored under the address's tag: the address hits
      and `get_block` returns the block; the geometry and the level
      invariant are kept. */
  lemma WriteBlockStores(s: LevelState, address: nat, block: Block)
    requires LevelOk(s) && |block| <= s.geom.blockSize
    ensures LevelWriteBlock(s, address, block).Success?
    ensures var t := LevelWriteBlock(s, address, block).value;
      LevelOk(t) && t.geom == s.geom && LevelHit(t, address) && LevelGetBlock(t, address) == Some(block)
  {
    PutStores(s.sets[SetIndex(s.geom, address)], TagOf(s.geom, address), block, s.geom.nWay, s.geom.blockSize);
  }

  /** Besides, `read_data` then returns the block's entry at the address's
      offset and only the address's set changes. Too large a block raises
      `ValueError`. */
  lemma WriteBlockThenRead(s: LevelState, address: nat, block: Block)
    requires LevelOk(s)
    ensures |block| > s.geom.blockSize ==> LevelWriteBlock(s, address, block) == Failure(ValueError)
    ensures |block| <= s.geom.blockSize ==>
      var r := LevelWriteBlock(s, address, block);
      && r.Success?
      && LevelRead(r.value, address) == Success(DatumAt(block, BlockOffset(s.geom, address)))
      && (forall j :: 0 <= j < |s.sets| && j != SetIndex(s.geom, address) ==> r.value.sets[j] == s.sets[j])
  {
    if |block| <= s.geom.blockSize {
      WriteBlockStores(s, address, block);
    }
  }

  /** Two addresses name the same cell of a level: the same set, the same
      tag and the same offset within the block. */
  predicate SameCell(g: Geometry, a: nat, b: nat)
    requires Wellformed(g)
  {
    SetIndex(g, a) == SetIndex(g, b) && TagOf(g, a) == TagOf(g, b) && BlockOffset(g, a) == BlockOffset(g, b)
  }

  /** `write_data` leaves what `read_data` gives for every other cell. */
  lemma WriteDataKeepsOtherCell(s: LevelState, address: nat, data: Datum, other: nat)
    requires Shape(s) && !SameCell(s.geom, address, other)
    ensures LevelRead(LevelWriteData(s, address, data), other) == LevelRead(s, other)
  {
    var i := SetIndex(s.geom, address);
    WriteDatumChangesOneEntry(s.sets[i], TagOf(s.geom, address), BlockOffset(s.geom, address), data, TagOf(s.geom, other));
  }

  /** `write_data` changes only a level that holds the address's tag; there
      it stores the datum at the address's offset, keeps which addresses
      hit, and keeps the level invariant. Every other set, and every other
      cell of the address's own set, reads as before. */
  lemma WriteDataThenRead(s: LevelState, address: nat, data: Datum)
    requires LevelOk(s)
    ensures !LevelHit(s, address) ==> LevelWriteData(s, address, data) == s
    ensures LevelOk(LevelWriteData(s, address, data))
    ensures LevelHit(s, address) ==> LevelRead(LevelWriteData(s, address, data), address) == Success(Some(data))
    ensures forall other :: LevelHit(LevelWriteData(s, address, data), other) == LevelHit(s, other)
    ensures forall j :: 0 <= j < |s.sets| && j != SetIndex(s.geom, address) ==> LevelWriteData(s, address, data).sets[j] == s.sets[j]
    ensures forall other :: !SameCell(s.geom, address, other) ==> LevelRead(LevelWriteData(s, address, data), other) == LevelRead(s, other)
  {
    forall other | !SameCell(s.geom, address, other)
      ensures LevelRead(LevelWriteData(s, address, data), other) == LevelRead(s, other)
    {
      WriteDataKeepsOtherCell(s, address, data, other);
    }
    var i := SetIndex(s.geom, address);
    var tag := TagOf(s.geom, address);
    var off := BlockOffset(s.geom, address);
    var e := s.sets[i];
    var w := WithDatum(e, tag, off, data);
    WriteDatumChangesOneEntry(e, tag, off, data, tag);
    if !LevelHit(s, address) {
      assert s.sets[i := e] == s.sets;
    }
    assert DistinctTags(w) by {
      forall p, q | 0 <= p < q < |w| ensures w[p].0 != w[q].0 {
        assert Tags(w)[p] == Tags(e)[p] && Tags(w)[q] == Tags(e)[q];
      }
    }
  }

  // ---------------------------------------------------------------------
  // The level object

  /** `SetAssociativeCache` of the cache hierarchy. `Sets` mirrors the
      entries of the set objects, in order. */
  class SetAssociativeCache {
    const geom: Geometry
    const level: nat
    const cacheSets: seq<CacheSet>
    ghost var Sets: seq<Entries>
    ghost const Repr: set<CacheSet>

    ghost function State(): LevelState
      reads this
    {
      LevelState(geom, Sets)
    }

    ghost predicate Valid()
      reads this, Repr
    {
      && Wellformed(geom)
      && |cacheSets| == geom.numSets
      && |Sets| == geom.numSets
      && (forall i :: 0 <= i < |cacheSets| ==> cacheSets[i] in Repr)
      && (forall i, j :: 0 <= i < j < |cacheSets| ==> cacheSets[i] != cacheSets[j])
      && (forall i :: 0 <= i < |cacheSets| ==>
            && cacheSets[i].nWay == geom.nWay
            && cacheSets[i].blockSize == geom.blockSize
            && cacheSets[i].Valid()
            && cacheSets[i].entries == Sets[i])
    }

    lemma ValidState()
      requires Valid()
      ensures LevelOk(State())
    {
      forall i | 0 <= i < |Sets| ensures DistinctTags(Sets[i]) && |Sets[i]| <= geom.nWay {
        assert cacheSets[i].Valid();
      }
    }

    /** `SetAssociativeCache(level, size, line_size, n_way, block_size,
        cache_type)`: `num_sets` empty sets. */
    constructor (level: nat, size: nat, lineSize: nat, nWay: nat, blockSize: nat := 16, cacheType: CacheType := SetAssociative)
      requires lineSize >= 1 && nWay >= 1 && blockSize >= 1
      requires NumSets(cacheType, size, lineSize, nWay) >= 1
      ensures Valid() && fresh(Repr)
      ensures this.level == level
      ensures geom == Geometry(cacheType, lineSize, nWay, blockSize, NumSets(cacheType, size, lineSize, nWay))
      ensures forall i :: 0 <= i < |Sets| ==> Sets[i] == []
    {
      var n := NumSets(cacheType, size, lineSize, nWay);
      var sets: seq<CacheSet> := [];
      ghost var repr: set<CacheSet> := {};
      while |sets| < n
        invariant |sets| <= n
        invariant fresh(repr)
        invariant forall i :: 0 <= i < |sets| ==> sets[i] in repr
        invariant forall i, j :: 0 <= i < j < |sets| ==> sets[i] != sets[j]
        invariant forall i :: 0 <= i < |sets| ==>
          sets[i].nWay == nWay && sets[i].blockSize == blockSize && sets[i].entries == []
      {
        var c := new CacheSet(nWay, blockSize);
        sets := sets + [c];
        repr := repr + {c};
      }
      geom := Geometry(cacheType, lineSize, nWay, blockSize, n);
      this.level := level;
      cacheSets := sets;
      Sets := seq(n, _ => []);
      Repr := repr;
    }

    /** `check_hit(address)`: whether the tag is in its set, and this level's
        number. */
    method CheckHit(address: nat) returns (hit: bool, lvl: nat)
      requires Valid()
      ensures hit == LevelHit(State(), address)
      ensures lvl == level
    {
      var i := SetIndex(geom, address);
      hit := cacheSets[i].CheckHit(TagOf(geom, address));
      lvl := level;
    }

    /** `write_block(address, block)`. */
    method WriteBlock(address: nat, block: Block) returns (r: Outcome)
      requires Valid()
      modifies this, Repr
      ensures Valid()
      ensures var w := LevelWriteBlock(old(State()), address, block);
        if w.Success? then r == Pass && State() == w.value
        else r == Fail(w.error) && State() == old(State())
    {
      if |block| > geom.blockSize {
        return Fail(ValueError);
      }
      var i := SetIndex(geom, address);
      r := cacheSets[i].AddOrUpdate(TagOf(geom, address), block);
      Sets := Sets[i := cacheSets[i].entries];
    }

    /** `read_data(address)`. */
    method ReadData(address: nat) returns (r: Result<Option<Datum>>)
      requires Valid()
      ensures r == LevelRead(State(), address)
    {
      var i := SetIndex(geom, address);
      r := cacheSets[i].ReadData(TagOf(geom, address), BlockOffset(geom, address));
    }

    /** `write_data(address, data)`. */
    method WriteData(address: nat, data: Datum)
      requires Valid()
      modifies this, Repr
      ensures Valid()
      ensures State() == LevelWriteData(old(State()), address, data)
    {
      var i := SetIndex(geom, address);
      var _ := cacheSets[i].WriteData(TagOf(geom, address), BlockOffset(geom, address), data);
      Sets := Sets[i := cacheSets[i].entries];
    }

    /** `get_block(address)`. */
    method GetBlock(address: nat) returns (r: Option<Block>)
      requires Valid()
      ensures r == LevelGetBlock(State(), address)
    {
      var i := SetIndex(geom, address);
      r := cacheSets[i].GetBlock(TagOf(geom, address));
    }
  }
}
