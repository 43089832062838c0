/** The cache hierarchy: a list of levels, numbered from 1, probed in
    order, written all together and filled all together. */
module CacheSystems {
  import opened Common
  import opened CacheSets
  import opened CacheLevels

  // ---------------------------------------------------------------------
  // The hierarchy as a list of level values

  predicate AllShaped(levels: seq<LevelState>)
  {
    forall i :: 0 <= i < |levels| ==> Shape(levels[i])
  }

  predicate AllOk(levels: seq<LevelState>)
  {
    forall i :: 0 <= i < |levels| ==> LevelOk(levels[i])
  }

  /** The position of the first level, from `from` on, that holds the
      address. */
  function FirstHit(levels: seq<LevelState>, address: nat, from: nat): (r: Option<nat>)
    requires AllShaped(levels)
    ensures r.Some? ==> from <= r.value < |levels| && LevelHit(levels[r.value], address)
    ensures r.Some? ==> forall j :: from <= j < r.value ==> !LevelHit(levels[j], address)
    ensures r.None? ==> forall j :: from <= j < |levels| ==> !LevelHit(levels[j], address)
    decreases |levels| - from
  {
    if from >= |levels| then None
    else if LevelHit(levels[from], address) then Some(from)
    else FirstHit(levels, address, from + 1)
  }

  /** `check_hit(address)`: the 1-based number of the first level holding
      the address, or `None` (the source's `(None, None)`) when no level
      does. */
  function SystemCheckHit(levels: seq<LevelState>, address: nat): (r: Option<nat>)
    requires AllShaped(levels)
    ensures r.Some? ==> 1 <= r.value <= |levels| && LevelHit(levels[r.value - 1], address)
    ensures r.Some? ==> forall j :: 0 <= j < r.value - 1 ==> !LevelHit(levels[j], address)
    ensures r.None? <==> forall j :: 0 <= j < |levels| ==> !LevelHit(levels[j], address)
  {
    match FirstHit(levels, address, 0)
    case None => None
    case Some(i) => Some(i + 1)
  }

  /** The probing loop of `read_data` from level `from` on: a level's
      `KeyError` ends it, a level whose block has no datum at the offset
      passes to the next, the first datum found stops it. */
  function ReadScan(levels: seq<LevelState>, address: nat, from: nat): (r: Result<Option<(nat, Datum)>>)
    requires AllShaped(levels)
    ensures r.Failure? ==> r.error == KeyError
    ensures r.Success? && r.value.Some? ==>
      && from <= r.value.value.0 < |levels|
      && LevelRead(levels[r.value.value.0], address) == Success(Some(r.value.value.1))
      && forall j :: from <= j < r.value.value.0 ==> LevelRead(levels[j], address) == Success(None)
    decreases |levels| - from
  {
    if from >= |levels| then Success(None)
    else match LevelRead(levels[from], address)
      case Failure(e) => Failure(e)
      case Success(Some(d)) => Success(Some((from, d)))
      case Success(None) => ReadScan(levels, address, from + 1)
  }

  /** The "promotion" after a hit at position `k`: `write_data` on every
      level above it. */
  function Promote(levels: seq<LevelState>, address: nat, data: Datum, k: nat): (r: seq<LevelState>)
    requires AllShaped(levels)
    ensures |r| == |levels|
  {
    seq(|levels|, i requires 0 <= i < |levels| =>
      if i < k then LevelWriteData(levels[i], address, data) else levels[i])
  }

  /** `read_data(address)`: the datum and the hierarchy afterwards. Only a
      found datum changes anything; an exception is always a `KeyError`. */
  function SystemRead(levels: seq<LevelState>, address: nat): (r: (Result<Option<Datum>>, seq<LevelState>))
    requires AllShaped(levels)
    ensures |r.1| == |levels|
    ensures r.0.Failure? ==> r.0.error == KeyError && r.1 == levels
    ensures r.0 == Success(None) ==> r.1 == levels
  {
    match ReadScan(levels, address, 0)
    case Failure(e) => (Failure(e), levels)
    case Success(None) => (Success(None), levels)
    case Success(Some((k, d))) => (Success(Some(d)), Promote(levels, address, d, k))
  }

  /** `write_data(address, data)`: every level's `write_data`. */
  function SystemWrite(levels: seq<LevelState>, address: nat, data: Datum): (r: seq<LevelState>)
    requires AllShaped(levels)
    ensures |r| == |levels|
  {
    seq(|levels|, i requires 0 <= i < |levels| => LevelWriteData(levels[i], address, data))
  }

  /** `load_block(address, block)` from position `i` on: `write_block` on
      each level in turn; an exception stops the loop with the levels before
      it already written. */
  function LoadFrom(levels: seq<LevelState>, address: nat, block: Block, i: nat): (r: (seq<LevelState>, Outcome))
    requires AllShaped(levels) && i <= |levels|
    ensures |r.0| == |levels|
    decreases |levels| - i
  {
    if i == |levels| then (levels, Pass)
    else match LevelWriteBlock(levels[i], address, block)
      case Failure(e) => (levels, Fail(e))
      case Success(s) => LoadFrom(levels[i := s], address, block, i + 1)
  }

  /** A level with every set empty. */
  predicate EmptyLevel(s: LevelState)
  {
    forall i :: 0 <= i < |s.sets| ==> s.sets[i] == []
  }

  /** A level as `reset_caches` builds it for a configured size: empty,
      with `size / (line_size * n_way)` sets of `n_way` lines. */
  predicate ResetLevel(s: LevelState, size: nat, lineSize: nat, nWay: nat)
  {
    lineSize * nWay > 0 && s.geom == Geometry(SetAssociative, lineSize, nWay, 16, size / (lineSize * nWay)) && EmptyLevel(s)
  }

  // ---------------------------------------------------------------------
  // Properties of the hierarchy

  /** Because a level's `read_data` raises `KeyError` for an absent tag,
      `read_data` on the hierarchy raises as soon as level 1 misses, even if
      a lower level holds the address; nothing changes. */
  lemma ReadMissInFirstLevelRaises(levels: seq<LevelState>, address: nat)
    requires AllShaped(levels) && levels != [] && !LevelHit(levels[0], address)
    ensures SystemRead(levels, address) == (Failure(KeyError), levels)
  {
  }

  /** After `read_data` finds a datum at level `k + 1`, every level above it
      holds the address and now returns that datum; level `k + 1` and those
      below are unchanged, and every level keeps its invariant. A miss in
      every level's block returns `None` and changes nothing. */
  lemma {:induction false} ReadPromotes(levels: seq<LevelState>, address: nat)
    requires AllOk(levels)
    ensures var (r, after) := SystemRead(levels, address);
      && |after| == |levels|
      && AllOk(after)
      && (r.Failure? ==> after == levels && r.error == KeyError)
      && (r == Success(None) ==> after == levels)
      && (r.Success? && r.value.Some? ==>
            var k := ReadScan(levels, address, 0).value.value.0;
            && LevelRead(levels[k], address) == r
            && (forall j :: 0 <= j < k ==> LevelHit(levels[j], address) && LevelRead(after[j], address) == r)
            && (forall j, other :: 0 <= j < k && !SameCell(levels[j].geom, address, other) ==>
                  LevelRead(after[j], other) == LevelRead(levels[j], other))
            && (forall j :: k <= j < |levels| ==> after[j] == levels[j]))
  {
    match ReadScan(levels, address, 0)
    case Failure(_) =>
    case Success(None) =>
    case Success(Some((k, d))) =>
      var after := Promote(levels, address, d, k);
      forall j | 0 <= j < |levels|
        ensures LevelOk(after[j])
        ensures j < k ==> LevelHit(levels[j], address) && LevelRead(after[j], address) == Success(Some(d))
        ensures j < k ==> forall other :: !SameCell(levels[j].geom, address, other) ==>
          LevelRead(after[j], other) == LevelRead(levels[j], other)
      {
        WriteDataThenRead(levels[j], address, d);
      }
  }

  /** `write_data` changes exactly the levels that hold the address: each of
      them now returns the datum, every other level is unchanged, and in
      every level each other cell reads as before. */
  lemma WriteOnlyHoldingLevels(levels: seq<LevelState>, address: nat, data: Datum)
    requires AllOk(levels)
    ensures var after := SystemWrite(levels, address, data);
      && AllOk(after)
      && (forall j :: 0 <= j < |levels| && !LevelHit(levels[j], address) ==> after[j] == levels[j])
      && (forall j :: 0 <= j < |levels| && LevelHit(levels[j], address) ==> LevelRead(after[j], address) == Success(Some(data)))
      && (forall j, other :: 0 <= j < |levels| ==> LevelHit(after[j], other) == LevelHit(levels[j], other))
      && (forall j, other :: 0 <= j < |levels| && !SameCell(levels[j].geom, address, other) ==>
            LevelRead(after[j], other) == LevelRead(levels[j], other))
  {
    forall j | 0 <= j < |levels| {
      WriteDataThenRead(levels[j], address, data);
    }
  }

  lemma LoadFromStep(levels: seq<LevelState>, address: nat, block: Block, i: nat)
    requires AllShaped(levels) && i < |levels|
    ensures var w := LevelWriteBlock(levels[i], address, block);
      && (w.Failure? ==> LoadFrom(levels, address, block, i) == (levels, Fail(w.error)))
      && (w.Success? ==> AllShaped(levels[i := w.value]) && LoadFrom(levels, address, block, i) == LoadFrom(levels[i := w.value], address, block, i + 1))
  {
  }

  /** A block too large for level 1 makes `load_block` raise `ValueError`
      before any level changes. */
  lemma LoadTooLargeRaises(levels: seq<LevelState>, address: nat, block: Block)
    requires AllShaped(levels) && levels != [] && |block| > levels[0].geom.blockSize
    ensures LoadFrom(levels, address, block, 0) == (levels, Fail(ValueError))
  {
  }

  /** `after` is `levels` with every level holding `block` for `address`,
      geometries kept and invariants holding. */
  predicate Filled(levels: seq<LevelState>, after: seq<LevelState>, address: nat, block: Block)
  {
    && |after| == |levels|
    && AllOk(after)
    && (forall j :: 0 <= j < |levels| ==> after[j].geom == levels[j].geom)
    && (forall j :: 0 <= j < |levels| ==> LevelHit(after[j], address) && LevelGetBlock(after[j], address) == Some(block))
  }

  /** `load_block` with a block that fits every level writes every level:
      afterwards each level holds the address with that block, its
      geometry is unchanged and the invariants hold. */
  lemma LoadFillsEveryLevel(levels: seq<LevelState>, address: nat, block: Block)
    requires AllOk(levels)
    requires forall j :: 0 <= j < |levels| ==> |block| <= levels[j].geom.blockSize
    ensures LoadFrom(levels, address, block, 0).1 == Pass
    ensures Filled(levels, LoadFrom(levels, address, block, 0).0, address, block)
  {
    LoadFromFills(levels, address, block, 0);
  }

  lemma {:induction false} LoadFromFills(levels: seq<LevelState>, address: nat, block: Block, i: nat)
    requires AllOk(levels) && i <= |levels|
    requires forall j :: 0 <= j < |levels| ==> |block| <= levels[j].geom.blockSize
    requires forall j :: 0 <= j < i ==> LevelHit(levels[j], address) && LevelGetBlock(levels[j], address) == Some(block)
    ensures LoadFrom(levels, address, block, i).1 == Pass
    ensures Filled(levels, LoadFrom(levels, address, block, i).0, address, block)
    decreases |levels| - i
  {
    if i < |levels| {
      WriteBlockStores(levels[i], address, block);
      var next := levels[i := LevelWriteBlock(levels[i], address, block).value];
      NextOk(levels, address, block, i);
      LoadFromStep(levels, address, block, i);
      LoadFromFills(next, address, block, i + 1);
      FilledTransfer(levels, next, LoadFrom(next, address, block, i + 1).0, address, block);
    }
  }

  /** Writing the block into level `i` keeps the invariants and extends
      the filled prefix by one. */
  lemma NextOk(levels: seq<LevelState>, address: nat, block: Block, i: nat)
    requires AllOk(levels) && i < |levels|
    requires |block| <= levels[i].geom.blockSize
    requires forall j :: 0 <= j < i ==> LevelHit(levels[j], address) && LevelGetBlock(levels[j], address) == Some(block)
    ensures LevelWriteBlock(levels[i], address, block).Success?
    ensures var next := levels[i := LevelWriteBlock(levels[i], address, block).value];
      && AllOk(next)
      && (forall j :: 0 <= j < |levels| ==> next[j].geom == levels[j].geom)
      && (forall j :: 0 <= j < i + 1 ==> LevelHit(next[j], address) && LevelGetBlock(next[j], address) == Some(block))
  {
    WriteBlockStores(levels[i], address, block);
  }

  /** `Filled` only looks at the geometries of the levels before. */
  lemma FilledTransfer(levels: seq<LevelState>, next: seq<LevelState>, after: seq<LevelState>, address: nat, block: Block)
    requires |next| == |levels| && forall j :: 0 <= j < |levels| ==> next[j].geom == levels[j].geom
    requires Filled(next, after, address, block)
    ensures Filled(levels, after, address, block)
  {
  }

  /** Empty levels hold nothing: every address misses everywhere. */
  lemma EmptyLevelsMiss(levels: seq<LevelState>, address: nat)
    requires AllShaped(levels)
    requires forall j :: 0 <= j < |levels| ==> EmptyLevel(levels[j])
    ensures SystemCheckHit(levels, address) == None
  {
    forall j | 0 <= j < |levels| ensures !LevelHit(levels[j], address) {
      assert levels[j].sets[SetIndex(levels[j].geom, address)] == [];
    }
  }

  // ---------------------------------------------------------------------
  // The hierarchy object

  /** `CacheSystem`. `Levels` mirrors the state of each level object. */
  class CacheSystem {
    var cacheLevels: seq<SetAssociativeCache>
    var nWay: nat
    var levelsSize: seq<nat>
    const numberLevels: nat
    const lineSize: nat
    ghost var Levels: seq<LevelState>
    ghost var Repr: set<object>

    ghost predicate Valid()
      reads this, Repr
    {
      this !in Repr && Stacked(cacheLevels, Levels, Repr) && AllShaped(Levels)
    }

    /** Level objects `levels`, level `i` numbered `i + 1` with 16-entry
        blocks and in state `states[i]`, with disjoint footprints inside
        `repr`. */
    static ghost predicate Stacked(levels: seq<SetAssociativeCache>, states: seq<LevelState>, repr: set<object>)
      reads repr
    {
      && |states| == |levels|
      && (forall i :: 0 <= i < |levels| ==> levels[i] in repr && levels[i].Repr <= repr)
      && (forall i, j :: 0 <= i < j < |levels| ==> levels[i] != levels[j])
      && (forall i, j :: 0 <= i < j < |levels| ==> levels[i].Repr !! levels[j].Repr)
      && (forall i :: 0 <= i < |levels| ==>
            && levels[i].Valid()
            && levels[i].level == i + 1
            && levels[i].geom.blockSize == 16
            && levels[i].State() == states[i])
    }

    static lemma StackedExtend(levels: seq<SetAssociativeCache>, states: seq<LevelState>, repr: set<object>, c: SetAssociativeCache)
      requires Stacked(levels, states, repr)
      requires c !in repr && c.Repr !! repr && c.Valid()
      requires c.level == |levels| + 1 && c.geom.blockSize == 16
      ensures Stacked(levels + [c], states + [c.State()], repr + {c} + c.Repr)
    {
      var levels', repr' := levels + [c], repr + {c} + c.Repr;
      forall i, j | 0 <= i < j < |levels'| ensures levels'[i].Repr !! levels'[j].Repr {
        if j == |levels| {
          assert levels'[i].Repr <= repr;
        }
      }
    }

    /** After level `i` changed within its own footprint, the stack holds
        with that level's new state. */
    twostate lemma LevelChanged(i: nat)
      requires old(Valid()) && i < |cacheLevels| && cacheLevels == old(cacheLevels) && Levels == old(Levels) && Repr == old(Repr)
      requires cacheLevels[i].Valid()
      requires forall k :: 0 <= k < |cacheLevels| && k != i ==> unchanged(cacheLevels[k]) && unchanged(cacheLevels[k].Repr)
      ensures Stacked(cacheLevels, Levels[i := cacheLevels[i].State()], Repr)
      ensures AllShaped(Levels[i := cacheLevels[i].State()])
    {
      forall k | 0 <= k < |cacheLevels| && k != i
        ensures cacheLevels[k].Valid() && cacheLevels[k].State() == Levels[k]
      {
        assert old(cacheLevels[k].Valid() && cacheLevels[k].State() == Levels[k]);
      }
    }

    lemma LevelsOk()
      requires Valid()
      ensures AllOk(Levels)
    {
      forall i | 0 <= i < |cacheLevels| ensures LevelOk(Levels[i]) {
        cacheLevels[i].ValidState();
      }
    }

    /** Sizes the levels can be built from: each gives at least one set. */
    static predicate Buildable(sizes: seq<nat>, lineSize: nat, nWay: nat)
    {
      lineSize >= 1 && nWay >= 1 && forall i :: 0 <= i < |sizes| ==> sizes[i] / (lineSize * nWay) >= 1
    }

    /** `CacheSystem(levels_size, levels, line_size, n_way)` with the
        default sizes of 32 KiB, 256 KiB and 2 MiB. */
    constructor (levelsSize: seq<nat> := [32 * 1024, 256 * 1024, 2 * 1024 * 1024], levels: nat := 3, lineSize: nat := 64, nWay: nat := 2)
      requires Buildable(levelsSize, lineSize, nWay)
      ensures Valid() && fresh(Repr)
      ensures this.levelsSize == levelsSize && this.nWay == nWay && this.lineSize == lineSize && numberLevels == levels
      ensures |Levels| == |levelsSize|
      ensures forall i :: 0 <= i < |Levels| ==>
        ResetLevel(Levels[i], levelsSize[i], lineSize, nWay)
    {
      this.levelsSize := levelsSize;
      this.nWay := nWay;
      this.lineSize := lineSize;
      numberLevels := levels;
      cacheLevels := [];
      Levels := [];
      Repr := {};
      new;
      ResetCaches();
    }

    /** `configure_cache(l1_size, l2_size, l3_size, n_way)`. */
    method ConfigureCache(l1Size: nat, l2Size: nat, l3Size: nat, nWay: nat)
      requires Buildable([l1Size, l2Size, l3Size], lineSize, nWay)
      modifies this
      ensures Valid() && fresh(Repr)
      ensures levelsSize == [l1Size, l2Size, l3Size] && this.nWay == nWay
      ensures |Levels| == 3
      ensures forall i :: 0 <= i < |Levels| ==>
        ResetLevel(Levels[i], levelsSize[i], lineSize, nWay)
    {
      levelsSize := [l1Size, l2Size, l3Size];
      this.nWay := nWay;
      ResetCaches();
    }

    /** `reset_caches()`: a fresh, empty level for every configured size. */
    method ResetCaches()
      requires Buildable(levelsSize, lineSize, nWay)
      modifies this
      ensures Valid() && fresh(Repr)
      ensures levelsSize == old(levelsSize) && nWay == old(nWay)
      ensures |Levels| == |levelsSize|
      ensures forall i :: 0 <= i < |Levels| ==>
        ResetLevel(Levels[i], levelsSize[i], lineSize, nWay)
    {
      var built: seq<SetAssociativeCache> := [];
      ghost var states: seq<LevelState> := [];
      ghost var repr: set<object> := {};
      while |built| < |levelsSize|
        invariant levelsSize == old(levelsSize) && nWay == old(nWay)
        invariant |built| <= |levelsSize|
        invariant fresh(repr)
        invariant Stacked(built, states, repr)
        invariant forall i :: 0 <= i < |built| ==>
          ResetLevel(states[i], levelsSize[i], lineSize, nWay)
      {
        var i := |built|;
        var c := new SetAssociativeCache(i + 1, levelsSize[i], lineSize, nWay);
        StackedExtend(built, states, repr, c);
        built := built + [c];
        states := states + [c.State()];
        repr := repr + {c} + c.Repr;
      }
      cacheLevels := built;
      Levels := states;
      Repr := repr;
    }

    /** `check_hit(address)`: the number of the first level holding the
        address. */
    method CheckHit(address: nat) returns (r: Option<nat>)
      requires Valid()
      ensures r == SystemCheckHit(Levels, address)
    {
      var i := 0;
      while i < |cacheLevels|
        invariant 0 <= i <= |cacheLevels|
        invariant FirstHit(Levels, address, 0) == FirstHit(Levels, address, i)
      {
        var hit, lvl := cacheLevels[i].CheckHit(address);
        if hit {
          return Some(lvl);
        }
        i := i + 1;
      }
      return None;
    }

    /** `write_data(address, data)` on every level. */
    method WriteData(address: nat, data: Datum)
      requires Valid()
      modifies this, Repr
      ensures Valid() && Repr == old(Repr) && cacheLevels == old(cacheLevels)
      ensures Levels == SystemWrite(old(Levels), address, data)
    {
      ghost var before := Levels;
      var i := 0;
      while i < |cacheLevels|
        invariant 0 <= i <= |cacheLevels|
        invariant Valid() && Repr == old(Repr) && cacheLevels == old(cacheLevels)
        invariant |Levels| == |before|
        invariant forall j :: 0 <= j < i ==> Levels[j] == LevelWriteData(before[j], address, data)
        invariant forall j :: i <= j < |Levels| ==> Levels[j] == before[j]
      {
        WriteDataAt(i, address, data);
        i := i + 1;
      }
    }

    /** `read_data(address)`: probe the levels in order; on a hit at level
        `k + 1` write the datum into the levels above it and return it. */
    method ReadData(address: nat) returns (r: Result<Option<Datum>>)
      requires Valid()
      modifies this, Repr
      ensures Valid() && Repr == old(Repr) && cacheLevels == old(cacheLevels)
      ensures r == SystemRead(old(Levels), address).0 && Levels == SystemRead(old(Levels), address).1
    {
      ghost var before := Levels;
      var k := 0;
      while k < |cacheLevels|
        invariant 0 <= k <= |cacheLevels|
        invariant Valid() && Repr == old(Repr) && cacheLevels == old(cacheLevels)
        invariant Levels == before
        invariant ReadScan(before, address, 0) == ReadScan(before, address, k)
      {
        var d := cacheLevels[k].ReadData(address);
        if d.Failure? {
          return Failure(d.error);
        }
        if d.value.Some? {
          WriteAbove(k, address, d.value.value);
          return Success(d.value);
        }
        k := k + 1;
      }
      return Success(None);
    }

    /** The promotion loop of `read_data`: `write_data` on the first `k`
        levels. */
    method WriteAbove(k: nat, address: nat, data: Datum)
      requires Valid() && k <= |cacheLevels|
      modifies this, Repr
      ensures Valid() && Repr == old(Repr) && cacheLevels == old(cacheLevels)
      ensures Levels == Promote(old(Levels), address, data, k)
    {
      ghost var before := Levels;
      var u := 0;
      while u < k
        invariant 0 <= u <= k
        invariant Valid() && Repr == old(Repr) && cacheLevels == old(cacheLevels)
        invariant |Levels| == |before|
        invariant forall j :: 0 <= j < u ==> Levels[j] == LevelWriteData(before[j], address, data)
        invariant forall j :: u <= j < |Levels| ==> Levels[j] == before[j]
      {
        WriteDataAt(u, address, data);
        u := u + 1;
      }
      assert Levels == Promote(before, address, data, k);
    }

    /** `load_block(address, block)`: `write_block` on every level in turn,
        stopping at the first exception. */
    method LoadBlock(address: nat, block: Block) returns (r: Outcome)
      requires Valid()
      modifies this, Repr
      ensures Valid() && Repr == old(Repr) && cacheLevels == old(cacheLevels)
      ensures Levels == LoadFrom(old(Levels), address, block, 0).0 && r == LoadFrom(old(Levels), address, block, 0).1
    {
      ghost var before := Levels;
      var i := 0;
      while i < |cacheLevels|
        invariant 0 <= i <= |cacheLevels|
        invariant Valid() && Repr == old(Repr) && cacheLevels == old(cacheLevels)
        invariant AllShaped(Levels)
        invariant LoadFrom(before, address, block, 0) == LoadFrom(Levels, address, block, i)
      {
        LoadFromStep(Levels, address, block, i);
        var o := WriteBlockAt(i, address, block);
        if o.Fail? {
          return o;
        }
        i := i + 1;
      }
      return Pass;
    }

    /** One step of `load_block`: `write_block` on level `i + 1`. */
    method WriteBlockAt(i: nat, address: nat, block: Block) returns (o: Outcome)
      requires Valid() && i < |cacheLevels|
      modifies this, Repr
      ensures Valid() && Repr == old(Repr) && cacheLevels == old(cacheLevels)
      ensures var w := LevelWriteBlock(old(Levels)[i], address, block);
        if w.Success? then o == Pass && Levels == old(Levels)[i := w.value]
        else o == Fail(w.error) && Levels == old(Levels)
    {
      o := cacheLevels[i].WriteBlock(address, block);
      LevelChanged(i);
      Levels := Levels[i := cacheLevels[i].State()];
    }

    /** `write_data(address, data)` on level `i + 1`. */
    method WriteDataAt(i: nat, address: nat, data: Datum)
      requires Valid() && i < |cacheLevels|
      modifies this, Repr
      ensures Valid() && Repr == old(Repr) && cacheLevels == old(cacheLevels)
      ensures Levels == old(Levels)[i := LevelWriteData(old(Levels)[i], address, data)]
    {
      cacheLevels[i].WriteData(address, data);
      LevelChanged(i);
      Levels := Levels[i := cacheLevels[i].State()];
    }
  }
}
