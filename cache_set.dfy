/** One set of a set-associative cache: an ordered dictionary from tag to
    block, oldest first, holding at most `n_way` blocks. */
module CacheSets {
  import opened Common

  /** The ordered dictionary as a sequence of (tag, block) pairs in
      insertion/recency order: index 0 is the oldest entry. */
  type Entries = seq<(Tag, Block)>

  /** The tags in recency order. */
  function Tags(entries: Entries): (r: seq<Tag>)
    ensures |r| == |entries|
    ensures forall i :: 0 <= i < |entries| ==> r[i] == entries[i].0
  {
    if entries == [] then [] else [entries[0].0] + Tags(entries[1..])
  }

  /** An ordered dictionary has each key at most once. */
  predicate DistinctTags(entries: Entries)
  {
    forall i, j :: 0 <= i < j < |entries| ==> entries[i].0 != entries[j].0
  }

  /** `entries.get(tag, None)`. */
  function BlockOf(entries: Entries, tag: Tag): (r: Option<Block>)
    ensures r.Some? <==> tag in Tags(entries)
  {
    if entries == [] then None
    else if entries[0].0 == tag then Some(entries[0].1)
    else BlockOf(entries[1..], tag)
  }

  /** `tag in entries`. */
  predicate HasTag(entries: Entries, tag: Tag)
  {
    tag in Tags(entries)
  }

  /** The dictionary without the entry for `tag`, order otherwise kept. */
  function Without(entries: Entries, tag: Tag): (r: Entries)
  {
    if entries == [] then []
    else if entries[0].0 == tag then Without(entries[1..], tag)
    else [entries[0]] + Without(entries[1..], tag)
  }

  /** `entries[tag][offset] = data` for a present tag: every key stays in
      its place. */
  function WithDatum(entries: Entries, tag: Tag, offset: nat, data: Datum): (r: Entries)
    ensures |r| == |entries|
    ensures forall i :: 0 <= i < |entries| ==> r[i].0 == entries[i].0
  {
    if entries == [] then []
    else if entries[0].0 == tag then [(tag, entries[0].1[offset := data])] + WithDatum(entries[1..], tag, offset, data)
    else [entries[0]] + WithDatum(entries[1..], tag, offset, data)
  }

  // ---------------------------------------------------------------------
  // Facts about the helpers

  lemma {:induction false} BlockOfWithout(entries: Entries, tag: Tag, other: Tag)
    ensures BlockOf(Without(entries, tag), other) == if other == tag then None else BlockOf(entries, other)
  {
    if entries != [] {
      BlockOfWithout(entries[1..], tag, other);
    }
  }

  lemma TagsWithout(entries: Entries, tag: Tag)
    ensures forall t :: t in Tags(Without(entries, tag)) <==> t in Tags(entries) && t != tag
    ensures DistinctTags(entries) ==> DistinctTags(Without(entries, tag))
    ensures DistinctTags(entries) && HasTag(entries, tag) ==> |Without(entries, tag)| == |entries| - 1
    ensures |Without(entries, tag)| <= |entries|
    ensures HasTag(entries, tag) ==> |Without(entries, tag)| < |entries|
  {
    TagsWithoutMembers(entries, tag);
    DistinctWithout(entries, tag);
  }

  lemma {:induction false} TagsWithoutMembers(entries: Entries, tag: Tag)
    ensures forall t :: t in Tags(Without(entries, tag)) <==> t in Tags(entries) && t != tag
    ensures |Without(entries, tag)| <= |entries|
    ensures HasTag(entries, tag) ==> |Without(entries, tag)| < |entries|
  {
    if entries != [] {
      TagsWithoutMembers(entries[1..], tag);
      assert Tags(entries) == [entries[0].0] + Tags(entries[1..]);
    }
  }

  lemma {:induction false} DistinctWithout(entries: Entries, tag: Tag)
    ensures DistinctTags(entries) ==> DistinctTags(Without(entries, tag))
    ensures DistinctTags(entries) && HasTag(entries, tag) ==> |Without(entries, tag)| == |entries| - 1
  {
    if entries != [] && DistinctTags(entries) {
      DistinctTail(entries);
      DistinctWithout(entries[1..], tag);
      assert Tags(entries) == [entries[0].0] + Tags(entries[1..]);
      if entries[0].0 != tag {
        TagsWithoutMembers(entries[1..], tag);
        DistinctCons(entries[0], Without(entries[1..], tag));
      } else {
        WithoutAbsent(entries[1..], tag);
      }
    }
  }

  lemma DistinctCons(entry: (Tag, Block), entries: Entries)
    requires DistinctTags(entries) && entry.0 !in Tags(entries)
    ensures DistinctTags([entry] + entries)
  {
    forall i, j | 0 <= i < j < |[entry] + entries| ensures ([entry] + entries)[i].0 != ([entry] + entries)[j].0 {
      if i == 0 {
        assert ([entry] + entries)[j].0 == Tags(entries)[j - 1];
      }
    }
  }

  lemma {:induction false} WithoutAbsent(entries: Entries, tag: Tag)
    requires !HasTag(entries, tag)
    ensures Without(entries, tag) == entries
  {
    if entries != [] {
      assert Tags(entries) == [entries[0].0] + Tags(entries[1..]);
      WithoutAbsent(entries[1..], tag);
    }
  }

  lemma {:induction false} BlockOfAppend(entries: Entries, tag: Tag, block: Block, other: Tag)
    requires !HasTag(entries, tag)
    ensures BlockOf(entries + [(tag, block)], other) == if other == tag then Some(block) else BlockOf(entries, other)
  {
    if entries != [] {
      assert (entries + [(tag, block)])[1..] == entries[1..] + [(tag, block)];
      assert Tags(entries) == [entries[0].0] + Tags(entries[1..]);
      BlockOfAppend(entries[1..], tag, block, other);
    }
  }

  lemma TagsAppend(entries: Entries, tag: Tag, block: Block)
    ensures Tags(entries + [(tag, block)]) == Tags(entries) + [tag]
  {
  }

  lemma DistinctAppend(entries: Entries, tag: Tag, block: Block)
    requires DistinctTags(entries) && !HasTag(entries, tag)
    ensures DistinctTags(entries + [(tag, block)])
  {
    forall i, j | 0 <= i < j < |entries| + 1 ensures (entries + [(tag, block)])[i].0 != (entries + [(tag, block)])[j].0 {
      if j == |entries| {
        assert Tags(entries)[i] == entries[i].0;
      }
    }
  }

  lemma DistinctTail(entries: Entries)
    requires DistinctTags(entries) && entries != []
    ensures DistinctTags(entries[1..])
    ensures !HasTag(entries[1..], entries[0].0)
    ensures forall t :: HasTag(entries[1..], t) <==> HasTag(entries, t) && t != entries[0].0
  {
    assert Tags(entries) == [entries[0].0] + Tags(entries[1..]);
    forall i, j | 0 <= i < j < |entries[1..]| ensures entries[1..][i].0 != entries[1..][j].0 {
      assert entries[1..][i] == entries[i + 1] && entries[1..][j] == entries[j + 1];
    }
    forall i | 0 <= i < |entries[1..]| ensures Tags(entries[1..])[i] != entries[0].0 {
      assert entries[1..][i] == entries[i + 1];
    }
  }

  lemma {:induction false} BlockOfTail(entries: Entries, other: Tag)
    requires DistinctTags(entries) && entries != []
    ensures BlockOf(entries[1..], other) == if other == entries[0].0 then None else BlockOf(entries, other)
  {
    DistinctTail(entries);
  }

  lemma {:induction false} WithDatumFacts(entries: Entries, tag: Tag, offset: nat, data: Datum, other: Tag)
    ensures Tags(WithDatum(entries, tag, offset, data)) == Tags(entries)
    ensures BlockOf(WithDatum(entries, tag, offset, data), other) ==
      if other == tag && BlockOf(entries, tag).Some? then Some(BlockOf(entries, tag).value[offset := data])
      else BlockOf(entries, other)
  {
    if entries != [] {
      WithDatumFacts(entries[1..], tag, offset, data, other);
    }
  }

  lemma {:induction false} WithDatumAbsent(entries: Entries, tag: Tag, offset: nat, data: Datum)
    requires !HasTag(entries, tag)
    ensures WithDatum(entries, tag, offset, data) == entries
  {
    if entries != [] {
      assert Tags(entries) == [entries[0].0] + Tags(entries[1..]);
      WithDatumAbsent(entries[1..], tag, offset, data);
    }
  }

  lemma TailLacks(entries: Entries, tag: Tag)
    requires entries != [] && !HasTag(entries, tag)
    ensures !HasTag(entries[1..], tag)
  {
    assert Tags(entries) == [entries[0].0] + Tags(entries[1..]);
  }

  lemma DistinctAppendIf(entries: Entries, tag: Tag, block: Block)
    requires !HasTag(entries, tag)
    ensures DistinctTags(entries) ==> DistinctTags(entries + [(tag, block)])
  {
    if DistinctTags(entries) {
      DistinctAppend(entries, tag, block);
    }
  }

  lemma DistinctTailAppend(entries: Entries, tag: Tag, block: Block)
    requires entries != [] && !HasTag(entries, tag)
    ensures DistinctTags(entries) ==> DistinctTags(entries[1..] + [(tag, block)])
  {
    if DistinctTags(entries) {
      DistinctTail(entries);
      TailLacks(entries, tag);
      DistinctAppend(entries[1..], tag, block);
    }
  }

  /** `block.get(offset, None)`. */
  function DatumAt(block: Block, offset: nat): (r: Option<Datum>)
    ensures r.Some? <==> offset in block
  {
    if offset in block then Some(block[offset]) else None
  }

  // ---------------------------------------------------------------------
  // The operations as functions of the dictionary

  /** `add_or_update(tag, block)`. A block with more than `block_size`
      entries raises `ValueError`; a present tag gets the new block and
      moves to the newest end; an absent tag first evicts the oldest entry
      when the set is full (and `popitem` on an empty dictionary, which
      only `n_way == 0` can reach, raises `KeyError`). */
  function Put(entries: Entries, tag: Tag, block: Block, nWay: nat, blockSize: nat): (r: Result<Entries>)
    ensures r.Failure? <==> |block| > blockSize || (!HasTag(entries, tag) && nWay == 0 && entries == [])
    ensures r.Failure? ==> r.error == if |block| > blockSize then ValueError else KeyError
  {
    if |block| > blockSize then Failure(ValueError)
    else if HasTag(entries, tag) then Success(Without(entries, tag) + [(tag, block)])
    else if |entries| >= nWay then
      if entries == [] then Failure(KeyError) else Success(entries[1..] + [(tag, block)])
    else Success(entries + [(tag, block)])
  }

  /** After a successful `add_or_update` the tag maps to the new block and is
      the newest entry, the keys stay distinct and the set never holds more
      than `n_way` blocks. */
  lemma PutStores(entries: Entries, tag: Tag, block: Block, nWay: nat, blockSize: nat)
    requires Put(entries, tag, block, nWay, blockSize).Success?
    ensures var r := Put(entries, tag, block, nWay, blockSize).value;
      && BlockOf(r, tag) == Some(block)
      && r[|r| - 1] == (tag, block)
      && (DistinctTags(entries) ==> DistinctTags(r))
      && (|entries| <= nWay ==> |r| <= nWay)
  {
    var r := Put(entries, tag, block, nWay, blockSize).value;
    if HasTag(entries, tag) {
      var w := Without(entries, tag);
      assert r == w + [(tag, block)];
      TagsWithout(entries, tag);
      BlockOfWithout(entries, tag, tag);
      DistinctAppendIf(w, tag, block);
      BlockOfAppend(w, tag, block, tag);
    } else if |entries| >= nWay {
      assert r == entries[1..] + [(tag, block)];
      TailLacks(entries, tag);
      DistinctTailAppend(entries, tag, block);
      BlockOfAppend(entries[1..], tag, block, tag);
    } else {
      assert r == entries + [(tag, block)];
      DistinctAppendIf(entries, tag, block);
      BlockOfAppend(entries, tag, block, tag);
    }
  }

  /** Updating a present tag never evicts: the set of keys is unchanged and
      every other tag keeps its block. */
  lemma PutUpdateKeepsOthers(entries: Entries, tag: Tag, block: Block, nWay: nat, blockSize: nat, other: Tag)
    requires HasTag(entries, tag) && |block| <= blockSize && other != tag
    ensures var r := Put(entries, tag, block, nWay, blockSize);
      && r.Success?
      && HasTag(r.value, other) == HasTag(entries, other)
      && BlockOf(r.value, other) == BlockOf(entries, other)
      && (DistinctTags(entries) ==> |r.value| == |entries|)
  {
    TagsWithout(entries, tag);
    BlockOfWithout(entries, tag, other);
    BlockOfAppend(Without(entries, tag), tag, block, other);
  }

  /** Inserting an absent tag into a full set evicts exactly the oldest
      entry: every other tag keeps its block. Into a set that is not full,
      the empty set of the first insert included, it evicts nothing. Only a
      set of no ways at all, where `popitem` finds nothing to evict, is
      excluded. */
  lemma PutInsertEvictsOldest(entries: Entries, tag: Tag, block: Block, nWay: nat, blockSize: nat, other: Tag)
    requires DistinctTags(entries) && !HasTag(entries, tag) && |block| <= blockSize && (entries != [] || nWay >= 1)
    requires other != tag
    ensures var r := Put(entries, tag, block, nWay, blockSize);
      && r.Success?
      && (|entries| >= nWay ==> BlockOf(r.value, other) == if other == entries[0].0 then None else BlockOf(entries, other))
      && (|entries| >= nWay ==> |r.value| == |entries|)
      && (|entries| < nWay ==> BlockOf(r.value, other) == BlockOf(entries, other) && |r.value| == |entries| + 1)
  {
    if |entries| >= nWay {
      TailLacks(entries, tag);
      BlockOfAppend(entries[1..], tag, block, other);
      BlockOfTail(entries, other);
    } else {
      BlockOfAppend(entries, tag, block, other);
    }
  }

  /** `move_to_end(tag)` of `access`: a present tag becomes the newest
      entry; an absent tag changes nothing. The keys stay the same. */
  function MoveToEnd(entries: Entries, tag: Tag): (r: Entries)
    ensures forall t :: HasTag(r, t) <==> HasTag(entries, t)
    ensures !HasTag(entries, tag) ==> r == entries
  {
    match BlockOf(entries, tag)
    case None => entries
    case Some(b) =>
      TagsWithout(entries, tag);
      TagsAppend(Without(entries, tag), tag, b);
      Without(entries, tag) + [(tag, b)]
  }

  /** Moving a tag to the end reorders the dictionary without changing any
      key's block. */
  lemma MoveToEndKeepsBlocks(entries: Entries, tag: Tag, other: Tag)
    ensures BlockOf(MoveToEnd(entries, tag), other) == BlockOf(entries, other)
    ensures DistinctTags(entries) ==> DistinctTags(MoveToEnd(entries, tag))
    ensures HasTag(entries, tag) ==> MoveToEnd(entries, tag)[|MoveToEnd(entries, tag)| - 1].0 == tag
  {
    if HasTag(entries, tag) {
      var b := BlockOf(entries, tag).value;
      TagsWithout(entries, tag);
      BlockOfWithout(entries, tag, other);
      DistinctAppendIf(Without(entries, tag), tag, b);
      BlockOfAppend(Without(entries, tag), tag, b, other);
    }
  }

  /** Writing one datum into a present block keeps every key and its place,
      changes only that block's entry at `offset`, and leaves the other
      blocks alone; for an absent tag it changes nothing. */
  lemma WriteDatumChangesOneEntry(entries: Entries, tag: Tag, offset: nat, data: Datum, other: Tag)
    ensures Tags(WithDatum(entries, tag, offset, data)) == Tags(entries)
    ensures HasTag(entries, tag) ==> BlockOf(WithDatum(entries, tag, offset, data), tag) == Some(BlockOf(entries, tag).value[offset := data])
    ensures other != tag ==> BlockOf(WithDatum(entries, tag, offset, data), other) == BlockOf(entries, other)
    ensures !HasTag(entries, tag) ==> WithDatum(entries, tag, offset, data) == entries
  {
    WithDatumFacts(entries, tag, offset, data, tag);
    WithDatumFacts(entries, tag, offset, data, other);
    if !HasTag(entries, tag) {
      WithDatumAbsent(entries, tag, offset, data);
    }
  }

  // ---------------------------------------------------------------------
  // The set object

  /** A cache set: the ordered dictionary, its associativity and the most
      entries a block may hold. */
  class CacheSet {
    var entries: Entries
    const nWay: nat
    const blockSize: nat

    /** Keys are distinct and the set never holds more than `n_way` blocks. */
    ghost predicate Valid()
      reads this
    {
      DistinctTags(entries) && |entries| <= nWay
    }

    constructor (nWay: nat, blockSize: nat := 16)
      ensures Valid()
      ensures entries == []
      ensures this.nWay == nWay && this.blockSize == blockSize
    {
      entries := [];
      this.nWay := nWay;
      this.blockSize := blockSize;
    }

    /** `tag in entries`; changes nothing. */
    method CheckHit(tag: Tag) returns (hit: bool)
      ensures hit <==> HasTag(entries, tag)
      ensures hit <==> BlockOf(entries, tag).Some?
    {
      hit := BlockOf(entries, tag).Some?;
    }

    /** Returns the block of a present tag and marks it most recently used. */
    method Access(tag: Tag) returns (r: Option<Block>)
      requires Valid()
      modifies this
      ensures Valid()
      ensures r == BlockOf(old(entries), tag)
      ensures entries == MoveToEnd(old(entries), tag)
    {
      r := BlockOf(entries, tag);
      forall t ensures BlockOf(MoveToEnd(entries, tag), t) == BlockOf(entries, t) {
        MoveToEndKeepsBlocks(entries, tag, t);
      }
      MoveToEndKeepsBlocks(entries, tag, tag);
      if r.Some? {
        TagsWithout(entries, tag);
      }
      entries := MoveToEnd(entries, tag);
    }

    /** `add_or_update`; on an exception the set is unchanged. */
    method AddOrUpdate(tag: Tag, block: Block) returns (r: Outcome)
      requires Valid()
      modifies this
      ensures Valid()
      ensures var p := Put(old(entries), tag, block, nWay, blockSize);
        if p.Success? then r == Pass && entries == p.value
        else r == Fail(p.error) && entries == old(entries)
    {
      var p := Put(entries, tag, block, nWay, blockSize);
      if p.Success? {
        PutStores(entries, tag, block, nWay, blockSize);
        entries := p.value;
        r := Pass;
      } else {
        r := Fail(p.error);
      }
    }

    /** `entries.get(tag, None)`; changes nothing. */
    method GetBlock(tag: Tag) returns (r: Option<Block>)
      ensures r == BlockOf(entries, tag)
      ensures r.Some? <==> HasTag(entries, tag)
    {
      r := BlockOf(entries, tag);
    }

    /** `entries[tag][offset] = data`; an absent tag returns `False`
        (`Some(false)`) and changes nothing, a present one returns `None`. */
    method WriteData(tag: Tag, offset: nat, data: Datum) returns (r: Option<bool>)
      requires Valid()
      modifies this
      ensures Valid()
      ensures r == None <==> HasTag(old(entries), tag)
      ensures r != None ==> r == Some(false)
      ensures entries == WithDatum(old(entries), tag, offset, data)
    {
      WriteDatumChangesOneEntry(entries, tag, offset, data, tag);
      if HasTag(entries, tag) {
        assert DistinctTags(WithDatum(entries, tag, offset, data)) by {
          var w := WithDatum(entries, tag, offset, data);
          forall i, j | 0 <= i < j < |w| ensures w[i].0 != w[j].0 {
            assert Tags(w)[i] == Tags(entries)[i] && Tags(w)[j] == Tags(entries)[j];
          }
        }
        entries := WithDatum(entries, tag, offset, data);
        r := None;
      } else {
        r := Some(false);
      }
    }

    /** `entries[tag].get(offset, None)`: an absent tag raises `KeyError`;
        changes nothing. */
    method ReadData(tag: Tag, offset: nat) returns (r: Result<Option<Datum>>)
      ensures r.Failure? <==> !HasTag(entries, tag)
      ensures r.Failure? ==> r.error == KeyError
      ensures r.Success? ==> r.value == DatumAt(BlockOf(entries, tag).value, offset)
    {
      var b := BlockOf(entries, tag);
      if b.Some? {
        r := Success(DatumAt(b.value, offset));
      } else {
        r := Failure(KeyError);
      }
    }
  }
}
