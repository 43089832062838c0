/** The stand-alone n-way set-associative cache with least-recently-used
    replacement: per set, the tags it holds and a usage counter per tag; a
    hit or an insertion gives the tag a counter one above the set's largest,
    and a miss into a full set evicts the tag with the smallest counter. */
module NwayLru {
  import opened Bits

  type Tag = nat

  /** The constants a cache is built with. */
  datatype LruConfig = LruConfig(n: nat, blockSize: nat, numSets: nat)

  /** Sizes for which access is defined: otherwise `num_sets` divides by
      zero, a shift count is negative or `min` sees an empty set. */
  predicate ConfigOk(c: LruConfig)
  {
    c.n >= 1 && c.blockSize >= 1 && c.numSets >= 1
  }

  /** `cache_size // (block_size * n)`. */
  function NumSetsFor(cacheSize: nat, blockSize: nat, n: nat): nat
    requires blockSize >= 1 && n >= 1
  {
    cacheSize / (blockSize * n)
  }

  /** `_get_set_index`: `(address >> offset_bits) & ((1 << index_bits) - 1)`
      with `offset_bits = block_size.bit_length() - 1` and
      `index_bits = num_sets.bit_length() - 1`. It names an existing set. */
  function SetIndexOf(c: LruConfig, address: nat): (r: nat)
    requires ConfigOk(c)
    ensures r == Shr(address, BitLength(c.blockSize) - 1) % Pow2(BitLength(c.numSets) - 1)
    ensures r < c.numSets
  {
    var blockNumber := Shr(address, BitLength(c.blockSize) - 1);
    var sets := Pow2(BitLength(c.numSets) - 1);
    AndLowMask(blockNumber, BitLength(c.numSets) - 1);
    BitLengthBounds(c.numSets);
    assert blockNumber % sets < sets <= c.numSets;
    And(blockNumber, sets - 1)
  }

  /** The tag of `access_cache`: the address shifted right by
      `set_index.bit_length() + block_size.bit_length() - 1`. The tag drops
      low bits of the address and never exceeds it. */
  function TagOf(c: LruConfig, address: nat): (r: Tag)
    requires ConfigOk(c)
    ensures r <= address
  {
    var k := BitLength(SetIndexOf(c, address)) + BitLength(c.blockSize) - 1;
    ShrIsDiv(address, k);
    DivAtMost(address, Pow2(k));
    Shr(address, k)
  }

  // ---------------------------------------------------------------------
  // max and min over a set's counters

  /** `r` is `max(usage.values(), default=0)`. */
  predicate IsMax(usage: map<Tag, nat>, r: nat)
  {
    (forall k :: k in usage ==> usage[k] <= r) && (r == 0 || exists k :: k in usage && usage[k] == r)
  }

  lemma {:induction false} MaxExists(usage: map<Tag, nat>)
    ensures exists r :: IsMax(usage, r)
    decreases |usage|
  {
    if usage == map[] {
      assert IsMax(usage, 0);
    } else {
      var k :| k in usage;
      var rest := usage - {k};
      assert |rest| < |usage| by {
        assert rest.Keys == usage.Keys - {k};
      }
      MaxExists(rest);
      var r :| IsMax(rest, r);
      var m := if usage[k] >= r then usage[k] else r;
      forall k' | k' in usage ensures usage[k'] <= m {
        if k' != k {
          assert k' in rest;
        }
      }
      if m == r && r != 0 {
        var j :| j in rest && rest[j] == r;
        assert j in usage && usage[j] == m;
      }
      assert IsMax(usage, m);
    }
  }

  /** The maximum is unique. */
  lemma MaxUnique(usage: map<Tag, nat>, r1: nat, r2: nat)
    requires IsMax(usage, r1) && IsMax(usage, r2)
    ensures r1 == r2
  {
  }

  /** `max(usage.values(), default=0)`. */
  ghost function MaxValue(usage: map<Tag, nat>): (r: nat)
    ensures IsMax(usage, r)
  {
    MaxExists(usage);
    var r :| IsMax(usage, r);
    r
  }

  /** `k` is a key whose counter is the smallest. */
  predicate IsMinKey(usage: map<Tag, nat>, k: Tag)
  {
    k in usage && forall k' :: k' in usage ==> usage[k] <= usage[k']
  }

  lemma {:induction false} MinKeyExists(usage: map<Tag, nat>)
    requires usage != map[]
    ensures exists k :: IsMinKey(usage, k)
    decreases |usage|
  {
    var k :| k in usage;
    var rest := usage - {k};
    assert |rest| < |usage| by {
      assert rest.Keys == usage.Keys - {k};
    }
    if rest == map[] {
      assert IsMinKey(usage, k);
    } else {
      MinKeyExists(rest);
      var j :| IsMinKey(rest, j);
      var m := if usage[k] <= usage[j] then k else j;
      forall k' | k' in usage ensures usage[m] <= usage[k'] {
        if k' != k {
          assert k' in rest;
        }
      }
      assert IsMinKey(usage, m);
    }
  }

  /** Counters of a set are pairwise distinct. */
  predicate Injective(usage: map<Tag, nat>)
  {
    forall a, b :: a in usage && b in usage && a != b ==> usage[a] != usage[b]
  }

  /** With distinct counters the least recently used tag is unique. */
  lemma MinKeyUnique(usage: map<Tag, nat>, k1: Tag, k2: Tag)
    requires Injective(usage) && IsMinKey(usage, k1) && IsMinKey(usage, k2)
    ensures k1 == k2
  {
  }

  /** `min(usage, key=usage.get)`. */
  ghost function LruVictim(usage: map<Tag, nat>): (k: Tag)
    requires usage != map[]
    ensures IsMinKey(usage, k)
  {
    MinKeyExists(usage);
    var k :| IsMinKey(usage, k);
    k
  }

  // ---------------------------------------------------------------------
  // One access as a function of the state

  /** The cache contents: `cache[s]` (as the set of its keys) and
      `usage_order[s]` for every set `s`. */
  datatype LruState = LruState(cache: seq<set<Tag>>, usage: seq<map<Tag, nat>>)

  /** Every set empty. */
  function EmptyState(numSets: nat): (r: LruState)
    ensures |r.cache| == |r.usage| == numSets
  {
    LruState(seq(numSets, _ => {}), seq(numSets, _ => map[]))
  }

  /** The invariant of one set: its tags are its counters' keys, there are
      at most `n` and the counters are distinct. */
  predicate SetOk(tags: set<Tag>, usage: map<Tag, nat>, n: nat)
  {
    tags == usage.Keys && |tags| <= n && Injective(usage)
  }

  predicate StateOk(c: LruConfig, st: LruState)
  {
    && |st.cache| == c.numSets
    && |st.usage| == c.numSets
    && forall s :: 0 <= s < c.numSets ==> SetOk(st.cache[s], st.usage[s], c.n)
  }

  /** `access_cache` on one set: the set's new tags and counters, and
      whether it was a hit. */
  ghost function AccessSet(tags: set<Tag>, usage: map<Tag, nat>, tag: Tag, n: nat): (r: (set<Tag>, map<Tag, nat>, bool))
    requires tags == usage.Keys && n >= 1
    ensures r.0 == r.1.Keys
  {
    if tag in tags then (tags, Touch(usage, tag), true)
    else if |tags| < n then (tags + {tag}, Touch(usage, tag), false)
    else
      var victim := LruVictim(usage);
      (tags - {victim} + {tag}, Touch(usage - {victim}, tag), false)
  }

  /** `usage[tag] = max(usage.values(), default=0) + 1`. */
  ghost function Touch(usage: map<Tag, nat>, tag: Tag): (r: map<Tag, nat>)
    ensures r.Keys == usage.Keys + {tag}
  {
    usage[tag := MaxValue(usage) + 1]
  }

  /** `access_cache(address)`: the new state and the hit flag, which is set
      exactly when the address's set already held its tag. */
  ghost function Access(c: LruConfig, st: LruState, address: nat): (r: (LruState, bool))
    requires ConfigOk(c) && StateOk(c, st)
    ensures r.1 <==> TagOf(c, address) in st.cache[SetIndexOf(c, address)]
    ensures |r.0.cache| == |st.cache| && |r.0.usage| == |st.usage|
  {
    var s := SetIndexOf(c, address);
    var (tags, usage, hit) := AccessSet(st.cache[s], st.usage[s], TagOf(c, address), c.n);
    (LruState(st.cache[s := tags], st.usage[s := usage]), hit)
  }

  // ---------------------------------------------------------------------
  // Properties of one access

  /** Giving `tag` the counter `max + 1` puts it strictly above every other
      counter, so distinct counters stay distinct. */
  lemma BumpIsNewest(usage: map<Tag, nat>, tag: Tag)
    requires Injective(usage)
    ensures var usage' := usage[tag := MaxValue(usage) + 1];
      && Injective(usage')
      && forall k :: k in usage' && k != tag ==> usage'[k] < usage'[tag]
  {
    var usage' := usage[tag := MaxValue(usage) + 1];
    forall k | k in usage' && k != tag ensures usage'[k] < usage'[tag] {
      assert usage'[k] == usage[k];
    }
  }

  /** Evicting the victim and inserting `tag` keeps the size and the
      invariant. */
  lemma EvictKeepsSetOk(tags: set<Tag>, usage: map<Tag, nat>, tag: Tag, n: nat)
    requires SetOk(tags, usage, n) && tag !in tags && |tags| >= n >= 1
    ensures var kept := usage - {LruVictim(usage)};
      && SetOk(tags - {LruVictim(usage)} + {tag}, kept[tag := MaxValue(kept) + 1], n)
      && (forall k :: k in kept && k != tag ==> kept[k] < MaxValue(kept) + 1)
  {
    var victim := LruVictim(usage);
    var kept := usage - {victim};
    assert Injective(kept);
    BumpIsNewest(kept, tag);
    assert tags - {victim} == kept.Keys;
    assert |tags - {victim}| == |tags| - 1;
    assert |tags - {victim} + {tag}| == |tags|;
  }

  /** An access keeps the set invariant: at most `n` tags, the tags are the
      counters' keys, and the counters stay distinct because the accessed
      tag's counter ends strictly above every other counter of the set. */
  lemma AccessKeepsSetOk(tags: set<Tag>, usage: map<Tag, nat>, tag: Tag, n: nat)
    requires SetOk(tags, usage, n) && n >= 1
    ensures SetOk(AccessSet(tags, usage, tag, n).0, AccessSet(tags, usage, tag, n).1, n)
    ensures tag in AccessSet(tags, usage, tag, n).1
    ensures forall k :: k in AccessSet(tags, usage, tag, n).1 && k != tag ==>
      AccessSet(tags, usage, tag, n).1[k] < AccessSet(tags, usage, tag, n).1[tag]
  {
    if tag in tags {
      BumpIsNewest(usage, tag);
    } else if |tags| < n {
      BumpIsNewest(usage, tag);
      assert |tags + {tag}| == |tags| + 1;
    } else {
      EvictKeepsSetOk(tags, usage, tag, n);
    }
  }

  /** A hit returns `True` and keeps the set's tags; a miss returns `False`
      and afterwards the tag is present. A miss into a set with room adds
      just the tag; a miss into a full set removes exactly the tag with the
      smallest counter. */
  lemma AccessHitOrMiss(tags: set<Tag>, usage: map<Tag, nat>, tag: Tag, n: nat)
    requires SetOk(tags, usage, n) && n >= 1
    ensures var (tags', _, hit) := AccessSet(tags, usage, tag, n);
      && (hit <==> tag in tags)
      && (hit ==> tags' == tags)
      && (!hit ==> tag in tags')
      && (!hit && |tags| < n ==> tags' == tags + {tag})
      && (!hit && |tags| >= n ==> exists v :: IsMinKey(usage, v) && tags' == tags - {v} + {tag})
  {
    if tag !in tags && |tags| >= n {
      assert IsMinKey(usage, LruVictim(usage));
    }
  }

  /** The smallest counter is unique, so "the" least recently used tag is
      well defined: any tag with the smallest counter is the one evicted. */
  lemma VictimIsTheMinimum(usage: map<Tag, nat>, k: Tag)
    requires Injective(usage) && IsMinKey(usage, k)
    ensures LruVictim(usage) == k
  {
    MinKeyUnique(usage, k, LruVictim(usage));
  }

  /** An access changes only the addressed set and keeps the invariant. */
  lemma AccessTouchesOneSet(c: LruConfig, st: LruState, address: nat)
    requires ConfigOk(c) && StateOk(c, st)
    ensures var (st', _) := Access(c, st, address);
      && StateOk(c, st')
      && forall s :: 0 <= s < c.numSets && s != SetIndexOf(c, address) ==>
           st'.cache[s] == st.cache[s] && st'.usage[s] == st.usage[s]
  {
    var s := SetIndexOf(c, address);
    AccessKeepsSetOk(st.cache[s], st.usage[s], TagOf(c, address), c.n);
  }

  // ---------------------------------------------------------------------
  // A run over an address list

  /** The hit flags of accessing `addrs[i..]` in order, and the final state. */
  ghost function RunFrom(c: LruConfig, st: LruState, addrs: seq<nat>, i: nat): (r: (seq<bool>, LruState))
    requires ConfigOk(c) && StateOk(c, st) && i <= |addrs|
    ensures |r.0| == |addrs| - i
    decreases |addrs| - i
  {
    if i == |addrs| then ([], st)
    else
      var (st', hit) := Access(c, st, addrs[i]);
      AccessTouchesOneSet(c, st, addrs[i]);
      var rest := RunFrom(c, st', addrs, i + 1);
      ([hit] + rest.0, rest.1)
  }

  /** One step of a run: the first access, then the rest of the run. */
  lemma RunFromStep(c: LruConfig, st: LruState, addrs: seq<nat>, i: nat)
    requires ConfigOk(c) && StateOk(c, st) && i < |addrs|
    ensures StateOk(c, Access(c, st, addrs[i]).0)
    ensures RunFrom(c, st, addrs, i).0 == [Access(c, st, addrs[i]).1] + RunFrom(c, Access(c, st, addrs[i]).0, addrs, i + 1).0
    ensures RunFrom(c, st, addrs, i).1 == RunFrom(c, Access(c, st, addrs[i]).0, addrs, i + 1).1
  {
    AccessTouchesOneSet(c, st, addrs[i]);
  }

  /** A run, `run`, seen as the flags so far, `prefix`, and the rest from
      state `st` at position `i`: one more access moves one flag to the
      prefix. */
  lemma RunFromExtend(c: LruConfig, run: (seq<bool>, LruState), st: LruState, addrs: seq<nat>, i: nat, prefix: seq<bool>)
    requires ConfigOk(c) && StateOk(c, st) && i < |addrs|
    requires run.0 == prefix + RunFrom(c, st, addrs, i).0
    requires run.1 == RunFrom(c, st, addrs, i).1
    ensures StateOk(c, Access(c, st, addrs[i]).0)
    ensures run.0 == (prefix + [Access(c, st, addrs[i]).1]) + RunFrom(c, Access(c, st, addrs[i]).0, addrs, i + 1).0
    ensures run.1 == RunFrom(c, Access(c, st, addrs[i]).0, addrs, i + 1).1
  {
    RunFromStep(c, st, addrs, i);
  }

  /** The addresses `test_lru_effectiveness` uses when given none. */
  const DefaultAddrs: seq<nat> := [0x1000_0000, 0x2000_0000, 0x3000_0000, 0x4000_0000, 0x1000_0000, 0x2000_0000, 0x5000_0000, 0x1000_0000]

  /** With 64-byte blocks and 8 or 16 sets every default address falls in
      set 0 and its tag is the address divided by 64. */
  lemma DefaultAddrsShareSetZero(c: LruConfig, i: nat)
    requires c.n >= 1 && c.blockSize == 64 && (c.numSets == 8 || c.numSets == 16) && i < |DefaultAddrs|
    ensures SetIndexOf(c, DefaultAddrs[i]) == 0
    ensures TagOf(c, DefaultAddrs[i]) == DefaultAddrs[i] / 64
  {
    var a := DefaultAddrs[i];
    if a == 0x1000_0000 {
      SetZeroForMultiples(c, a, 1);
    } else if a == 0x2000_0000 {
      SetZeroForMultiples(c, a, 2);
    } else if a == 0x3000_0000 {
      SetZeroForMultiples(c, a, 3);
    } else if a == 0x4000_0000 {
      SetZeroForMultiples(c, a, 4);
    } else {
      assert a == 0x5000_0000;
      SetZeroForMultiples(c, a, 5);
    }
  }

  /** Multiples of `0x1000_0000` fall in set 0 with 64-byte blocks and 8 or
      16 sets. */
  lemma SetZeroForMultiples(c: LruConfig, a: nat, k: nat)
    requires c.n >= 1 && c.blockSize == 64 && (c.numSets == 8 || c.numSets == 16) && a == 0x1000_0000 * k
    ensures SetIndexOf(c, a) == 0
    ensures TagOf(c, a) == a / 64
  {
    assert Pow2(6) == 64;
    BitLengthPow2(6);
    ShrIsDiv(a, 6);
    DivModUnique(a, 64, 0x40_0000 * k, 0);
    if c.numSets == 8 {
      BitLengthPow2(3);
      DivModUnique(0x40_0000 * k, 8, 0x8_0000 * k, 0);
    } else {
      BitLengthPow2(4);
      DivModUnique(0x40_0000 * k, 16, 0x4_0000 * k, 0);
    }
    assert Pow2(BitLength(c.numSets) - 1) == c.numSets;
  }

  /** The maximum is the one `IsMax` names. */
  lemma MaxValueIs(usage: map<Tag, nat>, r: nat)
    requires IsMax(usage, r)
    ensures MaxValue(usage) == r
  {
    MaxUnique(usage, r, MaxValue(usage));
  }

  /** The three cases of `AccessSet` with the maximum and the victim named. */
  lemma HitCase(tags: set<Tag>, usage: map<Tag, nat>, tag: Tag, n: nat, m: nat)
    requires tags == usage.Keys && n >= 1 && tag in tags && IsMax(usage, m)
    ensures AccessSet(tags, usage, tag, n) == (tags, usage[tag := m + 1], true)
  {
    MaxValueIs(usage, m);
  }

  lemma RoomCase(tags: set<Tag>, usage: map<Tag, nat>, tag: Tag, n: nat, m: nat)
    requires tags == usage.Keys && n >= 1 && tag !in tags && |tags| < n && IsMax(usage, m)
    ensures AccessSet(tags, usage, tag, n) == (tags + {tag}, usage[tag := m + 1], false)
  {
    assert AccessSet(tags, usage, tag, n) == (tags + {tag}, Touch(usage, tag), false);
    MaxValueIs(usage, m);
  }

  lemma EvictCase(tags: set<Tag>, usage: map<Tag, nat>, tag: Tag, n: nat, v: Tag, kept: map<Tag, nat>, m: nat)
    requires tags == usage.Keys && n >= 1 && tag !in tags && |tags| >= n
    requires Injective(usage) && IsMinKey(usage, v) && kept == usage - {v} && IsMax(kept, m)
    ensures AccessSet(tags, usage, tag, n) == (tags - {v} + {tag}, kept[tag := m + 1], false)
  {
    VictimIsTheMinimum(usage, v);
    MaxValueIs(kept, m);
  }

  /** The tags `access_cache` computes for a list of addresses. */
  function TagsOf(c: LruConfig, addrs: seq<nat>): (r: seq<Tag>)
    requires ConfigOk(c)
    ensures |r| == |addrs| && forall j :: 0 <= j < |addrs| ==> r[j] == TagOf(c, addrs[j])
  {
    seq(|addrs|, j requires 0 <= j < |addrs| => TagOf(c, addrs[j]))
  }

  /** The hit flags of accessing the tags `ts[i..]` in one set. */
  ghost function RunSetFrom(tags: set<Tag>, usage: map<Tag, nat>, ts: seq<Tag>, n: nat, i: nat): (r: seq<bool>)
    requires tags == usage.Keys && n >= 1 && i <= |ts|
    ensures |r| == |ts| - i
    decreases |ts| - i
  {
    if i == |ts| then []
    else
      var x := AccessSet(tags, usage, ts[i], n);
      [x.2] + RunSetFrom(x.0, x.1, ts, n, i + 1)
  }

  /** A run whose addresses all fall in set `s` behaves as set `s` alone
      accessed with their tags. */
  lemma {:induction false} RunStaysInSet(c: LruConfig, st: LruState, addrs: seq<nat>, i: nat, s: nat)
    requires ConfigOk(c) && StateOk(c, st) && i <= |addrs| && s < c.numSets
    requires forall j :: i <= j < |addrs| ==> SetIndexOf(c, addrs[j]) == s
    ensures RunFrom(c, st, addrs, i).0 == RunSetFrom(st.cache[s], st.usage[s], TagsOf(c, addrs), c.n, i)
    decreases |addrs| - i
  {
    if i < |addrs| {
      AccessTouchesOneSet(c, st, addrs[i]);
      AccessKeepsSetOk(st.cache[s], st.usage[s], TagOf(c, addrs[i]), c.n);
      var st' := Access(c, st, addrs[i]).0;
      RunStaysInSet(c, st', addrs, i + 1, s);
    }
  }

  /** One step of a run in one set, given what the access does. */
  lemma SetRunStep(tags: set<Tag>, usage: map<Tag, nat>, ts: seq<Tag>, n: nat, i: nat, tags': set<Tag>, usage': map<Tag, nat>, hit: bool)
    requires SetOk(tags, usage, n) && n >= 1 && i < |ts|
    requires AccessSet(tags, usage, ts[i], n) == (tags', usage', hit)
    ensures SetOk(tags', usage', n)
    ensures RunSetFrom(tags, usage, ts, n, i) == [hit] + RunSetFrom(tags', usage', ts, n, i + 1)
  {
    AccessKeepsSetOk(tags, usage, ts[i], n);
  }

  /** The default addresses' tags. */
  lemma DefaultTags(c: LruConfig)
    requires c.n >= 1 && c.blockSize == 64 && (c.numSets == 8 || c.numSets == 16)
    ensures TagsOf(c, DefaultAddrs) == [0x40_0000, 0x80_0000, 0xC0_0000, 0x100_0000, 0x40_0000, 0x80_0000, 0x140_0000, 0x40_0000]
    ensures forall j :: 0 <= j < |DefaultAddrs| ==> SetIndexOf(c, DefaultAddrs[j]) == 0
  {
    forall j | 0 <= j < |DefaultAddrs|
      ensures SetIndexOf(c, DefaultAddrs[j]) == 0 && TagOf(c, DefaultAddrs[j]) == DefaultAddrs[j] / 64
    {
      DefaultAddrsShareSetZero(c, j);
    }
  }

  /** In a full two-way set whose counters are `m` and `m + 1`, a new tag
      evicts the older one and becomes the newer. */
  lemma TwoWayEvict(v: Tag, w: Tag, t: Tag, m: nat)
    requires v != w && t != v && t != w
    ensures AccessSet({v, w}, map[v := m, w := m + 1], t, 2) == ({w, t}, map[w := m + 1, t := m + 2], false)
  {
    TwoWayVictim(v, w, m);
    EvictCase({v, w}, map[v := m, w := m + 1], t, 2, v, map[w := m + 1], m + 1);
    SwapOneOfTwo(v, w, t);
  }

  /** In a two-way set with counters `m` and `m + 1` the first tag is the
      victim, and the other keeps the largest counter. */
  lemma TwoWayVictim(v: Tag, w: Tag, m: nat)
    requires v != w
    ensures IsMinKey(map[v := m, w := m + 1], v)
    ensures Injective(map[v := m, w := m + 1])
    ensures map[v := m, w := m + 1] - {v} == map[w := m + 1]
    ensures IsMax(map[w := m + 1], m + 1)
  {
    assert w in map[w := m + 1];
  }

  lemma SwapOneOfTwo(v: Tag, w: Tag, t: Tag)
    requires v != w && t != v
    ensures {v, w} - {v} + {t} == {w, t}
  {
  }

  /** The shape of the default address list: five distinct tags accessed
      in the order A B C D A B E A. */
  predicate DefaultPattern(ts: seq<Tag>)
  {
    && |ts| == 8 && ts[4] == ts[0] && ts[5] == ts[1] && ts[7] == ts[0]
    && ts[0] != ts[1] && ts[0] != ts[2] && ts[0] != ts[3] && ts[0] != ts[6]
    && ts[1] != ts[2] && ts[1] != ts[3] && ts[1] != ts[6]
    && ts[2] != ts[3] && ts[2] != ts[6] && ts[3] != ts[6]
  }

  /** Eight flags written as a chain of one-element sequences. */
  lemma EightFlags(h: seq<bool>)
    requires |h| == 8
    ensures [h[0]] + ([h[1]] + ([h[2]] + ([h[3]] + ([h[4]] + ([h[5]] + ([h[6]] + ([h[7]] + []))))))) == h
  {
  }

  // The runs of the default tags through set 0. `TwoWayAccessK` and
  // `FourWayAccessK` state what access K does to the set; `TwoWayFromK` and
  // `FourWayFromK` give the flags of the accesses after the first K, proved
  // backwards from the end.

  /** Access 1 of the two-way run misses the empty set. */
  lemma TwoWayAccess1(ts: seq<Tag>)
    requires DefaultPattern(ts)
    ensures AccessSet({}, map[], ts[0], 2) == ({ts[0]}, map[ts[0] := 1], false)
  {
    RoomCase({}, map[], ts[0], 2, 0);
  }

  /** Access 2 of the two-way run misses and finds room. */
  lemma TwoWayAccess2(ts: seq<Tag>)
    requires DefaultPattern(ts)
    ensures AccessSet({ts[0]}, map[ts[0] := 1], ts[1], 2) == ({ts[0], ts[1]}, map[ts[0] := 1, ts[1] := 2], false)
  {
    assert ts[0] in map[ts[0] := 1];
    RoomCase({ts[0]}, map[ts[0] := 1], ts[1], 2, 1);
    assert {ts[0]} + {ts[1]} == {ts[0], ts[1]};
  }

  /** The two-way run after its first 8 accesses. */
  lemma TwoWayFrom8(ts: seq<Tag>)
    requires DefaultPattern(ts)
    ensures RunSetFrom({ts[6], ts[7]}, map[ts[6] := 7, ts[7] := 8], ts, 2, 8) == []
  {
  }

  /** The two-way run after its first 7 accesses. */
  lemma TwoWayFrom7(ts: seq<Tag>)
    requires DefaultPattern(ts)
    ensures RunSetFrom({ts[5], ts[6]}, map[ts[5] := 6, ts[6] := 7], ts, 2, 7) == [false] + []
  {
    TwoWayEvict(ts[5], ts[6], ts[7], 6);
    SetRunStep({ts[5], ts[6]}, map[ts[5] := 6, ts[6] := 7], ts, 2, 7, {ts[6], ts[7]}, map[ts[6] := 7, ts[7] := 8], false);
    TwoWayFrom8(ts);
  }

  /** The two-way run after its first 6 accesses. */
  lemma TwoWayFrom6(ts: seq<Tag>)
    requires DefaultPattern(ts)
    ensures RunSetFrom({ts[4], ts[5]}, map[ts[4] := 5, ts[5] := 6], ts, 2, 6) == [false] + ([false] + [])
  {
    TwoWayEvict(ts[4], ts[5], ts[6], 5);
    SetRunStep({ts[4], ts[5]}, map[ts[4] := 5, ts[5] := 6], ts, 2, 6, {ts[5], ts[6]}, map[ts[5] := 6, ts[6] := 7], false);
    TwoWayFrom7(ts);
  }

  /** The two-way run after its first 5 accesses. */
  lemma TwoWayFrom5(ts: seq<Tag>)
    requires DefaultPattern(ts)
    ensures RunSetFrom({ts[3], ts[4]}, map[ts[3] := 4, ts[4] := 5], ts, 2, 5) == [false] + ([false] + ([false] + []))
  {
    TwoWayEvict(ts[3], ts[4], ts[5], 4);
    SetRunStep({ts[3], ts[4]}, map[ts[3] := 4, ts[4] := 5], ts, 2, 5, {ts[4], ts[5]}, map[ts[4] := 5, ts[5] := 6], false);
    TwoWayFrom6(ts);
  }

  /** The two-way run after its first 4 accesses. */
  lemma TwoWayFrom4(ts: seq<Tag>)
    requires DefaultPattern(ts)
    ensures RunSetFrom({ts[2], ts[3]}, map[ts[2] := 3, ts[3] := 4], ts, 2, 4) == [false] + ([false] + ([false] + ([false] + [])))
  {
    TwoWayEvict(ts[2], ts[3], ts[4], 3);
    SetRunStep({ts[2], ts[3]}, map[ts[2] := 3, ts[3] := 4], ts, 2, 4, {ts[3], ts[4]}, map[ts[3] := 4, ts[4] := 5], false);
    TwoWayFrom5(ts);
  }

  /** The two-way run after its first 3 accesses. */
  lemma TwoWayFrom3(ts: seq<Tag>)
    requires DefaultPattern(ts)
    ensures RunSetFrom({ts[1], ts[2]}, map[ts[1] := 2, ts[2] := 3], ts, 2, 3) == [false] + ([false] + ([false] + ([false] + ([false] + []))))
  {
    TwoWayEvict(ts[1], ts[2], ts[3], 2);
    SetRunStep({ts[1], ts[2]}, map[ts[1] := 2, ts[2] := 3], ts, 2, 3, {ts[2], ts[3]}, map[ts[2] := 3, ts[3] := 4], false);
    TwoWayFrom4(ts);
  }

  /** The two-way run after its first 2 accesses. */
  lemma TwoWayFrom2(ts: seq<Tag>)
    requires DefaultPattern(ts)
    ensures RunSetFrom({ts[0], ts[1]}, map[ts[0] := 1, ts[1] := 2], ts, 2, 2) == [false] + ([false] + ([false] + ([false] + ([false] + ([false] + [])))))
  {
    TwoWayEvict(ts[0], ts[1], ts[2], 1);
    SetRunStep({ts[0], ts[1]}, map[ts[0] := 1, ts[1] := 2], ts, 2, 2, {ts[1], ts[2]}, map[ts[1] := 2, ts[2] := 3], false);
    TwoWayFrom3(ts);
  }

  /** The two-way run after its first 1 accesses. */
  lemma TwoWayFrom1(ts: seq<Tag>)
    requires DefaultPattern(ts)
    ensures RunSetFrom({ts[0]}, map[ts[0] := 1], ts, 2, 1) == [false] + ([false] + ([false] + ([false] + ([false] + ([false] + ([false] + []))))))
  {
    TwoWayAccess2(ts);
    SetRunStep({ts[0]}, map[ts[0] := 1], ts, 2, 1, {ts[0], ts[1]}, map[ts[0] := 1, ts[1] := 2], false);
    TwoWayFrom2(ts);
  }

  /** Two ways: the five tags cycle through two slots, each miss into the
      full set evicting the least recently used tag, and every access misses. */
  lemma TwoWaySetRun(ts: seq<Tag>)
    requires DefaultPattern(ts)
    ensures RunSetFrom({}, map[], ts, 2, 0) == [false, false, false, false, false, false, false, false]
  {
    TwoWayAccess1(ts);
    SetRunStep({}, map[], ts, 2, 0, {ts[0]}, map[ts[0] := 1], false);
    EightFlags([false, false, false, false, false, false, false, false]);
    TwoWayFrom1(ts);
  }

  /** Access 1 of the four-way run misses the empty set. */
  lemma FourWayAccess1(ts: seq<Tag>)
    requires DefaultPattern(ts)
    ensures AccessSet({}, map[], ts[0], 4) == ({ts[0]}, map[ts[0] := 1], false)
  {
    RoomCase({}, map[], ts[0], 4, 0);
  }

  /** Access 2 of the four-way run misses and finds room. */
  lemma FourWayAccess2(ts: seq<Tag>)
    requires DefaultPattern(ts)
    ensures AccessSet({ts[0]}, map[ts[0] := 1], ts[1], 4) == ({ts[0], ts[1]}, map[ts[0] := 1, ts[1] := 2], false)
  {
    assert ts[0] in map[ts[0] := 1];
    RoomCase({ts[0]}, map[ts[0] := 1], ts[1], 4, 1);
    assert {ts[0]} + {ts[1]} == {ts[0], ts[1]};
  }

  /** Access 3 of the four-way run misses and finds room. */
  lemma FourWayAccess3(ts: seq<Tag>)
    requires DefaultPattern(ts)
    ensures AccessSet({ts[0], ts[1]}, map[ts[0] := 1, ts[1] := 2], ts[2], 4) == ({ts[0], ts[1], ts[2]}, map[ts[0] := 1, ts[1] := 2, ts[2] := 3], false)
  {
    assert ts[1] in map[ts[0] := 1, ts[1] := 2];
    RoomCase({ts[0], ts[1]}, map[ts[0] := 1, ts[1] := 2], ts[2], 4, 2);
    assert {ts[0], ts[1]} + {ts[2]} == {ts[0], ts[1], ts[2]};
  }

  /** Access 4 of the four-way run misses and finds room. */
  lemma FourWayAccess4(ts: seq<Tag>)
    requires DefaultPattern(ts)
    ensures AccessSet({ts[0], ts[1], ts[2]}, map[ts[0] := 1, ts[1] := 2, ts[2] := 3], ts[3], 4) == ({ts[0], ts[1], ts[2], ts[3]}, map[ts[0] := 1, ts[1] := 2, ts[2] := 3, ts[3] := 4], false)
  {
    assert ts[2] in map[ts[0] := 1, ts[1] := 2, ts[2] := 3];
    RoomCase({ts[0], ts[1], ts[2]}, map[ts[0] := 1, ts[1] := 2, ts[2] := 3], ts[3], 4, 3);
    assert {ts[0], ts[1], ts[2]} + {ts[3]} == {ts[0], ts[1], ts[2], ts[3]};
  }

  /** Access 5 of the four-way run hits. */
  lemma FourWayAccess5(ts: seq<Tag>)
    requires DefaultPattern(ts)
    ensures AccessSet({ts[0], ts[1], ts[2], ts[3]}, map[ts[0] := 1, ts[1] := 2, ts[2] := 3, ts[3] := 4], ts[4], 4) == ({ts[0], ts[1], ts[2], ts[3]}, map[ts[0] := 5, ts[1] := 2, ts[2] := 3, ts[3] := 4], true)
  {
    assert ts[3] in map[ts[0] := 1, ts[1] := 2, ts[2] := 3, ts[3] := 4];
    HitCase({ts[0], ts[1], ts[2], ts[3]}, map[ts[0] := 1, ts[1] := 2, ts[2] := 3, ts[3] := 4], ts[4], 4, 4);
    assert map[ts[0] := 1, ts[1] := 2, ts[2] := 3, ts[3] := 4][ts[4] := 5] == map[ts[0] := 5, ts[1] := 2, ts[2] := 3, ts[3] := 4];
  }

  /** Access 6 of the four-way run hits. */
  lemma FourWayAccess6(ts: seq<Tag>)
    requires DefaultPattern(ts)
    ensures AccessSet({ts[0], ts[1], ts[2], ts[3]}, map[ts[0] := 5, ts[1] := 2, ts[2] := 3, ts[3] := 4], ts[5], 4) == ({ts[0], ts[1], ts[2], ts[3]}, map[ts[0] := 5, ts[1] := 6, ts[2] := 3, ts[3] := 4], true)
  {
    assert ts[0] in map[ts[0] := 5, ts[1] := 2, ts[2] := 3, ts[3] := 4];
    HitCase({ts[0], ts[1], ts[2], ts[3]}, map[ts[0] := 5, ts[1] := 2, ts[2] := 3, ts[3] := 4], ts[5], 4, 5);
    assert map[ts[0] := 5, ts[1] := 2, ts[2] := 3, ts[3] := 4][ts[5] := 6] == map[ts[0] := 5, ts[1] := 6, ts[2] := 3, ts[3] := 4];
  }

  /** Access 7 of the four-way run misses the full set and evicts the third tag, whose counter is the smallest. */
  lemma FourWayAccess7(ts: seq<Tag>)
    requires DefaultPattern(ts)
    ensures AccessSet({ts[0], ts[1], ts[2], ts[3]}, map[ts[0] := 5, ts[1] := 6, ts[2] := 3, ts[3] := 4], ts[6], 4) == ({ts[0], ts[1], ts[3], ts[6]}, map[ts[0] := 5, ts[1] := 6, ts[3] := 4, ts[6] := 7], false)
  {
    FourWayVictim(ts[0], ts[1], ts[2], ts[3]);
    FourWayKept(ts[0], ts[1], ts[2], ts[3]);
    EvictCase({ts[0], ts[1], ts[2], ts[3]}, map[ts[0] := 5, ts[1] := 6, ts[2] := 3, ts[3] := 4], ts[6], 4, ts[2], map[ts[0] := 5, ts[1] := 6, ts[3] := 4], 6);
    SwapOneOfFour(ts[0], ts[1], ts[2], ts[3], ts[6]);
  }

  /** In the set of access 7 the third tag has the smallest counter, and
      the counters are distinct. */
  lemma FourWayVictim(a: Tag, b: Tag, c: Tag, d: Tag)
    requires a != b && a != c && a != d && b != c && b != d && c != d
    ensures IsMinKey(map[a := 5, b := 6, c := 3, d := 4], c)
    ensures Injective(map[a := 5, b := 6, c := 3, d := 4])
  {
  }

  /** Removing the victim of access 7 leaves the other three counters, the
      largest of which is 6. */
  lemma FourWayKept(a: Tag, b: Tag, c: Tag, d: Tag)
    requires a != b && a != c && a != d && b != c && b != d && c != d
    ensures map[a := 5, b := 6, c := 3, d := 4] - {c} == map[a := 5, b := 6, d := 4]
    ensures IsMax(map[a := 5, b := 6, d := 4], 6)
  {
    assert b in map[a := 5, b := 6, d := 4];
  }

  lemma SwapOneOfFour(a: Tag, b: Tag, c: Tag, d: Tag, e: Tag)
    requires c != a && c != b && c != d && e != c
    ensures {a, b, c, d} - {c} + {e} == {a, b, d, e}
  {
  }

  /** Access 8 of the four-way run hits. */
  lemma FourWayAccess8(ts: seq<Tag>)
    requires DefaultPattern(ts)
    ensures AccessSet({ts[0], ts[1], ts[3], ts[6]}, map[ts[0] := 5, ts[1] := 6, ts[3] := 4, ts[6] := 7], ts[7], 4) == ({ts[0], ts[1], ts[3], ts[6]}, map[ts[0] := 8, ts[1] := 6, ts[3] := 4, ts[6] := 7], true)
  {
    assert ts[6] in map[ts[0] := 5, ts[1] := 6, ts[3] := 4, ts[6] := 7];
    HitCase({ts[0], ts[1], ts[3], ts[6]}, map[ts[0] := 5, ts[1] := 6, ts[3] := 4, ts[6] := 7], ts[7], 4, 7);
    assert map[ts[0] := 5, ts[1] := 6, ts[3] := 4, ts[6] := 7][ts[7] := 8] == map[ts[0] := 8, ts[1] := 6, ts[3] := 4, ts[6] := 7];
  }

  /** The four-way run after its first 8 accesses. */
  lemma FourWayFrom8(ts: seq<Tag>)
    requires DefaultPattern(ts)
    ensures RunSetFrom({ts[0], ts[1], ts[3], ts[6]}, map[ts[0] := 8, ts[1] := 6, ts[3] := 4, ts[6] := 7], ts, 4, 8) == []
  {
  }

  /** The four-way run after its first 7 accesses. */
  lemma FourWayFrom7(ts: seq<Tag>)
    requires DefaultPattern(ts)
    ensures RunSetFrom({ts[0], ts[1], ts[3], ts[6]}, map[ts[0] := 5, ts[1] := 6, ts[3] := 4, ts[6] := 7], ts, 4, 7) == [true] + []
  {
    FourWayAccess8(ts);
    SetRunStep({ts[0], ts[1], ts[3], ts[6]}, map[ts[0] := 5, ts[1] := 6, ts[3] := 4, ts[6] := 7], ts, 4, 7, {ts[0], ts[1], ts[3], ts[6]}, map[ts[0] := 8, ts[1] := 6, ts[3] := 4, ts[6] := 7], true);
    FourWayFrom8(ts);
  }

  /** The four-way run after its first 6 accesses. */
  lemma FourWayFrom6(ts: seq<Tag>)
    requires DefaultPattern(ts)
    ensures RunSetFrom({ts[0], ts[1], ts[2], ts[3]}, map[ts[0] := 5, ts[1] := 6, ts[2] := 3, ts[3] := 4], ts, 4, 6) == [false] + ([true] + [])
  {
    FourWayAccess7(ts);
    SetRunStep({ts[0], ts[1], ts[2], ts[3]}, map[ts[0] := 5, ts[1] := 6, ts[2] := 3, ts[3] := 4], ts, 4, 6, {ts[0], ts[1], ts[3], ts[6]}, map[ts[0] := 5, ts[1] := 6, ts[3] := 4, ts[6] := 7], false);
    FourWayFrom7(ts);
  }

  /** The four-way run after its first 5 accesses. */
  lemma FourWayFrom5(ts: seq<Tag>)
    requires DefaultPattern(ts)
    ensures RunSetFrom({ts[0], ts[1], ts[2], ts[3]}, map[ts[0] := 5, ts[1] := 2, ts[2] := 3, ts[3] := 4], ts, 4, 5) == [true] + ([false] + ([true] + []))
  {
    FourWayAccess6(ts);
    SetRunStep({ts[0], ts[1], ts[2], ts[3]}, map[ts[0] := 5, ts[1] := 2, ts[2] := 3, ts[3] := 4], ts, 4, 5, {ts[0], ts[1], ts[2], ts[3]}, map[ts[0] := 5, ts[1] := 6, ts[2] := 3, ts[3] := 4], true);
    FourWayFrom6(ts);
  }

  /** The four-way run after its first 4 accesses. */
  lemma FourWayFrom4(ts: seq<Tag>)
    requires DefaultPattern(ts)
    ensures RunSetFrom({ts[0], ts[1], ts[2], ts[3]}, map[ts[0] := 1, ts[1] := 2, ts[2] := 3, ts[3] := 4], ts, 4, 4) == [true] + ([true] + ([false] + ([true] + [])))
  {
    FourWayAccess5(ts);
    SetRunStep({ts[0], ts[1], ts[2], ts[3]}, map[ts[0] := 1, ts[1] := 2, ts[2] := 3, ts[3] := 4], ts, 4, 4, {ts[0], ts[1], ts[2], ts[3]}, map[ts[0] := 5, ts[1] := 2, ts[2] := 3, ts[3] := 4], true);
    FourWayFrom5(ts);
  }

  /** The four-way run after its first 3 accesses. */
  lemma FourWayFrom3(ts: seq<Tag>)
    requires DefaultPattern(ts)
    ensures RunSetFrom({ts[0], ts[1], ts[2]}, map[ts[0] := 1, ts[1] := 2, ts[2] := 3], ts, 4, 3) == [false] + ([true] + ([true] + ([false] + ([true] + []))))
  {
    FourWayAccess4(ts);
    SetRunStep({ts[0], ts[1], ts[2]}, map[ts[0] := 1, ts[1] := 2, ts[2] := 3], ts, 4, 3, {ts[0], ts[1], ts[2], ts[3]}, map[ts[0] := 1, ts[1] := 2, ts[2] := 3, ts[3] := 4], false);
    FourWayFrom4(ts);
  }

  /** The four-way run after its first 2 accesses. */
  lemma FourWayFrom2(ts: seq<Tag>)
    requires DefaultPattern(ts)
    ensures RunSetFrom({ts[0], ts[1]}, map[ts[0] := 1, ts[1] := 2], ts, 4, 2) == [false] + ([false] + ([true] + ([true] + ([false] + ([true] + [])))))
  {
    FourWayAccess3(ts);
    SetRunStep({ts[0], ts[1]}, map[ts[0] := 1, ts[1] := 2], ts, 4, 2, {ts[0], ts[1], ts[2]}, map[ts[0] := 1, ts[1] := 2, ts[2] := 3], false);
    FourWayFrom3(ts);
  }

  /** The four-way run after its first 1 accesses. */
  lemma FourWayFrom1(ts: seq<Tag>)
    requires DefaultPattern(ts)
    ensures RunSetFrom({ts[0]}, map[ts[0] := 1], ts, 4, 1) == [false] + ([false] + ([false] + ([true] + ([true] + ([false] + ([true] + []))))))
  {
    FourWayAccess2(ts);
    SetRunStep({ts[0]}, map[ts[0] := 1], ts, 4, 1, {ts[0], ts[1]}, map[ts[0] := 1, ts[1] := 2], false);
    FourWayFrom2(ts);
  }

  /** Four ways: the four distinct tags fit, the repeated ones hit, and the
      fifth tag evicts the least recently used one (not the oldest
      inserted), so the last access hits. */
  lemma FourWaySetRun(ts: seq<Tag>)
    requires DefaultPattern(ts)
    ensures RunSetFrom({}, map[], ts, 4, 0) == [false, false, false, false, true, true, false, true]
  {
    FourWayAccess1(ts);
    SetRunStep({}, map[], ts, 4, 0, {ts[0]}, map[ts[0] := 1], false);
    EightFlags([false, false, false, false, true, true, false, true]);
    FourWayFrom1(ts);
  }

  /** `SetAssociativeCache(2048, 64, 2).test_lru_effectiveness()`: sixteen
      sets, all default addresses in set 0, and every access misses. */
  lemma TwoWayDefaultRun(c: LruConfig)
    requires c == LruConfig(2, 64, NumSetsFor(2048, 64, 2))
    ensures ConfigOk(c) && StateOk(c, EmptyState(c.numSets))
    ensures RunFrom(c, EmptyState(c.numSets), DefaultAddrs, 0).0 == [false, false, false, false, false, false, false, false]
  {
    assert c.numSets == 16;
    var st := EmptyState(c.numSets);
    assert StateOk(c, st);
    DefaultTags(c);
    RunStaysInSet(c, st, DefaultAddrs, 0, 0);
    TwoWaySetRun(TagsOf(c, DefaultAddrs));
  }

  /** `SetAssociativeCache(2048, 64, 4).test_lru_effectiveness()`: eight
      sets, all default addresses in set 0; the repeated addresses hit, and
      the fifth distinct address evicts the least recently used one, not the
      oldest inserted, so the final access hits. */
  lemma FourWayDefaultRun(c: LruConfig)
    requires c == LruConfig(4, 64, NumSetsFor(2048, 64, 4))
    ensures ConfigOk(c) && StateOk(c, EmptyState(c.numSets))
    ensures RunFrom(c, EmptyState(c.numSets), DefaultAddrs, 0).0 == [false, false, false, false, true, true, false, true]
  {
    assert c.numSets == 8;
    var st := EmptyState(c.numSets);
    assert StateOk(c, st);
    DefaultTags(c);
    RunStaysInSet(c, st, DefaultAddrs, 0, 0);
    FourWaySetRun(TagsOf(c, DefaultAddrs));
  }

  // ---------------------------------------------------------------------
  // The cache object

  class SetAssociativeCache {
    const n: nat
    const blockSize: nat
    const numSets: nat
    var cache: seq<set<Tag>>
    var usageOrder: seq<map<Tag, nat>>

    function Config(): LruConfig
    {
      LruConfig(n, blockSize, numSets)
    }

    ghost function State(): LruState
      reads this
    {
      LruState(cache, usageOrder)
    }

    ghost predicate Valid()
      reads this
    {
      ConfigOk(Config()) && StateOk(Config(), State())
    }

    /** `SetAssociativeCache(cache_size, block_size, n)`: `num_sets` empty
        sets. */
    constructor (cacheSize: nat, blockSize: nat, n: nat)
      requires blockSize >= 1 && n >= 1 && NumSetsFor(cacheSize, blockSize, n) >= 1
      ensures Valid()
      ensures this.n == n && this.blockSize == blockSize && numSets == NumSetsFor(cacheSize, blockSize, n)
      ensures State() == EmptyState(numSets)
    {
      this.n := n;
      this.blockSize := blockSize;
      numSets := NumSetsFor(cacheSize, blockSize, n);
      cache := seq(NumSetsFor(cacheSize, blockSize, n), _ => {});
      usageOrder := seq(NumSetsFor(cacheSize, blockSize, n), _ => map[]);
    }

    /** `max(usage.values(), default=0)`. */
    static method MaxCounter(usage: map<Tag, nat>) returns (r: nat)
      ensures r == MaxValue(usage)
    {
      r := 0;
      var rest := usage.Keys;
      while rest != {}
        invariant rest <= usage.Keys
        invariant forall k :: k in usage && k !in rest ==> usage[k] <= r
        invariant r == 0 || exists k :: k in usage && usage[k] == r
        decreases |rest|
      {
        var k :| k in rest;
        if usage[k] > r {
          r := usage[k];
        }
        rest := rest - {k};
      }
      MaxUnique(usage, r, MaxValue(usage));
    }

    /** `min(usage, key=usage.get)` for distinct counters. */
    static method LeastRecentlyUsed(usage: map<Tag, nat>) returns (k: Tag)
      requires usage != map[] && Injective(usage)
      ensures k == LruVictim(usage)
    {
      k :| k in usage;
      var rest := usage.Keys - {k};
      while rest != {}
        invariant rest <= usage.Keys && k in usage
        invariant forall j :: j in usage && j !in rest ==> usage[k] <= usage[j]
        decreases |rest|
      {
        var j :| j in rest;
        if usage[j] < usage[k] {
          k := j;
        }
        rest := rest - {j};
      }
      VictimIsTheMinimum(usage, k);
    }

    /** Give `tag` the counter one above the set's largest. */
    static method Bump(usage: map<Tag, nat>, tag: Tag) returns (usage': map<Tag, nat>)
      ensures usage' == usage[tag := MaxValue(usage) + 1]
    {
      var m := MaxCounter(usage);
      usage' := usage[tag := m + 1];
    }

    /** Evict the least recently used tag of a full set and insert `tag`. */
    static method Evict(tags: set<Tag>, usage: map<Tag, nat>, tag: Tag) returns (tags': set<Tag>, usage': map<Tag, nat>)
      requires usage != map[] && Injective(usage)
      ensures tags' == tags - {LruVictim(usage)} + {tag}
      ensures usage' == (usage - {LruVictim(usage)})[tag := MaxValue(usage - {LruVictim(usage)}) + 1]
    {
      var victim := LeastRecentlyUsed(usage);
      tags' := tags - {victim} + {tag};
      usage' := Bump(usage - {victim}, tag);
    }

    /** The body of `access_cache` on the addressed set. */
    static method AccessOneSet(tags: set<Tag>, usage: map<Tag, nat>, tag: Tag, n: nat)
      returns (tags': set<Tag>, usage': map<Tag, nat>, hit: bool)
      requires SetOk(tags, usage, n) && n >= 1
      ensures tags' == AccessSet(tags, usage, tag, n).0
      ensures usage' == AccessSet(tags, usage, tag, n).1
      ensures hit == AccessSet(tags, usage, tag, n).2
    {
      if tag in tags {
        tags', hit := tags, true;
        usage' := Bump(usage, tag);
      } else if |tags| < n {
        tags', hit := tags + {tag}, false;
        usage' := Bump(usage, tag);
      } else {
        hit := false;
        tags', usage' := Evict(tags, usage, tag);
      }
    }

    /** `access_cache(address)`. */
    method AccessCache(address: nat) returns (hit: bool)
      requires Valid()
      modifies this
      ensures Valid()
      ensures State() == Access(Config(), old(State()), address).0
      ensures hit == Access(Config(), old(State()), address).1
    {
      AccessTouchesOneSet(Config(), State(), address);
      var s := SetIndexOf(Config(), address);
      var tags, usage;
      tags, usage, hit := AccessOneSet(cache[s], usageOrder[s], TagOf(Config(), address), n);
      cache := cache[s := tags];
      usageOrder := usageOrder[s := usage];
    }

    /** `test_lru_effectiveness(test_addrs)`: the hit flags of accessing the
        addresses in order; an empty (or absent) list means the eight
        default addresses. */
    method TestLruEffectiveness(testAddrs: seq<nat>) returns (hitMiss: seq<bool>)
      requires Valid()
      modifies this
      ensures Valid()
      ensures var addrs := if testAddrs == [] then DefaultAddrs else testAddrs;
        hitMiss == RunFrom(Config(), old(State()), addrs, 0).0 && State() == RunFrom(Config(), old(State()), addrs, 0).1
    {
      var addrs := if testAddrs == [] then DefaultAddrs else testAddrs;
      hitMiss := AccessAll(addrs);
    }

    /** One iteration of `test_lru_effectiveness`: access `addrs[i]` and
        append its flag to the run's flags so far. */
    method AccessNext(ghost run: (seq<bool>, LruState), addrs: seq<nat>, i: nat, prefix: seq<bool>) returns (hitMiss: seq<bool>)
      requires Valid() && i < |addrs|
      requires run.0 == prefix + RunFrom(Config(), State(), addrs, i).0
      requires run.1 == RunFrom(Config(), State(), addrs, i).1
      modifies this
      ensures Valid()
      ensures run.0 == hitMiss + RunFrom(Config(), State(), addrs, i + 1).0
      ensures run.1 == RunFrom(Config(), State(), addrs, i + 1).1
    {
      ghost var st := State();
      var h := AccessCache(addrs[i]);
      RunFromExtend(Config(), run, st, addrs, i, prefix);
      hitMiss := prefix + [h];
    }

    /** The loop of `test_lru_effectiveness`: `access_cache` on each address
        in order, collecting the hit flags. */
    method AccessAll(addrs: seq<nat>) returns (hitMiss: seq<bool>)
      requires Valid()
      modifies this
      ensures Valid()
      ensures hitMiss == RunFrom(Config(), old(State()), addrs, 0).0 && State() == RunFrom(Config(), old(State()), addrs, 0).1
    {
      ghost var run := RunFrom(Config(), State(), addrs, 0);
      hitMiss := [];
      var i := 0;
      while i < |addrs|
        invariant 0 <= i <= |addrs|
        invariant Valid()
        invariant run.0 == hitMiss + RunFrom(Config(), State(), addrs, i).0
        invariant run.1 == RunFrom(Config(), State(), addrs, i).1
      {
        hitMiss := AccessNext(run, addrs, i, hitMiss);
        i := i + 1;
      }
    }
  }
}
