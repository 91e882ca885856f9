/** Real-time content synchronisation (lib/realtime/sync.ts): the conflict resolver's two
    strategies and the sync manager's subscription state.

    `JSON.stringify(a) === JSON.stringify(b)` is modelled as structural equality of the
    block values. A JavaScript `Map` built from `blocks.map(b => [b.id, b])` keeps the LAST
    block with a given id; a `Set` iterates in first-insertion order; `Array.prototype.sort`
    is stable. All three are modelled as such. */
module Sync {
  import opened Common
  import opened ContentBlocks

  // ===========================================================================
  // Last-write-wins

  /** Keeps the local version unless the remote timestamp is strictly later. */
  function ResolveConflict(localBlocks: seq<ContentBlock>, remoteBlocks: seq<ContentBlock>,
                           localTimestamp: int, remoteTimestamp: int): (r: seq<ContentBlock>)
    ensures remoteTimestamp > localTimestamp ==> r == remoteBlocks
    ensures remoteTimestamp <= localTimestamp ==> r == localBlocks
  {
    if remoteTimestamp > localTimestamp then remoteBlocks else localBlocks
  }

  /** Two replicas that each see the other's version as "remote" pick the same winner,
      unless the timestamps tie (then each keeps its own). */
  lemma LastWriteWinsConverges(a: seq<ContentBlock>, b: seq<ContentBlock>, ta: int, tb: int)
    ensures ta != tb ==> ResolveConflict(a, b, ta, tb) == ResolveConflict(b, a, tb, ta)
    ensures ta == tb ==> ResolveConflict(a, b, ta, tb) == a && ResolveConflict(b, a, tb, ta) == b
  {
  }

  // ===========================================================================
  // Three-way merge: specification

  function Ids(bs: seq<ContentBlock>): (r: seq<string>)
    ensures |r| == |bs| && forall i :: 0 <= i < |bs| ==> r[i] == bs[i].id
  {
    seq(|bs|, i requires 0 <= i < |bs| => bs[i].id)
  }

  predicate NoDuplicates(ids: seq<string>) {
    forall i, j :: 0 <= i < j < |ids| ==> ids[i] != ids[j]
  }

  /** One of the first `n` blocks has id `id`. */
  predicate IdBefore(bs: seq<ContentBlock>, n: nat, id: string) {
    exists i :: 0 <= i < n && i < |bs| && bs[i].id == id
  }

  lemma IdBeforeStep(bs: seq<ContentBlock>, n: nat, id: string)
    requires 0 < n <= |bs|
    ensures IdBefore(bs, n, id) <==> IdBefore(bs, n - 1, id) || bs[n - 1].id == id
  {
    if IdBefore(bs, n, id) && bs[n - 1].id != id {
      var i :| 0 <= i < n && i < |bs| && bs[i].id == id;
      assert i < n - 1;
    }
  }

  lemma IdBeforeAll(bs: seq<ContentBlock>, id: string)
    ensures IdBefore(bs, |bs|, id) <==> id in Ids(bs)
  {
    if id in Ids(bs) {
      var i :| 0 <= i < |Ids(bs)| && Ids(bs)[i] == id;
      assert bs[i].id == id;
    }
  }

  /** `new Map(blocks.map(b => [b.id, b]))` over the first `n` blocks: later entries
      overwrite earlier ones. */
  function ToMapUpTo(bs: seq<ContentBlock>, n: nat): map<string, ContentBlock>
    requires n <= |bs|
  {
    if n == 0 then map[] else ToMapUpTo(bs, n - 1)[bs[n - 1].id := bs[n - 1]]
  }

  /** The map has exactly the ids of the first `n` blocks, each mapped to a block of the
      list carrying that id. */
  lemma {:induction false} ToMapUpToFacts(bs: seq<ContentBlock>, n: nat)
    requires n <= |bs|
    ensures forall id :: id in ToMapUpTo(bs, n) <==> IdBefore(bs, n, id)
    ensures forall id :: id in ToMapUpTo(bs, n) ==> ToMapUpTo(bs, n)[id].id == id && ToMapUpTo(bs, n)[id] in bs
  {
    if n > 0 {
      ToMapUpToFacts(bs, n - 1);
      forall id
        ensures IdBefore(bs, n, id) <==> IdBefore(bs, n - 1, id) || bs[n - 1].id == id
      {
        IdBeforeStep(bs, n, id);
      }
    }
  }

  /** `new Map(blocks.map(b => [b.id, b]))`. */
  function ToMap(bs: seq<ContentBlock>): (m: map<string, ContentBlock>)
    ensures forall id :: id in m <==> id in Ids(bs)
    ensures forall id :: id in m ==> m[id].id == id && m[id] in bs
  {
    ToMapUpToFacts(bs, |bs|);
    forall id
      ensures IdBefore(bs, |bs|, id) <==> id in Ids(bs)
    {
      IdBeforeAll(bs, id);
    }
    ToMapUpTo(bs, |bs|)
  }

  /** The first `n` blocks' ids, each once, at its first occurrence. */
  function DistinctUpTo(bs: seq<ContentBlock>, n: nat): seq<string>
    requires n <= |bs|
  {
    if n == 0 then []
    else
      var d := DistinctUpTo(bs, n - 1);
      if bs[n - 1].id in d then d else d + [bs[n - 1].id]
  }

  lemma {:induction false} DistinctUpToFacts(bs: seq<ContentBlock>, n: nat)
    requires n <= |bs|
    ensures NoDuplicates(DistinctUpTo(bs, n))
    ensures forall id :: id in DistinctUpTo(bs, n) <==> IdBefore(bs, n, id)
  {
    if n > 0 {
      DistinctUpToFacts(bs, n - 1);
      forall id
        ensures IdBefore(bs, n, id) <==> IdBefore(bs, n - 1, id) || bs[n - 1].id == id
      {
        IdBeforeStep(bs, n, id);
      }
    }
  }

  /** The iteration order of `new Set(ids)`: each id once, at its first occurrence. */
  function DistinctIds(bs: seq<ContentBlock>): (r: seq<string>)
    ensures NoDuplicates(r)
    ensures forall id :: id in r <==> id in Ids(bs)
  {
    DistinctUpToFacts(bs, |bs|);
    forall id
      ensures IdBefore(bs, |bs|, id) <==> id in Ids(bs)
    {
      IdBeforeAll(bs, id);
    }
    DistinctUpTo(bs, |bs|)
  }

  /** The block kept for one id (the body of the `forEach`). Both "changed on both sides"
      branches take the remote block, whether or not the base has the id. */
  function Pick(id: string, lm: map<string, ContentBlock>, rm: map<string, ContentBlock>,
                bm: map<string, ContentBlock>): ContentBlock
    requires id in lm || id in rm
  {
    if id in lm && id in rm then
      if lm[id] == rm[id] then lm[id]
      else if id in bm then rm[id]
      else rm[id]
    else if id in lm then lm[id]
    else rm[id]
  }

  /** The picks for the first `n` ids. */
  function PickUpTo(ids: seq<string>, n: nat, lm: map<string, ContentBlock>, rm: map<string, ContentBlock>,
                    bm: map<string, ContentBlock>): (r: seq<ContentBlock>)
    requires n <= |ids| && forall i :: 0 <= i < |ids| ==> ids[i] in lm || ids[i] in rm
    ensures |r| == n
  {
    if n == 0 then [] else PickUpTo(ids, n - 1, lm, rm, bm) + [Pick(ids[n - 1], lm, rm, bm)]
  }

  lemma {:induction false} PickUpToAt(ids: seq<string>, n: nat, lm: map<string, ContentBlock>,
                                      rm: map<string, ContentBlock>, bm: map<string, ContentBlock>, i: nat)
    requires n <= |ids| && forall k :: 0 <= k < |ids| ==> ids[k] in lm || ids[k] in rm
    requires i < n
    ensures PickUpTo(ids, n, lm, rm, bm)[i] == Pick(ids[i], lm, rm, bm)
  {
    if i < n - 1 {
      PickUpToAt(ids, n - 1, lm, rm, bm, i);
    }
  }

  function PickAll(ids: seq<string>, lm: map<string, ContentBlock>, rm: map<string, ContentBlock>,
                   bm: map<string, ContentBlock>): (r: seq<ContentBlock>)
    requires forall id :: id in ids ==> id in lm || id in rm
    ensures |r| == |ids|
  {
    PickUpTo(ids, |ids|, lm, rm, bm)
  }

  /** Places `x` before the first element whose order is not smaller: a stable insertion. */
  function Insert(x: ContentBlock, s: seq<ContentBlock>): seq<ContentBlock> {
    if s == [] then [x]
    else if x.order <= s[0].order then [x] + s
    else [s[0]] + Insert(x, s[1..])
  }

  /** `blocks.sort((a, b) => a.order - b.order)` with a stable sort. */
  function SortByOrder(s: seq<ContentBlock>): seq<ContentBlock> {
    if s == [] then [] else Insert(s[0], SortByOrder(s[1..]))
  }

  /** The blocks in first-seen id order, before sorting. */
  function MergedUnsorted(localBlocks: seq<ContentBlock>, remoteBlocks: seq<ContentBlock>,
                          baseBlocks: seq<ContentBlock>): seq<ContentBlock>
  {
    PickAll(DistinctIds(localBlocks + remoteBlocks), ToMap(localBlocks), ToMap(remoteBlocks), ToMap(baseBlocks))
  }

  /** What `mergeBlocks` returns. */
  function Merged(localBlocks: seq<ContentBlock>, remoteBlocks: seq<ContentBlock>,
                  baseBlocks: seq<ContentBlock>): seq<ContentBlock>
  {
    if localBlocks == remoteBlocks then localBlocks
    else SortByOrder(MergedUnsorted(localBlocks, remoteBlocks, baseBlocks))
  }

  // ===========================================================================
  // Three-way merge: the operation

  /** Indexes blocks by id, as the `Map` constructor does. */
  method IndexById(blocks: seq<ContentBlock>) returns (m: map<string, ContentBlock>)
    ensures m == ToMap(blocks)
  {
    m := map[];
    for i := 0 to |blocks|
      invariant m == ToMapUpTo(blocks, i)
    {
      m := m[blocks[i].id := blocks[i]];
    }
  }

  /** The ids of `blocks`, each once, in the order a `Set` built from them iterates. */
  method CollectIds(blocks: seq<ContentBlock>) returns (ids: seq<string>)
    ensures ids == DistinctIds(blocks)
  {
    ids := [];
    var seen: set<string> := {};
    for i := 0 to |blocks|
      invariant ids == DistinctUpTo(blocks, i)
      invariant forall id :: id in seen <==> id in ids
    {
      if blocks[i].id !in seen {
        ids := ids + [blocks[i].id];
        seen := seen + {blocks[i].id};
      }
    }
  }

  /** The `forEach` over all ids: one block per id, chosen by the three-way rule. */
  method PickBlocks(ids: seq<string>, localMap: map<string, ContentBlock>,
                    remoteMap: map<string, ContentBlock>, baseMap: map<string, ContentBlock>)
    returns (picked: seq<ContentBlock>)
    requires forall id :: id in ids ==> id in localMap || id in remoteMap
    ensures picked == PickAll(ids, localMap, remoteMap, baseMap)
  {
    picked := [];
    for k := 0 to |ids|
      invariant picked == PickUpTo(ids, k, localMap, remoteMap, baseMap)
    {
      var id := ids[k];
      if id in localMap && id in remoteMap {
        if localMap[id] == remoteMap[id] {
          picked := picked + [localMap[id]];
        } else if id in baseMap {
          picked := picked + [remoteMap[id]];
        } else {
          picked := picked + [remoteMap[id]];
        }
      } else if id in localMap {
        picked := picked + [localMap[id]];
      } else if id in remoteMap {
        picked := picked + [remoteMap[id]];
      }
    }
  }

  method MergeBlocks(localBlocks: seq<ContentBlock>, remoteBlocks: seq<ContentBlock>,
                     baseBlocks: seq<ContentBlock>) returns (merged: seq<ContentBlock>)
    ensures merged == Merged(localBlocks, remoteBlocks, baseBlocks)
    ensures localBlocks == remoteBlocks ==> merged == localBlocks
  {
    if localBlocks == remoteBlocks {
      return localBlocks;
    }
    var localMap := IndexById(localBlocks);
    var remoteMap := IndexById(remoteBlocks);
    var baseMap := IndexById(baseBlocks);
    var allIds := CollectIds(localBlocks + remoteBlocks);
    var unsorted := PickBlocks(allIds, localMap, remoteMap, baseMap);
    merged := SortByOrder(unsorted);
  }

  // ===========================================================================
  // Properties of the sort

  predicate SortedByOrder(s: seq<ContentBlock>) {
    forall i, j :: 0 <= i < j < |s| ==> s[i].order <= s[j].order
  }

  /** The blocks whose order is `k`, in sequence order. */
  function WithOrder(s: seq<ContentBlock>, k: int): seq<ContentBlock> {
    if s == [] then []
    else (if s[0].order == k then [s[0]] else []) + WithOrder(s[1..], k)
  }

  lemma {:induction false} InsertSorted(x: ContentBlock, s: seq<ContentBlock>)
    requires SortedByOrder(s)
    ensures |Insert(x, s)| == |s| + 1
    ensures SortedByOrder(Insert(x, s))
    ensures Insert(x, s)[0] == x || (s != [] && Insert(x, s)[0] == s[0])
  {
    if s != [] && x.order > s[0].order {
      assert SortedByOrder(s[1..]) by {
        forall i, j | 0 <= i < j < |s[1..]| ensures s[1..][i].order <= s[1..][j].order {
          assert s[1..][i] == s[i + 1] && s[1..][j] == s[j + 1];
        }
      }
      InsertSorted(x, s[1..]);
      var t := Insert(x, s[1..]);
      var r := Insert(x, s);
      assert r == [s[0]] + t;
      assert t[0].order >= s[0].order;
      forall i, j | 0 <= i < j < |r| ensures r[i].order <= r[j].order {
        if i == 0 {
          assert r[j] == t[j - 1];
          assert t[0].order <= t[j - 1].order;
        } else {
          assert r[i] == t[i - 1] && r[j] == t[j - 1];
        }
      }
    }
  }

  lemma {:induction false} InsertPermutes(x: ContentBlock, s: seq<ContentBlock>)
    ensures multiset(Insert(x, s)) == multiset(s) + multiset{x}
  {
    if s != [] && x.order > s[0].order {
      InsertPermutes(x, s[1..]);
      assert s == [s[0]] + s[1..];
    }
  }

  lemma IdsCons(x: ContentBlock, s: seq<ContentBlock>)
    ensures Ids([x] + s) == [x.id] + Ids(s)
  {
    var a, b := Ids([x] + s), [x.id] + Ids(s);
    assert forall i :: 0 <= i < |a| ==> a[i] == b[i];
  }

  lemma {:induction false} InsertPermutesIds(x: ContentBlock, s: seq<ContentBlock>)
    ensures multiset(Ids(Insert(x, s))) == multiset(Ids(s)) + multiset{x.id}
  {
    if s == [] {
      IdsCons(x, s);
    } else if x.order <= s[0].order {
      IdsCons(x, s);
    } else {
      InsertPermutesIds(x, s[1..]);
      var t := Insert(x, s[1..]);
      assert Insert(x, s) == [s[0]] + t;
      IdsCons(s[0], t);
      IdsCons(s[0], s[1..]);
      assert [s[0]] + s[1..] == s;
      calc {
        multiset(Ids(Insert(x, s)));
        multiset([s[0].id] + Ids(t));
        multiset{s[0].id} + multiset(Ids(t));
        multiset{s[0].id} + multiset(Ids(s[1..])) + multiset{x.id};
        multiset([s[0].id] + Ids(s[1..])) + multiset{x.id};
        multiset(Ids(s)) + multiset{x.id};
      }
    }
  }

  lemma {:induction false} InsertKeepsTies(x: ContentBlock, s: seq<ContentBlock>, k: int)
    ensures WithOrder(Insert(x, s), k) == WithOrder([x] + s, k)
  {
    if s != [] && x.order > s[0].order {
      InsertKeepsTies(x, s[1..], k);
      var r := Insert(x, s);
      assert r[1..] == Insert(x, s[1..]);
      assert ([x] + s)[1..] == s;
      assert s[1..] == ([x] + s[1..])[1..];
    }
  }

  /** The sort orders the blocks and is a permutation of them. */
  lemma {:induction false} SortSortsAndPermutes(s: seq<ContentBlock>)
    ensures SortedByOrder(SortByOrder(s))
    ensures multiset(SortByOrder(s)) == multiset(s)
  {
    if s != [] {
      SortSortsAndPermutes(s[1..]);
      InsertSorted(s[0], SortByOrder(s[1..]));
      InsertPermutes(s[0], SortByOrder(s[1..]));
      assert s == [s[0]] + s[1..];
    }
  }

  /** The sort keeps the ids, each as often as before. */
  lemma {:induction false} SortPermutesIds(s: seq<ContentBlock>)
    ensures multiset(Ids(SortByOrder(s))) == multiset(Ids(s))
  {
    if s != [] {
      SortPermutesIds(s[1..]);
      InsertPermutesIds(s[0], SortByOrder(s[1..]));
      IdsCons(s[0], s[1..]);
      assert [s[0]] + s[1..] == s;
    }
  }

  /** The sort keeps blocks with equal order in their original relative order. */
  lemma {:induction false} SortIsStable(s: seq<ContentBlock>, k: int)
    ensures WithOrder(SortByOrder(s), k) == WithOrder(s, k)
  {
    if s != [] {
      SortIsStable(s[1..], k);
      InsertKeepsTies(s[0], SortByOrder(s[1..]), k);
      assert ([s[0]] + SortByOrder(s[1..]))[1..] == SortByOrder(s[1..]);
    }
  }

  // ===========================================================================
  // Properties of the merge

  /** A block picked for `id` is the remote map's block whenever the remote side has
      that id, and the local map's block otherwise; the base plays no part. */
  lemma PickIsRemoteFirst(id: string, lm: map<string, ContentBlock>, rm: map<string, ContentBlock>,
                          bm: map<string, ContentBlock>)
    requires id in lm || id in rm
    ensures Pick(id, lm, rm, bm) == if id in rm then rm[id] else lm[id]
  {
  }

  lemma PickAllFacts(ids: seq<string>, lm: map<string, ContentBlock>,
                     rm: map<string, ContentBlock>, bm: map<string, ContentBlock>,
                     bm': map<string, ContentBlock>)
    requires forall id :: id in ids ==> id in lm || id in rm
    requires forall id :: id in lm ==> lm[id].id == id
    requires forall id :: id in rm ==> rm[id].id == id
    ensures PickAll(ids, lm, rm, bm) == PickAll(ids, lm, rm, bm')
    ensures Ids(PickAll(ids, lm, rm, bm)) == ids
    ensures forall b :: b in PickAll(ids, lm, rm, bm) ==>
              b.id in ids && b == (if b.id in rm then rm[b.id] else lm[b.id])
  {
    var r, r' := PickAll(ids, lm, rm, bm), PickAll(ids, lm, rm, bm');
    forall i | 0 <= i < |ids|
      ensures r[i] == r'[i] == Pick(ids[i], lm, rm, bm) && r[i].id == ids[i]
    {
      PickUpToAt(ids, |ids|, lm, rm, bm, i);
      PickUpToAt(ids, |ids|, lm, rm, bm', i);
    }
    assert Ids(r) == ids;
  }

  lemma {:induction false} DistinctUpToCount(bs: seq<ContentBlock>, n: nat, id: string)
    requires n <= |bs|
    ensures multiset(DistinctUpTo(bs, n))[id] == if IdBefore(bs, n, id) then 1 else 0
  {
    if n > 0 {
      DistinctUpToCount(bs, n - 1, id);
      DistinctUpToFacts(bs, n - 1);
      IdBeforeStep(bs, n, id);
      IdBeforeStep(bs, n, bs[n - 1].id);
    }
  }

  lemma DistinctIdsCount(bs: seq<ContentBlock>, id: string)
    ensures multiset(DistinctIds(bs))[id] == if id in Ids(bs) then 1 else 0
  {
    DistinctUpToCount(bs, |bs|, id);
    IdBeforeAll(bs, id);
  }

  lemma IdsConcat(a: seq<ContentBlock>, b: seq<ContentBlock>)
    ensures Ids(a + b) == Ids(a) + Ids(b)
  {
    var r, q := Ids(a + b), Ids(a) + Ids(b);
    forall i | 0 <= i < |r| ensures r[i] == q[i] {
      if i < |a| {
        assert r[i] == a[i].id;
      } else {
        assert r[i] == b[i - |a|].id;
      }
    }
  }

  /** On the merging path every id of local or remote appears exactly once and no other
      id appears: a block deleted on one side survives if the other side still has it. */
  lemma MergeIdsExactlyOnce(localBlocks: seq<ContentBlock>, remoteBlocks: seq<ContentBlock>,
                            baseBlocks: seq<ContentBlock>, id: string)
    requires localBlocks != remoteBlocks
    ensures multiset(Ids(Merged(localBlocks, remoteBlocks, baseBlocks)))[id] ==
            if id in Ids(localBlocks) || id in Ids(remoteBlocks) then 1 else 0
  {
    var all := localBlocks + remoteBlocks;
    var lm, rm, bm := ToMap(localBlocks), ToMap(remoteBlocks), ToMap(baseBlocks);
    var ids := DistinctIds(all);
    var u := PickAll(ids, lm, rm, bm);
    assert Merged(localBlocks, remoteBlocks, baseBlocks) == SortByOrder(u);
    PickAllFacts(ids, lm, rm, bm, bm);
    SortPermutesIds(u);
    assert multiset(Ids(SortByOrder(u))) == multiset(ids);
    DistinctIdsCount(all, id);
    IdsConcat(localBlocks, remoteBlocks);
  }

  /** On the merging path each block of the result is the remote version of its id when
      the remote side has one, and the local version otherwise: the base never matters
      and the remote side wins every conflict. */
  lemma MergeRemoteWins(localBlocks: seq<ContentBlock>, remoteBlocks: seq<ContentBlock>,
                        baseBlocks: seq<ContentBlock>, b: ContentBlock)
    requires localBlocks != remoteBlocks
    requires b in Merged(localBlocks, remoteBlocks, baseBlocks)
    ensures b.id in ToMap(remoteBlocks) ==> b == ToMap(remoteBlocks)[b.id]
    ensures b.id !in ToMap(remoteBlocks) ==> b.id in ToMap(localBlocks) && b == ToMap(localBlocks)[b.id]
  {
    var lm, rm, bm := ToMap(localBlocks), ToMap(remoteBlocks), ToMap(baseBlocks);
    var ids := DistinctIds(localBlocks + remoteBlocks);
    var u := PickAll(ids, lm, rm, bm);
    assert Merged(localBlocks, remoteBlocks, baseBlocks) == SortByOrder(u);
    SortSortsAndPermutes(u);
    assert b in multiset(SortByOrder(u));
    assert b in u;
    PickAllFacts(ids, lm, rm, bm, bm);
    assert b.id in lm || b.id in rm;
  }

  /** The result does not depend on the base version at all. */
  lemma MergeIgnoresBase(localBlocks: seq<ContentBlock>, remoteBlocks: seq<ContentBlock>,
                         base1: seq<ContentBlock>, base2: seq<ContentBlock>)
    ensures Merged(localBlocks, remoteBlocks, base1) == Merged(localBlocks, remoteBlocks, base2)
  {
    PickAllFacts(DistinctIds(localBlocks + remoteBlocks), ToMap(localBlocks), ToMap(remoteBlocks),
                 ToMap(base1), ToMap(base2));
  }

  /** On the merging path the result is sorted by order, and blocks sharing an order keep
      their first-seen order (ids of the local list first, then remote-only ids). */
  lemma MergeSortedStable(localBlocks: seq<ContentBlock>, remoteBlocks: seq<ContentBlock>,
                          baseBlocks: seq<ContentBlock>, k: int)
    requires localBlocks != remoteBlocks
    ensures SortedByOrder(Merged(localBlocks, remoteBlocks, baseBlocks))
    ensures WithOrder(Merged(localBlocks, remoteBlocks, baseBlocks), k) ==
            WithOrder(MergedUnsorted(localBlocks, remoteBlocks, baseBlocks), k)
  {
    SortSortsAndPermutes(MergedUnsorted(localBlocks, remoteBlocks, baseBlocks));
    SortIsStable(MergedUnsorted(localBlocks, remoteBlocks, baseBlocks), k);
  }

  /** Two lists that agree on their first `n` blocks agree on those blocks' distinct ids. */
  lemma {:induction false} DistinctUpToSamePrefix(a: seq<ContentBlock>, b: seq<ContentBlock>, n: nat)
    requires n <= |a| && n <= |b| && forall i :: 0 <= i < n ==> a[i] == b[i]
    ensures DistinctUpTo(a, n) == DistinctUpTo(b, n)
  {
    if n > 0 {
      DistinctUpToSamePrefix(a, b, n - 1);
    }
  }

  /** Looking at more blocks only appends ids. */
  lemma {:induction false} DistinctUpToGrows(s: seq<ContentBlock>, n: nat, m: nat)
    requires n <= m <= |s|
    ensures |DistinctUpTo(s, n)| <= |DistinctUpTo(s, m)|
    ensures DistinctUpTo(s, m)[..|DistinctUpTo(s, n)|] == DistinctUpTo(s, n)
    decreases m
  {
    if n < m {
      DistinctUpToGrows(s, n, m - 1);
      var d, e := DistinctUpTo(s, n), DistinctUpTo(s, m - 1);
      assert (e + [s[m - 1].id])[..|d|] == e[..|d|];
    } else {
      assert DistinctUpTo(s, m)[..|DistinctUpTo(s, m)|] == DistinctUpTo(s, m);
    }
  }

  /** The unsorted order lists the local ids (first occurrences) before any remote-only id. */
  lemma LocalIdsFirst(localBlocks: seq<ContentBlock>, remoteBlocks: seq<ContentBlock>)
    ensures |DistinctIds(localBlocks)| <= |DistinctIds(localBlocks + remoteBlocks)|
    ensures DistinctIds(localBlocks + remoteBlocks)[..|DistinctIds(localBlocks)|] == DistinctIds(localBlocks)
  {
    var all := localBlocks + remoteBlocks;
    DistinctUpToSamePrefix(all, localBlocks, |localBlocks|);
    DistinctUpToGrows(all, |localBlocks|, |all|);
  }

  /** Identical replicas merge to themselves, whatever the base. */
  lemma MergeIdempotent(x: seq<ContentBlock>, base: seq<ContentBlock>)
    ensures Merged(x, x, base) == x
  {
  }

  // ===========================================================================
  // The sync manager

  /** The `new` row of a `postgres_changes` UPDATE on `sections`. `updatedAt` is the
      timestamp already converted to milliseconds. */
  datatype SectionRow = SectionRow(id: string, contentBlocks: seq<ContentBlock>,
                                   updatedBy: Option<string>, updatedAt: int)

  datatype ContentChangePayload = ContentChangePayload(sectionId: string, contentBlocks: seq<ContentBlock>,
                                                       userId: string, timestamp: int)

  datatype BroadcastMessage = BroadcastMessage(event: string, payload: ContentChangePayload)

  /** Turns a replicated row into the payload handed to the handler; rows without an id
      are dropped and a missing author becomes "unknown". */
  function Normalize(newRow: Option<SectionRow>): (r: Option<ContentChangePayload>)
    ensures r.Some? <==> newRow.Some? && newRow.value.id != ""
    ensures r.Some? ==> (r.value.sectionId == newRow.value.id &&
                         r.value.contentBlocks == newRow.value.contentBlocks &&
                         r.value.timestamp == newRow.value.updatedAt &&
                         r.value.userId != "")
    ensures r.Some? && Truthy(newRow.value.updatedBy) ==> r.value.userId == newRow.value.updatedBy.value
    ensures r.Some? && !Truthy(newRow.value.updatedBy) ==> r.value.userId == "unknown"
  {
    if newRow.Some? && newRow.value.id != "" then
      var row := newRow.value;
      Some(ContentChangePayload(row.id, row.contentBlocks,
        if Truthy(row.updatedBy) then row.updatedBy.value else "unknown", row.updatedAt))
    else None
  }

  /** The subscription state of one client for one report. `channel` holds the topic of
      the subscribed channel; `hasHandler` says whether a change handler is installed;
      `sent` is the log of broadcasts sent on the channel. */
  class SyncManager {
    const reportId: string
    const userId: string
    var channel: Option<string>
    var hasHandler: bool
    var sent: seq<BroadcastMessage>

    constructor (reportId: string, userId: string)
      ensures this.reportId == reportId && this.userId == userId
      ensures channel == None && !hasHandler && sent == []
    {
      this.reportId := reportId;
      this.userId := userId;
      channel := None;
      hasHandler := false;
      sent := [];
    }

    /** The row filter the subscription installs. */
    function RowFilter(): string
    {
      "report_id=eq." + reportId
    }

    method Subscribe(topic: string)
      modifies this
      ensures channel == Some(topic) && hasHandler && sent == old(sent)
    {
      channel := Some(topic);
      hasHandler := true;
    }

    /** Clears channel and handler when subscribed; does nothing otherwise, so a second
        call is a no-op. */
    method Unsubscribe()
      modifies this
      ensures old(channel).Some? ==> channel == None && !hasHandler
      ensures old(channel).None? ==> channel == old(channel) && hasHandler == old(hasHandler)
      ensures sent == old(sent)
    {
      if channel.Some? {
        channel := None;
        hasHandler := false;
      }
    }

    /** An UPDATE event from the database: returns the payload the handler is called
        with, if any. Only this event kind is listened to; broadcasts are never received. */
    method HandleRowUpdate(newRow: Option<SectionRow>) returns (call: Option<ContentChangePayload>)
      ensures call.Some? <==> hasHandler && newRow.Some? && newRow.value.id != ""
      ensures call.Some? ==> call == Normalize(newRow)
    {
      call := None;
      if newRow.Some? && newRow.value.id != "" {
        var change := Normalize(newRow);
        if hasHandler {
          call := change;
        }
      }
    }

    /** Sends a broadcast tagged with this client's own user id when a channel is set;
        otherwise does nothing. */
    method BroadcastChange(sectionId: string, contentBlocks: seq<ContentBlock>, now: int)
      modifies this
      ensures channel == old(channel) && hasHandler == old(hasHandler)
      ensures old(channel).None? ==> sent == old(sent)
      ensures old(channel).Some? ==> sent == old(sent) + [BroadcastMessage("content_change",
                ContentChangePayload(sectionId, contentBlocks, userId, now))]
    {
      if channel.Some? {
        sent := sent + [BroadcastMessage("content_change",
          ContentChangePayload(sectionId, contentBlocks, userId, now))];
      }
    }
  }

  /** Two managers whose subscriptions install the same row filter watch the same report. */
  lemma RowFilterDeterminesReport(m: SyncManager, n: SyncManager)
    ensures m.RowFilter() == n.RowFilter() ==> m.reportId == n.reportId
  {
    var f, g := m.RowFilter(), n.RowFilter();
    assert f[13..] == m.reportId;
    assert g[13..] == n.reportId;
  }
}
