/** Reciprocal rank fusion: two ranked lists become one. Scores are exact here; the
    rounding of floating point is not modelled. */
module Fusion {
  import opened Basics

  type ChunkId = string

  /** The last position, from one, at which the list names the id. */
  function RankIn(list: seq<ChunkId>, id: ChunkId): Option<nat> {
    if list == [] then None
    else if list[|list| - 1] == id then Some(|list|)
    else RankIn(list[..|list| - 1], id)
  }

  function Share(rank: Option<nat>, weight: real, k: nat): real
    requires rank.Some? ==> rank.value >= 1
  {
    if rank.None? then 0.0 else weight / (k + rank.value) as real
  }

  lemma {:induction false} RankBounds(list: seq<ChunkId>, id: ChunkId)
    ensures RankIn(list, id).Some? ==> 1 <= RankIn(list, id).value <= |list| && list[RankIn(list, id).value - 1] == id
    ensures RankIn(list, id).Some? <==> id in list
  {
    if list == [] {
    } else {
      RankBounds(list[..|list| - 1], id);
      assert list == list[..|list| - 1] + [list[|list| - 1]];
    }
  }

  function Score(lexical: seq<ChunkId>, vector: seq<ChunkId>, k: nat, id: ChunkId): real {
    RankBounds(lexical, id);
    RankBounds(vector, id);
    Share(RankIn(lexical, id), 1.0, k) + Share(RankIn(vector, id), 1.0, k)
  }

  /** The last place, from one, at which the list names the id; zero if it does not. */
  predicate LastPlace(list: seq<ChunkId>, id: ChunkId, place: nat) {
    if place == 0 then id !in list
    else place <= |list| && list[place - 1] == id && forall j :: place <= j < |list| ==> list[j] != id
  }

  lemma {:induction false} RankIsLastPlace(list: seq<ChunkId>, id: ChunkId, place: nat)
    requires LastPlace(list, id, place)
    ensures RankIn(list, id) == if place == 0 then None else Some(place)
  {
    RankBounds(list, id);
    if place > 0 && place < |list| {
      RankIsLastPlace(list[..|list| - 1], id, place);
    }
  }

  /** Each list counts alike: one over k and the place. */
  lemma ScoreByPlaces(lexical: seq<ChunkId>, vector: seq<ChunkId>, k: nat, id: ChunkId, i: nat, j: nat)
    requires LastPlace(lexical, id, i) && LastPlace(vector, id, j)
    ensures Score(lexical, vector, k, id)
            == (if i == 0 then 0.0 else 1.0 / (k + i) as real) + (if j == 0 then 0.0 else 1.0 / (k + j) as real)
    ensures Score(lexical, vector, k, id) == Score(vector, lexical, k, id)
  {
    RankIsLastPlace(lexical, id, i);
    RankIsLastPlace(vector, id, j);
  }

  predicate Distinct(ids: seq<ChunkId>) { forall i, j :: 0 <= i < j < |ids| ==> ids[i] != ids[j] }

  ghost predicate SameIds(a: seq<ChunkId>, b: seq<ChunkId>) { forall x :: x in a <==> x in b }

  /** `ranked` lists the pool by falling score. */
  ghost predicate IsRanking(pool: seq<ChunkId>, score: ChunkId -> real, ranked: seq<ChunkId>) {
    && Distinct(ranked) && SameIds(pool, ranked)
    && forall i, j :: 0 <= i < j < |ranked| ==> score(ranked[i]) >= score(ranked[j])
  }

  /** The place of a candidate in the pool, from one. */
  function Place(pool: seq<ChunkId>, id: ChunkId): nat {
    if RankIn(pool, id).Some? then RankIn(pool, id).value else 0
  }

  /** Candidates with equal scores stay in the order of the pool. */
  ghost predicate Stable(pool: seq<ChunkId>, score: ChunkId -> real, ranked: seq<ChunkId>) {
    forall i, j :: 0 <= i < j < |ranked| && score(ranked[i]) == score(ranked[j]) ==> Place(pool, ranked[i]) < Place(pool, ranked[j])
  }

  /** The list without later repetitions: the order in which a dictionary meets its keys. */
  function Dedup(list: seq<ChunkId>): seq<ChunkId> {
    if list == [] then []
    else
      var rest, last := Dedup(list[..|list| - 1]), list[|list| - 1];
      if last in rest then rest else rest + [last]
  }

  lemma {:induction false} DedupMembers(list: seq<ChunkId>)
    ensures Distinct(Dedup(list)) && SameIds(list, Dedup(list))
  {
    if list == [] {
    } else {
      DedupMembers(list[..|list| - 1]);
      assert list == list[..|list| - 1] + [list[|list| - 1]];
    }
  }

  /** Python's `items[:limit]`: a negative limit drops from the end. */
  function Slice(items: seq<ChunkId>, limit: int): seq<ChunkId> {
    if limit >= |items| then items
    else if limit >= 0 then items[..limit]
    else if -limit <= |items| then items[..|items| + limit]
    else []
  }

  /** `hits` are the first `limit` of a ranking of the pool, ties in the pool's order. */
  ghost predicate IsTop(pool: seq<ChunkId>, score: ChunkId -> real, limit: int, hits: seq<ChunkId>) {
    exists ranked :: IsRanking(pool, score, ranked) && Stable(pool, score, ranked) && hits == Slice(ranked, limit)
  }

  ghost function ScoreBy(lexical: seq<ChunkId>, vector: seq<ChunkId>, k: nat): ChunkId -> real {
    (id: ChunkId) => Score(lexical, vector, k, id)
  }

  /** The ranks of a list, as the loop writes them down. */
  ghost predicate Ranks(list: seq<ChunkId>, ranks: map<ChunkId, nat>) {
    forall x :: (x in ranks <==> RankIn(list, x).Some?) && (x in ranks ==> ranks[x] == RankIn(list, x).value)
  }

  lemma NothingSeen()
    ensures Ranks([], map[]) && Dedup([]) == []
  {
  }

  lemma RanksMore(list: seq<ChunkId>, id: ChunkId, ranks: map<ChunkId, nat>)
    requires Ranks(list, ranks)
    ensures Ranks(list + [id], ranks[id := |list| + 1])
  {
    assert (list + [id])[..|list|] == list;
  }

  lemma DedupMore(list: seq<ChunkId>, id: ChunkId)
    ensures Dedup(list + [id]) == if id in Dedup(list) then Dedup(list) else Dedup(list) + [id]
  {
    assert (list + [id])[..|list|] == list;
  }

  method CollectPool(lexical: seq<ChunkId>, vector: seq<ChunkId>)
    returns (pool: seq<ChunkId>, lexRank: map<ChunkId, nat>, vecRank: map<ChunkId, nat>)
    ensures pool == Dedup(lexical + vector)
    ensures Ranks(lexical, lexRank) && Ranks(vector, vecRank)
  {
    hide Dedup, Ranks;
    pool, lexRank, vecRank := [], map[], map[];
    NothingSeen();
    var i := 0;
    while i < |lexical|
      invariant 0 <= i <= |lexical| && pool == Dedup(lexical[..i]) && Ranks(lexical[..i], lexRank)
    {
      assert lexical[..i + 1] == lexical[..i] + [lexical[i]];
      DedupMore(lexical[..i], lexical[i]);
      RanksMore(lexical[..i], lexical[i], lexRank);
      if lexical[i] !in pool {
        pool := pool + [lexical[i]];
      }
      i := i + 1;
      lexRank := lexRank[lexical[i - 1] := i];
    }
    assert lexical[..i] == lexical == lexical + vector[..0];
    i := 0;
    while i < |vector|
      invariant 0 <= i <= |vector| && pool == Dedup(lexical + vector[..i]) && Ranks(vector[..i], vecRank)
    {
      assert vector[..i + 1] == vector[..i] + [vector[i]];
      assert lexical + vector[..i + 1] == (lexical + vector[..i]) + [vector[i]];
      DedupMore(lexical + vector[..i], vector[i]);
      RanksMore(vector[..i], vector[i], vecRank);
      if vector[i] !in pool {
        pool := pool + [vector[i]];
      }
      i := i + 1;
      vecRank := vecRank[vector[i - 1] := i];
    }
    assert vector[..i] == vector;
  }

  /** A stable sort by falling score: each candidate goes behind those at least as good. */
  method SortByScore(pool: seq<ChunkId>, rrf: map<ChunkId, real>, ghost score: ChunkId -> real) returns (ranked: seq<ChunkId>)
    requires Distinct(pool) && forall x :: x in pool ==> x in rrf && rrf[x] == score(x)
    ensures IsRanking(pool, score, ranked) && Stable(pool, score, ranked) && |ranked| == |pool|
  {
    hide Stable, Inserted;
    ranked := [];
    NothingRanked(score);
    var i := 0;
    while i < |pool|
      invariant 0 <= i <= |pool| && |ranked| == i && IsRanking(pool[..i], score, ranked) && Stable(pool[..i], score, ranked)
    {
      assert forall x :: x in ranked ==> x in pool[..i] && x in pool;
      assert pool[i] !in pool[..i];
      var at := |ranked|;
      while at > 0 && rrf[ranked[at - 1]] < rrf[pool[i]]
        invariant 0 <= at <= |ranked|
        invariant forall j :: at <= j < |ranked| ==> score(ranked[j]) < score(pool[i])
      {
        at := at - 1;
      }
      InsertKeepsRanking(pool, i, score, ranked, at);
      InsertKeepsStable(pool, i, score, ranked, at);
      InsertedLength(ranked, at, pool[i]);
      ranked := Inserted(ranked, at, pool[i]);
      i := i + 1;
    }
    assert pool[..i] == pool;
  }

  lemma NothingRanked(score: ChunkId -> real)
    ensures IsRanking([], score, []) && Stable([], score, [])
  {
  }

  function Inserted(ranked: seq<ChunkId>, at: nat, id: ChunkId): seq<ChunkId>
    requires at <= |ranked|
  {
    ranked[..at] + [id] + ranked[at..]
  }

  lemma InsertedAt(ranked: seq<ChunkId>, at: nat, id: ChunkId, j: nat)
    requires at <= |ranked| && j <= |ranked|
    ensures Inserted(ranked, at, id)[j] == if j < at then ranked[j] else if j == at then id else ranked[j - 1]
  {
  }

  lemma InsertedMembers(ranked: seq<ChunkId>, at: nat, id: ChunkId, x: ChunkId)
    requires at <= |ranked|
    ensures x in Inserted(ranked, at, id) <==> x == id || x in ranked
  {
    assert ranked == ranked[..at] + ranked[at..];
  }

  lemma InsertKeepsRanking(pool: seq<ChunkId>, i: nat, score: ChunkId -> real, ranked: seq<ChunkId>, at: nat)
    requires i < |pool| && Distinct(pool) && IsRanking(pool[..i], score, ranked) && at <= |ranked|
    requires forall j :: at <= j < |ranked| ==> score(ranked[j]) < score(pool[i])
    requires at > 0 ==> score(ranked[at - 1]) >= score(pool[i])
    ensures IsRanking(pool[..i + 1], score, Inserted(ranked, at, pool[i]))
  {
    hide Inserted;
    var id := pool[i];
    var longer := Inserted(ranked, at, id);
    assert pool[..i + 1] == pool[..i] + [id];
    assert id !in pool[..i];
    assert |longer| == |ranked| + 1 by { InsertedLength(ranked, at, id); }
    forall j, l | 0 <= j < l < |longer| ensures longer[j] != longer[l] && score(longer[j]) >= score(longer[l]) {
      InsertedAt(ranked, at, id, j);
      InsertedAt(ranked, at, id, l);
      assert j < at ==> ranked[j] in ranked;
      assert l > at ==> ranked[l - 1] in ranked;
    }
    forall x ensures x in pool[..i + 1] <==> x in longer {
      InsertedMembers(ranked, at, id, x);
    }
  }

  lemma InsertKeepsStable(pool: seq<ChunkId>, i: nat, score: ChunkId -> real, ranked: seq<ChunkId>, at: nat)
    requires i < |pool| && Distinct(pool) && at <= |ranked|
    requires IsRanking(pool[..i], score, ranked) && Stable(pool[..i], score, ranked)
    requires forall j :: at <= j < |ranked| ==> score(ranked[j]) < score(pool[i])
    ensures Stable(pool[..i + 1], score, Inserted(ranked, at, pool[i]))
  {
    hide Inserted;
    var id := pool[i];
    var longer := Inserted(ranked, at, id);
    InsertedLength(ranked, at, id);
    forall j, l | 0 <= j < l < |longer| && score(longer[j]) == score(longer[l])
      ensures Place(pool[..i + 1], longer[j]) < Place(pool[..i + 1], longer[l])
    {
      InsertedAt(ranked, at, id, j);
      InsertedAt(ranked, at, id, l);
      PlaceLater(pool, i, longer[j]);
      PlaceLater(pool, i, longer[l]);
      assert j < at ==> ranked[j] in ranked;
      assert j > at ==> ranked[j - 1] in ranked;
      assert l > at ==> ranked[l - 1] in ranked;
    }
  }

  lemma PlaceLater(pool: seq<ChunkId>, i: nat, id: ChunkId)
    requires i < |pool| && Distinct(pool)
    ensures id != pool[i] ==> Place(pool[..i + 1], id) == Place(pool[..i], id) <= i
    ensures Place(pool[..i + 1], pool[i]) == i + 1
  {
    assert pool[..i + 1][..i] == pool[..i];
    RankBounds(pool[..i], id);
  }

  lemma InsertedLength(ranked: seq<ChunkId>, at: nat, id: ChunkId)
    requires at <= |ranked|
    ensures |Inserted(ranked, at, id)| == |ranked| + 1
  {
  }

  method FuseRrf(lexical: seq<ChunkId>, vector: seq<ChunkId>, limit: int, k: nat)
    returns (hits: seq<ChunkId>)
    ensures IsTop(Dedup(lexical + vector), ScoreBy(lexical, vector, k), limit, hits)
  {
    var pool, lexRank, vecRank := CollectPool(lexical, vector);
    DedupMembers(lexical + vector);
    var rrf: map<ChunkId, real> := map[];
    var i := 0;
    while i < |pool|
      invariant 0 <= i <= |pool|
      invariant forall j :: 0 <= j < i ==> pool[j] in rrf && rrf[pool[j]] == Score(lexical, vector, k, pool[j])
    {
      var id := pool[i];
      RankBounds(lexical, id);
      RankBounds(vector, id);
      var sum := 0.0;
      if id in lexRank {
        sum := sum + 1.0 / (k + lexRank[id]) as real;
      }
      if id in vecRank {
        sum := sum + 1.0 / (k + vecRank[id]) as real;
      }
      rrf := rrf[id := sum];
      i := i + 1;
    }
    var sorted := SortByScore(pool, rrf, ScoreBy(lexical, vector, k));
    hits := Slice(sorted, limit);
    assert IsRanking(pool, ScoreBy(lexical, vector, k), sorted);
  }

  // ---------------------------------------------------------------- what the ranking means

  /** How many of n a limit leaves: the first so many, or all but the last so many. */
  function Remaining(n: nat, limit: int): nat {
    if limit >= n then n else if limit >= 0 then limit else if n + limit > 0 then n + limit else 0
  }

  /** The hits are as many as there are, up to the limit; they are distinct candidates
      in falling score, and none left out scores more than one that made it. */
  lemma HitsAreTheBest(pool: seq<ChunkId>, score: ChunkId -> real, limit: int, hits: seq<ChunkId>)
    requires IsTop(pool, score, limit, hits)
    ensures Distinct(hits) && (forall h :: h in hits ==> h in pool)
    ensures |hits| == Remaining(|Members(pool)|, limit)
    ensures forall i, j :: 0 <= i < j < |hits| ==> score(hits[i]) >= score(hits[j])
    ensures forall h, other :: h in hits && other in pool && other !in hits ==> score(h) >= score(other)
  {
    hide Stable, Slice;
    var ranked :| IsRanking(pool, score, ranked) && Stable(pool, score, ranked) && hits == Slice(ranked, limit);
    SliceIsPrefix(ranked, limit);
    assert forall l :: 0 <= l < |hits| ==> ranked[l] == hits[l];
    DistinctCount(ranked);
    assert Members(pool) == Members(ranked);
    forall h, other | h in hits && other in pool && other !in hits ensures score(h) >= score(other) {
      var i :| 0 <= i < |hits| && hits[i] == h;
      var j :| 0 <= j < |ranked| && ranked[j] == other;
      assert forall l :: 0 <= l < |hits| ==> hits[l] != other;
      assert ranked[i] == h && i < j;
    }
  }

  lemma SliceIsPrefix(items: seq<ChunkId>, limit: int)
    ensures Slice(items, limit) <= items && |Slice(items, limit)| == Remaining(|items|, limit)
  {
  }

  /** Scores and places leave no choice: a pool has one such ranking. */
  lemma RankingIsUnique(pool: seq<ChunkId>, score: ChunkId -> real, a: seq<ChunkId>, b: seq<ChunkId>)
    requires IsRanking(pool, score, a) && Stable(pool, score, a) && IsRanking(pool, score, b) && Stable(pool, score, b)
    ensures a == b
  {
    SameOrder(pool, score, a, b);
  }

  ghost predicate Before(pool: seq<ChunkId>, score: ChunkId -> real, x: ChunkId, y: ChunkId) {
    score(x) > score(y) || (score(x) == score(y) && Place(pool, x) < Place(pool, y))
  }

  ghost predicate InOrder(pool: seq<ChunkId>, score: ChunkId -> real, ids: seq<ChunkId>) {
    forall i, j :: 0 <= i < j < |ids| ==> Before(pool, score, ids[i], ids[j])
  }

  lemma {:induction false} SameOrder(pool: seq<ChunkId>, score: ChunkId -> real, a: seq<ChunkId>, b: seq<ChunkId>)
    requires InOrder(pool, score, a) && InOrder(pool, score, b) && SameIds(a, b)
    ensures a == b
  {
    EmptyTogether(a, b);
    if a == [] {
    } else {
      var m := |a| - 1;
      assert a[m] in b;
      var n := |b| - 1;
      var i :| 0 <= i < |b| && b[i] == a[m];
      assert b[n] in a;
      var j :| 0 <= j < |a| && a[j] == b[n];
      assert i < n ==> Before(pool, score, a[m], b[n]);
      assert j < m ==> Before(pool, score, b[n], a[m]);
      assert a[m] == b[n];
      WithoutLast(pool, score, a, b);
      SameOrder(pool, score, a[..m], b[..n]);
    }
  }

  lemma EmptyTogether(a: seq<ChunkId>, b: seq<ChunkId>)
    requires SameIds(a, b)
    ensures a == [] <==> b == []
  {
    if a != [] {
      assert a[0] in b;
    }
    if b != [] {
      assert b[0] in a;
    }
  }

  lemma WithoutLast(pool: seq<ChunkId>, score: ChunkId -> real, a: seq<ChunkId>, b: seq<ChunkId>)
    requires InOrder(pool, score, a) && InOrder(pool, score, b) && SameIds(a, b)
    requires a != [] && b != [] && a[|a| - 1] == b[|b| - 1]
    ensures SameIds(a[..|a| - 1], b[..|b| - 1])
  {
    var m, n := |a| - 1, |b| - 1;
    assert a == a[..m] + [a[m]] && b == b[..n] + [b[n]];
    assert forall i :: 0 <= i < m ==> Before(pool, score, a[i], a[m]);
    assert forall i :: 0 <= i < n ==> Before(pool, score, b[i], b[n]);
    assert a[m] !in a[..m] && b[n] !in b[..n];
    forall x ensures x in a[..m] <==> x in b[..n] {
      assert x in a[..m] <==> x in a && x != a[m];
      assert x in b[..n] <==> x in b && x != b[n];
    }
  }

  function Members(ids: seq<ChunkId>): set<ChunkId> { set id | id in ids }

  lemma {:induction false} DistinctCount(ids: seq<ChunkId>)
    requires Distinct(ids)
    ensures |Members(ids)| == |ids|
  {
    if ids == [] {
    } else {
      var n := |ids| - 1;
      DistinctCount(ids[..n]);
      assert ids == ids[..n] + [ids[n]] && ids[n] !in ids[..n];
      assert Members(ids) == Members(ids[..n]) + {ids[n]};
    }
  }

  /** Better placed: not in the list is worse than any place in it. */
  predicate AtLeastAsGood(a: Option<nat>, b: Option<nat>) { b.None? || (a.Some? && a.value <= b.value) }

  lemma LargerDivisor(w: real, v: real, d: int, e: int)
    requires w >= v >= 0.0 && 0 < d <= e
    ensures w / d as real >= v / e as real
    ensures w > 0.0 && d < e ==> w / d as real > v / e as real
  {
    assert w / d as real - v / e as real == (w * e as real - v * d as real) / (d as real * e as real);
    assert w * e as real - v * d as real == w * (e - d) as real + (w - v) * d as real;
  }

  lemma ShareGrows(a: Option<nat>, b: Option<nat>, w: real, v: real, k: nat)
    requires (a.Some? ==> a.value >= 1) && (b.Some? ==> b.value >= 1) && AtLeastAsGood(a, b)
    requires w >= 0.0 && (b.Some? ==> w >= v >= 0.0)
    ensures Share(a, w, k) >= Share(b, v, k)
    ensures w > 0.0 && a != b ==> Share(a, w, k) > Share(b, v, k)
  {
    if a.Some? {
      LargerDivisor(w, w, k + a.value, k + a.value);
      PositiveShare(w, k + a.value);
      if b.Some? {
        LargerDivisor(w, v, k + a.value, k + b.value);
      }
    }
  }

  lemma PositiveShare(w: real, d: int)
    requires w >= 0.0 && d > 0
    ensures w / d as real >= 0.0 && (w > 0.0 ==> w / d as real > 0.0)
  {
    assert (w / d as real) * d as real == w;
  }

  /** A candidate at least as well placed in both lists, and better in one, is ranked
      before the other in every ranking. */
  lemma DominanceRanksFirst(lexical: seq<ChunkId>, vector: seq<ChunkId>, k: nat, ranked: seq<ChunkId>, i: nat, j: nat)
    requires IsRanking(Dedup(lexical + vector), ScoreBy(lexical, vector, k), ranked) && i < |ranked| && j < |ranked|
    requires AtLeastAsGood(RankIn(lexical, ranked[i]), RankIn(lexical, ranked[j]))
    requires AtLeastAsGood(RankIn(vector, ranked[i]), RankIn(vector, ranked[j]))
    requires RankIn(lexical, ranked[i]) != RankIn(lexical, ranked[j]) || RankIn(vector, ranked[i]) != RankIn(vector, ranked[j])
    ensures i < j
  {
    var a, b := ranked[i], ranked[j];
    RankBounds(lexical, a);
    RankBounds(lexical, b);
    RankBounds(vector, a);
    RankBounds(vector, b);
    ShareGrows(RankIn(lexical, a), RankIn(lexical, b), 1.0, 1.0, k);
    ShareGrows(RankIn(vector, a), RankIn(vector, b), 1.0, 1.0, k);
    var score := ScoreBy(lexical, vector, k);
    assert score(a) > score(b);
  }

  // ---------------------------------------------------------------- the variant of memory recall

  /** A memory found by vector search, and how similar it is. */
  datatype Similar = Similar(id: ChunkId, similarity: real)

  function IdsOf(vector: seq<Similar>): (ids: seq<ChunkId>)
    ensures |ids| == |vector| && forall i :: 0 <= i < |ids| ==> ids[i] == vector[i].id
  {
    seq(|vector|, i requires 0 <= i < |vector| => vector[i].id)
  }

  function SimilarityOf(vector: seq<Similar>, id: ChunkId): real {
    var rank := RankIn(IdsOf(vector), id);
    RankBounds(IdsOf(vector), id);
    if rank.Some? then vector[rank.value - 1].similarity else 0.0
  }

  function LexicalRank(lexical: map<ChunkId, nat>, id: ChunkId): Option<nat> {
    if id in lexical then Some(lexical[id]) else None
  }

  ghost predicate FromOne(lexical: map<ChunkId, nat>) { forall id :: id in lexical ==> lexical[id] >= 1 }

  /** The vector side counts by its similarity. */
  function WeightedScore(lexical: Option<nat>, vector: seq<Similar>, k: nat, id: ChunkId): real
    requires lexical.Some? ==> lexical.value >= 1
  {
    RankBounds(IdsOf(vector), id);
    Share(lexical, 1.0, k) + Share(RankIn(IdsOf(vector), id), SimilarityOf(vector, id), k)
  }

  function FusedScore(lexical: map<ChunkId, nat>, vector: seq<Similar>, k: nat, id: ChunkId): real
    requires FromOne(lexical)
  {
    WeightedScore(LexicalRank(lexical, id), vector, k, id)
  }

  ghost function WeightedBy(lexical: map<ChunkId, nat>, vector: seq<Similar>, k: nat): ChunkId -> real
    requires FromOne(lexical)
  {
    (id: ChunkId) => if FromOne(lexical) then FusedScore(lexical, vector, k, id) else 0.0
  }

  /** The text side counts one over k and the place, the vector side its similarity. */
  lemma MemoryScoreByPlaces(lexical: map<ChunkId, nat>, vector: seq<Similar>, k: nat, id: ChunkId, j: nat)
    requires FromOne(lexical) && LastPlace(IdsOf(vector), id, j)
    ensures FusedScore(lexical, vector, k, id)
            == (if id in lexical then 1.0 / (k + lexical[id]) as real else 0.0)
               + (if j == 0 then 0.0 else vector[j - 1].similarity / (k + j) as real)
  {
    RankIsLastPlace(IdsOf(vector), id, j);
  }

  /** All memories found either way, by falling weighted score. `lexical` holds the
      positions the text search gave. */
  method FuseMemories(lexical: map<ChunkId, nat>, vector: seq<Similar>, k: nat) returns (ranked: seq<ChunkId>)
    requires FromOne(lexical)
    ensures Distinct(ranked) && forall id :: id in ranked <==> id in lexical || id in IdsOf(vector)
    ensures IsRanking(ranked, WeightedBy(lexical, vector, k), ranked)
  {
    hide FusedScore, FromOne, IdsOf, IsRanking, Stable;
    var ids := IdsOf(vector);
    var todo := lexical.Keys + set id | id in ids;
    var pool: seq<ChunkId>, scores: map<ChunkId, real> := [], map[];
    ghost var all := todo;
    while todo != {}
      invariant todo <= all && Distinct(pool) && forall id :: id in pool <==> id in all && id !in todo
      invariant forall id :: id in pool ==> id in scores && scores[id] == FusedScore(lexical, vector, k, id)
      decreases |todo|
    {
      var id :| id in todo;
      todo := todo - {id};
      pool := pool + [id];
      scores := scores[id := FusedScore(lexical, vector, k, id)];
    }
    ranked := SortByScore(pool, scores, WeightedBy(lexical, vector, k));
    RanksItself(pool, WeightedBy(lexical, vector, k), ranked);
  }

  lemma RanksItself(pool: seq<ChunkId>, score: ChunkId -> real, ranked: seq<ChunkId>)
    requires IsRanking(pool, score, ranked)
    ensures IsRanking(ranked, score, ranked) && Distinct(ranked) && forall id :: id in ranked <==> id in pool
  {
  }

  predicate SortedBySimilarity(vector: seq<Similar>) {
    && (forall i :: 0 <= i < |vector| ==> vector[i].similarity >= 0.0)
    && (forall i, j :: 0 <= i < j < |vector| ==> vector[i].similarity >= vector[j].similarity)
  }

  /** With similarities sorted and not negative, being placed better never costs; and
      it pays whenever the better place carries any similarity at all. */
  lemma WeightedDominance(lexA: Option<nat>, lexB: Option<nat>, vector: seq<Similar>, k: nat, a: ChunkId, b: ChunkId)
    requires (lexA.Some? ==> lexA.value >= 1) && (lexB.Some? ==> lexB.value >= 1) && AtLeastAsGood(lexA, lexB)
    requires SortedBySimilarity(vector) && AtLeastAsGood(RankIn(IdsOf(vector), a), RankIn(IdsOf(vector), b))
    ensures WeightedScore(lexA, vector, k, a) >= WeightedScore(lexB, vector, k, b)
    ensures lexA != lexB || (RankIn(IdsOf(vector), a) != RankIn(IdsOf(vector), b) && SimilarityOf(vector, a) > 0.0) ==>
              WeightedScore(lexA, vector, k, a) > WeightedScore(lexB, vector, k, b)
  {
    hide Share;
    RankBounds(IdsOf(vector), a);
    RankBounds(IdsOf(vector), b);
    ShareGrows(lexA, lexB, 1.0, 1.0, k);
    ShareGrows(RankIn(IdsOf(vector), a), RankIn(IdsOf(vector), b), SimilarityOf(vector, a), SimilarityOf(vector, b), k);
  }

  /** So a memory placed at least as well by both searches, and better by one that
      counts, comes first. */
  lemma WeightedDominanceRanksFirst(lexical: map<ChunkId, nat>, vector: seq<Similar>, k: nat, ranked: seq<ChunkId>, i: nat, j: nat)
    requires FromOne(lexical) && IsRanking(ranked, WeightedBy(lexical, vector, k), ranked) && i < |ranked| && j < |ranked|
    requires SortedBySimilarity(vector)
    requires AtLeastAsGood(LexicalRank(lexical, ranked[i]), LexicalRank(lexical, ranked[j]))
    requires AtLeastAsGood(RankIn(IdsOf(vector), ranked[i]), RankIn(IdsOf(vector), ranked[j]))
    requires || LexicalRank(lexical, ranked[i]) != LexicalRank(lexical, ranked[j])
             || (RankIn(IdsOf(vector), ranked[i]) != RankIn(IdsOf(vector), ranked[j]) && SimilarityOf(vector, ranked[i]) > 0.0)
    ensures i < j
  {
    hide WeightedScore, SortedBySimilarity, AtLeastAsGood;
    var a, b := ranked[i], ranked[j];
    WeightedDominance(LexicalRank(lexical, a), LexicalRank(lexical, b), vector, k, a, b);
    var score := WeightedBy(lexical, vector, k);
    assert score(a) > score(b);
  }

  // ---------------------------------------------------------------- exactly when a better place never costs

  /** What the place at index i of the vector list contributes. */
  function ShareAt(vector: seq<Similar>, k: nat, i: nat): real
    requires i < |vector|
  {
    Share(Some(i + 1), vector[i].similarity, k)
  }

  /** The contributions are not negative and do not rise along the list. */
  ghost predicate SharesFall(vector: seq<Similar>, k: nat) {
    && (forall i :: 0 <= i < |vector| ==> ShareAt(vector, k, i) >= 0.0)
    && (forall i, j :: 0 <= i < j < |vector| ==> ShareAt(vector, k, i) >= ShareAt(vector, k, j))
  }

  ghost predicate BetterNeverCosts(vector: seq<Similar>, k: nat) {
    forall lexA: Option<nat>, lexB: Option<nat>, a, b ::
      (lexA.Some? ==> lexA.value >= 1) && (lexB.Some? ==> lexB.value >= 1) && AtLeastAsGood(lexA, lexB)
      && AtLeastAsGood(RankIn(IdsOf(vector), a), RankIn(IdsOf(vector), b))
      ==> WeightedScore(lexA, vector, k, a) >= WeightedScore(lexB, vector, k, b)
  }

  lemma {:induction false} RankOfDistinct(ids: seq<ChunkId>, i: nat)
    requires Distinct(ids) && i < |ids|
    ensures RankIn(ids, ids[i]) == Some(i + 1)
    decreases |ids|
  {
    if i < |ids| - 1 {
      RankOfDistinct(ids[..|ids| - 1], i);
    }
  }

  /** Some string is longer than all of them. */
  lemma {:induction false} Unlisted(ids: seq<ChunkId>) returns (id: ChunkId)
    ensures id !in ids && forall i :: 0 <= i < |ids| ==> |ids[i]| < |id|
  {
    if ids == [] {
      id := "";
    } else {
      var shorter := Unlisted(ids[1..]);
      var longer := ids[0] + " ";
      id := if |longer| > |shorter| then longer else shorter + " ";
      assert forall i :: 0 < i < |ids| ==> ids[i] == ids[1..][i - 1];
    }
  }

  lemma SharedScore(vector: seq<Similar>, k: nat, id: ChunkId)
    ensures RankIn(IdsOf(vector), id).Some? ==> 1 <= RankIn(IdsOf(vector), id).value <= |vector|
    ensures WeightedScore(None, vector, k, id)
            == match RankIn(IdsOf(vector), id) case None => 0.0 case Some(rank) => ShareAt(vector, k, rank - 1)
  {
    RankBounds(IdsOf(vector), id);
  }

  lemma ScoreSplits(lexical: Option<nat>, vector: seq<Similar>, k: nat, id: ChunkId)
    requires lexical.Some? ==> lexical.value >= 1
    ensures WeightedScore(lexical, vector, k, id) == Share(lexical, 1.0, k) + WeightedScore(None, vector, k, id)
  {
  }

  /** For a list that names each memory once: a better place never costs if and only if
      the contributions of the places are not negative and do not rise. */
  lemma BetterNeverCostsExactly(vector: seq<Similar>, k: nat)
    requires Distinct(IdsOf(vector))
    ensures BetterNeverCosts(vector, k) <==> SharesFall(vector, k)
  {
    hide WeightedScore, ShareAt;
    if SharesFall(vector, k) {
      forall lexA: Option<nat>, lexB: Option<nat>, a, b
        | (lexA.Some? ==> lexA.value >= 1) && (lexB.Some? ==> lexB.value >= 1) && AtLeastAsGood(lexA, lexB)
          && AtLeastAsGood(RankIn(IdsOf(vector), a), RankIn(IdsOf(vector), b))
        ensures WeightedScore(lexA, vector, k, a) >= WeightedScore(lexB, vector, k, b)
      {
        ScoreSplits(lexA, vector, k, a);
        ScoreSplits(lexB, vector, k, b);
        SharedScore(vector, k, a);
        SharedScore(vector, k, b);
        ShareGrows(lexA, lexB, 1.0, 1.0, k);
      }
    } else {
      CostsSomewhere(vector, k);
    }
  }

  lemma CostsSomewhere(vector: seq<Similar>, k: nat)
    requires Distinct(IdsOf(vector)) && !SharesFall(vector, k)
    ensures !BetterNeverCosts(vector, k)
  {
    hide WeightedScore, ShareAt;
    var ids := IdsOf(vector);
    if i :| 0 <= i < |vector| && ShareAt(vector, k, i) < 0.0 {
      var other := Unlisted(ids);
      RankOfDistinct(ids, i);
      RankBounds(ids, other);
      SharedScore(vector, k, ids[i]);
      SharedScore(vector, k, other);
      assert WeightedScore(None, vector, k, ids[i]) < WeightedScore(None, vector, k, other);
    } else {
      var i, j :| 0 <= i < j < |vector| && ShareAt(vector, k, i) < ShareAt(vector, k, j);
      RankOfDistinct(ids, i);
      RankOfDistinct(ids, j);
      SharedScore(vector, k, ids[i]);
      SharedScore(vector, k, ids[j]);
      assert WeightedScore(None, vector, k, ids[i]) < WeightedScore(None, vector, k, ids[j]);
    }
  }

  /** For instance: a better place with a much lower similarity loses. */
  lemma UnsortedSimilarityCanInvert()
    ensures var vector := [Similar("a", 0.1), Similar("b", 0.9)];
            && RankIn(IdsOf(vector), "a") == Some(1) && RankIn(IdsOf(vector), "b") == Some(2)
            && WeightedScore(None, vector, 60, "a") < WeightedScore(None, vector, 60, "b")
  {
    var vector := [Similar("a", 0.1), Similar("b", 0.9)];
    var ids := IdsOf(vector);
    assert ids[1] == "b" && ids[0] == "a";
    assert ids[..1] == ["a"];
    assert RankIn(ids, "b") == Some(2) && RankIn(ids, "a") == RankIn(ids[..1], "a") == Some(1);
  }
}
