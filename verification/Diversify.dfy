/** Fair retrieval: at most `perDocument` chunks of each document, and more in rounds
    while there is room. */
module Diversify {

  /** A search hit: its chunk and the document the chunk is from. */
  datatype Hit = Hit(chunk: string, document: string)

  function Max(a: int, b: int): int { if a > b then a else b }

  function ChunksOf(hits: seq<Hit>): set<string> { set i | 0 <= i < |hits| :: hits[i].chunk }

  /** How many of the picked hits are from the document. */
  function Share(picked: seq<Hit>, document: string): nat {
    if picked == [] then 0
    else Share(picked[..|picked| - 1], document) + if picked[|picked| - 1].document == document then 1 else 0
  }

  predicate DistinctChunks(picked: seq<Hit>) {
    forall i, j :: 0 <= i < j < |picked| ==> picked[i].chunk != picked[j].chunk
  }

  /** No better chunk of a document is passed over: when a hit is picked, all earlier
      hits of its document are in already. */
  predicate BestFirst(hits: seq<Hit>, picked: seq<Hit>, at: seq<nat>) {
    && |at| == |picked|
    && (forall k :: 0 <= k < |picked| ==> at[k] < |hits| && picked[k] == hits[at[k]])
    && (forall k, i :: 0 <= k < |picked| && 0 <= i < at[k] && hits[i].document == picked[k].document
                       ==> hits[i].chunk in ChunksOf(picked[..k]))
  }

  /** The round in which the k-th pick was made: the first lets each document have
      perDocument chunks, every later one a single chunk more. */
  function Round(picked: seq<Hit>, perDocument: int, k: nat): int
    requires k < |picked|
  {
    Max(perDocument, Share(picked[..k + 1], picked[k].document))
  }

  /** Round by round, and by relevance inside a round. */
  predicate RoundsInOrder(picked: seq<Hit>, at: seq<nat>, perDocument: int)
    requires |at| == |picked|
  {
    forall j, k :: 0 <= j < k < |picked| ==>
      Round(picked, perDocument, j) < Round(picked, perDocument, k)
      || (Round(picked, perDocument, j) == Round(picked, perDocument, k) && at[j] < at[k])
  }

  /** Max-min fairness: a document above the ceiling is at most one ahead of any
      document that still had something to offer. */
  ghost predicate Fair(hits: seq<Hit>, picked: seq<Hit>, perDocument: int) {
    forall i, d :: 0 <= i < |hits| && hits[i].chunk !in ChunksOf(picked) && Share(picked, d) > perDocument
                   ==> Share(picked, hits[i].document) >= Share(picked, d) - 1
  }

  /** Every hit is picked or its document has had its cap. */
  predicate Swept(hits: seq<Hit>, picked: seq<Hit>, cap: int) {
    forall i :: 0 <= i < |hits| ==> hits[i].chunk in ChunksOf(picked) || Share(picked, hits[i].document) >= cap
  }

  lemma PickOne(picked: seq<Hit>, hit: Hit)
    ensures ChunksOf(picked + [hit]) == ChunksOf(picked) + {hit.chunk}
    ensures forall d :: Share(picked + [hit], d) == Share(picked, d) + if d == hit.document then 1 else 0
    ensures forall k :: 0 <= k <= |picked| ==> (picked + [hit])[..k] == picked[..k]
  {
    var longer := picked + [hit];
    assert longer[..|longer| - 1] == picked;
    forall c | c in ChunksOf(picked) + {hit.chunk} ensures c in ChunksOf(longer) {
      if c in ChunksOf(picked) {
        var i :| 0 <= i < |picked| && picked[i].chunk == c;
        assert longer[i].chunk == c;
      } else {
        assert longer[|picked|].chunk == c;
      }
    }
    forall c | c in ChunksOf(longer) ensures c in ChunksOf(picked) + {hit.chunk} {
      var i :| 0 <= i < |longer| && longer[i].chunk == c;
      assert i < |picked| ==> longer[i] == picked[i];
    }
  }

  lemma {:induction false} ShareAtMost(picked: seq<Hit>, d: string)
    ensures Share(picked, d) <= |picked|
  {
    if picked == [] {
    } else {
      ShareAtMost(picked[..|picked| - 1], d);
    }
  }

  lemma {:induction false} DistinctCount(picked: seq<Hit>)
    requires DistinctChunks(picked)
    ensures |ChunksOf(picked)| == |picked|
  {
    if picked == [] {
    } else {
      var init, last := picked[..|picked| - 1], picked[|picked| - 1];
      DistinctCount(init);
      PickOne(init, last);
      assert init + [last] == picked;
      assert last.chunk !in ChunksOf(init);
    }
  }

  lemma Subset<T>(a: set<T>, b: set<T>)
    requires a <= b
    ensures |a| <= |b|
  {
    var rest := b - a;
    assert b == a + rest;
  }

  method Diversify(hits: seq<Hit>, limit: int, perDocument: int) returns (picked: seq<Hit>, ghost at: seq<nat>)
    ensures DistinctChunks(picked)
    ensures BestFirst(hits, picked, at)
    ensures RoundsInOrder(picked, at, perDocument)
    ensures Fair(hits, picked, perDocument)
    ensures perDocument > limit ==> picked == []
    ensures perDocument <= limit ==>
              |picked| == if |ChunksOf(hits)| <= limit then |ChunksOf(hits)| else Max(limit, 0)
  {
    hide BetweenRounds, InRound, Fair, DistinctChunks, BestFirst, RoundsInOrder, ChunksOf;
    picked, at := [], [];
    var seen: set<string> := {};
    var count: map<string, nat> := map[];
    var cap := perDocument;
    Nothing(hits, limit, perDocument);
    while |picked| < limit && cap <= limit
      invariant BetweenRounds(hits, picked, at, seen, count, limit, perDocument, cap)
      invariant cap > perDocument ==> perDocument <= limit
      invariant cap == perDocument ==> picked == []
      decreases limit - cap
    {
      var i := 0;
      RoundBegins(hits, picked, at, seen, count, limit, perDocument, cap);
      while i < |hits|
        invariant 0 <= i <= |hits|
        invariant InRound(hits, picked, at, seen, count, limit, perDocument, cap, i)
        invariant |picked| < limit
      {
        var hit := hits[i];
        if hit.chunk in seen {
          Skip(hits, picked, at, seen, count, limit, perDocument, cap, i);
          i := i + 1;
          continue;
        }
        var had := if hit.document in count then count[hit.document] else 0;
        if had >= cap {
          Skip(hits, picked, at, seen, count, limit, perDocument, cap, i);
          i := i + 1;
          continue;
        }
        Admit(hits, picked, at, seen, count, limit, perDocument, cap, i);
        picked, at := picked + [hit], at + [i];
        seen := seen + {hit.chunk};
        count := count[hit.document := had + 1];
        i := i + 1;
        if |picked| >= limit {
          break;
        }
      }
      RoundEnds(hits, picked, at, seen, count, limit, perDocument, cap, i);
      cap := cap + 1;
    }
    AtTheEnd(hits, picked, at, seen, count, limit, perDocument, cap);
  }

  ghost predicate Bookkeeping(hits: seq<Hit>, picked: seq<Hit>, at: seq<nat>, seen: set<string>, count: map<string, nat>,
                              limit: int)
  {
    && seen == ChunksOf(picked) && DistinctChunks(picked) && BestFirst(hits, picked, at)
    && (forall d :: Share(picked, d) == if d in count then count[d] else 0)
    && |at| == |picked| <= Max(limit, 0)
  }

  /** All rounds below cap are over. */
  ghost predicate BetweenRounds(hits: seq<Hit>, picked: seq<Hit>, at: seq<nat>, seen: set<string>, count: map<string, nat>,
                                limit: int, perDocument: int, cap: int)
  {
    && Bookkeeping(hits, picked, at, seen, count, limit) && RoundsInOrder(picked, at, perDocument) && perDocument <= cap
    && (forall k :: 0 <= k < |picked| ==> Round(picked, perDocument, k) < cap)
    && (forall d :: Share(picked, d) <= Max(cap - 1, 0))
    && (cap - 1 > perDocument ==> Swept(hits, picked, cap - 2))
    && (cap > perDocument && |picked| < limit ==> Swept(hits, picked, cap - 1))
  }

  /** The round with this cap has looked at the first i hits. */
  ghost predicate InRound(hits: seq<Hit>, picked: seq<Hit>, at: seq<nat>, seen: set<string>, count: map<string, nat>,
                          limit: int, perDocument: int, cap: int, i: nat)
  {
    && i <= |hits|
    && Bookkeeping(hits, picked, at, seen, count, limit) && RoundsInOrder(picked, at, perDocument) && perDocument <= cap
    && (forall k :: 0 <= k < |picked| ==>
          Round(picked, perDocument, k) < cap || (Round(picked, perDocument, k) == cap && at[k] < i))
    && (forall d :: Share(picked, d) <= Max(cap, 0))
    && (cap > perDocument ==> Swept(hits, picked, cap - 1))
    && (forall j :: 0 <= j < i ==> hits[j].chunk in ChunksOf(picked) || Share(picked, hits[j].document) >= cap)
  }

  lemma Nothing(hits: seq<Hit>, limit: int, perDocument: int)
    ensures BetweenRounds(hits, [], [], {}, map[], limit, perDocument, perDocument)
  {
  }

  lemma RoundBegins(hits: seq<Hit>, picked: seq<Hit>, at: seq<nat>, seen: set<string>, count: map<string, nat>,
                    limit: int, perDocument: int, cap: int)
    requires BetweenRounds(hits, picked, at, seen, count, limit, perDocument, cap) && |picked| < limit
    ensures InRound(hits, picked, at, seen, count, limit, perDocument, cap, 0)
  {
    hide DistinctChunks, BestFirst, RoundsInOrder, ChunksOf, Share, Swept, Round;
  }

  lemma RoundEnds(hits: seq<Hit>, picked: seq<Hit>, at: seq<nat>, seen: set<string>, count: map<string, nat>,
                  limit: int, perDocument: int, cap: int, i: nat)
    requires InRound(hits, picked, at, seen, count, limit, perDocument, cap, i)
    requires i == |hits| || |picked| >= limit
    ensures BetweenRounds(hits, picked, at, seen, count, limit, perDocument, cap + 1)
  {
    hide DistinctChunks, BestFirst, RoundsInOrder, ChunksOf, Share, Round;
  }

  lemma Skip(hits: seq<Hit>, picked: seq<Hit>, at: seq<nat>, seen: set<string>, count: map<string, nat>,
             limit: int, perDocument: int, cap: int, i: nat)
    requires InRound(hits, picked, at, seen, count, limit, perDocument, cap, i) && i < |hits|
    requires hits[i].chunk in seen || (if hits[i].document in count then count[hits[i].document] else 0) >= cap
    ensures InRound(hits, picked, at, seen, count, limit, perDocument, cap, i + 1)
  {
    hide DistinctChunks, BestFirst, RoundsInOrder, ChunksOf, Round, Swept;
  }

  lemma Admit(hits: seq<Hit>, picked: seq<Hit>, at: seq<nat>, seen: set<string>, count: map<string, nat>,
              limit: int, perDocument: int, cap: int, i: nat)
    requires InRound(hits, picked, at, seen, count, limit, perDocument, cap, i) && i < |hits| && |picked| < limit
    requires var had := if hits[i].document in count then count[hits[i].document] else 0;
             hits[i].chunk !in seen && had < cap
    ensures var hit := hits[i];
            var had := if hit.document in count then count[hit.document] else 0;
            InRound(hits, picked + [hit], at + [i], seen + {hit.chunk}, count[hit.document := had + 1],
                    limit, perDocument, cap, i + 1)
  {
    hide DistinctChunks, BestFirst, RoundsInOrder, ChunksOf, Round, Share, Swept;
    PickOne(picked, hits[i]);
    AdmitRounds(hits, picked, at, i, cap, perDocument);
    AdmitBest(hits, picked, at, i, cap);
    if cap > perDocument {
      SweptGrows(hits, picked, hits[i], cap - 1);
    }
  }

  lemma RoundsStay(picked: seq<Hit>, hit: Hit, perDocument: int)
    ensures var longer := picked + [hit];
            && (forall k :: 0 <= k < |picked| ==> Round(longer, perDocument, k) == Round(picked, perDocument, k))
            && Round(longer, perDocument, |picked|) == Max(perDocument, Share(picked, hit.document) + 1)
  {
    hide ChunksOf, Share;
    var longer := picked + [hit];
    PickOne(picked, hit);
    assert longer[..|picked| + 1] == longer;
    forall k | 0 <= k < |picked| ensures Round(longer, perDocument, k) == Round(picked, perDocument, k) {
      assert longer[..k + 1] == picked[..k + 1];
    }
  }

  /** The admission is the last pick of the round so far. */
  lemma AdmitRounds(hits: seq<Hit>, picked: seq<Hit>, at: seq<nat>, i: nat, cap: int, perDocument: int)
    requires i < |hits| && |at| == |picked| && RoundsInOrder(picked, at, perDocument)
    requires hits[i].chunk !in ChunksOf(picked) && Share(picked, hits[i].document) < cap && perDocument <= cap
    requires forall k :: 0 <= k < |picked| ==>
               Round(picked, perDocument, k) < cap || (Round(picked, perDocument, k) == cap && at[k] < i)
    requires cap > perDocument ==> Swept(hits, picked, cap - 1)
    ensures var longer := picked + [hits[i]];
            && RoundsInOrder(longer, at + [i], perDocument)
            && (forall k :: 0 <= k <= |picked| ==>
                  Round(longer, perDocument, k) < cap || (Round(longer, perDocument, k) == cap && (at + [i])[k] < i + 1))
  {
    hide ChunksOf, Round, Share;
    RoundsStay(picked, hits[i], perDocument);
  }

  lemma SweptGrows(hits: seq<Hit>, picked: seq<Hit>, hit: Hit, cap: int)
    requires Swept(hits, picked, cap)
    ensures Swept(hits, picked + [hit], cap)
  {
    PickOne(picked, hit);
    hide ChunksOf, Share;
  }

  lemma AdmitBest(hits: seq<Hit>, picked: seq<Hit>, at: seq<nat>, i: nat, cap: int)
    requires i < |hits| && DistinctChunks(picked) && BestFirst(hits, picked, at)
    requires hits[i].chunk !in ChunksOf(picked) && Share(picked, hits[i].document) < cap
    requires forall j :: 0 <= j < i ==> hits[j].chunk in ChunksOf(picked) || Share(picked, hits[j].document) >= cap
    ensures DistinctChunks(picked + [hits[i]]) && BestFirst(hits, picked + [hits[i]], at + [i])
  {
    hide Share;
    var longer := picked + [hits[i]];
    assert forall k :: 0 <= k <= |picked| ==> longer[..k] == picked[..k];
    forall k | 0 <= k < |picked| ensures picked[k].chunk != hits[i].chunk {
      assert picked[k].chunk in ChunksOf(picked);
    }
    assert longer[..|picked|] == picked;
  }

  lemma AtTheEnd(hits: seq<Hit>, picked: seq<Hit>, at: seq<nat>, seen: set<string>, count: map<string, nat>,
                 limit: int, perDocument: int, cap: int)
    requires BetweenRounds(hits, picked, at, seen, count, limit, perDocument, cap)
    requires |picked| >= limit || cap > limit
    ensures DistinctChunks(picked) && BestFirst(hits, picked, at) && RoundsInOrder(picked, at, perDocument)
    ensures Fair(hits, picked, perDocument)
    ensures perDocument <= limit ==>
              |picked| == if |ChunksOf(hits)| <= limit then |ChunksOf(hits)| else Max(limit, 0)
  {
    hide RoundsInOrder, Round;
    DistinctCount(picked);
    forall c | c in ChunksOf(picked) ensures c in ChunksOf(hits) {
      var k :| 0 <= k < |picked| && picked[k].chunk == c;
      assert hits[at[k]].chunk == c;
    }
    Subset(ChunksOf(picked), ChunksOf(hits));
    if perDocument <= limit && |picked| < limit {
      forall c | c in ChunksOf(hits) ensures c in ChunksOf(picked) {
        var i :| 0 <= i < |hits| && hits[i].chunk == c;
        ShareAtMost(picked, hits[i].document);
      }
      assert ChunksOf(picked) == ChunksOf(hits);
    }
  }

  // ---------------------------------------------------------------- what it means per document

  /** The picks of one document, and the first occurrences of its chunks. */
  function Of(picked: seq<Hit>, document: string): seq<Hit> {
    if picked == [] then []
    else Of(picked[..|picked| - 1], document) + if picked[|picked| - 1].document == document then [picked[|picked| - 1]] else []
  }

  function FirstUses(hits: seq<Hit>, document: string): seq<Hit> {
    if hits == [] then []
    else
      var init, last := hits[..|hits| - 1], hits[|hits| - 1];
      FirstUses(init, document)
      + if last.document == document && last.chunk !in ChunksOf(init) then [last] else []
  }

  /** As in the store: a chunk belongs to one document. */
  predicate ChunksHaveOneDocument(hits: seq<Hit>) {
    forall i, j :: 0 <= i < |hits| && 0 <= j < |hits| && hits[i].chunk == hits[j].chunk ==> hits[i] == hits[j]
  }

  lemma {:induction false} FirstUsesGrow(hits: seq<Hit>, document: string, j: nat)
    requires j <= |hits|
    ensures FirstUses(hits[..j], document) <= FirstUses(hits, document)
  {
    if j == |hits| {
      assert hits[..j] == hits;
    } else {
      var init := hits[..|hits| - 1];
      FirstUsesGrow(init, document, j);
      assert init[..j] == hits[..j];
    }
  }

  lemma {:induction false} FirstUsesMembers(hits: seq<Hit>, document: string)
    requires ChunksHaveOneDocument(hits)
    ensures forall h :: h in FirstUses(hits, document) <==> h in hits && h.document == document
    ensures DistinctChunks(FirstUses(hits, document))
  {
    if hits == [] {
    } else {
      var init, last := hits[..|hits| - 1], hits[|hits| - 1];
      FirstUsesMembers(init, document);
      assert hits == init + [last];
      if last.chunk in ChunksOf(init) {
        var i :| 0 <= i < |init| && init[i].chunk == last.chunk;
        assert hits[i] == last;
      } else {
        forall h | h in FirstUses(init, document) ensures h.chunk in ChunksOf(init) {
          var i :| 0 <= i < |init| && init[i] == h;
        }
      }
    }
  }

  lemma {:induction false} OfMembers(picked: seq<Hit>, document: string)
    ensures forall h :: h in Of(picked, document) <==> h in picked && h.document == document
  {
    if picked == [] {
    } else {
      var init, last := picked[..|picked| - 1], picked[|picked| - 1];
      OfMembers(init, document);
      assert picked == init + [last];
    }
  }

  /** Two distinct sequences of which one's members are in the other and both are
      prefixes of a third: the shorter is a prefix of the longer. */
  lemma DistinctPrefix(a: seq<Hit>, b: seq<Hit>, whole: seq<Hit>)
    requires a <= whole && b <= whole && DistinctChunks(whole) && (forall h :: h in a ==> h in b)
    ensures |a| <= |b|
  {
    if a != [] {
      var k := |a| - 1;
      assert a[k] in b;
      var i :| 0 <= i < |b| && b[i] == a[k];
      assert whole[i] == whole[k];
    }
  }

  /** Each document's share is a prefix of its chunks in relevance order. */
  lemma {:induction false} ShareIsPrefix(hits: seq<Hit>, picked: seq<Hit>, at: seq<nat>, document: string)
    requires ChunksHaveOneDocument(hits) && DistinctChunks(picked) && BestFirst(hits, picked, at)
    ensures Of(picked, document) <= FirstUses(hits, document)
  {
    hide FirstUses, ChunksOf, AllIn;
    if picked == [] {
    } else {
      var n := |picked| - 1;
      var init, last := picked[..n], picked[n];
      InitIsBestFirst(hits, picked, at);
      ShareIsPrefix(hits, init, at[..n], document);
      if last.document == document {
        NextInLine(hits, picked, at, document);
        NoneSkipped(hits, picked, at, document);
        LastNotTaken(picked, document);
        FirstUsesDistinct(hits, document);
        Continue(FirstUses(hits[..at[n]], document), Of(init, document), last, FirstUses(hits, document));
      }
    }
  }

  lemma InitIsBestFirst(hits: seq<Hit>, picked: seq<Hit>, at: seq<nat>)
    requires picked != [] && BestFirst(hits, picked, at)
    ensures BestFirst(hits, picked[..|picked| - 1], at[..|picked| - 1])
  {
    var init := picked[..|picked| - 1];
    assert forall k :: 0 <= k <= |init| ==> init[..k] == picked[..k];
  }

  /** The last pick is next in its document's list after what precedes it there. */
  lemma NextInLine(hits: seq<Hit>, picked: seq<Hit>, at: seq<nat>, document: string)
    requires ChunksHaveOneDocument(hits) && DistinctChunks(picked) && BestFirst(hits, picked, at)
    requires picked != [] && picked[|picked| - 1].document == document
    ensures var n := |picked| - 1;
            FirstUses(hits[..at[n]], document) + [picked[n]] <= FirstUses(hits, document)
  {
    hide FirstUses, ChunksOf;
    var j := at[|picked| - 1];
    LastIsNew(hits, picked, at);
    FirstUsesNext(hits, j, document);
    FirstUsesGrow(hits, document, j + 1);
  }

  lemma LastNotTaken(picked: seq<Hit>, document: string)
    requires DistinctChunks(picked) && picked != []
    ensures picked[|picked| - 1] !in Of(picked[..|picked| - 1], document)
  {
    var n := |picked| - 1;
    OfMembers(picked[..n], document);
    assert forall k :: 0 <= k < n ==> picked[..n][k] == picked[k] && picked[k] != picked[n];
  }

  lemma FirstUsesNext(hits: seq<Hit>, j: nat, document: string)
    requires j < |hits| && hits[j].document == document && hits[j].chunk !in ChunksOf(hits[..j])
    ensures FirstUses(hits[..j + 1], document) == FirstUses(hits[..j], document) + [hits[j]]
  {
    assert hits[..j + 1][..j] == hits[..j];
  }

  predicate AllIn(a: seq<Hit>, b: seq<Hit>) { forall h :: h in a ==> h in b }

  lemma FirstUsesDistinct(hits: seq<Hit>, document: string)
    requires ChunksHaveOneDocument(hits)
    ensures DistinctChunks(FirstUses(hits, document))
  {
    FirstUsesMembers(hits, document);
  }

  lemma Continue(earlier: seq<Hit>, taken: seq<Hit>, last: Hit, whole: seq<Hit>)
    requires earlier + [last] <= whole && taken <= whole && DistinctChunks(whole)
    requires AllIn(earlier, taken) && last !in taken
    ensures taken + [last] <= whole
  {
    assert earlier <= whole;
    DistinctPrefix(earlier, taken, whole);
    assert whole[|earlier|] == last;
    assert forall k :: 0 <= k < |taken| ==> whole[k] == taken[k] && taken[k] != last;
  }

  /** What precedes the last pick among the document's chunks has been picked. */
  lemma NoneSkipped(hits: seq<Hit>, picked: seq<Hit>, at: seq<nat>, document: string)
    requires ChunksHaveOneDocument(hits) && BestFirst(hits, picked, at)
    requires picked != [] && picked[|picked| - 1].document == document
    ensures var n := |picked| - 1;
            AllIn(FirstUses(hits[..at[n]], document), Of(picked[..n], document))
  {
    var n := |picked| - 1;
    var init, j := picked[..n], at[n];
    FirstUsesMembers(hits[..j], document);
    OfMembers(init, document);
    forall h | h in FirstUses(hits[..j], document) ensures h in Of(init, document) {
      var i :| 0 <= i < j && hits[i] == h;
      assert h.chunk in ChunksOf(picked[..n]);
      var k :| 0 <= k < n && init[k].chunk == h.chunk;
      assert hits[at[k]] == h;
    }
  }

  lemma LastIsNew(hits: seq<Hit>, picked: seq<Hit>, at: seq<nat>)
    requires ChunksHaveOneDocument(hits) && DistinctChunks(picked) && BestFirst(hits, picked, at) && picked != []
    ensures var n := |picked| - 1;
            at[n] < |hits| && picked[n] == hits[at[n]] && hits[at[n]].chunk !in ChunksOf(hits[..at[n]])
  {
    var n := |picked| - 1;
    forall i | 0 <= i < at[n] ensures hits[i].chunk != picked[n].chunk {
      if hits[i].document == picked[n].document {
        assert hits[i].chunk in ChunksOf(picked[..n]);
        var k :| 0 <= k < n && picked[..n][k].chunk == hits[i].chunk;
        assert picked[k].chunk != picked[n].chunk;
      }
    }
  }
}
