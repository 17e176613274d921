/** Pass after pass over one stream: an envelope that does not decode is never
    acknowledged, so it comes up again whenever it has been idle long enough, and it ends
    the pass. Which messages behind it are delivered again is a matter of time. */
module RedisPasses {
  import opened Basics
  import opened RedisBus
  import opened RedisReclaim

  /** What happens from one pass to the next, and when the next one runs: messages
      are acknowledged, and further ones are read, at these times. */
  datatype Cycle = Cycle(settled: set<nat>, read: seq<nat>, now: nat)

  function Meanwhile(p: Pel, c: Cycle): Pel {
    var end := p.cursor + |c.read|;
    Pel(end, map m: nat | m < end && (m in p.last || m >= p.cursor) && m !in c.settled
             :: if m >= p.cursor then c.read[m - p.cursor] else p.last[m])
  }

  /** The pending list after the first j passes. */
  function PelAfter(stream: seq<Entry>, idle: nat, p: Pel, cycles: seq<Cycle>, j: nat): Pel
    requires j <= |cycles|
  {
    if j == 0 then p
    else Passed(stream, Meanwhile(PelAfter(stream, idle, p, cycles, j - 1), cycles[j - 1]), idle, cycles[j - 1].now)
  }

  /** What pass j finds, and what it claims. */
  function PelAt(stream: seq<Entry>, idle: nat, p: Pel, cycles: seq<Cycle>, j: nat): Pel
    requires j < |cycles|
  {
    Meanwhile(PelAfter(stream, idle, p, cycles, j), cycles[j])
  }

  function ClaimedAt(stream: seq<Entry>, idle: nat, p: Pel, cycles: seq<Cycle>, j: nat): seq<nat>
    requires j < |cycles|
  {
    Claimed(stream, PelAt(stream, idle, p, cycles, j), idle, cycles[j].now)
  }

  ghost predicate DeliveredAgain(stream: seq<Entry>, idle: nat, p: Pel, cycles: seq<Cycle>, m: nat) {
    exists j: nat :: j < |cycles| && m in ClaimedAt(stream, idle, p, cycles, j)
  }

  /** The pending messages before m, and those of them that do not decode. */
  function Ahead(p: Pel, m: nat): set<nat> { set x | x in p.last && x < m }

  function Blockers(stream: seq<Entry>, p: Pel, m: nat): set<nat> {
    set x | x in p.last && x < m && IsGarbled(stream, x)
  }

  ghost predicate Spares(stream: seq<Entry>, c: Cycle, m: nat) {
    m !in c.settled && forall x: nat :: x in c.settled ==> !IsGarbled(stream, x)
  }

  ghost predicate SparesAll(stream: seq<Entry>, cycles: seq<Cycle>, m: nat) {
    forall j :: 0 <= j < |cycles| ==> Spares(stream, cycles[j], m)
  }

  /** m is due at the first pass, and so is every undecodable message before it. Time
      goes forward; what does not decode is never acknowledged, nor is m unless it is
      delivered again. */
  ghost predicate Scene(stream: seq<Entry>, idle: nat, p: Pel, cycles: seq<Cycle>, m: nat) {
    && idle > 0 && cycles != [] && m < p.cursor && IsDue(p, idle, cycles[0].now, m)
    && (forall x: nat :: x in Blockers(stream, p, m) ==> IsDue(p, idle, cycles[0].now, x))
    && (forall i, j :: 0 <= i < j < |cycles| ==> cycles[i].now <= cycles[j].now)
    && SparesAll(stream, cycles, m)
  }

  /** n + 1 passes in a row, the last of them pass j, within one idle period. */
  predicate Burst(cycles: seq<Cycle>, idle: nat, n: nat, j: nat) {
    n <= j < |cycles| && cycles[j].now < cycles[j - n].now + idle
  }

  // ---------------------------------------------------------------- one pass

  /** What one more pass does to the messages that have been read already. */
  ghost predicate Turn(q: Pel, found: Pel, after: Pel, claimed: seq<nat>, c: Cycle) {
    && after.cursor == found.cursor && found.cursor >= q.cursor
    && (forall x: nat :: x < q.cursor ==> (x in found.last <==> x in q.last && x !in c.settled))
    && (forall x: nat :: x < q.cursor && x in found.last ==> found.last[x] == q.last[x])
    && (forall x: nat :: x in after.last <==> x in found.last)
    && (forall x: nat :: x in after.last ==> after.last[x] == (if x in claimed then c.now else found.last[x]))
  }

  lemma OneMore(stream: seq<Entry>, idle: nat, p: Pel, cycles: seq<Cycle>, j: nat)
    requires j < |cycles|
    ensures Turn(PelAfter(stream, idle, p, cycles, j), PelAt(stream, idle, p, cycles, j),
                 PelAfter(stream, idle, p, cycles, j + 1), ClaimedAt(stream, idle, p, cycles, j), cycles[j])
  {
    hide Claimed;
  }

  lemma TurnKeeps(stream: seq<Entry>, q: Pel, found: Pel, after: Pel, claimed: seq<nat>, c: Cycle, m: nat)
    requires Turn(q, found, after, claimed, c) && m < q.cursor && m in q.last && Spares(stream, c, m)
    ensures m < after.cursor && m in found.last && m in after.last
    ensures Ahead(found, m) <= Ahead(q, m) && Ahead(after, m) == Ahead(found, m)
    ensures Blockers(stream, found, m) == Blockers(stream, after, m) == Blockers(stream, q, m)
    ensures found.last[m] == q.last[m] && (m !in claimed ==> after.last[m] == q.last[m])
  {
    hide IsGarbled;
  }

  /** At most one of the messages a pass claims does not decode. */
  lemma OneBlocker(stream: seq<Entry>, q: Pel, idle: nat, now: nat, x: nat, y: nat)
    requires x in Claimed(stream, q, idle, now) && IsGarbled(stream, x) && y in Claimed(stream, q, idle, now) && IsGarbled(stream, y)
    ensures x == y
  {
    hide IsGarbled, IsDue, Claimed;
    ClaimedIsDue(stream, q, idle, now, x);
    ClaimedIsDue(stream, q, idle, now, y);
    ClaimedExactly(stream, q, idle, now, x);
    ClaimedExactly(stream, q, idle, now, y);
  }

  // ---------------------------------------------------------------- what stays

  lemma AtFirst(stream: seq<Entry>, idle: nat, p: Pel, cycles: seq<Cycle>)
    ensures PelAfter(stream, idle, p, cycles, 0) == p
  {
  }

  lemma {:induction false} StillPending(stream: seq<Entry>, idle: nat, p: Pel, cycles: seq<Cycle>, m: nat, j: nat)
    requires SparesAll(stream, cycles, m) && m < p.cursor && m in p.last && j <= |cycles|
    ensures var q := PelAfter(stream, idle, p, cycles, j);
            && m < q.cursor && m in q.last && Ahead(q, m) <= Ahead(p, m) && Blockers(stream, q, m) == Blockers(stream, p, m)
  {
    hide PelAfter, PelAt, ClaimedAt, Ahead, Blockers, Turn, Spares;
    if j == 0 {
      AtFirst(stream, idle, p, cycles);
    } else {
      StillPending(stream, idle, p, cycles, m, j - 1);
      OneMore(stream, idle, p, cycles, j - 1);
      TurnKeeps(stream, PelAfter(stream, idle, p, cycles, j - 1), PelAt(stream, idle, p, cycles, j - 1),
                PelAfter(stream, idle, p, cycles, j), ClaimedAt(stream, idle, p, cycles, j - 1), cycles[j - 1], m);
    }
  }

  lemma {:induction false} UntilClaimed(stream: seq<Entry>, idle: nat, p: Pel, cycles: seq<Cycle>, m: nat, j: nat)
    requires SparesAll(stream, cycles, m) && m < p.cursor && m in p.last && j <= |cycles|
    requires forall i: nat :: i < j ==> m !in ClaimedAt(stream, idle, p, cycles, i)
    ensures var q := PelAfter(stream, idle, p, cycles, j); m in q.last && q.last[m] == p.last[m]
  {
    hide PelAfter, PelAt, ClaimedAt, Ahead, Blockers, Turn, Spares;
    if j == 0 {
      AtFirst(stream, idle, p, cycles);
    } else {
      UntilClaimed(stream, idle, p, cycles, m, j - 1);
      StillPending(stream, idle, p, cycles, m, j - 1);
      OneMore(stream, idle, p, cycles, j - 1);
      TurnKeeps(stream, PelAfter(stream, idle, p, cycles, j - 1), PelAt(stream, idle, p, cycles, j - 1),
                PelAfter(stream, idle, p, cycles, j), ClaimedAt(stream, idle, p, cycles, j - 1), cycles[j - 1], m);
    }
  }

  // ---------------------------------------------------------------- counting

  lemma {:induction false} SubsetSize(a: set<nat>, b: set<nat>)
    requires a <= b
    ensures |a| <= |b| && (a != b ==> |a| < |b|)
  {
    if a == {} {
    } else {
      var x :| x in a;
      SubsetSize(a - {x}, b - {x});
    }
  }

  lemma {:induction false} RisingSize(s: seq<nat>, a: set<nat>)
    requires Rising(s) && forall x: nat :: x in s ==> x in a
    ensures |s| <= |a|
  {
    if s == [] {
    } else {
      var init, x := s[..|s| - 1], s[|s| - 1];
      assert x in a && x !in init;
      assert forall y: nat :: y in init ==> y in s;
      RisingSize(init, a - {x});
    }
  }

  // ---------------------------------------------------------------- without a burst

  /** The undecodable messages before m that were delivered after time t. */
  function Fresh(stream: seq<Entry>, p: Pel, m: nat, t: int): set<nat> {
    set x | x in Blockers(stream, p, m) && p.last[x] > t
  }

  lemma FreshStep(stream: seq<Entry>, idle: nat, q: Pel, found: Pel, after: Pel, c: Cycle, m: nat, t: int)
    requires Turn(q, found, after, Claimed(stream, found, idle, c.now), c)
    requires m < q.cursor && m in q.last && Spares(stream, c, m)
    ensures |Fresh(stream, after, m, t)| <= |Fresh(stream, q, m, t)| + 1
  {
    hide IsGarbled, Claimed;
    var claimed := Claimed(stream, found, idle, c.now);
    TurnKeeps(stream, q, found, after, claimed, c, m);
    var before, next := Fresh(stream, q, m, t), Fresh(stream, after, m, t);
    if x :| x in next && x !in before {
      forall y | y in next ensures y in before + {x} {
        if y !in before {
          OneBlocker(stream, found, idle, c.now, x, y);
        }
      }
      SubsetSize(next, before + {x});
    } else {
      SubsetSize(next, before);
    }
  }

  lemma {:induction false} FreshGrows(stream: seq<Entry>, idle: nat, p: Pel, cycles: seq<Cycle>, m: nat, a: nat, d: nat, t: int)
    requires SparesAll(stream, cycles, m) && m < p.cursor && m in p.last && a + d <= |cycles|
    ensures |Fresh(stream, PelAfter(stream, idle, p, cycles, a + d), m, t)|
            <= |Fresh(stream, PelAfter(stream, idle, p, cycles, a), m, t)| + d
  {
    hide PelAfter, Fresh, Turn, Spares, Claimed, Ahead, Blockers;
    if d > 0 {
      var j := a + d - 1;
      FreshGrows(stream, idle, p, cycles, m, a, d - 1, t);
      StillPending(stream, idle, p, cycles, m, j);
      OneMore(stream, idle, p, cycles, j);
      FreshStep(stream, idle, PelAfter(stream, idle, p, cycles, j), PelAt(stream, idle, p, cycles, j),
                PelAfter(stream, idle, p, cycles, j + 1), cycles[j], m, t);
    }
  }

  /** After a pass nothing undecodable was delivered later than that pass. */
  lemma {:induction false} NoneLater(stream: seq<Entry>, idle: nat, p: Pel, cycles: seq<Cycle>, m: nat, j: nat)
    requires Scene(stream, idle, p, cycles, m) && j < |cycles|
    ensures Fresh(stream, PelAfter(stream, idle, p, cycles, j + 1), m, cycles[j].now) == {}
    ensures j == 0 ==> Fresh(stream, p, m, cycles[0].now - idle) == {}
  {
    hide PelAfter, PelAt, ClaimedAt, IsGarbled, Spares;
    if j == 0 {
      AtFirst(stream, idle, p, cycles);
    } else {
      NoneLater(stream, idle, p, cycles, m, j - 1);
    }
    StillPending(stream, idle, p, cycles, m, j);
    OneMore(stream, idle, p, cycles, j);
    TurnKeeps(stream, PelAfter(stream, idle, p, cycles, j), PelAt(stream, idle, p, cycles, j),
              PelAfter(stream, idle, p, cycles, j + 1), ClaimedAt(stream, idle, p, cycles, j), cycles[j], m);
  }

  lemma SomeAreStale(stream: seq<Entry>, q: Pel, m: nat, t: int, d: nat)
    requires |Fresh(stream, q, m, t)| <= d < |Blockers(stream, q, m)|
    ensures exists x: nat :: x in Blockers(stream, q, m) && q.last[x] <= t
  {
    SubsetSize(Fresh(stream, q, m, t), Blockers(stream, q, m));
    assert Fresh(stream, q, m, t) != Blockers(stream, q, m);
  }

  /** With k undecodable messages before m, a pass that does not end a burst of k + 1
      finds one of them due. */
  lemma BlockedAt(stream: seq<Entry>, idle: nat, p: Pel, cycles: seq<Cycle>, m: nat, j: nat)
    requires Scene(stream, idle, p, cycles, m) && j < |cycles| && !Burst(cycles, idle, |Blockers(stream, p, m)|, j)
    ensures var found := PelAt(stream, idle, p, cycles, j);
            exists x: nat :: x in Blockers(stream, found, m) && IsDue(found, idle, cycles[j].now, x)
    ensures m !in ClaimedAt(stream, idle, p, cycles, j)
  {
    hide PelAfter, PelAt, Fresh, IsGarbled, Spares, Ahead, Turn;
    var k := |Blockers(stream, p, m)|;
    var t: int := if j < k then cycles[0].now - idle else cycles[j - k].now;
    NoneLater(stream, idle, p, cycles, m, if j < k then 0 else j - k);
    if j < k {
      AtFirst(stream, idle, p, cycles);
      FreshGrows(stream, idle, p, cycles, m, 0, j, t);
    } else {
      FreshGrows(stream, idle, p, cycles, m, j - k + 1, k - 1, t);
    }
    var q, found := PelAfter(stream, idle, p, cycles, j), PelAt(stream, idle, p, cycles, j);
    StillPending(stream, idle, p, cycles, m, j);
    SomeAreStale(stream, q, m, t, k - 1);
    var x: nat :| x in Blockers(stream, q, m) && q.last[x] <= t;
    OneMore(stream, idle, p, cycles, j);
    StaleIsDue(stream, idle, p, cycles, m, j, x, t);
    ClaimedExactly(stream, found, idle, cycles[j].now, m);
  }

  lemma StaleIsDue(stream: seq<Entry>, idle: nat, p: Pel, cycles: seq<Cycle>, m: nat, j: nat, x: nat, t: int)
    requires SparesAll(stream, cycles, m) && m < p.cursor && m in p.last && j < |cycles| && t + idle <= cycles[j].now
    requires var q := PelAfter(stream, idle, p, cycles, j); x in Blockers(stream, q, m) && q.last[x] <= t
    ensures var found := PelAt(stream, idle, p, cycles, j);
            m < found.cursor && x in Blockers(stream, found, m) && IsDue(found, idle, cycles[j].now, x)
  {
    hide PelAfter, PelAt, ClaimedAt, IsGarbled, Spares;
    StillPending(stream, idle, p, cycles, m, j);
    OneMore(stream, idle, p, cycles, j);
    TurnKeeps(stream, PelAfter(stream, idle, p, cycles, j), PelAt(stream, idle, p, cycles, j),
              PelAfter(stream, idle, p, cycles, j + 1), ClaimedAt(stream, idle, p, cycles, j), cycles[j], m);
  }

  // ---------------------------------------------------------------- within one idle period

  /** The messages before m that may still be due at time t, and those of them that do
      not decode: what is claimed less than the idle period before t is none of them. */
  function Left(p: Pel, m: nat, idle: nat, t: nat): set<nat> {
    set x | x in Ahead(p, m) && p.last[x] + idle <= t
  }

  function LeftBlockers(stream: seq<Entry>, p: Pel, m: nat, idle: nat, t: nat): set<nat> {
    set x | x in Left(p, m, idle, t) && IsGarbled(stream, x)
  }

  /** The passes that can still stop before m. */
  function Stops(stream: seq<Entry>, p: Pel, m: nat, idle: nat, t: nat): nat {
    |LeftBlockers(stream, p, m, idle, t)| + |Left(p, m, idle, t)| / BATCH
  }

  /** A pass that does not come to m claims an undecodable message or a full batch, all
      of them before m. */
  lemma StopsBefore(stream: seq<Entry>, found: Pel, idle: nat, now: nat, m: nat)
    requires m < found.cursor && IsDue(found, idle, now, m) && m !in Claimed(stream, found, idle, now)
    ensures var claimed := Claimed(stream, found, idle, now);
            && Rising(claimed)
            && (forall x: nat :: x in claimed ==> x < m && IsDue(found, idle, now, x))
            && (|claimed| == BATCH || (claimed != [] && IsGarbled(stream, claimed[|claimed| - 1])))
  {
    hide IsGarbled, IsDue, Due, Reach;
    var due := Due(found, idle, now, found.cursor);
    var n := Reach(stream, due, BATCH);
    assert m in due;
    var i :| 0 <= i < |due| && due[i] == m;
    RisingPrefix(due, i, n);
    assert n <= i && n < |due|;
    forall x: nat | x in due[..n] ensures x < m && IsDue(found, idle, now, x) {
      var l :| 0 <= l < n && due[l] == x;
      assert due[l] in due;
    }
  }

  lemma PassEats(stream: seq<Entry>, idle: nat, q: Pel, found: Pel, after: Pel, c: Cycle, m: nat, t: nat)
    requires Turn(q, found, after, Claimed(stream, found, idle, c.now), c)
    requires m < q.cursor && m in q.last && Spares(stream, c, m)
    requires m !in Claimed(stream, found, idle, c.now) && IsDue(found, idle, c.now, m) && c.now <= t < c.now + idle
    ensures Stops(stream, after, m, idle, t) < Stops(stream, q, m, idle, t)
  {
    hide IsGarbled, Claimed, Rising;
    var claimed := Claimed(stream, found, idle, c.now);
    TurnKeeps(stream, q, found, after, claimed, c, m);
    StopsBefore(stream, found, idle, c.now, m);
    var old', new' := Left(q, m, idle, t), Left(after, m, idle, t);
    var oldBad, newBad := LeftBlockers(stream, q, m, idle, t), LeftBlockers(stream, after, m, idle, t);
    assert new' <= old' && newBad <= oldBad;
    SubsetSize(new', old');
    SubsetSize(newBad, oldBad);
    forall x: nat | x in claimed ensures x in old' - new' {
      assert x in found.last && x in after.last && after.last[x] == c.now;
      assert x in Ahead(q, m) && q.last[x] + idle <= t;
      assert x in old' && x !in new';
    }
    if |claimed| == BATCH {
      RisingSize(claimed, old' - new');
      assert |old'| == |new'| + |old' - new'|;
    } else {
      var x := claimed[|claimed| - 1];
      assert x in claimed && x in oldBad && x !in newBad;
    }
  }

  /** So each pass of a burst that does not come to m leaves one stop less. */
  lemma {:induction false} BurstEats(stream: seq<Entry>, idle: nat, p: Pel, cycles: seq<Cycle>, m: nat, a: nat, d: nat, t: nat)
    requires Scene(stream, idle, p, cycles, m) && a + d <= |cycles|
    requires forall i: nat :: i < a + d ==> m !in ClaimedAt(stream, idle, p, cycles, i)
    requires forall i :: a <= i < a + d ==> cycles[i].now <= t < cycles[i].now + idle
    ensures Stops(stream, PelAfter(stream, idle, p, cycles, a + d), m, idle, t) + d
            <= Stops(stream, PelAfter(stream, idle, p, cycles, a), m, idle, t)
  {
    hide PelAfter, PelAt, Stops, Turn, Spares, Claimed, Blockers, Ahead;
    if d > 0 {
      var j := a + d - 1;
      BurstEats(stream, idle, p, cycles, m, a, d - 1, t);
      StillPending(stream, idle, p, cycles, m, j);
      StillDue(stream, idle, p, cycles, m, j);
      OneMore(stream, idle, p, cycles, j);
      PassEats(stream, idle, PelAfter(stream, idle, p, cycles, j), PelAt(stream, idle, p, cycles, j),
               PelAfter(stream, idle, p, cycles, j + 1), cycles[j], m, t);
    }
  }

  lemma StillDue(stream: seq<Entry>, idle: nat, p: Pel, cycles: seq<Cycle>, m: nat, j: nat)
    requires Scene(stream, idle, p, cycles, m) && j < |cycles|
    requires forall i: nat :: i < j ==> m !in ClaimedAt(stream, idle, p, cycles, i)
    ensures var found := PelAt(stream, idle, p, cycles, j); m < found.cursor && IsDue(found, idle, cycles[j].now, m)
  {
    hide PelAfter, PelAt, ClaimedAt, Spares, Blockers, Ahead;
    UntilClaimed(stream, idle, p, cycles, m, j);
    StillPending(stream, idle, p, cycles, m, j);
    OneMore(stream, idle, p, cycles, j);
    TurnKeeps(stream, PelAfter(stream, idle, p, cycles, j), PelAt(stream, idle, p, cycles, j),
              PelAfter(stream, idle, p, cycles, j + 1), ClaimedAt(stream, idle, p, cycles, j), cycles[j], m);
  }

  /** How many passes may have to stop before m: one for each undecodable message before
      it, and one for each full batch. */
  function Enough(stream: seq<Entry>, p: Pel, m: nat): nat {
    |Blockers(stream, p, m)| + |Ahead(p, m)| / BATCH
  }

  lemma StopsBound(stream: seq<Entry>, p: Pel, q: Pel, m: nat, idle: nat, t: nat)
    requires Ahead(q, m) <= Ahead(p, m) && Blockers(stream, q, m) == Blockers(stream, p, m)
    ensures Stops(stream, q, m, idle, t) <= Enough(stream, p, m)
  {
    hide IsGarbled;
    SubsetSize(Left(q, m, idle, t), Ahead(p, m));
    SubsetSize(LeftBlockers(stream, q, m, idle, t), Blockers(stream, p, m));
  }

  lemma NoStopsLeft(stream: seq<Entry>, found: Pel, m: nat, idle: nat, now: nat)
    requires m < found.cursor && IsDue(found, idle, now, m) && Stops(stream, found, m, idle, now) == 0
    ensures m in Claimed(stream, found, idle, now)
  {
    hide IsGarbled, Claimed;
    var due := Due(found, idle, now, m);
    assert forall x: nat :: x in due ==> x in Left(found, m, idle, now);
    RisingSize(due, Left(found, m, idle, now));
    assert LeftBlockers(stream, found, m, idle, now) == {};
    forall x: nat | x < m && IsDue(found, idle, now, x) ensures !IsGarbled(stream, x) {
      assert x in Left(found, m, idle, now);
      assert x !in LeftBlockers(stream, found, m, idle, now);
    }
    ClaimedExactly(stream, found, idle, now, m);
  }

  /** A burst that is long enough comes to m, or an earlier pass has. */
  lemma BurstDelivers(stream: seq<Entry>, idle: nat, p: Pel, cycles: seq<Cycle>, m: nat, j: nat)
    requires Scene(stream, idle, p, cycles, m) && Burst(cycles, idle, Enough(stream, p, m), j)
    ensures exists i: nat :: i <= j && m in ClaimedAt(stream, idle, p, cycles, i)
  {
    hide PelAfter, PelAt, Stops, Spares, Blockers, Ahead, Claimed, Enough;
    if forall i: nat :: i < j ==> m !in ClaimedAt(stream, idle, p, cycles, i) {
      var k, t := Enough(stream, p, m), cycles[j].now;
      BurstEats(stream, idle, p, cycles, m, j - k, k, t);
      StillPending(stream, idle, p, cycles, m, j - k);
      StopsBound(stream, p, PelAfter(stream, idle, p, cycles, j - k), m, idle, t);
      StillDue(stream, idle, p, cycles, m, j);
      StopsWhenFound(stream, idle, p, cycles, m, j, t);
      NoStopsLeft(stream, PelAt(stream, idle, p, cycles, j), m, idle, t);
      assert m in ClaimedAt(stream, idle, p, cycles, j);
    }
  }

  /** Acknowledgements since the last pass only help. */
  lemma StopsWhenFound(stream: seq<Entry>, idle: nat, p: Pel, cycles: seq<Cycle>, m: nat, j: nat, t: nat)
    requires SparesAll(stream, cycles, m) && m < p.cursor && m in p.last && j < |cycles|
    ensures Stops(stream, PelAt(stream, idle, p, cycles, j), m, idle, t)
            <= Stops(stream, PelAfter(stream, idle, p, cycles, j), m, idle, t)
  {
    hide PelAfter, PelAt, ClaimedAt, IsGarbled, Spares;
    StillPending(stream, idle, p, cycles, m, j);
    OneMore(stream, idle, p, cycles, j);
    var q, found := PelAfter(stream, idle, p, cycles, j), PelAt(stream, idle, p, cycles, j);
    TurnKeeps(stream, q, found, PelAfter(stream, idle, p, cycles, j + 1), ClaimedAt(stream, idle, p, cycles, j), cycles[j], m);
    SubsetSize(Left(found, m, idle, t), Left(q, m, idle, t));
    SubsetSize(LeftBlockers(stream, found, m, idle, t), LeftBlockers(stream, q, m, idle, t));
  }

  // ---------------------------------------------------------------- main results

  /** Behind k undecodable messages: without k + 1 passes within one idle period a due
      message is never delivered again, whatever is acknowledged or read meanwhile. */
  lemma Starves(stream: seq<Entry>, idle: nat, p: Pel, cycles: seq<Cycle>, m: nat)
    requires Scene(stream, idle, p, cycles, m)
    requires forall j: nat :: !Burst(cycles, idle, |Blockers(stream, p, m)|, j)
    ensures !DeliveredAgain(stream, idle, p, cycles, m)
  {
    hide ClaimedAt, Blockers, Scene, Burst;
    forall j: nat | j < |cycles| ensures m !in ClaimedAt(stream, idle, p, cycles, j) {
      BlockedAt(stream, idle, p, cycles, m, j);
    }
  }

  /** With less than a batch before it, a message that is due starves if and only if no
      k + 1 passes in a row, k the number of undecodable messages before it, fall within
      one idle period. For k = 1: iff no gap between passes is shorter than the period. */
  lemma StarvesExactly(stream: seq<Entry>, idle: nat, p: Pel, cycles: seq<Cycle>, m: nat)
    requires Scene(stream, idle, p, cycles, m) && |Ahead(p, m)| < BATCH
    ensures DeliveredAgain(stream, idle, p, cycles, m)
            <==> exists j: nat :: Burst(cycles, idle, |Blockers(stream, p, m)|, j)
  {
    hide ClaimedAt, Blockers, Ahead, Scene;
    if j: nat :| Burst(cycles, idle, |Blockers(stream, p, m)|, j) {
      assert Enough(stream, p, m) == |Blockers(stream, p, m)|;
      BurstDelivers(stream, idle, p, cycles, m, j);
    } else {
      Starves(stream, idle, p, cycles, m);
    }
  }

  // ---------------------------------------------------------------- the backoff

  /** How the loop waits after a failure, in milliseconds. */
  datatype Pace = Pace(base: nat, cap: nat)

  function Doubled(base: nat, n: nat): nat { if n == 0 then base else 2 * Doubled(base, n - 1) }

  /** The delay after the n-th failure in a row. */
  function Backoff(pace: Pace, n: nat): nat {
    if n == 0 then 0
    else if Doubled(pace.base, n - 1) < pace.cap then Doubled(pace.base, n - 1)
    else pace.cap
  }

  /** The delays after the first n failures in a row, together. */
  function Total(pace: Pace, n: nat): nat {
    if n == 0 then 0 else Total(pace, n - 1) + Backoff(pace, n)
  }

  predicate RaisedAt(stream: seq<Entry>, idle: nat, p: Pel, cycles: seq<Cycle>, j: nat)
    requires j < |cycles|
  {
    exists i :: 0 <= i < |ClaimedAt(stream, idle, p, cycles, j)| && IsGarbled(stream, ClaimedAt(stream, idle, p, cycles, j)[i])
  }

  /** The failures in a row after pass j: a pass to the end is a healthy cycle. */
  function Failures(stream: seq<Entry>, idle: nat, p: Pel, cycles: seq<Cycle>, j: nat): (n: nat)
    requires j < |cycles|
    ensures n <= j + 1
  {
    if !RaisedAt(stream, idle, p, cycles, j) then 0
    else 1 + if j == 0 then 0 else Failures(stream, idle, p, cycles, j - 1)
  }

  /** The loop sleeps before the next pass. Other failures only make that longer. */
  ghost predicate Paced(pace: Pace, stream: seq<Entry>, idle: nat, p: Pel, cycles: seq<Cycle>) {
    forall j: nat :: j + 1 < |cycles| ==>
      cycles[j].now + Backoff(pace, Failures(stream, idle, p, cycles, j)) <= cycles[j + 1].now
  }

  /** And it does not take longer than that and the wait for new messages. */
  ghost predicate Prompt(pace: Pace, wait: nat, stream: seq<Entry>, idle: nat, p: Pel, cycles: seq<Cycle>) {
    forall j: nat :: j + 1 < |cycles| ==>
      cycles[j + 1].now <= cycles[j].now + Backoff(pace, Failures(stream, idle, p, cycles, j)) + wait
  }

  lemma {:induction false} BackoffGrows(pace: Pace, i: nat, j: nat)
    requires i <= j
    ensures Backoff(pace, i) <= Backoff(pace, j)
    decreases j
  {
    if i < j {
      BackoffGrows(pace, i, j - 1);
    }
  }

  lemma {:induction false} TotalGrows(pace: Pace, i: nat, j: nat)
    requires i <= j
    ensures Total(pace, i) <= Total(pace, j)
    decreases j
  {
    if i < j {
      TotalGrows(pace, i, j - 1);
    }
  }

  /** While all passes fail, d of them in a row take the first d delays at least. */
  lemma {:induction false} SpanAtLeast(pace: Pace, stream: seq<Entry>, idle: nat, p: Pel, cycles: seq<Cycle>, a: nat, d: nat)
    requires Paced(pace, stream, idle, p, cycles) && a + d < |cycles|
    requires forall i: nat :: i < a + d ==> Failures(stream, idle, p, cycles, i) == i + 1
    ensures cycles[a].now + Total(pace, d) <= cycles[a + d].now
    decreases d
  {
    hide Failures, Backoff;
    if d > 0 {
      SpanAtLeast(pace, stream, idle, p, cycles, a, d - 1);
      BackoffGrows(pace, d, a + d);
      assert Failures(stream, idle, p, cycles, a + d - 1) == a + d;
    }
  }

  lemma NextIsPrompt(pace: Pace, wait: nat, stream: seq<Entry>, idle: nat, p: Pel, cycles: seq<Cycle>, j: nat)
    requires Prompt(pace, wait, stream, idle, p, cycles) && j + 1 < |cycles|
    ensures cycles[j + 1].now <= cycles[j].now + Backoff(pace, Failures(stream, idle, p, cycles, j)) + wait
  {
  }

  lemma {:induction false} SpanAtMost(pace: Pace, wait: nat, stream: seq<Entry>, idle: nat, p: Pel, cycles: seq<Cycle>, d: nat)
    requires Prompt(pace, wait, stream, idle, p, cycles) && d < |cycles|
    ensures cycles[d].now <= cycles[0].now + Total(pace, d) + d * wait
  {
    hide Backoff, RaisedAt, Prompt;
    if d > 0 {
      SpanAtMost(pace, wait, stream, idle, p, cycles, d - 1);
      BackoffGrows(pace, Failures(stream, idle, p, cycles, d - 1), d);
      NextIsPrompt(pace, wait, stream, idle, p, cycles, d - 1);
      assert d * wait == (d - 1) * wait + wait;
    }
  }

  /** Blocked, and within the first batch: the pass comes to what does not decode. */
  lemma BlockedRaises(stream: seq<Entry>, idle: nat, p: Pel, cycles: seq<Cycle>, m: nat, j: nat)
    requires Scene(stream, idle, p, cycles, m) && |Ahead(p, m)| < BATCH && j < |cycles|
    requires forall i: nat :: i <= j ==> m !in ClaimedAt(stream, idle, p, cycles, i)
    ensures RaisedAt(stream, idle, p, cycles, j)
  {
    hide PelAfter, PelAt, Spares, Blockers, Claimed, IsGarbled, IsDue, Rising;
    var q, found := PelAfter(stream, idle, p, cycles, j), PelAt(stream, idle, p, cycles, j);
    var claimed := ClaimedAt(stream, idle, p, cycles, j);
    StillDue(stream, idle, p, cycles, m, j);
    StopsBefore(stream, found, idle, cycles[j].now, m);
    DueIsPending(p, idle, cycles[0].now, m);
    StillPending(stream, idle, p, cycles, m, j);
    OneMore(stream, idle, p, cycles, j);
    TurnKeeps(stream, q, found, PelAfter(stream, idle, p, cycles, j + 1), claimed, cycles[j], m);
    forall x: nat | x in claimed ensures x in Ahead(p, m) {
      DueIsPending(found, idle, cycles[j].now, x);
      assert x in Ahead(found, m);
    }
    RisingSize(claimed, Ahead(p, m));
  }

  lemma DueIsPending(p: Pel, idle: nat, now: nat, x: nat)
    ensures IsDue(p, idle, now, x) ==> x in p.last
  {
  }

  /** Every pass fails when the delays of k failures add up to the idle period. */
  lemma {:induction false} AllFail(pace: Pace, stream: seq<Entry>, idle: nat, p: Pel, cycles: seq<Cycle>, m: nat, j: nat)
    requires Scene(stream, idle, p, cycles, m) && |Ahead(p, m)| < BATCH && j < |cycles|
    requires Paced(pace, stream, idle, p, cycles) && idle <= Total(pace, |Blockers(stream, p, m)|)
    ensures forall i: nat :: i <= j ==> m !in ClaimedAt(stream, idle, p, cycles, i)
    ensures forall i: nat :: i <= j ==> Failures(stream, idle, p, cycles, i) == i + 1
  {
    hide ClaimedAt, Blockers, Ahead, Scene, Paced, Total, RaisedAt;
    var k := |Blockers(stream, p, m)|;
    if j > 0 {
      AllFail(pace, stream, idle, p, cycles, m, j - 1);
    }
    if k <= j {
      SpanAtLeast(pace, stream, idle, p, cycles, j - k, k);
    }
    BlockedAt(stream, idle, p, cycles, m, j);
    BlockedRaises(stream, idle, p, cycles, m, j);
  }

  /** So a message behind k undecodable ones is lost to redelivery for good when the
      delays after k failures in a row add up to the idle period. */
  lemma BackoffStarves(pace: Pace, stream: seq<Entry>, idle: nat, p: Pel, cycles: seq<Cycle>, m: nat)
    requires Scene(stream, idle, p, cycles, m) && |Ahead(p, m)| < BATCH
    requires Paced(pace, stream, idle, p, cycles) && idle <= Total(pace, |Blockers(stream, p, m)|)
    ensures !DeliveredAgain(stream, idle, p, cycles, m)
  {
    hide ClaimedAt, Blockers, Ahead, Scene, Paced, Failures;
    forall j: nat | j < |cycles| ensures m !in ClaimedAt(stream, idle, p, cycles, j) {
      AllFail(pace, stream, idle, p, cycles, m, j);
    }
  }

  /** And it is delivered again, by the pass after as many failures at the latest, when
      those delays and waits together are shorter than the idle period. */
  lemma BackoffDelivers(pace: Pace, wait: nat, stream: seq<Entry>, idle: nat, p: Pel, cycles: seq<Cycle>, m: nat)
    requires Scene(stream, idle, p, cycles, m) && Prompt(pace, wait, stream, idle, p, cycles)
    requires var k := Enough(stream, p, m); k < |cycles| && Total(pace, k) + k * wait < idle
    ensures exists i: nat :: i <= Enough(stream, p, m) && m in ClaimedAt(stream, idle, p, cycles, i)
  {
    hide ClaimedAt, Enough, Scene, Prompt, Total;
    var k := Enough(stream, p, m);
    SpanAtMost(pace, wait, stream, idle, p, cycles, k);
    BurstDelivers(stream, idle, p, cycles, m, k);
  }

  // ---------------------------------------------------------------- the default settings

  const DEFAULT_PACE := Pace(200, 30_000)

  const DEFAULT_IDLE := 30_000

  const DEFAULT_WAIT := 1_000

  lemma DefaultTotals(k: nat)
    ensures k >= 8 ==> Total(DEFAULT_PACE, k) >= DEFAULT_IDLE
    ensures k <= 6 ==> Total(DEFAULT_PACE, k) + k * DEFAULT_WAIT < DEFAULT_IDLE
  {
    assert Total(DEFAULT_PACE, 3) == 1_400;
    assert Total(DEFAULT_PACE, 6) == 12_600;
    assert Total(DEFAULT_PACE, 8) == 51_000;
    if k >= 8 {
      TotalGrows(DEFAULT_PACE, 8, k);
    } else if k <= 6 {
      TotalGrows(DEFAULT_PACE, k, 6);
    }
  }

  /** Eight undecodable messages ahead are too many, up to six are not. */
  lemma DefaultsStarveBehindEight(stream: seq<Entry>, p: Pel, cycles: seq<Cycle>, m: nat)
    requires Scene(stream, DEFAULT_IDLE, p, cycles, m) && |Ahead(p, m)| < BATCH
    ensures |Blockers(stream, p, m)| >= 8 && Paced(DEFAULT_PACE, stream, DEFAULT_IDLE, p, cycles) ==>
              !DeliveredAgain(stream, DEFAULT_IDLE, p, cycles, m)
    ensures |Blockers(stream, p, m)| <= 6 < |cycles| && Prompt(DEFAULT_PACE, DEFAULT_WAIT, stream, DEFAULT_IDLE, p, cycles) ==>
              DeliveredAgain(stream, DEFAULT_IDLE, p, cycles, m)
  {
    hide ClaimedAt, Scene, Prompt, Paced, Total;
    var k := |Blockers(stream, p, m)|;
    DefaultTotals(k);
    if k >= 8 && Paced(DEFAULT_PACE, stream, DEFAULT_IDLE, p, cycles) {
      BackoffStarves(DEFAULT_PACE, stream, DEFAULT_IDLE, p, cycles, m);
    } else if k <= 6 < |cycles| && Prompt(DEFAULT_PACE, DEFAULT_WAIT, stream, DEFAULT_IDLE, p, cycles) {
      assert Enough(stream, p, m) == k;
      BackoffDelivers(DEFAULT_PACE, DEFAULT_WAIT, stream, DEFAULT_IDLE, p, cycles, m);
    }
  }
}
