/** The pass over pending messages: those that have been idle long enough, in order, a
    batch at a time, and cut short by the first envelope that does not decode. */
module RedisReclaim {
  import opened Basics
  import opened Partitioning
  import opened Events
  import opened RedisBus

  /** How many entries one XPENDING lists. */
  const BATCH := 64

  predicate IsGarbled(stream: seq<Entry>, m: nat) { m < |stream| && stream[m].Garbled? }

  // ---------------------------------------------------------------- one pass

  /** The pending list of a group: when each message was last delivered. The messages
      below the cursor have been read. */
  datatype Pel = Pel(cursor: nat, last: map<nat, nat>)

  predicate IsDue(p: Pel, idle: nat, now: nat, m: nat) { m in p.last && p.last[m] + idle <= now }

  predicate Rising(s: seq<nat>) { forall i, j :: 0 <= i < j < |s| ==> s[i] < s[j] }

  /** The due messages below n, in the order in which XPENDING lists them. */
  function Due(p: Pel, idle: nat, now: nat, n: nat): (due: seq<nat>)
    ensures forall m: nat :: m in due <==> m < n && IsDue(p, idle, now, m)
    ensures Rising(due)
  {
    if n == 0 then []
    else
      var before := Due(p, idle, now, n - 1);
      assert forall j :: 0 <= j < |before| ==> before[j] in before;
      if IsDue(p, idle, now, n - 1) then before + [n - 1] else before
  }

  /** How many of the due messages one pass claims: an undecodable one is claimed, but
      submitting it raises and ends the pass. */
  function Reach(stream: seq<Entry>, due: seq<nat>, room: nat): (n: nat)
    ensures n <= |due| && n <= room && (due != [] && room > 0 ==> n > 0)
    ensures n < |due| && n < room ==> n > 0 && IsGarbled(stream, due[n - 1])
  {
    if due == [] || room == 0 then 0
    else if IsGarbled(stream, due[0]) then 1
    else 1 + Reach(stream, due[1..], room - 1)
  }

  function Claimed(stream: seq<Entry>, p: Pel, idle: nat, now: nat): seq<nat> {
    var due := Due(p, idle, now, p.cursor);
    due[..Reach(stream, due, BATCH)]
  }

  /** A claim starts the idle time of the message anew. */
  function Touched(p: Pel, claimed: seq<nat>, now: nat): Pel {
    p.(last := map m | m in p.last :: if m in claimed then now else p.last[m])
  }

  function Passed(stream: seq<Entry>, p: Pel, idle: nat, now: nat): Pel {
    Touched(p, Claimed(stream, p, idle, now), now)
  }

  lemma TouchMore(p: Pel, claimed: seq<nat>, m: nat, now: nat)
    requires m in p.last
    ensures var q := Touched(p, claimed, now); q.(last := q.last[m := now]) == Touched(p, claimed + [m], now)
  {
    var q, q' := Touched(p, claimed, now), Touched(p, claimed + [m], now);
    assert q.last[m := now] == q'.last;
  }

  lemma TouchNone(p: Pel, now: nat)
    ensures Touched(p, [], now) == p
  {
    assert Touched(p, [], now).last == p.last;
  }

  /** The messages a pass reaches: those in the batch with no undecodable one before them. */
  lemma {:induction false} ReachedExactly(stream: seq<Entry>, due: seq<nat>, room: nat, i: nat)
    requires i < |due|
    ensures i < Reach(stream, due, room) <==> i < room && forall j :: 0 <= j < i ==> !IsGarbled(stream, due[j])
  {
    if room == 0 || IsGarbled(stream, due[0]) {
      assert i > 0 && room > 0 ==> IsGarbled(stream, due[0]);
    } else if i > 0 {
      ReachedExactly(stream, due[1..], room - 1, i - 1);
      assert forall j :: 0 < j < i ==> due[j] == due[1..][j - 1];
    }
  }

  lemma {:induction false} DueIsPrefix(p: Pel, idle: nat, now: nat, m: nat, n: nat)
    requires m <= n
    ensures Due(p, idle, now, m) <= Due(p, idle, now, n)
    decreases n
  {
    if m < n {
      DueIsPrefix(p, idle, now, m, n - 1);
    }
  }

  lemma RisingPrefix(s: seq<nat>, i: nat, n: nat)
    requires Rising(s) && i < |s| && n <= |s|
    ensures s[i] in s[..n] <==> i < n
  {
    if i < n {
      assert s[..n][i] == s[i];
    }
  }

  lemma ClaimedIsDue(stream: seq<Entry>, p: Pel, idle: nat, now: nat, m: nat)
    ensures m in Claimed(stream, p, idle, now) ==> m < p.cursor && IsDue(p, idle, now, m)
  {
    hide Reach, IsDue, Due;
    var due := Due(p, idle, now, p.cursor);
    assert m in due[..Reach(stream, due, BATCH)] ==> m in due;
  }

  /** Which messages a pass claims. */
  lemma ClaimedExactly(stream: seq<Entry>, p: Pel, idle: nat, now: nat, m: nat)
    requires m < p.cursor
    ensures m in Claimed(stream, p, idle, now)
            <==> && IsDue(p, idle, now, m) && |Due(p, idle, now, m)| < BATCH
                 && forall x: nat :: x < m && IsDue(p, idle, now, x) ==> !IsGarbled(stream, x)
  {
    hide Rising, IsGarbled, Reach, Claimed, IsDue;
    if IsDue(p, idle, now, m) {
      var before := Due(p, idle, now, m);
      DueIsClaimed(stream, p, idle, now, m);
      hide Due;
      assert forall x: nat :: x < m && IsDue(p, idle, now, x) <==> x in before;
    } else {
      ClaimedIsDue(stream, p, idle, now, m);
    }
  }

  lemma DueIsClaimed(stream: seq<Entry>, p: Pel, idle: nat, now: nat, m: nat)
    requires m < p.cursor && IsDue(p, idle, now, m)
    ensures var before := Due(p, idle, now, m);
            m in Claimed(stream, p, idle, now)
            <==> |before| < BATCH && forall x: nat :: x in before ==> !IsGarbled(stream, x)
  {
    hide Rising, IsGarbled, Reach, Due, IsDue;
    var all, before := Due(p, idle, now, p.cursor), Due(p, idle, now, m);
    DueOne(p, idle, now, m);
    assert all[|before|] == m && all[..|before|] == before;
    ReachedExactly(stream, all, BATCH, |before|);
    RisingPrefix(all, |before|, Reach(stream, all, BATCH));
    assert forall j :: 0 <= j < |before| ==> all[j] == before[j] && before[j] in before;
  }

  lemma DueOne(p: Pel, idle: nat, now: nat, m: nat)
    requires m < p.cursor && IsDue(p, idle, now, m)
    ensures Due(p, idle, now, m) + [m] <= Due(p, idle, now, p.cursor)
  {
    DueIsPrefix(p, idle, now, m + 1, p.cursor);
  }

  lemma ReachStep(stream: seq<Entry>, due: seq<nat>, i: nat)
    requires i < |due| && i < BATCH && forall j :: 0 <= j < i ==> !IsGarbled(stream, due[j])
    ensures i < Reach(stream, due, BATCH)
    ensures IsGarbled(stream, due[i]) ==> Reach(stream, due, BATCH) == i + 1
  {
    ReachedExactly(stream, due, BATCH, i);
    if i + 1 < |due| {
      ReachedExactly(stream, due, BATCH, i + 1);
    }
  }

  /** One pass of `_reclaim_pending` over a stream. */
  method ReclaimPass(stream: seq<Entry>, p: Pel, idle: nat, now: nat) returns (p': Pel, claimed: seq<nat>, raised: bool)
    ensures p' == Passed(stream, p, idle, now) && claimed == Claimed(stream, p, idle, now)
    ensures raised <==> claimed != [] && IsGarbled(stream, claimed[|claimed| - 1])
  {
    hide Due, Touched, IsGarbled, Reach, Rising;
    TouchNone(p, now);
    p', claimed, raised := p, [], false;
    var due := Due(p, idle, now, p.cursor);
    var listed := if |due| <= BATCH then due else due[..BATCH];
    var i := 0;
    while i < |listed|
      invariant 0 <= i <= |listed| && i <= Reach(stream, due, BATCH)
      invariant claimed == due[..i] && p' == Touched(p, due[..i], now)
      invariant forall j :: 0 <= j < i ==> !IsGarbled(stream, due[j])
    {
      ReachStep(stream, due, i);
      assert due[..i + 1] == due[..i] + [due[i]] && due[i] in due;
      TouchMore(p, due[..i], due[i], now);
      claimed := claimed + [listed[i]];
      p' := p'.(last := p'.last[listed[i] := now]);
      if IsGarbled(stream, listed[i]) {
        raised := true;
        return;
      }
      i := i + 1;
    }
  }

  // ---------------------------------------------------------------- on the bus

  /** The commands for the claimed messages. */
  function PassSteps(claimed: seq<nat>): seq<RedisStep> {
    if claimed == [] then []
    else PassSteps(claimed[..|claimed| - 1]) + [Reclaim(claimed[|claimed| - 1])] + [Submit]
  }

  /** One more delivery for each claimed message; one without an envelope is done with. */
  ghost predicate Redelivered(g: Group, g': Group, claimed: seq<nat>) {
    && g'.stream == g.stream && g'.cursor == g.cursor && g'.fetched == []
    && (forall m :: m in g'.pending <==> m in g.pending && !(m in claimed && m < |g.stream| && g.stream[m].NoEnvelope?))
    && (forall m :: m in g'.pending ==> m in g.pending && g'.pending[m] == g.pending[m] + if m in claimed then 1 else 0)
  }

  /** Every worker's queue takes n items more without waiting. */
  ghost predicate RoomFor(cfg: RedisConfig, g: Group, n: nat) {
    cfg.pool.maxsize == 0 || forall w :: 0 <= w < |g.d.queues| ==> |g.d.queues[w]| + n <= cfg.pool.maxsize
  }

  ghost predicate GrownBy(g: Group, g': Group, n: nat) {
    |g'.d.queues| == |g.d.queues| && forall w :: 0 <= w < |g.d.queues| ==> |g'.d.queues[w]| <= |g.d.queues[w]| + n
  }

  /** With room for what is claimed, a pass is a run of the bus that delivers each
      claimed message once more and leaves the others alone. */
  lemma {:induction false} PassRuns(cfg: RedisConfig, g: Group, claimed: seq<nat>)
    requires GroupShape(cfg, g) && g.fetched == [] && RoomFor(cfg, g, |claimed|)
    requires forall i :: 0 <= i < |claimed| ==> claimed[i] in g.pending && claimed[i] < g.cursor
    requires forall i, j :: 0 <= i < j < |claimed| ==> claimed[i] != claimed[j]
    ensures RedisExec(cfg, g, PassSteps(claimed)).Some?
    ensures Redelivered(g, RedisExec(cfg, g, PassSteps(claimed)).value, claimed)
    ensures GrownBy(g, RedisExec(cfg, g, PassSteps(claimed)).value, |claimed|)
    decreases |claimed|
  {
    hide RedisExec, RedisNext, RedisEnabled, RoomFor, GrownBy, Redelivered;
    if claimed == [] {
      NothingClaimed(cfg, g);
    } else {
      var init, last := claimed[..|claimed| - 1], claimed[|claimed| - 1];
      assert claimed == init + [last] && last !in init;
      LessRoom(cfg, g, |claimed|, |init|);
      PassRuns(cfg, g, init);
      var h := RedisExec(cfg, g, PassSteps(init)).value;
      StillPending(g, h, init, last);
      RoomLeft(cfg, g, h, |init|);
      ClaimOne(cfg, h, last);
      RedisSnoc(cfg, g, PassSteps(init), Reclaim(last));
      RedisSnoc(cfg, g, PassSteps(init) + [Reclaim(last)], Submit);
      OneMoreDelivered(g, h, RedisNext(cfg, RedisNext(cfg, h, Reclaim(last)), Submit), init, last);
    }
  }

  lemma NothingClaimed(cfg: RedisConfig, g: Group)
    requires GroupShape(cfg, g) && g.fetched == []
    ensures RedisExec(cfg, g, PassSteps([])) == Some(g) && Redelivered(g, g, []) && GrownBy(g, g, 0)
  {
  }

  lemma LessRoom(cfg: RedisConfig, g: Group, n: nat, k: nat)
    requires RoomFor(cfg, g, n) && k <= n
    ensures RoomFor(cfg, g, k)
  {
  }

  lemma StillPending(g: Group, h: Group, claimed: seq<nat>, m: nat)
    requires Redelivered(g, h, claimed) && m in g.pending && m !in claimed
    ensures m in h.pending && h.stream == g.stream && h.cursor == g.cursor && h.fetched == []
  {
  }

  lemma OneMoreDelivered(g: Group, h: Group, end: Group, claimed: seq<nat>, m: nat)
    requires Redelivered(g, h, claimed) && m in g.pending && m !in claimed && m in h.pending && m < |g.stream|
    requires end.stream == h.stream && end.cursor == h.cursor && end.fetched == []
    requires end.pending == if h.stream[m].NoEnvelope? then h.pending - {m} else h.pending[m := h.pending[m] + 1]
    requires GrownBy(g, h, |claimed|) && GrownBy(h, end, 1)
    ensures Redelivered(g, end, claimed + [m]) && GrownBy(g, end, |claimed| + 1)
  {
    assert forall x :: x in claimed + [m] <==> x in claimed || x == m;
  }

  lemma RoomLeft(cfg: RedisConfig, g: Group, h: Group, n: nat)
    requires RoomFor(cfg, g, n + 1) && GrownBy(g, h, n)
    ensures RoomFor(cfg, h, 1)
  {
  }

  lemma ClaimOne(cfg: RedisConfig, g: Group, m: nat)
    requires GroupShape(cfg, g) && g.fetched == [] && RoomFor(cfg, g, 1) && m in g.pending && m < g.cursor
    ensures RedisEnabled(cfg, g, Reclaim(m)) && RedisEnabled(cfg, RedisNext(cfg, g, Reclaim(m)), Submit)
    ensures var g' := RedisNext(cfg, RedisNext(cfg, g, Reclaim(m)), Submit);
            && g'.stream == g.stream && g'.cursor == g.cursor && g'.fetched == []
            && g'.pending == (if g.stream[m].NoEnvelope? then g.pending - {m} else g.pending[m := g.pending[m] + 1])
            && GrownBy(g, g', 1)
  {
    assert [] + [(m, g.pending[m] + 1)] == [(m, g.pending[m] + 1)];
  }
}
