/** The execution tree: who started whom, what it cost, and cancelling all of it.

    Execution ids are handed out in order, so an id from elsewhere (`Foreign`) is
    never the id of a later execution. The ring of recent executions forgets the
    oldest; the index by id forgets nothing. */
module Executions {
  import opened Basics

  datatype Id = Ours(n: nat) | Foreign(name: string)

  /** Durations and costs are counted in their smallest unit. */
  datatype Usage = Usage(duration: int, cost: int, tokensIn: int, tokensOut: int, steps: int, executions: int)

  function Plus(a: Usage, b: Usage): Usage {
    Usage(a.duration + b.duration, a.cost + b.cost, a.tokensIn + b.tokensIn, a.tokensOut + b.tokensOut,
          a.steps + b.steps, a.executions + b.executions)
  }

  const NO_USAGE := Usage(0, 0, 0, 0, 0, 0)
  const JUST_STARTED := Usage(0, 0, 0, 0, 0, 1)

  /** `own` is the execution's own duration and steps, and itself as one execution. */
  datatype Record = Record(parent: Option<Id>, correlation: nat, own: Usage)

  /** `recent` lists ids, the newest first, at most `capacity` of them. */
  datatype Tracker = Tracker(capacity: nat, recent: seq<nat>, byId: map<nat, Record>, next: nat, nextCorrelation: nat)

  function Empty(capacity: nat): Tracker { Tracker(capacity, [], map[], 0, 0) }

  function Started(t: Tracker, parent: Option<Id>): Tracker {
    var known := parent.Some? && parent.value.Ours? && parent.value.n in t.byId;
    var correlation := if known then t.byId[parent.value.n].correlation else t.nextCorrelation;
    var recent := [t.next] + t.recent;
    t.(recent := if |recent| > t.capacity then recent[..t.capacity] else recent,
       byId := t.byId[t.next := Record(parent, correlation, JUST_STARTED)],
       next := t.next + 1,
       nextCorrelation := t.nextCorrelation + 1)
  }

  /** A step's metrics, or the duration when it ends, recorded on one execution. */
  function Charged(t: Tracker, id: nat, usage: Usage): Tracker
    requires id in t.byId
  {
    t.(byId := t.byId[id := t.byId[id].(own := Plus(t.byId[id].own, usage))])
  }

  /** An id of ours that a caller can name has been handed out. */
  predicate Nameable(t: Tracker, id: Id) { id.Ours? ==> id.n < t.next }

  predicate ParentIsEarlier(t: Tracker, n: nat)
    requires n in t.byId
  {
    t.byId[n].parent.Some? && t.byId[n].parent.value.Ours? ==>
      var p := t.byId[n].parent.value.n;
      p < n && p in t.byId && t.byId[n].correlation == t.byId[p].correlation
  }

  ghost predicate Valid(t: Tracker) {
    && (forall n: nat :: n in t.byId <==> n < t.next)
    && (forall n: nat :: n in t.byId ==> ParentIsEarlier(t, n))
    && (forall i :: 0 <= i < |t.recent| ==> t.recent[i] == t.next - 1 - i)
    && |t.recent| == if t.next <= t.capacity then t.next else t.capacity
  }

  lemma StartedValid(t: Tracker, parent: Option<Id>)
    requires Valid(t) && (parent.Some? ==> Nameable(t, parent.value))
    ensures Valid(Started(t, parent))
  {
    var s := Started(t, parent);
    forall n: nat | n in s.byId ensures ParentIsEarlier(s, n) {
      assert n != t.next ==> ParentIsEarlier(t, n);
    }
  }

  lemma ChargedValid(t: Tracker, id: nat, usage: Usage)
    requires Valid(t) && id in t.byId
    ensures Valid(Charged(t, id, usage))
  {
    var s := Charged(t, id, usage);
    forall n: nat | n in s.byId ensures ParentIsEarlier(s, n) {
      assert ParentIsEarlier(t, n);
    }
  }

  predicate IsChild(t: Tracker, n: nat, parent: Id) { n in t.byId && t.byId[n].parent == Some(parent) }

  function Filter(t: Tracker, ids: seq<nat>, parent: Id): seq<nat> {
    if ids == [] then []
    else (if IsChild(t, ids[0], parent) then [ids[0]] else []) + Filter(t, ids[1..], parent)
  }

  /** The recent children of an execution, the newest first. */
  function ChildrenOf(t: Tracker, id: Id): seq<nat> { Filter(t, t.recent, id) }

  lemma {:induction false} FilterMembers(t: Tracker, ids: seq<nat>, parent: Id, x: nat)
    ensures x in Filter(t, ids, parent) <==> x in ids && IsChild(t, x, parent)
  {
    if ids == [] {
    } else {
      FilterMembers(t, ids[1..], parent, x);
      assert ids == [ids[0]] + ids[1..];
    }
  }

  predicate Distinct(ids: seq<nat>) { forall i, j :: 0 <= i < j < |ids| ==> ids[i] != ids[j] }

  lemma {:induction false} FilterDistinct(t: Tracker, ids: seq<nat>, parent: Id)
    requires Distinct(ids)
    ensures Distinct(Filter(t, ids, parent))
  {
    if ids == [] {
    } else {
      FilterDistinct(t, ids[1..], parent);
      FilterMembers(t, ids[1..], parent, ids[0]);
    }
  }

  function Above(id: Id): int { if id.Ours? then id.n else -1 }

  predicate Later(ids: seq<nat>, above: int, next: nat) { forall i :: 0 <= i < |ids| ==> above < ids[i] < next }

  lemma ChildrenAreLater(t: Tracker, id: Id)
    requires Valid(t)
    ensures Later(ChildrenOf(t, id), Above(id), t.next) && Distinct(ChildrenOf(t, id))
    ensures AreChildren(t, ChildrenOf(t, id), id)
  {
    FilterDistinct(t, t.recent, id);
    var children := ChildrenOf(t, id);
    forall i | 0 <= i < |children| ensures Above(id) < children[i] < t.next && IsChild(t, children[i], id) {
      FilterMembers(t, t.recent, id, children[i]);
      assert ParentIsEarlier(t, children[i]);
    }
  }

  predicate AreChildren(t: Tracker, ids: seq<nat>, parent: Id) {
    forall i :: 0 <= i < |ids| ==> IsChild(t, ids[i], parent)
  }

  // ---------------------------------------------------------------- the tree

  datatype Node = Node(id: nat, children: seq<Node>)

  /** The recursion ends because children are started after their parents. */
  ghost function TreeOf(t: Tracker, id: nat): Node
    requires Valid(t) && id < t.next
    decreases t.next - id, 1, 0
  {
    ChildrenAreLater(t, Ours(id));
    Node(id, TreesOf(t, ChildrenOf(t, Ours(id)), id))
  }

  ghost function TreesOf(t: Tracker, ids: seq<nat>, above: int): seq<Node>
    requires Valid(t) && Later(ids, above, t.next) && above < t.next
    decreases t.next - above, 0, |ids|
  {
    if ids == [] then [] else [TreeOf(t, ids[0])] + TreesOf(t, ids[1..], above)
  }

  function Flatten(node: Node): seq<nat> { [node.id] + FlattenAll(node.children) }

  function FlattenAll(nodes: seq<Node>): seq<nat> {
    if nodes == [] then [] else Flatten(nodes[0]) + FlattenAll(nodes[1..])
  }

  /** The executions that a walk from `id` visits, in the order it visits them. An id
      from elsewhere is no execution here, but may have been named as a parent. */
  ghost function Walk(t: Tracker, id: Id): seq<nat>
    requires Valid(t) && Nameable(t, id)
    decreases t.next - Above(id), 1, 0
  {
    ChildrenAreLater(t, id);
    (if id.Ours? then [id.n] else []) + WalkAll(t, ChildrenOf(t, id), Above(id))
  }

  ghost function WalkAll(t: Tracker, ids: seq<nat>, above: int): seq<nat>
    requires Valid(t) && Later(ids, above, t.next) && above < t.next
    decreases t.next - above, 0, |ids|
  {
    if ids == [] then [] else Walk(t, Ours(ids[0])) + WalkAll(t, ids[1..], above)
  }

  lemma {:induction false} TreeIsWalk(t: Tracker, id: nat)
    requires Valid(t) && id < t.next
    ensures Flatten(TreeOf(t, id)) == Walk(t, Ours(id))
    decreases t.next - id, 1, 0
  {
    ChildrenAreLater(t, Ours(id));
    TreesAreWalks(t, ChildrenOf(t, Ours(id)), id);
  }

  lemma {:induction false} TreesAreWalks(t: Tracker, ids: seq<nat>, above: int)
    requires Valid(t) && Later(ids, above, t.next) && above < t.next
    ensures FlattenAll(TreesOf(t, ids, above)) == WalkAll(t, ids, above)
    decreases t.next - above, 0, |ids|
  {
    hide Valid;
    if ids == [] {
    } else {
      TreeIsWalk(t, ids[0]);
      TreesAreWalks(t, ids[1..], above);
      var first, rest := TreeOf(t, ids[0]), TreesOf(t, ids[1..], above);
      assert ([first] + rest)[1..] == rest;
    }
  }

  // ---------------------------------------------------------------- descendants

  /** a is root, or was started on behalf of it or of a descendant of it. */
  ghost predicate Descends(t: Tracker, a: nat, root: Id)
    decreases a
  {
    Ours(a) == root || IsChild(t, a, root) || (HasParent(t, a) && Descends(t, ParentOf(t, a), root))
  }

  predicate HasParent(t: Tracker, a: nat) {
    a in t.byId && t.byId[a].parent.Some? && t.byId[a].parent.value.Ours? && t.byId[a].parent.value.n < a
  }

  function ParentOf(t: Tracker, a: nat): nat
    requires HasParent(t, a)
  {
    t.byId[a].parent.value.n
  }

  lemma {:induction false} DescendantsAreLater(t: Tracker, a: nat, root: Id)
    requires Valid(t) && Descends(t, a, root)
    ensures Above(root) <= a && (a < t.next <== Nameable(t, root))
    decreases a
  {
    if Ours(a) != root {
      assert ParentIsEarlier(t, a);
      if !IsChild(t, a, root) {
        DescendantsAreLater(t, ParentOf(t, a), root);
      }
    }
  }

  lemma {:induction false} DescendsTransitive(t: Tracker, a: nat, b: nat, root: Id)
    requires Valid(t) && Descends(t, a, Ours(b)) && Descends(t, b, root)
    ensures Descends(t, a, root)
    decreases a
  {
    if a != b {
      assert ParentIsEarlier(t, a);
      if ParentOf(t, a) != b {
        DescendsTransitive(t, ParentOf(t, a), b, root);
      }
    }
  }

  /** Nobody descends from two siblings. */
  lemma {:induction false} SiblingsAreApart(t: Tracker, a: nat, b: nat, c: nat, parent: Id)
    requires Valid(t) && IsChild(t, b, parent) && IsChild(t, c, parent)
    requires Descends(t, a, Ours(b)) && Descends(t, a, Ours(c))
    ensures b == c
    decreases a
  {
    assert ParentIsEarlier(t, b) && ParentIsEarlier(t, c);
    if a == b {
      OnlyItself(t, b, c, parent);
    } else if a == c {
      OnlyItself(t, c, b, parent);
    } else {
      assert ParentIsEarlier(t, a);
      SiblingsAreApart(t, ParentOf(t, a), b, c, parent);
    }
  }

  lemma OnlyItself(t: Tracker, b: nat, c: nat, parent: Id)
    requires Valid(t) && IsChild(t, b, parent) && IsChild(t, c, parent) && Descends(t, b, Ours(c))
    ensures b == c
  {
    assert ParentIsEarlier(t, b) && ParentIsEarlier(t, c);
    if b != c && parent.Ours? {
      assert ParentOf(t, b) == parent.n < c;
      if parent.n != c {
        DescendantsAreLater(t, parent.n, Ours(c));
      }
    }
  }

  /** The child whose subtree shows a. */
  lemma {:induction false} OwnChild(t: Tracker, ids: seq<nat>, above: int, a: nat) returns (c: nat)
    requires Valid(t) && Later(ids, above, t.next) && above < t.next && a in WalkAll(t, ids, above)
    ensures c in ids && above < c < t.next && a in Walk(t, Ours(c))
    decreases |ids|
  {
    hide Valid;
    if a in Walk(t, Ours(ids[0])) {
      c := ids[0];
    } else {
      c := OwnChild(t, ids[1..], above, a);
    }
  }

  lemma {:induction false} ShownUnderAll(t: Tracker, ids: seq<nat>, above: int, c: nat, a: nat)
    requires Valid(t) && Later(ids, above, t.next) && above < t.next && c in ids && c < t.next && a in Walk(t, Ours(c))
    ensures a in WalkAll(t, ids, above)
    decreases |ids|
  {
    hide Valid;
    if ids[0] != c {
      ShownUnderAll(t, ids[1..], above, c, a);
    }
  }

  lemma {:induction false} ShownDescends(t: Tracker, id: Id, a: nat)
    requires Valid(t) && Nameable(t, id) && a in Walk(t, id)
    ensures Descends(t, a, id) && a < t.next
    decreases t.next - Above(id)
  {
    hide Valid;
    ChildrenAreLater(t, id);
    if Ours(a) != id {
      var c := OwnChild(t, ChildrenOf(t, id), Above(id), a);
      ShownDescends(t, Ours(c), a);
      assert Descends(t, c, id);
      DescendsTransitive(t, a, c, id);
    }
  }

  /** A recent child of whatever the walk visits is visited too. */
  lemma {:induction false} ClosedUnderChildren(t: Tracker, id: Id, p: nat, a: nat)
    requires Valid(t) && Nameable(t, id) && p in Walk(t, id) && p < t.next && a in ChildrenOf(t, Ours(p)) && a < t.next
    ensures a in Walk(t, id)
    decreases t.next - Above(id)
  {
    hide Valid, Filter, Later, IsChild;
    ChildrenAreLater(t, id);
    var children := ChildrenOf(t, id);
    if Ours(p) == id {
      assert a in Walk(t, Ours(a));
      ShownUnderAll(t, children, Above(id), a, a);
    } else {
      var c := OwnChild(t, children, Above(id), p);
      ClosedUnderChildren(t, Ours(c), p, a);
      ShownUnderAll(t, children, Above(id), c, a);
    }
  }

  /** The ring holds the newest executions without gaps. */
  lemma NewerIsRecent(t: Tracker, c: nat, a: nat)
    requires Valid(t) && c in t.recent && c <= a < t.next
    ensures a in t.recent
  {
    assert t.recent[t.next - 1 - a] == a;
  }

  lemma {:induction false} DescendantsAreShown(t: Tracker, c: nat, a: nat)
    requires Valid(t) && c in t.recent && c < t.next && a < t.next && Descends(t, a, Ours(c))
    ensures a in Walk(t, Ours(c))
    decreases a
  {
    if a != c {
      assert ParentIsEarlier(t, a);
      DescendantsAreLater(t, a, Ours(c));
      NewerIsRecent(t, c, a);
      var p := ParentOf(t, a);
      if p != c {
        DescendantsAreShown(t, c, p);
      }
      FilterMembers(t, t.recent, Ours(p), a);
      ClosedUnderChildren(t, Ours(c), p, a);
    }
  }

  /** Below the root, what matters is that the child of the root on the way there is
      still in the ring: everything below it is newer than it. */
  ghost predicate Shown(t: Tracker, a: nat, root: Id) {
    Ours(a) == root || exists c: nat :: IsChild(t, c, root) && c in t.recent && Descends(t, a, Ours(c))
  }

  /** The root's children are all in the ring. */
  ghost predicate ChildrenRecent(t: Tracker, root: Id) {
    forall c: nat :: IsChild(t, c, root) ==> c in t.recent
  }

  /** What a walk visits, whatever the ring has forgotten. */
  lemma WalkIsShown(t: Tracker, root: Id, a: nat)
    requires Valid(t) && Nameable(t, root) && a < t.next
    ensures a in Walk(t, root) <==> Shown(t, a, root)
  {
    hide Descends;
    ChildrenAreLater(t, root);
    var children := ChildrenOf(t, root);
    if Ours(a) != root {
      if a in Walk(t, root) {
        var c := OwnChild(t, children, Above(root), a);
        FilterMembers(t, t.recent, root, c);
        ShownDescends(t, Ours(c), a);
      }
      if c: nat :| IsChild(t, c, root) && c in t.recent && Descends(t, a, Ours(c)) {
        FilterMembers(t, t.recent, root, c);
        DescendantsAreShown(t, c, a);
        ShownUnderAll(t, children, Above(root), c, a);
      }
    }
  }

  /** The child of the root through which a descends from it. */
  lemma {:induction false} ThroughAChild(t: Tracker, a: nat, root: Id) returns (c: nat)
    requires Valid(t) && Descends(t, a, root) && Ours(a) != root
    ensures IsChild(t, c, root) && Descends(t, a, Ours(c))
    decreases a
  {
    if IsChild(t, a, root) {
      c := a;
    } else {
      c := ThroughAChild(t, ParentOf(t, a), root);
    }
  }

  /** A child that the ring has forgotten is not visited. */
  lemma ForgottenIsHidden(t: Tracker, root: Id, c: nat)
    requires Valid(t) && Nameable(t, root) && IsChild(t, c, root) && c !in t.recent
    ensures c < t.next && Descends(t, c, root) && c !in Walk(t, root)
  {
    assert ParentIsEarlier(t, c);
    WalkIsShown(t, root, c);
    if b: nat :| IsChild(t, b, root) && b in t.recent && Descends(t, c, Ours(b)) {
      OnlyItself(t, c, b, root);
      assert false;
    }
  }

  lemma DistinctAppend(a: seq<nat>, b: seq<nat>)
    requires Distinct(a) && Distinct(b) && forall x :: x in a ==> x !in b
    ensures Distinct(a + b)
  {
    forall i, j | 0 <= i < j < |a + b| ensures (a + b)[i] != (a + b)[j] {
      if i < |a| <= j {
        assert a[i] in a && b[j - |a|] in b;
      }
    }
  }

  lemma {:induction false} WalkIsDistinct(t: Tracker, id: Id)
    requires Valid(t) && Nameable(t, id)
    ensures Distinct(Walk(t, id))
    decreases t.next - Above(id), 1, 0
  {
    hide Valid, Filter, IsChild;
    ChildrenAreLater(t, id);
    var children := ChildrenOf(t, id);
    WalksAreDistinct(t, children, id);
    forall a | a in WalkAll(t, children, Above(id)) ensures Ours(a) != id {
      var c := OwnChild(t, children, Above(id), a);
      ShownDescends(t, Ours(c), a);
      DescendantsAreLater(t, a, Ours(c));
    }
    DistinctAppend(if id.Ours? then [id.n] else [], WalkAll(t, children, Above(id)));
  }

  lemma {:induction false} WalksAreDistinct(t: Tracker, ids: seq<nat>, parent: Id)
    requires Valid(t) && Nameable(t, parent) && Later(ids, Above(parent), t.next) && Distinct(ids)
    requires AreChildren(t, ids, parent)
    ensures Distinct(WalkAll(t, ids, Above(parent)))
    decreases t.next - Above(parent), 0, |ids|
  {
    hide Valid, Walk, IsChild, Descends;
    if ids == [] {
    } else {
      var first, rest := ids[0], ids[1..];
      assert first !in rest;
      WalkIsDistinct(t, Ours(first));
      WalksAreDistinct(t, rest, parent);
      forall a | a in Walk(t, Ours(first)) ensures a !in WalkAll(t, rest, Above(parent)) {
        OneBranch(t, rest, parent, first, a);
      }
      DistinctAppend(Walk(t, Ours(first)), WalkAll(t, rest, Above(parent)));
    }
  }

  lemma OneBranch(t: Tracker, rest: seq<nat>, parent: Id, first: nat, a: nat)
    requires Valid(t) && Nameable(t, parent) && Later(rest, Above(parent), t.next) && first < t.next && first !in rest
    requires IsChild(t, first, parent) && AreChildren(t, rest, parent)
    requires a in Walk(t, Ours(first))
    ensures a !in WalkAll(t, rest, Above(parent))
  {
    hide Valid, Walk, Descends;
    ShownDescends(t, Ours(first), a);
    if a in WalkAll(t, rest, Above(parent)) {
      var c := OwnChild(t, rest, Above(parent), a);
      ShownDescends(t, Ours(c), a);
      SiblingsAreApart(t, a, first, c, parent);
      assert false;
    }
  }

  lemma {:induction false} SameCorrelation(t: Tracker, a: nat, root: nat)
    requires Valid(t) && a < t.next && root < t.next && Descends(t, a, Ours(root))
    ensures t.byId[a].correlation == t.byId[root].correlation
    decreases a
  {
    if a != root {
      assert ParentIsEarlier(t, a);
      if ParentOf(t, a) != root {
        SameCorrelation(t, ParentOf(t, a), root);
      }
    }
  }

  /** A walk visits descendants of its root only, each of them once; and all of them if
      and only if the ring still holds the root's children. */
  lemma WalkIsTheDescendants(t: Tracker, root: Id)
    requires Valid(t) && Nameable(t, root)
    ensures Distinct(Walk(t, root))
    ensures forall a: nat :: a in Walk(t, root) ==> a < t.next && Descends(t, a, root)
    ensures (forall a: nat :: a < t.next && Descends(t, a, root) ==> a in Walk(t, root)) <==> ChildrenRecent(t, root)
  {
    hide Valid, Walk, Descends;
    WalkIsDistinct(t, root);
    forall a: nat | a in Walk(t, root) ensures a < t.next && Descends(t, a, root) {
      ShownDescends(t, root, a);
    }
    if ChildrenRecent(t, root) {
      forall a: nat | a < t.next && Descends(t, a, root) ensures a in Walk(t, root) {
        WalkIsShown(t, root, a);
        if Ours(a) != root {
          var c := ThroughAChild(t, a, root);
        }
      }
    } else {
      var c: nat :| IsChild(t, c, root) && c !in t.recent;
      ForgottenIsHidden(t, root, c);
    }
  }

  /** The tree of an execution shows such a walk, and all of it under one correlation. */
  lemma TreeIsOneCorrelation(t: Tracker, root: nat)
    requires Valid(t) && root < t.next
    ensures Flatten(TreeOf(t, root)) == Walk(t, Ours(root))
    ensures forall a: nat :: a in Flatten(TreeOf(t, root)) ==> a < t.next && t.byId[a].correlation == t.byId[root].correlation
  {
    TreeIsWalk(t, root);
    forall a: nat | a in Walk(t, Ours(root)) ensures a < t.next && t.byId[a].correlation == t.byId[root].correlation {
      ShownDescends(t, Ours(root), a);
      SameCorrelation(t, a, root);
    }
  }

  // ---------------------------------------------------------------- totals

  /** The usage of the listed executions together. */
  function Totals(t: Tracker, ids: seq<nat>): Usage {
    if ids == [] then NO_USAGE
    else Plus(OwnOf(t, ids[0]), Totals(t, ids[1..]))
  }

  function OwnOf(t: Tracker, id: nat): Usage { if id in t.byId then t.byId[id].own else NO_USAGE }

  lemma PlusIsAMonoid(a: Usage, b: Usage, c: Usage)
    ensures Plus(Plus(a, b), c) == Plus(a, Plus(b, c)) && Plus(NO_USAGE, c) == c && Plus(b, c) == Plus(c, b)
  {
  }

  lemma {:induction false} TotalsAppend(t: Tracker, a: seq<nat>, b: seq<nat>)
    ensures Totals(t, a + b) == Plus(Totals(t, a), Totals(t, b))
  {
    hide Plus, OwnOf;
    if a == [] {
      assert a + b == b;
      PlusIsAMonoid(NO_USAGE, NO_USAGE, Totals(t, b));
    } else {
      assert (a + b)[1..] == a[1..] + b && (a + b)[0] == a[0];
      TotalsAppend(t, a[1..], b);
      PlusIsAMonoid(OwnOf(t, a[0]), Totals(t, a[1..]), Totals(t, b));
    }
  }

  lemma {:induction false} WalkAllSnoc(t: Tracker, ids: seq<nat>, above: int, i: nat)
    requires Valid(t) && Later(ids, above, t.next) && above < t.next && i < |ids|
    ensures WalkAll(t, ids[..i + 1], above) == WalkAll(t, ids[..i], above) + Walk(t, Ours(ids[i]))
    decreases i
  {
    hide Valid, Walk;
    if i == 0 {
      assert ids[..1][1..] == [] && ids[..0] == [];
    } else {
      WalkAllSnoc(t, ids[1..], above, i - 1);
      assert ids[..i + 1][1..] == ids[1..][..i] && ids[..i][1..] == ids[1..][..i - 1];
    }
  }

  lemma {:induction false} FilterKept(t: Tracker, id: nat, usage: Usage, ids: seq<nat>, parent: Id)
    requires id in t.byId
    ensures Filter(Charged(t, id, usage), ids, parent) == Filter(t, ids, parent)
  {
    if ids == [] {
    } else {
      FilterKept(t, id, usage, ids[1..], parent);
    }
  }

  lemma {:induction false} WalkKept(t: Tracker, id: nat, usage: Usage, root: Id)
    requires Valid(t) && id in t.byId && Nameable(t, root) && Valid(Charged(t, id, usage))
    ensures Walk(Charged(t, id, usage), root) == Walk(t, root)
    decreases t.next - Above(root), 1, 0
  {
    FilterKept(t, id, usage, t.recent, root);
    ChildrenAreLater(t, root);
    WalksKept(t, id, usage, ChildrenOf(t, root), Above(root));
  }

  lemma {:induction false} WalksKept(t: Tracker, id: nat, usage: Usage, ids: seq<nat>, above: int)
    requires Valid(t) && id in t.byId && Later(ids, above, t.next) && above < t.next && Valid(Charged(t, id, usage))
    ensures WalkAll(Charged(t, id, usage), ids, above) == WalkAll(t, ids, above)
    decreases t.next - above, 0, |ids|
  {
    hide Valid, Walk;
    if ids == [] {
    } else {
      WalkKept(t, id, usage, Ours(ids[0]));
      WalksKept(t, id, usage, ids[1..], above);
    }
  }

  lemma {:induction false} TotalsCharged(t: Tracker, id: nat, usage: Usage, ids: seq<nat>)
    requires id in t.byId && Distinct(ids)
    ensures Totals(Charged(t, id, usage), ids) == if id in ids then Plus(Totals(t, ids), usage) else Totals(t, ids)
  {
    hide Plus;
    if ids == [] {
    } else {
      TotalsCharged(t, id, usage, ids[1..]);
      assert ids == [ids[0]] + ids[1..];
      PlusIsAMonoid(t.byId[id].own, usage, Totals(t, ids[1..]));
      PlusIsAMonoid(t.byId[id].own, Totals(t, ids[1..]), usage);
      PlusIsAMonoid(OwnOf(t, ids[0]), Totals(t, ids[1..]), usage);
    }
  }

  /** What is charged to one execution raises the rollup of exactly the roots whose walk
      shows it, by exactly that much. */
  lemma ChargeReachesItsRoots(t: Tracker, id: nat, usage: Usage, root: nat)
    requires Valid(t) && id in t.byId && root < t.next
    ensures Valid(Charged(t, id, usage))
    ensures var before, after := Totals(t, Walk(t, Ours(root))), Totals(Charged(t, id, usage), Walk(Charged(t, id, usage), Ours(root)));
            after == if Shown(t, id, Ours(root)) then Plus(before, usage) else before
    ensures ChildrenRecent(t, Ours(root)) ==> (Shown(t, id, Ours(root)) <==> Descends(t, id, Ours(root)))
  {
    hide Walk, Descends, Totals, Shown, ChildrenRecent;
    ChargedValid(t, id, usage);
    WalkKept(t, id, usage, Ours(root));
    WalkIsTheDescendants(t, Ours(root));
    WalkIsShown(t, Ours(root), id);
    TotalsCharged(t, id, usage, Walk(t, Ours(root)));
  }

  // ---------------------------------------------------------------- a child forgotten

  /** k more executions of no parent. */
  function StartMany(t: Tracker, k: nat): Tracker {
    if k == 0 then t else Started(StartMany(t, k - 1), None)
  }

  lemma {:induction false} StartManyKeeps(t: Tracker, k: nat)
    requires Valid(t)
    ensures Valid(StartMany(t, k))
    ensures StartMany(t, k).next == t.next + k && StartMany(t, k).capacity == t.capacity
    ensures forall n: nat :: n in t.byId ==> n in StartMany(t, k).byId && StartMany(t, k).byId[n] == t.byId[n]
  {
    if k == 0 {
    } else {
      StartManyKeeps(t, k - 1);
      StartedValid(StartMany(t, k - 1), None);
    }
  }

  /** Whatever the capacity: after one child and as many other executions as the ring
      holds, a root's walk misses its child. */
  lemma RingForgetsAChild(capacity: nat) returns (t: Tracker)
    ensures Valid(t) && t == StartMany(Started(Started(Empty(capacity), None), Some(Ours(0))), capacity)
    ensures 1 < t.next && Descends(t, 1, Ours(0)) && 1 !in Walk(t, Ours(0))
  {
    var parent := Started(Empty(capacity), None);
    StartedValid(Empty(capacity), None);
    StartedValid(parent, Some(Ours(0)));
    StartManyKeeps(Started(parent, Some(Ours(0))), capacity);
    t := StartMany(Started(parent, Some(Ours(0))), capacity);
    assert IsChild(t, 1, Ours(0));
    ForgottenIsHidden(t, Ours(0), 1);
  }

  // ---------------------------------------------------------------- what a rollup adds up

  /** One number of every execution in a list, added up. */
  function Added(t: Tracker, ids: seq<nat>, of: Usage -> int): int {
    SumOf(ids, (n: nat) => if n in t.byId then of(t.byId[n].own) else 0)
  }

  /** A rollup adds duration, cost, tokens, steps and executions, each by itself. */
  lemma {:induction false} TotalsAreSums(t: Tracker, ids: seq<nat>)
    requires forall i :: 0 <= i < |ids| ==> ids[i] in t.byId
    ensures var sum := Totals(t, ids);
            && sum.duration == Added(t, ids, (u: Usage) => u.duration) && sum.cost == Added(t, ids, (u: Usage) => u.cost)
            && sum.tokensIn == Added(t, ids, (u: Usage) => u.tokensIn) && sum.tokensOut == Added(t, ids, (u: Usage) => u.tokensOut)
            && sum.steps == Added(t, ids, (u: Usage) => u.steps)
            && sum.executions == Added(t, ids, (u: Usage) => u.executions)
  {
    if ids != [] {
      TotalsAreSums(t, ids[1..]);
    }
  }

  /** Every execution counts as one. */
  predicate EachIsOne(t: Tracker) { forall n :: n in t.byId ==> t.byId[n].own.executions == 1 }

  lemma EachIsOneKept(t: Tracker, parent: Option<Id>, id: nat, usage: Usage)
    requires EachIsOne(t)
    ensures EachIsOne(Empty(t.capacity)) && EachIsOne(Started(t, parent))
    ensures id in t.byId && usage.executions == 0 ==> EachIsOne(Charged(t, id, usage))
  {
  }

  lemma {:induction false} ExecutionsAreCounted(t: Tracker, ids: seq<nat>)
    requires EachIsOne(t) && forall i :: 0 <= i < |ids| ==> ids[i] in t.byId
    ensures Totals(t, ids).executions == |ids|
  {
    if ids != [] {
      ExecutionsAreCounted(t, ids[1..]);
    }
  }

  // ---------------------------------------------------------------- the tracker

  function Members(ids: seq<nat>): set<nat> { set x | x in ids }

  /** Exactly the given executions were stopped, and so many of them were running. */
  ghost predicate Stopped(was: set<nat>, active: set<nat>, ids: set<nat>, count: nat) {
    active == was - ids && count == |was * ids|
  }

  lemma StoppedMore(was: set<nat>, before: set<nat>, active: set<nat>, done: set<nat>, branch: set<nat>, count: nat, more: nat)
    requires done !! branch && Stopped(was, before, done, count) && Stopped(before, active, branch, more)
    ensures Stopped(was, active, done + branch, count + more)
  {
    assert before * branch == was * branch;
    assert was * (done + branch) == was * done + was * branch;
  }

  lemma {:induction false} PrefixOfAll(t: Tracker, ids: seq<nat>, above: int, i: nat)
    requires Valid(t) && Later(ids, above, t.next) && above < t.next && i <= |ids|
    ensures WalkAll(t, ids[..i], above) <= WalkAll(t, ids, above)
    decreases |ids| - i
  {
    hide Valid, Walk, WalkAll;
    if i == |ids| {
      assert ids[..i] == ids;
    } else {
      WalkAllSnoc(t, ids, above, i);
      PrefixOfAll(t, ids, above, i + 1);
    }
  }

  /** What a walk has visited when i of the children are done. */
  ghost function Visited(t: Tracker, id: Id, i: nat): seq<nat>
    requires Valid(t) && Nameable(t, id) && i <= |ChildrenOf(t, id)|
  {
    ChildrenAreLater(t, id);
    (if id.Ours? then [id.n] else []) + WalkAll(t, ChildrenOf(t, id)[..i], Above(id))
  }

  lemma VisitedEnds(t: Tracker, id: Id)
    requires Valid(t) && Nameable(t, id)
    ensures Visited(t, id, 0) == (if id.Ours? then [id.n] else [])
    ensures Visited(t, id, |ChildrenOf(t, id)|) == Walk(t, id)
  {
    hide Valid, Filter;
    ChildrenAreLater(t, id);
    var children := ChildrenOf(t, id);
    assert children[..0] == [] && children[..|children|] == children;
  }

  /** One more child: its walk shares nothing with what was visited before it. */
  lemma NextBranch(t: Tracker, id: Id, i: nat)
    requires Valid(t) && Nameable(t, id) && i < |ChildrenOf(t, id)|
    ensures Above(id) < ChildrenOf(t, id)[i] < t.next
    ensures var done, branch := Visited(t, id, i), Walk(t, Ours(ChildrenOf(t, id)[i]));
            && Visited(t, id, i + 1) == done + branch
            && Members(done + branch) == Members(done) + Members(branch)
            && Members(done) !! Members(branch)
  {
    hide Valid, WalkAll, Filter;
    ChildrenAreLater(t, id);
    var children := ChildrenOf(t, id);
    var done, branch := Visited(t, id, i), Walk(t, Ours(children[i]));
    WalkAllSnoc(t, children, Above(id), i);
    assert Visited(t, id, i + 1) == done + branch;
    PrefixOfAll(t, children, Above(id), i + 1);
    WalkIsDistinct(t, id);
    assert done + branch <= Walk(t, id);
    ApartInPrefix(done, branch, Walk(t, id));
  }

  lemma ApartInPrefix(a: seq<nat>, b: seq<nat>, whole: seq<nat>)
    requires a + b <= whole && Distinct(whole)
    ensures Members(a) !! Members(b)
  {
    forall x | x in a ensures x !in b {
      var i :| 0 <= i < |a| && a[i] == x;
      forall j | 0 <= j < |b| ensures b[j] != x {
        assert (a + b)[i] == whole[i] && (a + b)[|a| + j] == whole[|a| + j];
      }
    }
  }

  class ExecutionTracker {
    const capacity: nat
    var recent: seq<nat>
    var byId: map<nat, Record>
    var next: nat
    var nextCorrelation: nat
    var active: set<nat>       // running, and not yet asked to stop

    function View(): Tracker
      reads this
    {
      Tracker(capacity, recent, byId, next, nextCorrelation)
    }

    constructor (capacity: nat)
      ensures View() == Empty(capacity) && Valid(View()) && active == {}
    {
      this.capacity, recent, byId, next, nextCorrelation, active := capacity, [], map[], 0, 0, {};
    }

    method StartSkill(parent: Option<Id>) returns (id: nat)
      requires Valid(View()) && (parent.Some? ==> Nameable(View(), parent.value))
      modifies this
      ensures id == old(next) && View() == Started(old(View()), parent) && Valid(View())
      ensures active == old(active) + {id}
    {
      StartedValid(View(), parent);
      id := next;
      var correlation := nextCorrelation;
      if parent.Some? && parent.value.Ours? && parent.value.n in byId {
        correlation := byId[parent.value.n].correlation;
      }
      recent := [id] + recent;
      if |recent| > capacity {
        recent := recent[..capacity];
      }
      byId := byId[id := Record(parent, correlation, JUST_STARTED)];
      next, nextCorrelation := next + 1, nextCorrelation + 1;
      active := active + {id};
    }

    /** Running it again starts a new root: no parent, and a correlation of its own. */
    method Rerun(original: Id) returns (id: Option<nat>)
      requires Valid(View())
      modifies this
      ensures id.None? <==> !(original.Ours? && original.n in old(byId))
      ensures id.None? ==> View() == old(View()) && active == old(active)
      ensures id.Some? ==> View() == Started(old(View()), None) && active == old(active) + {id.value}
      ensures Valid(View())
    {
      id := None;
      if original.Ours? && original.n in byId {
        var started := StartSkill(None);
        id := Some(started);
      }
    }

    /** A step's metrics; an unknown execution is an error. */
    method AddStep(id: Id, cost: int, tokensIn: int, tokensOut: int) returns (found: bool)
      requires Valid(View())
      modifies this`byId
      ensures found <==> id.Ours? && id.n in old(byId)
      ensures View() == if found then Charged(old(View()), id.n, Usage(0, cost, tokensIn, tokensOut, 1, 0)) else old(View())
      ensures Valid(View())
    {
      found := id.Ours? && id.n in byId;
      if found {
        ChargedValid(View(), id.n, Usage(0, cost, tokensIn, tokensOut, 1, 0));
        byId := byId[id.n := byId[id.n].(own := Plus(byId[id.n].own, Usage(0, cost, tokensIn, tokensOut, 1, 0)))];
      }
    }

    /** The end of a run: its duration is recorded and its token dropped. */
    method Finish(id: nat, duration: int)
      requires Valid(View()) && id in byId
      modifies this`byId, this`active
      ensures View() == Charged(old(View()), id, Usage(duration, 0, 0, 0, 0, 0)) && Valid(View())
      ensures active == old(active) - {id}
    {
      ChargedValid(View(), id, Usage(duration, 0, 0, 0, 0, 0));
      byId := byId[id := byId[id].(own := Plus(byId[id].own, Usage(duration, 0, 0, 0, 0, 0)))];
      active := active - {id};
    }

    /** What the whole subtree cost: the sum over the walk, each execution once. */
    method Rollup(id: Id) returns (usage: Option<Usage>)
      requires Valid(View()) && Nameable(View(), id)
      ensures usage == if id.Ours? then Some(Totals(View(), Walk(View(), id))) else None
      decreases next - Above(id)
    {
      hide Walk, Filter;
      if id.Foreign? {
        return None;
      }
      ghost var t := View();
      ChildrenAreLater(t, id);
      VisitedEnds(t, id);
      var sum := byId[id.n].own;
      var children := ChildrenOf(View(), id);
      var i := 0;
      while i < |children|
        invariant 0 <= i <= |children| && sum == Totals(t, Visited(t, id, i))
      {
        NextBranch(t, id, i);
        TotalsAppend(t, Visited(t, id, i), Walk(t, Ours(children[i])));
        var sub := Rollup(Ours(children[i]));
        sum := Plus(sum, sub.value);
        i := i + 1;
      }
      usage := Some(sum);
    }

    /** The token of one execution is cancelled; says whether that was news to it. */
    method Cancel(id: Id) returns (first: bool)
      modifies this`active
      ensures first <==> id.Ours? && id.n in old(active)
      ensures active == if id.Ours? then old(active) - {id.n} else old(active)
    {
      first := id.Ours? && id.n in active;
      if id.Ours? {
        active := active - {id.n};
      }
    }

    /** Cancelling in cascade: exactly the executions of the walk stop, and the count is
        the number of those that were still running. */
    method CancelTree(id: Id) returns (cancelled: nat)
      requires Valid(View()) && Nameable(View(), id)
      modifies this`active
      ensures Stopped(old(active), active, Members(Walk(View(), id)), cancelled)
      decreases next - Above(id)
    {
      hide Valid, Walk, Visited, ChildrenOf, Members, Stopped;
      ghost var was, t := active, View();
      ChildrenAreLater(t, id);
      VisitedEnds(t, id);
      var first := Cancel(id);
      cancelled := if first then 1 else 0;
      CancelledFirst(was, id, active, cancelled);
      var children := ChildrenOf(View(), id);
      var i := 0;
      while i < |children|
        invariant 0 <= i <= |children| && Stopped(was, active, Members(Visited(t, id, i)), cancelled)
      {
        NextBranch(t, id, i);
        ghost var before := active;
        var more := CancelTree(Ours(children[i]));
        StoppedMore(was, before, active, Members(Visited(t, id, i)), Members(Walk(t, Ours(children[i]))), cancelled, more);
        cancelled := cancelled + more;
        i := i + 1;
      }
    }
  }

  lemma CancelledFirst(was: set<nat>, id: Id, active: set<nat>, cancelled: nat)
    requires active == if id.Ours? then was - {id.n} else was
    requires cancelled == if id.Ours? && id.n in was then 1 else 0
    ensures Stopped(was, active, Members(if id.Ours? then [id.n] else []), cancelled)
  {
    var done := if id.Ours? then [id.n] else [];
    assert was * Members(done) == if cancelled == 1 then {id.n} else {};
  }
}
