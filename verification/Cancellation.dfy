/** Cooperative cancellation: tokens in a tree, cancelled by propagation.

    A token's parent never changes, so who is below whom is a fact about constants.
    Everything else the tokens hold is a `State`, a value: what cancelling does is
    the function `Cancelled` on states, and the methods of the class do it in place.
    The ghost parameter `all` of the methods is the set of tokens created so far. */
module Cancellation {
  import opened Basics

  datatype CancelReason = USER | CLIENT_GONE | TIMEOUT | SHUTDOWN | PARENT | POLICY

  /** The name of an observer; calling it is recorded in the token's `ran`. */
  type Callback = nat

  /** The fields of one token. `registered` are all observers ever registered. */
  datatype Fields = Fields(
    cancelled: bool, reason: Option<CancelReason>, requestedBy: Option<string>, completed: seq<string>,
    children: seq<CancellationToken>, callbacks: seq<Callback>, ran: seq<Callback>, registered: seq<Callback>)

  type State = map<CancellationToken, Fields>

  class CancellationToken {
    const name: string
    const parent: CancellationToken?
    ghost const depth: nat
    var cancelled: bool
    var reason: Option<CancelReason>
    var requestedBy: Option<string>
    var completed: seq<string>
    var children: seq<CancellationToken>
    var callbacks: seq<Callback>
    var ran: seq<Callback>
    ghost var registered: seq<Callback>

    ghost function Snapshot(): Fields
      reads this
    {
      Fields(cancelled, reason, requestedBy, completed, children, callbacks, ran, registered)
    }

    /** This token is root or one of its descendants. */
    ghost predicate Under(root: CancellationToken)
      decreases depth
    {
      this == root || (parent != null && parent.depth < depth && parent.Under(root))
    }

    /** A new token, below its parent if it has one, cancelled at birth if the parent
        already is. */
    constructor (name: string, parent: CancellationToken?, ghost all: set<CancellationToken>)
      requires Valid(StateOf(all)) && (parent != null ==> parent in all)
      modifies all
      ensures this.name == name && this.parent == parent && this !in all
      ensures Valid(StateOf(all + {this}))
      ensures StateOf(all + {this}) == Born(old(StateOf(all)), this)
    {
      this.name, this.parent := name, parent;
      depth := if parent == null then 0 else parent.depth + 1;
      cancelled, reason, requestedBy := false, None, None;
      completed, children, callbacks, ran, registered := [], [], [], [], [];
      new;
      hide Valid, Forest, ClosedBelow, Cancelled, Apply, Subtree, CancelledIn;
      assert StateOf(all + {this}) == old(StateOf(all))[this := NEWBORN];
      if parent != null {
        parent.AddChild(this, all + {this});
      }
      AttachedForest(old(StateOf(all)), this);
      if parent != null {
        if parent.cancelled {
          var _ := Propagate(PARENT, parent.name, all + {this});
        }
      }
      BornValid(old(StateOf(all)), this);
    }

    method AddChild(child: CancellationToken, ghost all: set<CancellationToken>)
      requires this in all
      modifies this`children
      ensures StateOf(all) == old(StateOf(all))[this := old(Snapshot()).(children := old(children) + [child])]
    {
      children := children + [child];
    }

    /** Idempotent, the first reason wins. */
    method Cancel(why: CancelReason, who: string, ghost all: set<CancellationToken>) returns (first: bool)
      requires Valid(StateOf(all)) && this in all
      modifies all
      ensures first <==> !old(cancelled)
      ensures StateOf(all) == Cancelled(old(StateOf(all)), this, why, who)
      ensures Valid(StateOf(all))
    {
      ghost var s := StateOf(all);
      ClosedAbove(s, this);
      CancelledValid(s, this, why, who);
      first := Propagate(why, who, all);
    }

    /** The recursion of `cancel`. It stops at cancelled tokens, so it needs to find
        their subtrees cancelled; and it ends because every call that does anything
        has first cancelled one more token. */
    method Propagate(why: CancelReason, who: string, ghost all: set<CancellationToken>) returns (first: bool)
      requires this in all && Forest(StateOf(all)) && ClosedBelow(all, CancelledIn(StateOf(all)), this)
      modifies all
      decreases all - CancelledIn(StateOf(all)), 0
      ensures first <==> !old(cancelled)
      ensures StateOf(all) == Cancelled(old(StateOf(all)), this, why, who)
    {
      hide Forest, ClosedBelow, Cancelled, Apply;
      ghost var s := StateOf(all);
      if cancelled {
        NothingToDo(s, this, why, who);
        return false;
      }
      reason, requestedBy, cancelled := Some(why), Some(who), true;
      assert StateOf(all) == Marked(s, this, why, who);
      MarkedIsSmaller(s, this, why, who);
      PropagateToChildren(s, why, who, all);
      RootToo(s, this, why, who);
      RunCallbacks(all);
      return true;
    }

    /** The loop of `cancel` over the children; the token itself is already marked. */
    method PropagateToChildren(ghost s: State, why: CancelReason, who: string, ghost all: set<CancellationToken>)
      requires s.Keys == all && this in all && StateOf(all) == Marked(s, this, why, who)
      requires Forest(s) && ClosedBelow(all, CancelledIn(s), this) && !s[this].cancelled
      modifies all
      decreases all - CancelledIn(StateOf(all)), 1
      ensures StateOf(all) == SoFar(s, this, |s[this].children|, why, who)
    {
      hide Forest, ClosedBelow, Cancelled, Apply, SoFar, Marked, CancelledIn, Subtree, SubtreesOf;
      NoneSoFar(s, this, why, who);
      SameChildren(s, this, 0, why, who);
      var i := 0;
      while i < |children|
        invariant 0 <= i <= |s[this].children| && children == s[this].children
        invariant StateOf(all) == SoFar(s, this, i, why, who)
        decreases |children| - i
      {
        NextChild(s, this, i, why, who);
        var _ := children[i].Propagate(PARENT, name, all);
        SameChildren(s, this, i + 1, why, who);
        assert StateOf(all)[this] == Snapshot();
        i := i + 1;
      }
    }

    /** The last loop of `cancel`: every observer once, in order. */
    method RunCallbacks(ghost all: set<CancellationToken>)
      requires this in all
      modifies this
      ensures StateOf(all) == old(StateOf(all))[this := old(Snapshot()).(ran := old(ran + callbacks))]
    {
      var k := 0;
      while k < |callbacks|
        modifies this
        invariant 0 <= k <= |callbacks| && Snapshot() == old(Snapshot()).(ran := old(ran) + callbacks[..k])
      {
        ran := ran + [callbacks[k]];
        k := k + 1;
      }
      assert callbacks[..k] == callbacks;
    }

    /** An observer for the release of resources: called now if it is too late to wait. */
    method OnCancel(callback: Callback, ghost all: set<CancellationToken>)
      requires Valid(StateOf(all)) && this in all
      modifies this
      ensures StateOf(all) == Observed(old(StateOf(all)), this, callback)
      ensures Valid(StateOf(all))
    {
      hide Valid;
      ghost var s := StateOf(all);
      ObservedValid(s, this, callback);
      registered := registered + [callback];
      if cancelled {
        ran := ran + [callback];
      } else {
        callbacks := callbacks + [callback];
      }
      assert StateOf(all) == Observed(s, this, callback);
    }

    method Child(childName: string, ghost all: set<CancellationToken>) returns (token: CancellationToken)
      requires Valid(StateOf(all)) && this in all
      modifies all
      ensures fresh(token) && token.parent == this && token.name == childName
      ensures StateOf(all + {token}) == Born(old(StateOf(all)), token) && Valid(StateOf(all + {token}))
    {
      token := new CancellationToken(childName, this, all);
    }

    method Step(description: string)
      modifies this`completed
      ensures completed == old(completed) + [description]
    {
      completed := completed + [description];
    }
  }

  ghost function StateOf(all: set<CancellationToken>): (s: State)
    reads all
    ensures s.Keys == all
  {
    map t | t in all :: t.Snapshot()
  }

  // ---------------------------------------------------------------- specification

  ghost function CancelledIn(s: State): set<CancellationToken> {
    set t | t in s && s[t].cancelled
  }

  ghost function Subtree(all: set<CancellationToken>, root: CancellationToken): set<CancellationToken> {
    set t | t in all && t.Under(root)
  }

  /** A token newly cancelled from root: root says who asked and why, every other
      one that its parent was cancelled; and its observers run once each. */
  ghost function Told(f: Fields, t: CancellationToken, root: CancellationToken, why: CancelReason, who: string): Fields {
    if t == root then f.(cancelled := true, reason := Some(why), requestedBy := Some(who), ran := f.ran + f.callbacks)
    else f.(cancelled := true, reason := Some(PARENT),
            requestedBy := if t.parent == null then None else Some(t.parent.name), ran := f.ran + f.callbacks)
  }

  ghost function Apply(s: State, newly: set<CancellationToken>, root: CancellationToken, why: CancelReason, who: string): (s': State)
    ensures s'.Keys == s.Keys
  {
    map t | t in s :: if t in newly then Told(s[t], t, root, why, who) else s[t]
  }

  /** Cancelling root: exactly its not yet cancelled descendants and itself change. */
  ghost function Cancelled(s: State, root: CancellationToken, why: CancelReason, who: string): (s': State)
    ensures s'.Keys == s.Keys
  {
    Apply(s, Subtree(s.Keys, root) - CancelledIn(s), root, why, who)
  }

  const NEWBORN := Fields(false, None, None, [], [], [], [], [])

  ghost function Attached(s: State, t: CancellationToken): State {
    var s' := s[t := NEWBORN];
    if t.parent != null && t.parent in s then s'[t.parent := s[t.parent].(children := s[t.parent].children + [t])] else s'
  }

  ghost function Born(s: State, t: CancellationToken): State {
    var s' := Attached(s, t);
    if t.parent != null && t.parent in s && s[t.parent].cancelled then Cancelled(s', t, PARENT, t.parent.name) else s'
  }

  ghost function Observed(s: State, t: CancellationToken, callback: Callback): State
    requires t in s
  {
    var f := s[t].(registered := s[t].registered + [callback]);
    s[t := if f.cancelled then f.(ran := f.ran + [callback]) else f.(callbacks := f.callbacks + [callback])]
  }

  // ---------------------------------------------------------------- invariant

  ghost predicate Rooted(all: set<CancellationToken>) {
    forall t :: t in all && t.parent != null ==> t.parent in all && t.depth == t.parent.depth + 1
  }

  ghost predicate Forest(s: State) {
    && Rooted(s.Keys)
    && (forall t :: t in s && t.parent != null ==> t in s[t.parent].children)
    && (forall t, i :: t in s && 0 <= i < |s[t].children| ==> s[t].children[i] in s && s[t].children[i].parent == t)
    && (forall t, i, j :: t in s && 0 <= i < j < |s[t].children| ==> s[t].children[i] != s[t].children[j])
  }

  /** Cancelled parents have cancelled children, everywhere ... */
  ghost predicate Closed(all: set<CancellationToken>, cancelled: set<CancellationToken>) {
    forall t :: t in all && t.parent != null && t.parent in cancelled ==> t in cancelled
  }

  /** ... or strictly below root. */
  ghost predicate ClosedBelow(all: set<CancellationToken>, cancelled: set<CancellationToken>, root: CancellationToken) {
    forall t :: t in all && t != root && t.Under(root) && t.parent != null && t.parent in cancelled ==> t in cancelled
  }

  /** Every observer registered with a cancelled token has run exactly once, in order
      of registration, and no observer of any other token has run. */
  ghost predicate ObserversInOrder(f: Fields) {
    && (f.cancelled ==> f.ran == f.registered)
    && (!f.cancelled ==> f.ran == [] && f.callbacks == f.registered)
    && (f.reason.Some? <==> f.cancelled) && (f.requestedBy.Some? <==> f.cancelled)
  }

  ghost predicate Valid(s: State) {
    Forest(s) && Closed(s.Keys, CancelledIn(s)) && forall t :: t in s ==> ObserversInOrder(s[t])
  }

  // ---------------------------------------------------------------- who is below whom

  lemma {:induction false} UnderIsDeeper(t: CancellationToken, root: CancellationToken)
    requires t.Under(root)
    ensures t == root || root.depth < t.depth
    decreases t.depth
  {
    if t != root {
      UnderIsDeeper(t.parent, root);
    }
  }

  /** The ancestors of a token form a chain. */
  lemma {:induction false} OneAncestorPerDepth(t: CancellationToken, a: CancellationToken, b: CancellationToken)
    requires t.Under(a) && t.Under(b) && a.depth == b.depth
    ensures a == b
    decreases t.depth
  {
    UnderIsDeeper(t, a);
    UnderIsDeeper(t, b);
    if t != a && t != b {
      OneAncestorPerDepth(t.parent, a, b);
    }
  }

  lemma {:induction false} UnderTransitive(t: CancellationToken, mid: CancellationToken, root: CancellationToken)
    requires t.Under(mid) && mid.Under(root)
    ensures t.Under(root)
    decreases t.depth
  {
    if t != mid {
      UnderTransitive(t.parent, mid, root);
    }
  }

  lemma {:induction false} NotUnder(all: set<CancellationToken>, outsider: CancellationToken, t: CancellationToken)
    requires Rooted(all) && outsider !in all && t in all
    ensures !t.Under(outsider)
    decreases t.depth
  {
    if t.parent != null && t.parent.depth < t.depth {
      NotUnder(all, outsider, t.parent);
    }
  }

  /** The whole subtree of a cancelled token is cancelled. */
  lemma {:induction false} DescendantCancelled(
    all: set<CancellationToken>, cancelled: set<CancellationToken>, root: CancellationToken, t: CancellationToken)
    requires Rooted(all) && ClosedBelow(all, cancelled, root) && root in cancelled && t in all && t.Under(root)
    ensures t in cancelled
    decreases t.depth
  {
    if t != root {
      DescendantCancelled(all, cancelled, root, t.parent);
    }
  }

  // ---------------------------------------------------------------- the children of a token

  ghost function SubtreesOf(all: set<CancellationToken>, roots: seq<CancellationToken>): set<CancellationToken> {
    set t | t in all && exists j :: 0 <= j < |roots| && t.Under(roots[j])
  }

  /** Strictly below a token means below one of its children. */
  lemma SubtreeSplits(s: State, root: CancellationToken)
    requires Forest(s) && root in s
    ensures Subtree(s.Keys, root) == {root} + SubtreesOf(s.Keys, s[root].children)
    ensures root !in SubtreesOf(s.Keys, s[root].children)
  {
    var all, children := s.Keys, s[root].children;
    forall t | t in Subtree(all, root) && t != root ensures t in SubtreesOf(all, children) {
      BelowAChild(s, root, t);
    }
    forall t | t in SubtreesOf(all, children) ensures t in Subtree(all, root) && t != root {
      var j :| 0 <= j < |children| && t.Under(children[j]);
      assert children[j].parent == root && root.depth < children[j].depth;
      assert children[j].Under(root);
      UnderTransitive(t, children[j], root);
      UnderIsDeeper(t, children[j]);
    }
  }

  lemma {:induction false} BelowAChild(s: State, root: CancellationToken, t: CancellationToken)
    requires Forest(s) && root in s && t in s && t.Under(root) && t != root
    ensures t in SubtreesOf(s.Keys, s[root].children)
    decreases t.depth
  {
    var children := s[root].children;
    if t.parent == root {
      var j :| 0 <= j < |children| && children[j] == t;
      assert t.Under(children[j]);
    } else {
      BelowAChild(s, root, t.parent);
      var j :| 0 <= j < |children| && t.parent.Under(children[j]);
      assert t.Under(children[j]);
    }
  }

  lemma SubtreesOfStep(s: State, root: CancellationToken, i: nat)
    requires Forest(s) && root in s && i < |s[root].children|
    ensures var all, children := s.Keys, s[root].children;
            && SubtreesOf(all, children[..i + 1]) == SubtreesOf(all, children[..i]) + Subtree(all, children[i])
            && SubtreesOf(all, children[..i]) !! Subtree(all, children[i])
            && root !in Subtree(all, children[i])
            && children[i] in all && children[i].parent == root
  {
    var all, children := s.Keys, s[root].children;
    var firsts, c := children[..i], children[i];
    forall t | t in SubtreesOf(all, children[..i + 1])
      ensures t in SubtreesOf(all, firsts) || t in Subtree(all, c)
    {
      var j :| 0 <= j < i + 1 && t.Under(children[..i + 1][j]);
      if j < i {
        assert t.Under(firsts[j]);
      }
    }
    forall t | t in SubtreesOf(all, firsts) ensures t in SubtreesOf(all, children[..i + 1]) && !t.Under(c) {
      var j :| 0 <= j < i && t.Under(firsts[j]);
      assert t.Under(children[..i + 1][j]);
      assert children[j] != c && children[j].parent == root && c.parent == root;
      if t.Under(c) {
        OneAncestorPerDepth(t, children[j], c);
      }
    }
    forall t | t in Subtree(all, c) ensures t in SubtreesOf(all, children[..i + 1]) {
      assert t.Under(children[..i + 1][i]);
    }
    if root.Under(c) {
      UnderIsDeeper(root, c);
    }
  }

  // ---------------------------------------------------------------- the steps of the recursion

  ghost function Marked(s: State, root: CancellationToken, why: CancelReason, who: string): State
    requires root in s
  {
    s[root := s[root].(cancelled := true, reason := Some(why), requestedBy := Some(who))]
  }

  /** The state when the first i children have been dealt with. */
  ghost function SoFar(s: State, root: CancellationToken, i: nat, why: CancelReason, who: string): (s': State)
    requires root in s && i <= |s[root].children|
    ensures s'.Keys == s.Keys
  {
    Marked(Apply(s, SubtreesOf(s.Keys, s[root].children[..i]) - CancelledIn(s) - {root}, root, why, who), root, why, who)
  }

  lemma NothingToDo(s: State, root: CancellationToken, why: CancelReason, who: string)
    requires Forest(s) && root in s && s[root].cancelled && ClosedBelow(s.Keys, CancelledIn(s), root)
    ensures Cancelled(s, root, why, who) == s
  {
    forall t | t in Subtree(s.Keys, root) ensures t in CancelledIn(s) {
      DescendantCancelled(s.Keys, CancelledIn(s), root, t);
    }
  }

  lemma MarkedIsSmaller(s: State, root: CancellationToken, why: CancelReason, who: string)
    requires root in s && !s[root].cancelled
    ensures s.Keys - CancelledIn(Marked(s, root, why, who)) < s.Keys - CancelledIn(s)
  {
    assert root in s.Keys - CancelledIn(s);
    assert root !in s.Keys - CancelledIn(Marked(s, root, why, who));
  }

  lemma NoneSoFar(s: State, root: CancellationToken, why: CancelReason, who: string)
    requires root in s
    ensures SoFar(s, root, 0, why, who) == Marked(s, root, why, who)
  {
    assert SubtreesOf(s.Keys, s[root].children[..0]) == {};
  }

  lemma SameChildren(s: State, root: CancellationToken, i: nat, why: CancelReason, who: string)
    requires root in s && i <= |s[root].children|
    ensures SoFar(s, root, i, why, who)[root].children == s[root].children
    ensures Marked(s, root, why, who)[root].children == s[root].children
  {
  }

  lemma CancelledSoFar(s: State, root: CancellationToken, i: nat, why: CancelReason, who: string)
    requires root in s && i <= |s[root].children|
    ensures CancelledIn(SoFar(s, root, i, why, who))
            == CancelledIn(s) + {root} + SubtreesOf(s.Keys, s[root].children[..i])
  {
    hide SubtreesOf;
    assert SubtreesOf(s.Keys, s[root].children[..i]) <= s.Keys by {
      SubtreesAreTokens(s.Keys, s[root].children[..i]);
    }
  }

  lemma SubtreesAreTokens(all: set<CancellationToken>, roots: seq<CancellationToken>)
    ensures SubtreesOf(all, roots) <= all
  {
  }

  lemma ForestSoFar(s: State, root: CancellationToken, i: nat, why: CancelReason, who: string)
    requires Forest(s) && root in s && i <= |s[root].children|
    ensures Forest(SoFar(s, root, i, why, who))
  {
    hide SubtreesOf, CancelledIn;
    var s' := SoFar(s, root, i, why, who);
    assert forall t :: t in s ==> s'[t].children == s[t].children;
  }

  /** The next child's call is allowed, ends, and takes us one child further. */
  lemma NextChild(s: State, root: CancellationToken, i: nat, why: CancelReason, who: string)
    requires Forest(s) && root in s && i < |s[root].children| && ClosedBelow(s.Keys, CancelledIn(s), root)
    ensures var s', c := SoFar(s, root, i, why, who), s[root].children[i];
            && c in s && Forest(s') && ClosedBelow(s.Keys, CancelledIn(s'), c)
            && s.Keys - CancelledIn(s') <= s.Keys - CancelledIn(Marked(s, root, why, who))
            && Cancelled(s', c, PARENT, root.name) == SoFar(s, root, i + 1, why, who)
  {
    SubtreesOfStep(s, root, i);
    ForestSoFar(s, root, i, why, who);
    CancelledSoFar(s, root, i, why, who);
    NextIsClosed(s, root, i);
    NextAdds(s, root, i, why, who);
  }

  lemma NextIsClosed(s: State, root: CancellationToken, i: nat)
    requires Forest(s) && root in s && i < |s[root].children| && ClosedBelow(s.Keys, CancelledIn(s), root)
    ensures var all, children := s.Keys, s[root].children;
            ClosedBelow(all, CancelledIn(s) + {root} + SubtreesOf(all, children[..i]), children[i])
  {
    SubtreesOfStep(s, root, i);
    var all, children := s.Keys, s[root].children;
    var c := children[i];
    assert c.Under(root);
    forall t | t in all && t != c && t.Under(c) && t.parent in CancelledIn(s) + {root} + SubtreesOf(all, children[..i])
      ensures t in CancelledIn(s)
    {
      UnderTransitive(t, c, root);
      assert t.parent in Subtree(all, c);
      UnderIsDeeper(t, c);
      assert c.depth == root.depth + 1;
    }
  }

  lemma NextAdds(s: State, root: CancellationToken, i: nat, why: CancelReason, who: string)
    requires Forest(s) && root in s && i < |s[root].children|
    ensures Cancelled(SoFar(s, root, i, why, who), s[root].children[i], PARENT, root.name)
            == SoFar(s, root, i + 1, why, who)
  {
    hide SubtreesOf, Subtree, Forest, CancelledIn;
    SubtreesOfStep(s, root, i);
    CancelledSoFar(s, root, i, why, who);
    var c := s[root].children[i];
    var before, after := SubtreesOf(s.Keys, s[root].children[..i]), SubtreesOf(s.Keys, s[root].children[..i + 1]);
    assert forall t :: t in Subtree(s.Keys, c) ==> t !in before && t != root;
    assert c.parent == root;
  }

  lemma RootToo(s: State, root: CancellationToken, why: CancelReason, who: string)
    requires Forest(s) && root in s && !s[root].cancelled
    ensures var s' := SoFar(s, root, |s[root].children|, why, who);
            Cancelled(s, root, why, who) == s'[root := s'[root].(ran := s'[root].ran + s'[root].callbacks)]
  {
    hide SubtreesOf, Subtree, Forest;
    SubtreeSplits(s, root);
    assert s[root].children[..|s[root].children|] == s[root].children;
  }

  // ---------------------------------------------------------------- main results

  lemma ClosedAbove(s: State, root: CancellationToken)
    requires Valid(s)
    ensures ClosedBelow(s.Keys, CancelledIn(s), root)
  {
  }

  /** The cancelled set is exactly the old one plus the token and its descendants. */
  lemma CancelsExactlyTheSubtree(s: State, root: CancellationToken, why: CancelReason, who: string)
    ensures CancelledIn(Cancelled(s, root, why, who)) == CancelledIn(s) + Subtree(s.Keys, root)
  {
  }

  /** What the cancelled tokens report: root who asked and why, every other newly
      cancelled one that its parent was cancelled, by name; and nothing else changes but
      that the observers run. */
  lemma CancellationReports(s: State, root: CancellationToken, why: CancelReason, who: string, t: CancellationToken)
    requires root in s && t in s && t !in CancelledIn(s)
    ensures var f, f' := s[t], Cancelled(s, root, why, who)[t];
            && (t == root ==> f'.reason == Some(why) && f'.requestedBy == Some(who))
            && (t != root && t.Under(root) ==>
                  f'.reason == Some(PARENT) && t.parent != null && f'.requestedBy == Some(t.parent.name))
            && (t.Under(root) ==> f'.cancelled && f'.ran == f.ran + f.callbacks)
            && (!t.Under(root) ==> f' == f)
            && f'.children == f.children && f'.completed == f.completed && f'.registered == f.registered
  {
  }

  /** A token born below a cancelled parent reports that; any other is born clean. */
  lemma BirthReports(s: State, t: CancellationToken)
    requires Valid(s) && t !in s && (t.parent != null ==> t.parent in s)
    ensures var f, cancelled := Born(s, t)[t], t.parent != null && s[t.parent].cancelled;
            && f.cancelled == cancelled && f.children == [] && f.ran == [] && f.registered == []
            && f.reason == (if cancelled then Some(PARENT) else None)
            && f.requestedBy == if cancelled then Some(t.parent.name) else None
  {
    hide Valid, Forest;
    assert t.Under(t);
  }

  /** Earlier reports are kept, so cancelling twice is cancelling once, whoever asks;
      and cancelling inside a cancelled subtree changes nothing. */
  lemma FirstReasonWins(s: State, root: CancellationToken, inner: CancellationToken, why: CancelReason, who: string,
                        why': CancelReason, who': string)
    requires inner.Under(root)
    ensures var s' := Cancelled(s, root, why, who);
            && Cancelled(s', inner, why', who') == s'
            && (forall t :: t in CancelledIn(s) ==> s'[t] == s[t])
  {
    CancelsExactlyTheSubtree(s, root, why, who);
    forall t | t in Subtree(s.Keys, inner) ensures t in Subtree(s.Keys, root) {
      UnderTransitive(t, inner, root);
    }
  }

  /** `cancel` keeps the invariant: the tree, the closure under descendants, and that
      observers have run exactly once on cancelled tokens and not at all on others. */
  lemma CancelledValid(s: State, root: CancellationToken, why: CancelReason, who: string)
    requires Valid(s) && root in s
    ensures Valid(Cancelled(s, root, why, who))
  {
    var s' := Cancelled(s, root, why, who);
    CancelsExactlyTheSubtree(s, root, why, who);
    assert forall t :: t in s ==> s'[t].children == s[t].children;
    forall t | t in s && t.parent != null && t.parent in CancelledIn(s') ensures t in CancelledIn(s') {
      assert t.parent.depth < t.depth;
    }
    forall t | t in s ensures ObserversInOrder(s'[t]) {
      assert ObserversInOrder(s[t]);
      assert [] + s[t].callbacks == s[t].callbacks;
    }
  }

  lemma AttachedForest(s: State, t: CancellationToken)
    requires Valid(s) && t !in s && (t.parent != null ==> t.parent in s)
    requires t.depth == if t.parent == null then 0 else t.parent.depth + 1
    ensures var s' := Attached(s, t);
            && Forest(s') && ClosedBelow(s'.Keys, CancelledIn(s'), t) && Subtree(s'.Keys, t) == {t}
            && CancelledIn(s') == CancelledIn(s) && s'.Keys == s.Keys + {t}
  {
    hide Forest, ObserversInOrder;
    var s' := Attached(s, t);
    ForestIsRooted(s);
    forall u | u in s ensures !u.Under(t) {
      NotUnder(s.Keys, t, u);
    }
    AttachedIsForest(s, t);
    assert t !in s.Keys && forall u :: u in s ==> s'[u].cancelled == s[u].cancelled;
  }

  lemma ForestIsRooted(s: State)
    requires Forest(s)
    ensures Rooted(s.Keys)
  {
  }

  lemma AttachedIsForest(s: State, t: CancellationToken)
    requires Forest(s) && t !in s && (t.parent != null ==> t.parent in s)
    requires t.depth == if t.parent == null then 0 else t.parent.depth + 1
    ensures Forest(Attached(s, t))
  {
    var s' := Attached(s, t);
    forall u, i | u in s' && 0 <= i < |s'[u].children| ensures s'[u].children[i] in s' && s'[u].children[i].parent == u {
      if u in s && i < |s[u].children| {
        assert s'[u].children[i] == s[u].children[i];
      }
    }
    forall u, i, j | u in s' && 0 <= i < j < |s'[u].children| ensures s'[u].children[i] != s'[u].children[j] {
      assert u in s && s'[u].children[i] == s[u].children[i] && s[u].children[i] in s;
    }
    forall u | u in s' && u.parent != null ensures u in s'[u.parent].children {
      if u == t {
        assert s'[t.parent].children[|s[t.parent].children|] == t;
      } else {
        var i :| 0 <= i < |s[u.parent].children| && s[u.parent].children[i] == u;
        assert s'[u.parent].children[i] == u;
      }
    }
  }

  /** A new token keeps the invariant; it is born cancelled exactly under a cancelled
      parent. */
  lemma BornValid(s: State, t: CancellationToken)
    requires Valid(s) && t !in s && (t.parent != null ==> t.parent in s)
    requires t.depth == if t.parent == null then 0 else t.parent.depth + 1
    ensures Valid(Born(s, t))
    ensures CancelledIn(Born(s, t)) == CancelledIn(s) + if t.parent != null && s[t.parent].cancelled then {t} else {}
  {
    hide Forest;
    AttachedForest(s, t);
    var s0, s' := Attached(s, t), Born(s, t);
    if t.parent != null && s[t.parent].cancelled {
      CancelsExactlyTheSubtree(s0, t, PARENT, t.parent.name);
      SameTree(s0, s');
    }
    BornObservers(s, t);
    BornClosed(s, t);
  }

  lemma BornObservers(s: State, t: CancellationToken)
    requires Valid(s) && t !in s && (t.parent != null ==> t.parent in s)
    ensures forall u :: u in Born(s, t) ==> ObserversInOrder(Born(s, t)[u])
  {
    hide Forest, Closed;
    var s' := Born(s, t);
    forall u | u in s' ensures ObserversInOrder(s'[u]) {
      assert u in s ==> ObserversInOrder(s[u]);
    }
  }

  lemma BornClosed(s: State, t: CancellationToken)
    requires Valid(s) && t !in s && (t.parent != null ==> t.parent in s)
    requires CancelledIn(Born(s, t)) == CancelledIn(s) + if t.parent != null && s[t.parent].cancelled then {t} else {}
    requires Born(s, t).Keys == s.Keys + {t}
    ensures Closed(Born(s, t).Keys, CancelledIn(Born(s, t)))
  {
    hide Forest, Born, ObserversInOrder;
    var s' := Born(s, t);
    forall u | u in s' && u.parent != null && u.parent in CancelledIn(s') ensures u in CancelledIn(s') {
      if u != t {
        ParentIsOld(s, u);
      }
    }
  }

  lemma SameTree(s: State, s': State)
    requires Forest(s) && s.Keys == s'.Keys && forall t :: t in s ==> s'[t].children == s[t].children
    ensures Forest(s')
  {
  }

  lemma ParentIsOld(s: State, t: CancellationToken)
    requires Forest(s) && t in s && t.parent != null
    ensures t.parent in s
  {
  }

  /** Registering an observer keeps the invariant. */
  lemma ObservedValid(s: State, t: CancellationToken, callback: Callback)
    requires Valid(s) && t in s
    ensures Valid(Observed(s, t, callback)) && CancelledIn(Observed(s, t, callback)) == CancelledIn(s)
  {
    hide Forest;
    var s' := Observed(s, t, callback);
    SameTree(s, s');
    assert ObserversInOrder(s[t]);
  }
}
