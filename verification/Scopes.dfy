/** The scope algebra: `resource:action[:target]` with wildcards, and the proof that
    the matching loop decides exactly whether one grant's language contains another's. */
module Scopes {
  import opened Basics

  datatype ScopeError = InvalidScope(scope: string)

  // ---------------------------------------------------------------- parsing

  predicate IsFirst(c: char) { 'a' <= c <= 'z' || '0' <= c <= '9' || c == '_' }

  predicate IsRest(c: char) { IsFirst(c) || c == '.' || c == '-' }

  /** A lone star, or a name whose last character may be a star. */
  predicate IsBody(s: string) {
    s == "*" ||
    (s != "" && IsFirst(s[0]) &&
     forall i :: 1 <= i < |s| ==> IsRest(s[i]) || (i == |s| - 1 && s[i] == '*'))
  }

  /** The pattern's end also matches just before a final line feed. */
  predicate IsSegment(s: string) {
    IsBody(s) || (s != "" && s[|s| - 1] == '\n' && IsBody(s[..|s| - 1]))
  }

  function Split(s: string): (segments: seq<string>)
    ensures segments != []
  {
    if s == "" then [""]
    else if s[0] == ':' then [""] + Split(s[1..])
    else var rest := Split(s[1..]); [[s[0]] + rest[0]] + rest[1..]
  }

  function ParseScope(scope: string): Result<seq<string>, ScopeError> {
    if scope == "" || scope[0] == ':' || scope[|scope| - 1] == ':' then Err(InvalidScope(scope))
    else
      var segments := Split(scope);
      if forall i :: 0 <= i < |segments| ==> IsSegment(segments[i]) then Ok(segments) else Err(InvalidScope(scope))
  }

  const LETTERS := "abcdefghijklmnopqrstuvwxyz"
  const DIGITS := "0123456789"

  lemma Letters(c: char)
    ensures c in LETTERS <==> 'a' <= c <= 'z'
  {
    if 'a' <= c <= 'z' {
      assert LETTERS[c as int - 'a' as int] == c;
    }
  }

  lemma Digits(c: char)
    ensures c in DIGITS <==> '0' <= c <= '9'
  {
    if '0' <= c <= '9' {
      assert DIGITS[c as int - '0' as int] == c;
    }
  }

  /** The characters a name may begin with, and those that may follow. */
  lemma Alphabet(c: char)
    ensures IsFirst(c) <==> c in LETTERS || c in DIGITS || c == '_'
    ensures IsRest(c) <==> c in LETTERS || c in DIGITS || c == '_' || c == '.' || c == '-'
  {
    hide LETTERS, DIGITS;
    Letters(c);
    Digits(c);
  }

  /** A lone star or a name, or one of them and a line feed. */
  ghost predicate OneSegment(s: string) { IsBody(s) || exists body :: IsBody(body) && s == body + "\n" }

  ghost predicate AllSegments(segments: seq<string>) { forall i :: 0 <= i < |segments| ==> OneSegment(segments[i]) }

  /** A scope is well formed: it neither begins nor ends with a colon, and each part
      between colons is a lone star or a name with at most a star at its end; one line
      feed may follow each. */
  lemma ParsesExactly(scope: string)
    ensures ParseScope(scope).Ok? <==>
            scope != "" && scope[0] != ':' && scope[|scope| - 1] != ':' && AllSegments(Split(scope))
  {
    hide IsSegment, OneSegment;
    var segments := Split(scope);
    forall i | 0 <= i < |segments| ensures IsSegment(segments[i]) <==> OneSegment(segments[i]) {
      SegmentExactly(segments[i]);
    }
    assert AllSegments(segments) <==> forall i :: 0 <= i < |segments| ==> IsSegment(segments[i]);
  }

  lemma SegmentExactly(s: string)
    ensures IsSegment(s) <==> OneSegment(s)
  {
    hide IsBody;
    if s != "" && s[|s| - 1] == '\n' {
      assert s == s[..|s| - 1] + "\n";
    }
    if body :| IsBody(body) && s == body + "\n" {
      assert s[..|s| - 1] == body;
    }
  }

  // ---------------------------------------------------------------- matching

  predicate EndsDotStar(s: string) { |s| >= 2 && s[|s| - 2..] == ".*" }

  predicate SegmentCovers(granted: string, required: string) {
    if EndsDotStar(granted) then granted[..|granted| - 1] <= required else required == granted
  }

  /** The loop of `scope_cobre` from index i on. */
  predicate CoversFrom(g: seq<string>, r: seq<string>, i: nat)
    requires i <= |g|
    decreases |g| - i
  {
    if i == |g| then |r| == |g|
    else if g[i] == "*" then
      if i == |g| - 1 then |r| > i else i < |r| && CoversFrom(g, r, i + 1)
    else i < |r| && SegmentCovers(g[i], r[i]) && CoversFrom(g, r, i + 1)
  }

  predicate Covers(g: seq<string>, r: seq<string>) { CoversFrom(g, r, 0) }

  function ScopeCovers(granted: string, required: string): Result<bool, ScopeError> {
    match ParseScope(granted)
    case Err(e) => Err(e)
    case Ok(g) =>
      match ParseScope(required)
      case Err(e) => Err(e)
      case Ok(r) => Ok(Covers(g, r))
  }

  /** `concede` over the grants in iteration order: it stops at the first that covers. */
  function Grants(granted: seq<string>, required: string): Result<bool, ScopeError> {
    if granted == [] then Ok(false)
    else
      match ScopeCovers(granted[0], required)
      case Err(e) => Err(e)
      case Ok(covered) => if covered then Ok(true) else Grants(granted[1..], required)
  }

  // ---------------------------------------------------------------- what the loop computes

  predicate SegmentMatches(g: string, r: string) { g == "*" || SegmentCovers(g, r) }

  /** The declarative reading: segment by segment, where a final star also takes
      whatever follows. */
  predicate Fits(g: seq<string>, r: seq<string>) {
    && |g| <= |r|
    && (|r| == |g| || (g != [] && g[|g| - 1] == "*"))
    && forall i :: 0 <= i < |g| ==> SegmentMatches(g[i], r[i])
  }

  lemma {:induction false} CoversFromIsFits(g: seq<string>, r: seq<string>, i: nat)
    requires i <= |g|
    ensures CoversFrom(g, r, i) <==>
            && |g| <= |r|
            && (|r| == |g| || (i < |g| && g[|g| - 1] == "*"))
            && forall j :: i <= j < |g| ==> SegmentMatches(g[j], r[j])
    decreases |g| - i
  {
    if i < |g| {
      CoversFromIsFits(g, r, i + 1);
    }
  }

  lemma CoversIsFits(g: seq<string>, r: seq<string>)
    requires g != []
    ensures Covers(g, r) <==> Fits(g, r)
  {
    CoversFromIsFits(g, r, 0);
  }

  // ---------------------------------------------------------------- preorder

  predicate WellFormed(segments: seq<string>) {
    segments != [] && forall i :: 0 <= i < |segments| ==> IsSegment(segments[i])
  }

  lemma CoversReflexive(g: seq<string>)
    requires WellFormed(g)
    ensures Covers(g, g)
  {
    CoversIsFits(g, g);
  }

  lemma SegmentTransitive(a: string, b: string, c: string)
    requires IsSegment(a) && IsSegment(b) && SegmentMatches(a, b) && SegmentMatches(b, c)
    ensures SegmentMatches(a, c)
  {
    if a != "*" && EndsDotStar(a) && EndsDotStar(b) {
      var p, q := a[..|a| - 1], b[..|b| - 1];
      assert b[|b| - 2..][1] == '*' && a[|a| - 2..][0] == '.';
      assert b[|b| - 1] == '*' && p[|p| - 1] == '.';
      assert |p| != |b|;
      assert p <= q;
    }
  }

  lemma OnlyStarTakesStar(a: string)
    ensures a != "*" ==> !SegmentMatches(a, "*")
  {
    if EndsDotStar(a) {
      assert a[|a| - 2..][0] == '.';
    }
  }

  lemma CoversTransitive(a: seq<string>, b: seq<string>, c: seq<string>)
    requires WellFormed(a) && WellFormed(b) && Covers(a, b) && Covers(b, c)
    ensures Covers(a, c)
  {
    hide SegmentMatches, IsSegment, Covers;
    CoversIsFits(a, b);
    CoversIsFits(b, c);
    CoversIsFits(a, c);
    forall i | 0 <= i < |a| ensures SegmentMatches(a[i], c[i]) {
      SegmentTransitive(a[i], b[i], c[i]);
    }
    if |c| > |b| == |a| {
      OnlyStarTakesStar(a[|a| - 1]);
    }
  }

  // ---------------------------------------------------------------- languages

  predicate StarFree(s: string) { '*' !in s }

  /** A scope an operation can actually require: no wildcard anywhere. */
  predicate Concrete(c: seq<string>) {
    WellFormed(c) && forall i :: 0 <= i < |c| ==> StarFree(c[i])
  }

  /** Stars only as a whole segment or in a final `.*`. */
  predicate WellStarredSegment(s: string) {
    StarFree(s) || s == "*" || (EndsDotStar(s) && StarFree(s[..|s| - 1]))
  }

  predicate WellStarred(g: seq<string>) {
    forall i :: 0 <= i < |g| ==> WellStarredSegment(g[i])
  }

  /** Every concrete scope of b's language is in a's. */
  ghost predicate Includes(a: seq<string>, b: seq<string>) {
    forall c :: Concrete(c) && Covers(b, c) ==> Covers(a, c)
  }

  /** b with x in the place of every star. */
  function Instance(s: string, x: string): string {
    if s == "*" then x else if EndsDotStar(s) then s[..|s| - 1] + x else s
  }

  function Instances(b: seq<string>, x: string): (c: seq<string>)
    ensures |c| == |b|
  {
    seq(|b|, i requires 0 <= i < |b| => Instance(b[i], x))
  }

  lemma InstanceIsConcrete(s: string, x: string)
    requires IsSegment(s) && WellStarredSegment(s) && (x == "a" || x == "b")
    ensures IsSegment(Instance(s, x)) && StarFree(Instance(s, x)) && SegmentMatches(s, Instance(s, x))
  {
    if s != "*" && EndsDotStar(s) {
      assert s[|s| - 1] == s[|s| - 2..][1] == '*';
      assert IsBody(s);
      var t := Instance(s, x);
      assert forall i :: 0 <= i < |s| - 1 ==> t[i] == s[i];
    }
  }

  lemma InstancesAreCovered(b: seq<string>, x: string)
    requires WellFormed(b) && WellStarred(b) && (x == "a" || x == "b")
    ensures Concrete(Instances(b, x)) && Covers(b, Instances(b, x))
  {
    forall i | 0 <= i < |b|
      ensures IsSegment(Instances(b, x)[i]) && StarFree(Instances(b, x)[i]) && SegmentMatches(b[i], Instances(b, x)[i])
    {
      InstanceIsConcrete(b[i], x);
    }
    CoversIsFits(b, Instances(b, x));
  }

  /** Segments that do not match are told apart by some instance. */
  lemma Separating(a: string, b: string) returns (x: string)
    requires IsSegment(a) && IsSegment(b) && WellStarredSegment(b) && !SegmentMatches(a, b)
    ensures (x == "a" || x == "b") && !SegmentMatches(a, Instance(b, x))
  {
    hide IsSegment, IsBody;
    if EndsDotStar(a) {
      x := "a";
      if b == "*" {
        SeparatingLetter(a, x);
      } else if EndsDotStar(b) {
        SeparatingPrefixes(a, b, x);
      }
    } else {
      x := if a == Instance(b, "a") then "b" else "a";
      InstancesDiffer(b);
    }
  }

  lemma SeparatingLetter(a: string, x: string)
    requires EndsDotStar(a) && |x| == 1 && x[0] != '.'
    ensures !(a[..|a| - 1] <= x)
  {
    assert a[|a| - 2..][0] == '.';
  }

  lemma SeparatingPrefixes(a: string, b: string, x: string)
    requires EndsDotStar(a) && EndsDotStar(b) && |x| == 1 && x[0] != '.' && !(a[..|a| - 1] <= b)
    ensures !(a[..|a| - 1] <= b[..|b| - 1] + x)
  {
    var p, q := a[..|a| - 1], b[..|b| - 1];
    assert a[|a| - 2..][0] == '.';
    assert p[|p| - 1] == '.';
    assert (q + x)[|q|] == x[0];
    assert |p| <= |q| ==> (q + x)[..|p|] == b[..|p|];
  }

  lemma InstancesDiffer(b: string)
    ensures b == "*" || EndsDotStar(b) ==> Instance(b, "a") != Instance(b, "b")
  {
    if b != "*" && EndsDotStar(b) {
      var q := b[..|b| - 1];
      assert (q + "a")[|q|] == 'a' && (q + "b")[|q|] == 'b';
    }
  }

  /** Soundness and completeness of the matching loop. */
  lemma CoversDecidesInclusion(a: seq<string>, b: seq<string>)
    requires WellFormed(a) && WellFormed(b) && WellStarred(b)
    ensures Covers(a, b) <==> Includes(a, b)
  {
    if Covers(a, b) {
      forall c | Concrete(c) && Covers(b, c) ensures Covers(a, c) {
        CoversTransitive(a, b, c);
      }
    } else if Includes(a, b) {
      InstancesAreCovered(b, "a");
      CoversIsFits(a, Instances(b, "a"));
      CoversIsFits(a, b);
      var i :| 0 <= i < |a| && !SegmentMatches(a[i], b[i]);
      var x := Separating(a[i], b[i]);
      InstancesAreCovered(b, x);
      CoversIsFits(a, Instances(b, x));
      assert false;
    }
  }

  /** A star in any other place is an ordinary character that no concrete scope has. */
  lemma IllStarredIsEmpty(b: seq<string>, c: seq<string>)
    requires WellFormed(b) && !WellStarred(b) && Concrete(c)
    ensures !Covers(b, c)
  {
    CoversIsFits(b, c);
    var i :| 0 <= i < |b| && !WellStarredSegment(b[i]);
    if i < |c| && SegmentMatches(b[i], c[i]) {
      if EndsDotStar(b[i]) {
        assert StarFree(b[i][..|b[i]| - 1]);
      }
    }
  }

  /** Well-placed stars are exactly what the loop needs to decide inclusion. */
  lemma DecidesInclusionExactly(b: seq<string>)
    requires WellFormed(b)
    ensures (forall a :: WellFormed(a) ==> (Covers(a, b) <==> Includes(a, b))) <==> WellStarred(b)
  {
    if WellStarred(b) {
      forall a | WellFormed(a) ensures Covers(a, b) <==> Includes(a, b) {
        CoversDecidesInclusion(a, b);
      }
    } else {
      var a := seq(|b| + 1, _ => "a");
      CoversIsFits(a, b);
      forall c | Concrete(c) ensures !Covers(b, c) {
        IllStarredIsEmpty(b, c);
      }
      assert WellFormed(a) && Includes(a, b) && !Covers(a, b);
    }
  }

  // ---------------------------------------------------------------- the same on scope strings

  function Join(segments: seq<string>): string {
    if segments == [] then "" else if |segments| == 1 then segments[0]
    else segments[0] + ":" + Join(segments[1..])
  }

  lemma {:induction false} SplitAfter(s: string, rest: string)
    requires ':' !in s
    ensures Split(s + ":" + rest) == [s] + Split(rest)
  {
    var all := s + ":" + rest;
    if s == "" {
      assert all[1..] == rest;
    } else {
      assert all[0] == s[0] && all[1..] == s[1..] + ":" + rest;
      SplitAfter(s[1..], rest);
      assert Split(all[1..])[1..] == Split(rest);
      assert [s[0]] + s[1..] == s;
    }
  }

  lemma {:induction false} SplitWhole(s: string)
    requires ':' !in s
    ensures Split(s) == [s]
  {
    if s == "" {
    } else {
      SplitWhole(s[1..]);
      assert [s[0]] + s[1..] == s;
    }
  }

  /** Split undoes Join ... */
  lemma {:induction false} SplitJoin(segments: seq<string>)
    requires segments != [] && forall i :: 0 <= i < |segments| ==> ':' !in segments[i]
    ensures Split(Join(segments)) == segments
  {
    if |segments| == 1 {
      SplitWhole(segments[0]);
    } else {
      SplitJoin(segments[1..]);
      SplitAfter(segments[0], Join(segments[1..]));
    }
  }

  /** ... and Join undoes Split, so a scope is its segments. */
  lemma {:induction false} JoinSplit(s: string)
    ensures Join(Split(s)) == s
  {
    if s == "" {
    } else {
      JoinSplit(s[1..]);
      var rest := Split(s[1..]);
      if s[0] == ':' {
        assert ([""] + rest)[1..] == rest;
      } else {
        var first := [s[0]] + rest[0];
        assert ([first] + rest[1..])[1..] == rest[1..];
        assert |rest| > 1 ==> Join(rest) == rest[0] + ":" + Join(rest[1..]);
      }
    }
  }

  lemma SegmentsHaveNoColon(s: string)
    requires IsSegment(s)
    ensures s != "" && ':' !in s
  {
    if !IsBody(s) {
      assert s == s[..|s| - 1] + ['\n'];
    }
  }

  lemma {:induction false} JoinEnds(segments: seq<string>)
    requires WellFormed(segments)
    ensures var s := Join(segments); s != "" && s[0] != ':' && s[|s| - 1] != ':'
    ensures forall x :: x in Join(segments) ==> x == ':' || exists i :: 0 <= i < |segments| && x in segments[i]
  {
    SegmentsHaveNoColon(segments[0]);
    if |segments| > 1 {
      var rest := segments[1..];
      JoinEnds(rest);
      var s := Join(segments);
      assert s[|s| - 1] == Join(rest)[|Join(rest)| - 1];
      forall x | x in s ensures x == ':' || exists i :: 0 <= i < |segments| && x in segments[i] {
        if x in Join(rest) && x != ':' {
          var i :| 0 <= i < |rest| && x in rest[i];
          assert x in segments[i + 1];
        }
      }
    }
  }

  /** Every well-formed sequence of segments is the parse of one scope string. */
  lemma ParseJoin(segments: seq<string>)
    requires WellFormed(segments)
    ensures ParseScope(Join(segments)) == Ok(segments)
  {
    JoinEnds(segments);
    forall i | 0 <= i < |segments| ensures ':' !in segments[i] {
      SegmentsHaveNoColon(segments[i]);
    }
    SplitJoin(segments);
  }

  lemma {:induction false} SplitChars(s: string)
    ensures forall i, x :: 0 <= i < |Split(s)| && x in Split(s)[i] ==> x in s
  {
    if s == "" {
    } else {
      SplitChars(s[1..]);
      assert s == [s[0]] + s[1..];
      var rest := Split(s[1..]);
      forall i, x | 0 <= i < |Split(s)| && x in Split(s)[i] ensures x in s {
        if s[0] == ':' {
          assert i > 0 ==> Split(s)[i] == rest[i - 1];
        } else {
          assert Split(s)[i] == if i == 0 then [s[0]] + rest[0] else rest[i];
        }
      }
    }
  }

  /** On strings: the grant a covers the well-starred scope b if and only if a covers
      every scope without a star that b covers. */
  lemma ScopeCoversDecidesInclusion(a: string, b: string)
    requires ParseScope(a).Ok? && ParseScope(b).Ok? && WellStarred(ParseScope(b).value)
    ensures ScopeCovers(a, b) == Ok(true) <==>
            forall c :: StarFree(c) && ScopeCovers(b, c) == Ok(true) ==> ScopeCovers(a, c) == Ok(true)
  {
    var g, r := ParseScope(a).value, ParseScope(b).value;
    CoversDecidesInclusion(g, r);
    if Covers(g, r) {
      forall c | StarFree(c) && ScopeCovers(b, c) == Ok(true) ensures ScopeCovers(a, c) == Ok(true) {
        CoversTransitive(g, r, ParseScope(c).value);
      }
    } else {
      var c :| Concrete(c) && Covers(r, c) && !Covers(g, c);
      ParseJoin(c);
      JoinEnds(c);
      assert StarFree(Join(c)) && ScopeCovers(b, Join(c)) == Ok(true) && ScopeCovers(a, Join(c)) == Ok(false);
    }
  }

  /** Granting a scope that a grant already covers grants nothing new. */
  lemma {:induction false} CoveredGrantIsRedundant(granted: seq<string>, extra: string, required: string)
    requires ParseScope(extra).Ok? && ParseScope(required).Ok?
    requires forall i :: 0 <= i < |granted| ==> ParseScope(granted[i]).Ok?
    requires exists i :: 0 <= i < |granted| && ScopeCovers(granted[i], extra) == Ok(true)
    ensures Grants([extra] + granted, required) == Grants(granted, required)
  {
    GrantsIsExists(granted, required);
    assert ([extra] + granted)[1..] == granted;
    if ScopeCovers(extra, required) == Ok(true) {
      var i :| 0 <= i < |granted| && ScopeCovers(granted[i], extra) == Ok(true);
      CoversTransitive(ParseScope(granted[i]).value, ParseScope(extra).value, ParseScope(required).value);
      assert ScopeCovers(granted[i], required) == Ok(true);
    }
  }

  lemma {:induction false} GrantsIsExists(granted: seq<string>, required: string)
    requires ParseScope(required).Ok? && forall i :: 0 <= i < |granted| ==> ParseScope(granted[i]).Ok?
    ensures Grants(granted, required)
            == Ok(exists i :: 0 <= i < |granted| && ScopeCovers(granted[i], required) == Ok(true))
  {
    if granted == [] {
    } else {
      GrantsIsExists(granted[1..], required);
      assert forall i :: 1 <= i < |granted| ==> granted[i] == granted[1..][i - 1];
      if exists i :: 0 <= i < |granted| && ScopeCovers(granted[i], required) == Ok(true) {
        var i :| 0 <= i < |granted| && ScopeCovers(granted[i], required) == Ok(true);
        if i > 0 {
          assert granted[1..][i - 1] == granted[i];
        }
      }
    }
  }
}
