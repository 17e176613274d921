/** The resumable ingestion pipeline: a document's stages run in the order of its
    plan, the context is persisted after each, and a later call goes on from there.

    A stage is a deterministic function of the context; whether an attempt succeeds,
    raises, or dies with the whole process is up to an oracle. */
module Pipeline {
  import opened Basics

  /** The persisted context: what the stages produce, and the stages done. */
  datatype Context<D> = Context(data: D, done: seq<string>)

  datatype Stages<!D> = Stages(registered: set<string>, run: (string, Context<D>) -> Context<D>)

  /** How one attempt of a stage goes. A dying process may get as far as saving the
      context, but not to the timeline. */
  datatype Fate = Succeeds | Raises | Dies(saved: bool)

  datatype ProcessingState = Waiting | Running(stage: string) | Failed(stage: string) | Indexed

  datatype Entry = Entry(stage: string, success: bool)

  datatype Record<D> = Record(context: Context<D>, timeline: seq<Entry>, state: ProcessingState, marks: nat)

  datatype Outcome = IndexedNow | FailedNow | Died

  function Completed<D>(stages: Stages<D>, name: string, c: Context<D>): Context<D> {
    var after := stages.run(name, c);
    after.(done := after.done + [name])
  }

  /** One call of `process`, from plan position i on; fates beyond the given ones are
      successes. */
  function ProcessFrom<D>(stages: Stages<D>, plan: seq<string>, i: nat, r: Record<D>, fates: seq<Fate>): (Record<D>, Outcome)
    requires i <= |plan|
    decreases |plan| - i
  {
    if i == |plan| then (r.(state := Indexed, marks := r.marks + 1), IndexedNow)
    else if plan[i] in r.context.done then ProcessFrom(stages, plan, i + 1, r, fates)
    else
      var name := plan[i];
      if name !in stages.registered then
        (r.(timeline := r.timeline + [Entry(name, false)], state := Failed(name)), FailedNow)
      else
        var fate := if fates == [] then Succeeds else fates[0];
        var rest := if fates == [] then [] else fates[1..];
        match fate
        case Succeeds =>
          var r' := r.(context := Completed(stages, name, r.context), state := Running(name),
                       timeline := r.timeline + [Entry(name, true)]);
          ProcessFrom(stages, plan, i + 1, r', rest)
        case Raises => (r.(timeline := r.timeline + [Entry(name, false)], state := Failed(name)), FailedNow)
        case Dies(saved) =>
          (r.(context := if saved then Completed(stages, name, r.context) else r.context, state := Running(name)), Died)
  }

  function Process<D>(stages: Stages<D>, plan: seq<string>, r: Record<D>, fates: seq<Fate>): (Record<D>, Outcome) {
    ProcessFrom(stages, plan, 0, r, fates)
  }

  // ---------------------------------------------------------------- the object

  /** The processing store's rows for one document. */
  class DocumentProcessing<D> {
    var context: Context<D>
    var timeline: seq<Entry>
    var state: ProcessingState
    var marks: nat          // how often the document was marked indexed

    ghost function View(): Record<D>
      reads this
    {
      Record(context, timeline, state, marks)
    }

    constructor (initial: Context<D>)
      ensures View() == Record(initial, [], Waiting, 0)
    {
      context, timeline, state, marks := initial, [], Waiting, 0;
    }

    method RunPlan(stages: Stages<D>, plan: seq<string>, fates: seq<Fate>) returns (outcome: Outcome)
      modifies this
      ensures (View(), outcome) == Process(stages, plan, old(View()), fates)
    {
      var loaded := context;
      var left := fates;
      var i := 0;
      while i < |plan|
        invariant 0 <= i <= |plan| && loaded == context
        invariant ProcessFrom(stages, plan, i, View(), left) == Process(stages, plan, old(View()), fates)
      {
        var name := plan[i];
        if name in loaded.done {
          i := i + 1;
          continue;
        }
        if name !in stages.registered {
          timeline := timeline + [Entry(name, false)];
          state := Failed(name);
          return FailedNow;
        }
        ghost var before := View();
        state := Running(name);
        var fate := Succeeds;
        if left != [] {
          fate, left := left[0], left[1..];
        }
        match fate {
          case Raises =>
            timeline := timeline + [Entry(name, false)];
            state := Failed(name);
            return FailedNow;
          case Dies(saved) =>
            if saved {
              context := Completed(stages, name, loaded);
            }
            return Died;
          case Succeeds =>
            loaded := Completed(stages, name, loaded);
            context := loaded;
            timeline := timeline + [Entry(name, true)];
        }
        i := i + 1;
      }
      state := Indexed;
      marks := marks + 1;
      return IndexedNow;
    }
  }

  // ---------------------------------------------------------------- resuming

  /** The context after an uninterrupted run of what is left of the plan. */
  function Uninterrupted<D>(stages: Stages<D>, plan: seq<string>, i: nat, c: Context<D>): Context<D>
    requires i <= |plan|
    decreases |plan| - i
  {
    if i == |plan| then c
    else if plan[i] in c.done then Uninterrupted(stages, plan, i + 1, c)
    else Uninterrupted(stages, plan, i + 1, Completed(stages, plan[i], c))
  }

  /** Any number of calls, failing, dying or succeeding, one after the other. */
  function Calls<D>(stages: Stages<D>, plan: seq<string>, r: Record<D>, attempts: seq<seq<Fate>>): (Record<D>, Outcome)
    requires attempts != []
    decreases |attempts|
  {
    if |attempts| == 1 then Process(stages, plan, r, attempts[0])
    else Calls(stages, plan, Process(stages, plan, r, attempts[0]).0, attempts[1..])
  }

  /** No stage takes a stage off the list of those done. */
  ghost predicate KeepsDone<D(!new)>(stages: Stages<D>) {
    forall name, c: Context<D>, d :: d in c.done ==> d in stages.run(name, c).done
  }

  predicate AllDone(plan: seq<string>, i: nat, done: seq<string>)
    requires i <= |plan|
  {
    forall k :: 0 <= k < i ==> plan[k] in done
  }

  lemma {:induction false} SkipsDone<D>(stages: Stages<D>, plan: seq<string>, i: nat, c: Context<D>)
    requires i <= |plan| && AllDone(plan, i, c.done)
    ensures Uninterrupted(stages, plan, 0, c) == Uninterrupted(stages, plan, i, c)
  {
    if i == 0 {
    } else {
      SkipsDone(stages, plan, i - 1, c);
    }
  }

  /** Whatever happens in one call, the context it leaves is on the way to where an
      uninterrupted run would have arrived, and is there when the call says indexed. */
  lemma {:induction false} StaysOnTheWay<D(!new)>(stages: Stages<D>, plan: seq<string>, i: nat, r: Record<D>, fates: seq<Fate>)
    requires KeepsDone(stages) && i <= |plan| && AllDone(plan, i, r.context.done)
    ensures var (r', outcome) := ProcessFrom(stages, plan, i, r, fates);
            && Uninterrupted(stages, plan, 0, r'.context) == Uninterrupted(stages, plan, i, r.context)
            && (outcome == IndexedNow ==> r'.context == Uninterrupted(stages, plan, i, r.context))
            && (outcome == IndexedNow <==> r'.state == Indexed && r'.marks == r.marks + 1)
    decreases |plan| - i
  {
    SkipsDone(stages, plan, i, r.context);
    if i < |plan| {
      if plan[i] in r.context.done {
        StaysOnTheWay(stages, plan, i + 1, r, fates);
      } else {
        var name := plan[i];
        var c := Completed(stages, name, r.context);
        assert AllDone(plan, i + 1, c.done);
        SkipsDone(stages, plan, i + 1, c);
        if name in stages.registered && (fates == [] || fates[0].Succeeds?) {
          var r' := r.(context := c, state := Running(name), timeline := r.timeline + [Entry(name, true)]);
          StaysOnTheWay(stages, plan, i + 1, r', if fates == [] then [] else fates[1..]);
        }
      }
    }
  }

  /** Failing and resuming is one uninterrupted run: however many calls it took, the
      context of an indexed document is the one a single clean call leaves. */
  lemma {:induction false} ResumeEqualsOneRun<D(!new)>(
    stages: Stages<D>, plan: seq<string>, r: Record<D>, attempts: seq<seq<Fate>>)
    requires KeepsDone(stages) && attempts != []
    ensures var (r', outcome) := Calls(stages, plan, r, attempts);
            && Uninterrupted(stages, plan, 0, r'.context) == Uninterrupted(stages, plan, 0, r.context)
            && (outcome == IndexedNow ==> r'.context == Uninterrupted(stages, plan, 0, r.context))
    decreases |attempts|
  {
    StaysOnTheWay(stages, plan, 0, r, attempts[0]);
    if |attempts| > 1 {
      ResumeEqualsOneRun(stages, plan, Process(stages, plan, r, attempts[0]).0, attempts[1..]);
    }
  }

  /** A call without faults indexes the document from wherever it was left, if and
      only if every stage still to do is registered. */
  lemma {:induction false} CleanCallIndexes<D(!new)>(stages: Stages<D>, plan: seq<string>, i: nat, r: Record<D>)
    requires i <= |plan|
    requires forall name, c: Context<D> :: stages.run(name, c).done == c.done
    ensures ProcessFrom(stages, plan, i, r, []).1 == IndexedNow <==>
            forall k :: i <= k < |plan| ==> plan[k] in stages.registered || plan[k] in r.context.done
    decreases |plan| - i
  {
    if i < |plan| {
      if plan[i] in r.context.done {
        CleanCallIndexes(stages, plan, i + 1, r);
      } else if plan[i] in stages.registered {
        var r' := r.(context := Completed(stages, plan[i], r.context), state := Running(plan[i]),
                     timeline := r.timeline + [Entry(plan[i], true)]);
        CleanCallIndexes(stages, plan, i + 1, r');
      }
    }
  }

  /** Three stages of which the second empties the list of those done. */
  const FORGETFUL: Stages<int> := Stages(
    {"count", "forget", "last"},
    (name: string, c: Context<int>) =>
      if name == "forget" then Context(c.data, []) else if name == "count" then Context(c.data + 1, c.done) else c)

  const THREE := ["count", "forget", "last"]

  /** Why stages must not take others off the list: the document resumed after a
      failure of the last stage differs from the one indexed in a single call. */
  lemma ForgettingBreaksResume()
    ensures var r := Record(Context(0, []), [], Waiting, 0);
            var (resumed, outcome) := Calls(FORGETFUL, THREE, r, [[Succeeds, Succeeds, Raises], []]);
            && outcome == IndexedNow && resumed.context.data == 2
            && Uninterrupted(FORGETFUL, THREE, 0, r.context).data == 1
  {
    hide ProcessFrom, Uninterrupted;
    FirstCallForgets();
    StraightRunCountsOnce();
    var r := Record(Context(0, []), [], Waiting, 0);
    var f0 := [Succeeds, Succeeds, Raises];
    ResumedCountsAgain(FORGETFUL, THREE, Process(FORGETFUL, THREE, r, f0).0);
    assert [f0, []][1..] == [[]];
  }

  lemma FirstCallForgets()
    ensures var r := Record(Context(0, []), [], Waiting, 0);
            Process(FORGETFUL, THREE, r, [Succeeds, Succeeds, Raises]).0.context == Context(1, ["forget"])
  {
    var r0 := Record(Context(0, []), [], Waiting, 0);
    var f0 := [Succeeds, Succeeds, Raises];
    var r1 := Record(Context(1, ["count"]), [Entry("count", true)], Running("count"), 0);
    OneSuccess(FORGETFUL, THREE, 0, r0, f0);
    assert Completed(FORGETFUL, "count", r0.context) == r1.context;
    OneSuccess(FORGETFUL, THREE, 1, r1, f0[1..]);
    assert f0[1..][1..] == [Raises];
  }

  lemma StraightRunCountsOnce()
    ensures Uninterrupted(FORGETFUL, THREE, 0, Context(0, [])).data == 1
  {
    var c1, c2 := Context(1, ["count"]), Context(1, ["forget"]);
    assert Completed(FORGETFUL, "count", Context(0, [])) == c1 && Completed(FORGETFUL, "forget", c1) == c2;
    assert Uninterrupted(FORGETFUL, THREE, 1, c1) == Uninterrupted(FORGETFUL, THREE, 2, c2);
  }

  lemma OneSuccess<D>(stages: Stages<D>, plan: seq<string>, i: nat, r: Record<D>, fates: seq<Fate>)
    requires i < |plan| && plan[i] !in r.context.done && plan[i] in stages.registered
    requires fates == [] || fates[0].Succeeds?
    ensures ProcessFrom(stages, plan, i, r, fates)
            == ProcessFrom(stages, plan, i + 1,
                           r.(context := Completed(stages, plan[i], r.context), state := Running(plan[i]),
                              timeline := r.timeline + [Entry(plan[i], true)]),
                           if fates == [] then [] else fates[1..])
  {
  }

  lemma ResumedCountsAgain(stages: Stages<int>, plan: seq<string>, r: Record<int>)
    requires plan == ["count", "forget", "last"] && stages.registered == {"count", "forget", "last"}
    requires r.context == Context(1, ["forget"])
    requires forall c: Context<int> :: stages.run("count", c) == Context(c.data + 1, c.done) && stages.run("last", c) == c
    ensures var (r', outcome) := Calls(stages, plan, r, [[]]);
            outcome == IndexedNow && r'.context.data == 2
  {
    var c1 := Completed(stages, "count", r.context);
    assert c1 == Context(2, ["forget", "count"]);
    var r1 := r.(context := c1, state := Running("count"), timeline := r.timeline + [Entry("count", true)]);
    OneSuccess(stages, plan, 0, r, []);
    assert "forget" in c1.done by { assert c1.done[0] == "forget"; }
    assert ProcessFrom(stages, plan, 1, r1, []) == ProcessFrom(stages, plan, 2, r1, []);
    assert c1.done[1] == "count" && "last" !in c1.done;
    OneSuccess(stages, plan, 2, r1, []);
  }

  // ---------------------------------------------------------------- every stage once

  /** The plan without its repetitions. */
  function Deduplicated(plan: seq<string>): seq<string> {
    if plan == [] then []
    else
      var init, last := plan[..|plan| - 1], plan[|plan| - 1];
      Deduplicated(init) + if last in init then [] else [last]
  }

  function Successes(timeline: seq<Entry>): seq<string> {
    if timeline == [] then []
    else
      var last := timeline[|timeline| - 1];
      Successes(timeline[..|timeline| - 1]) + if last.success then [last.stage] else []
  }

  ghost predicate LeavesDoneAlone<D(!new)>(stages: Stages<D>) {
    forall name, c: Context<D> :: stages.run(name, c).done == c.done
  }

  predicate NeverDies(fates: seq<Fate>) { forall i :: 0 <= i < |fates| ==> !fates[i].Dies? }

  lemma {:induction false} InDeduplicated(plan: seq<string>, x: string)
    ensures x in Deduplicated(plan) <==> x in plan
  {
    if plan == [] {
    } else {
      InDeduplicated(plan[..|plan| - 1], x);
      assert plan == plan[..|plan| - 1] + [plan[|plan| - 1]];
    }
  }

  predicate Distinct(names: seq<string>) { forall i, j :: 0 <= i < j < |names| ==> names[i] != names[j] }

  lemma {:induction false} DeduplicatedIsDistinct(plan: seq<string>)
    ensures Distinct(Deduplicated(plan))
  {
    if plan == [] {
    } else {
      var init, last := plan[..|plan| - 1], plan[|plan| - 1];
      DeduplicatedIsDistinct(init);
      InDeduplicated(init, last);
    }
  }

  lemma DeduplicatedNext(plan: seq<string>, i: nat)
    requires i < |plan|
    ensures Deduplicated(plan[..i + 1]) == Deduplicated(plan[..i]) + if plan[i] in plan[..i] then [] else [plan[i]]
  {
    assert plan[..i + 1][..i] == plan[..i];
  }

  lemma {:induction false} DeduplicatedGrows(plan: seq<string>, i: nat)
    requires i <= |plan|
    ensures Deduplicated(plan[..i]) <= Deduplicated(plan)
  {
    if i == |plan| {
      assert plan[..i] == plan;
    } else {
      DeduplicatedGrows(plan[..|plan| - 1], i);
      assert plan[..|plan| - 1][..i] == plan[..i];
    }
  }

  /** In order and without gaps: what is done is the beginning of the plan. */
  ghost predicate InPlanOrder<D>(plan: seq<string>, r: Record<D>) {
    r.context.done <= Deduplicated(plan) && Successes(r.timeline) == r.context.done
  }

  /** Where the first stages are done, the next one is either done or next in line. */
  lemma PlanPosition(plan: seq<string>, i: nat, done: seq<string>)
    requires i < |plan| && AllDone(plan, i, done) && done <= Deduplicated(plan) && Deduplicated(plan[..i]) <= done
    ensures plan[i] !in done ==> done + [plan[i]] == Deduplicated(plan[..i + 1])
    ensures plan[i] in done ==> Deduplicated(plan[..i + 1]) <= done
  {
    hide Deduplicated;
    var first, whole := Deduplicated(plan[..i]), Deduplicated(plan);
    DeduplicatedNext(plan, i);
    DeduplicatedGrows(plan, i + 1);
    if plan[i] !in done {
      assert plan[i] !in plan[..i];
      assert whole[|first|] == plan[i];
      assert forall k :: 0 <= k < |done| ==> done[k] == whole[k] && done[k] != plan[i];
      assert |done| <= |first|;
      assert done == first;
    } else if plan[i] !in plan[..i] {
      InDeduplicated(plan[..i], plan[i]);
      assert whole[|first|] == plan[i];
      assert first != done;
    }
  }

  /** One call keeps the order, and every success it reports is the next stage. */
  lemma {:induction false} CallKeepsOrder<D(!new)>(stages: Stages<D>, plan: seq<string>, i: nat, r: Record<D>, fates: seq<Fate>)
    requires LeavesDoneAlone(stages) && NeverDies(fates) && i <= |plan|
    requires InPlanOrder(plan, r) && AllDone(plan, i, r.context.done) && Deduplicated(plan[..i]) <= r.context.done
    ensures var (r', outcome) := ProcessFrom(stages, plan, i, r, fates);
            InPlanOrder(plan, r') && (outcome == IndexedNow ==> r'.context.done == Deduplicated(plan))
    decreases |plan| - i
  {
    hide Deduplicated, Successes;
    if i == |plan| {
      assert plan[..i] == plan;
    } else {
      PlanPosition(plan, i, r.context.done);
      DeduplicatedGrows(plan, i + 1);
      var name := plan[i];
      SuccessesSnoc(r.timeline, Entry(name, true));
      SuccessesSnoc(r.timeline, Entry(name, false));
      if name in r.context.done {
        CallKeepsOrder(stages, plan, i + 1, r, fates);
      } else if name in stages.registered && (fates == [] || fates[0].Succeeds?) {
        var r' := r.(context := Completed(stages, name, r.context), state := Running(name),
                     timeline := r.timeline + [Entry(name, true)]);
        CallKeepsOrder(stages, plan, i + 1, r', if fates == [] then [] else fates[1..]);
      } else {
        assert fates != [] ==> !fates[0].Dies?;
      }
    }
  }

  lemma SuccessesSnoc(timeline: seq<Entry>, entry: Entry)
    ensures Successes(timeline + [entry]) == Successes(timeline) + if entry.success then [entry.stage] else []
  {
    assert (timeline + [entry])[..|timeline|] == timeline;
  }

  /** Over any history without deaths: the stages done are a prefix of the plan, and
      each of them succeeded exactly once, in that order. */
  lemma {:induction false} EachStageOnceInOrder<D(!new)>(
    stages: Stages<D>, plan: seq<string>, r: Record<D>, attempts: seq<seq<Fate>>)
    requires LeavesDoneAlone(stages) && attempts != [] && forall k :: 0 <= k < |attempts| ==> NeverDies(attempts[k])
    requires InPlanOrder(plan, r)
    ensures var (r', outcome) := Calls(stages, plan, r, attempts);
            && InPlanOrder(plan, r')
            && Distinct(Successes(r'.timeline))
            && (outcome == IndexedNow ==> Successes(r'.timeline) == Deduplicated(plan))
    decreases |attempts|
  {
    CallKeepsOrder(stages, plan, 0, r, attempts[0]);
    DeduplicatedIsDistinct(plan);
    if |attempts| > 1 {
      EachStageOnceInOrder(stages, plan, Process(stages, plan, r, attempts[0]).0, attempts[1..]);
    }
  }

  // ---------------------------------------------------------------- with deaths

  /** Reported successes are of stages done, each once; a death may leave one out. */
  ghost predicate Reported<D>(r: Record<D>) {
    Distinct(Successes(r.timeline)) && forall x :: x in Successes(r.timeline) ==> x in r.context.done
  }

  lemma OneMoreReported<D>(r: Record<D>, c: Context<D>, name: string, state: ProcessingState)
    requires Reported(r) && name !in r.context.done && c.done == r.context.done + [name]
    ensures Reported(r.(context := c, state := state, timeline := r.timeline + [Entry(name, true)]))
    ensures Reported(r.(context := c, state := state))
  {
    hide Successes;
    SuccessesSnoc(r.timeline, Entry(name, true));
    var longer := Successes(r.timeline + [Entry(name, true)]);
    assert forall k :: 0 <= k < |longer| - 1 ==> longer[k] in Successes(r.timeline);
  }

  lemma FailureReported<D>(r: Record<D>, name: string, state: ProcessingState)
    requires Reported(r)
    ensures Reported(r.(timeline := r.timeline + [Entry(name, false)], state := state))
  {
    hide Successes;
    SuccessesSnoc(r.timeline, Entry(name, false));
  }

  /** One call, however it ends. */
  lemma {:induction false} CallKeepsPrefix<D(!new)>(stages: Stages<D>, plan: seq<string>, i: nat, r: Record<D>, fates: seq<Fate>)
    requires LeavesDoneAlone(stages) && i <= |plan| && AllDone(plan, i, r.context.done)
    requires r.context.done <= Deduplicated(plan) && Deduplicated(plan[..i]) <= r.context.done && Reported(r)
    ensures var (r', outcome) := ProcessFrom(stages, plan, i, r, fates);
            && r.context.done <= r'.context.done <= Deduplicated(plan) && Reported(r')
            && (outcome == IndexedNow ==> r'.context.done == Deduplicated(plan))
    decreases |plan| - i
  {
    hide Deduplicated, Reported;
    if i == |plan| {
      assert plan[..i] == plan;
      SameReport(r, r.(state := Indexed, marks := r.marks + 1));
    } else {
      PlanPosition(plan, i, r.context.done);
      DeduplicatedGrows(plan, i + 1);
      var name := plan[i];
      if name in r.context.done {
        CallKeepsPrefix(stages, plan, i + 1, r, fates);
      } else if name !in stages.registered || (fates != [] && fates[0].Raises?) {
        FailureReported(r, name, Failed(name));
      } else {
        var c := Completed(stages, name, r.context);
        OneMoreReported(r, c, name, Running(name));
        SameReport(r, r.(state := Running(name)));
        if fates == [] || fates[0].Succeeds? {
          var r' := r.(context := c, state := Running(name), timeline := r.timeline + [Entry(name, true)]);
          CallKeepsPrefix(stages, plan, i + 1, r', if fates == [] then [] else fates[1..]);
        }
      }
    }
  }

  lemma SameReport<D>(r: Record<D>, r': Record<D>)
    requires Reported(r) && r'.context == r.context && r'.timeline == r.timeline
    ensures Reported(r')
  {
  }

  /** Over any history, deaths of the process included: what is done only grows, is
      always the beginning of the plan, and is all of it once indexed; and no success
      is reported twice. */
  lemma {:induction false} DoneIsAPrefix<D(!new)>(stages: Stages<D>, plan: seq<string>, r: Record<D>, attempts: seq<seq<Fate>>)
    requires LeavesDoneAlone(stages) && attempts != [] && r.context.done <= Deduplicated(plan) && Reported(r)
    ensures var (r', outcome) := Calls(stages, plan, r, attempts);
            && r.context.done <= r'.context.done <= Deduplicated(plan) && Reported(r')
            && (outcome == IndexedNow ==> r'.context.done == Deduplicated(plan))
    decreases |attempts|
  {
    hide Deduplicated, Reported, ProcessFrom;
    assert Deduplicated(plan[..0]) == [] by { NothingPlanned(); }
    CallKeepsPrefix(stages, plan, 0, r, attempts[0]);
    if |attempts| > 1 {
      DoneIsAPrefix(stages, plan, Process(stages, plan, r, attempts[0]).0, attempts[1..]);
    }
  }

  lemma NothingPlanned()
    ensures Deduplicated([]) == []
  {
  }

  // ---------------------------------------------------------------- forgetting

  lemma {:induction false} SkipTo<D>(stages: Stages<D>, plan: seq<string>, m: nat, r: Record<D>, fates: seq<Fate>)
    requires m <= |plan| && AllDone(plan, m, r.context.done)
    ensures ProcessFrom(stages, plan, 0, r, fates) == ProcessFrom(stages, plan, m, r, fates)
  {
    if m > 0 {
      SkipTo(stages, plan, m - 1, r, fates);
    }
  }

  /** A call whose next stage raises leaves the context and the successes alone. */
  lemma {:induction false} RaisingKeeps<D>(stages: Stages<D>, plan: seq<string>, i: nat, r: Record<D>)
    requires i <= |plan|
    ensures var r' := ProcessFrom(stages, plan, i, r, [Raises]).0;
            r'.context == r.context && Successes(r'.timeline) == Successes(r.timeline)
    decreases |plan| - i
  {
    hide Successes;
    if i < |plan| {
      if plan[i] in r.context.done {
        RaisingKeeps(stages, plan, i + 1, r);
      } else {
        SuccessesSnoc(r.timeline, Entry(plan[i], false));
      }
    }
  }

  lemma OnceThenRaises<D>(stages: Stages<D>, plan: seq<string>, i: nat, r: Record<D>)
    requires i < |plan| && AllDone(plan, i, r.context.done) && plan[i] !in r.context.done && plan[i] in stages.registered
    ensures var r' := Process(stages, plan, r, [Succeeds, Raises]).0;
            && r'.context == Completed(stages, plan[i], r.context)
            && Successes(r'.timeline) == Successes(r.timeline) + [plan[i]]
  {
    hide Successes, ProcessFrom;
    var fates := [Succeeds, Raises];
    SkipTo(stages, plan, i, r, fates);
    OneSuccess(stages, plan, i, r, fates);
    assert fates[1..] == [Raises];
    var r1 := r.(context := Completed(stages, plan[i], r.context), state := Running(plan[i]),
                 timeline := r.timeline + [Entry(plan[i], true)]);
    RaisingKeeps(stages, plan, i + 1, r1);
    SuccessesSnoc(r.timeline, Entry(plan[i], true));
  }

  /** Why no stage may take another off the list, whatever the stages and the plan: if
      the stage at position i drops an earlier one, and the stage after it fails, the
      next call runs an earlier stage that has succeeded before. */
  lemma ForgettingRepeats<D>(stages: Stages<D>, plan: seq<string>, i: nat, j: nat, r: Record<D>)
    requires j < i < |plan| && AllDone(plan, i, r.context.done) && plan[i] !in r.context.done && plan[i] in stages.registered
    requires forall k :: 0 <= k < i ==> plan[k] in Successes(r.timeline) && plan[k] in stages.registered
    requires plan[j] !in Completed(stages, plan[i], r.context).done
    ensures var raised := [Succeeds, Raises];
            !Distinct(Successes(Calls(stages, plan, r, [raised, raised]).0.timeline))
  {
    hide Successes, ProcessFrom;
    var raised := [Succeeds, Raises];
    OnceThenRaises(stages, plan, i, r);
    var r1 := Process(stages, plan, r, raised).0;
    var m := FirstMissing(plan, j, r1.context.done);
    OnceThenRaises(stages, plan, m, r1);
    assert [raised, raised][1..] == [raised];
    var before := Successes(r1.timeline);
    assert plan[m] in before;
    var at :| 0 <= at < |before| && before[at] == plan[m];
    assert (before + [plan[m]])[at] == (before + [plan[m]])[|before|];
  }

  lemma {:induction false} FirstMissing(plan: seq<string>, j: nat, done: seq<string>) returns (m: nat)
    requires j < |plan| && plan[j] !in done
    ensures m <= j && plan[m] !in done && AllDone(plan, m, done)
  {
    m := 0;
    while plan[m] in done
      invariant m <= j && AllDone(plan, m, done)
      decreases j - m
    {
      m := m + 1;
    }
  }

  // ---------------------------------------------------------------- how a call ends

  /** What a call wrote into the timeline, given that it ended so. */
  ghost predicate Ends<D>(stages: Stages<D>, plan: seq<string>, r: Record<D>, fates: seq<Fate>, r': Record<D>, outcome: Outcome) {
    && r.timeline <= r'.timeline
    && var new' := r'.timeline[|r.timeline|..];
       match outcome
       case IndexedNow =>
         r'.state == Indexed && r'.marks == r.marks + 1 && forall k :: 0 <= k < |new'| ==> new'[k].success
       case FailedNow =>
         && new' != [] && !new'[|new'| - 1].success && (forall k :: 0 <= k < |new'| - 1 ==> new'[k].success)
         && r'.state == Failed(new'[|new'| - 1].stage) && r'.marks == r.marks
         && new'[|new'| - 1].stage in plan && new'[|new'| - 1].stage !in r'.context.done
         && (new'[|new'| - 1].stage !in stages.registered || (|new'| <= |fates| && fates[|new'| - 1].Raises?))
         && (forall k :: 0 <= k < |new'| - 1 && k < |fates| ==> fates[k].Succeeds?)
       case Died =>
         && (forall k :: 0 <= k < |new'| ==> new'[k].success) && r'.marks == r.marks && r'.state.Running?
         && |new'| < |fates| && fates[|new'|].Dies?
  }

  lemma {:induction false} EndsFrom<D>(stages: Stages<D>, plan: seq<string>, i: nat, r: Record<D>, fates: seq<Fate>)
    requires i <= |plan|
    ensures var (r', outcome) := ProcessFrom(stages, plan, i, r, fates); Ends(stages, plan, r, fates, r', outcome)
    decreases |plan| - i
  {
    if i < |plan| {
      if plan[i] in r.context.done {
        EndsFrom(stages, plan, i + 1, r, fates);
      } else if plan[i] in stages.registered && (fates == [] || fates[0].Succeeds?) {
        var r1 := r.(context := Completed(stages, plan[i], r.context), state := Running(plan[i]),
                     timeline := r.timeline + [Entry(plan[i], true)]);
        var rest := if fates == [] then [] else fates[1..];
        EndsFrom(stages, plan, i + 1, r1, rest);
        OneSuccessMore(stages, plan, r, r1, fates, rest, plan[i], ProcessFrom(stages, plan, i, r, fates).0, ProcessFrom(stages, plan, i, r, fates).1);
      }
    }
  }

  lemma OneSuccessMore<D>(stages: Stages<D>, plan: seq<string>, r: Record<D>, r1: Record<D>, fates: seq<Fate>, rest: seq<Fate>,
                          name: string, r': Record<D>, outcome: Outcome)
    requires r1.timeline == r.timeline + [Entry(name, true)] && r1.marks == r.marks
    requires rest == (if fates == [] then [] else fates[1..]) && (fates == [] || fates[0].Succeeds?)
    requires Ends(stages, plan, r1, rest, r', outcome)
    ensures Ends(stages, plan, r, fates, r', outcome)
  {
    var new1, new' := r'.timeline[|r1.timeline|..], r'.timeline[|r.timeline|..];
    assert new' == [Entry(name, true)] + new1;
  }

  /** How every call ends: indexed, with the mark and nothing but successes; failed, with
      one failure entry, the last, which is the state's stage and was not registered or
      raised; or dead in the middle of a stage, with no failure entry. */
  lemma CallsEnd<D>(stages: Stages<D>, plan: seq<string>, r: Record<D>, fates: seq<Fate>)
    ensures var (r', outcome) := Process(stages, plan, r, fates); Ends(stages, plan, r, fates, r', outcome)
  {
    EndsFrom(stages, plan, 0, r, fates);
  }
}
