/**
 What an adaptive scan keeps over every run (eco/acquisition/adaptive.py): its point limit, its
 counts, the number of steps it expects, and that it ends.
 */
module AdaptiveRuns {
  import opened Collections
  import opened ScanMesh
  import opened ScanModel
  import opened ScanRuns

  /** The driver's settings are fixed and its state is consistent with the plan. */
  ghost predicate Within(d: Driver, plan: seq<Planned>) {
    d.maxPoints != 0 ==> |plan| <= d.maxPoints
  }

  lemma {:induction false} RunKeepsSettings(c: Config, attempts: seq<Attempt>)
    requires Aligned(c.scan) && c.driver.Some?
    ensures Run(c, attempts).driver.Some? && SameSettings(c.driver.value, Run(c, attempts).driver.value)
  {
    if attempts != [] {
      RunKeepsSettings(c, attempts[..|attempts| - 1]);
      StepKeepsSettings(Run(c, attempts[..|attempts| - 1]), attempts[|attempts| - 1]);
    }
  }

  predicate SameSettings(d: Driver, d': Driver) {
    d' == d.(done := d'.done, points := d'.points, skipped := d'.skipped)
  }

  lemma StepKeepsSettings(c: Config, a: Attempt)
    requires Aligned(c.scan) && c.driver.Some?
    ensures Step(c, a).0.driver.Some? && SameSettings(c.driver.value, Step(c, a).0.driver.value)
  {
  }

  // ---------------------------------------------------------------- the point limit

  /** An adaptive scan never plans more than `max_points` steps in total. */
  lemma {:induction false} PlanStaysWithinMaxPoints(c: Config, plan: seq<Planned>, attempts: seq<Attempt>)
    requires Aligned(c.scan) && Boundary(c.scan, plan, [], 0)
    requires c.driver.Some? && Within(c.driver.value, plan)
    ensures Within(c.driver.value, PlanAfter(plan, c, attempts))
  {
    if attempts != [] {
      var front, a := attempts[..|attempts| - 1], attempts[|attempts| - 1];
      PlanStaysWithinMaxPoints(c, plan, front);
      RunKeepsBoundary(c, plan, front);
      RunKeepsSettings(c, front);
    }
  }

  /** The first plan respects the limit too. */
  lemma InitialStepsWithin(surveySize: nat, d: Driver, plan: seq<Planned>)
    ensures Within(d, InitialSteps(surveySize, d.maxPoints, plan))
    ensures InitialSteps(surveySize, d.maxPoints, plan) <= plan
  {
  }

  // ---------------------------------------------------------------- counting

  /** How many attempts end with (or without) feedback. */
  ghost function WithFeedback(attempts: seq<Attempt>, feedback: bool): nat {
    if attempts == [] then 0
    else WithFeedback(attempts[..|attempts| - 1], feedback) + if attempts[|attempts| - 1].feedback == feedback then 1 else 0
  }

  /** The attempts that raise in the driver after it has counted them; they are repeated if the scan
      is started again, and then counted a second time. */
  ghost function CountedOnly(c: Config, attempts: seq<Attempt>): seq<Attempt>
    requires Aligned(c.scan)
  {
    if attempts == [] then []
    else
      var front, a := attempts[..|attempts| - 1], attempts[|attempts| - 1];
      CountedOnly(c, front) + if ProgressOf(Run(c, front).scan, a).Complete? && RaisesAfterCounting(Run(c, front), a) then [a] else []
  }

  lemma StepCounts(c: Config, a: Attempt)
    requires Aligned(c.scan) && c.driver.Some?
    ensures var counts := Accepts(c, a) || (ProgressOf(c.scan, a).Complete? && RaisesAfterCounting(c, a));
            && Step(c, a).0.driver.Some?
            && Step(c, a).0.driver.value.points == c.driver.value.points + (if counts && a.feedback then 1 else 0)
            && Step(c, a).0.driver.value.skipped == c.driver.value.skipped + (if counts && !a.feedback then 1 else 0)
    ensures !(Accepts(c, a) && ProgressOf(c.scan, a).Complete? && RaisesAfterCounting(c, a))
  {
  }

  /** Each accepted step is counted once, as a data point if it had feedback and as skipped if not;
      only steps that raised after being counted add to that. */
  lemma {:induction false} AcceptedStepsAreCountedOnce(c: Config, attempts: seq<Attempt>)
    requires Aligned(c.scan) && c.driver.Some? && c.driver.value.points == c.driver.value.skipped == 0
    ensures var d := Run(c, attempts).driver;
            && d.Some?
            && d.value.points == WithFeedback(AcceptedIn(c, attempts), true) + WithFeedback(CountedOnly(c, attempts), true)
            && d.value.skipped == WithFeedback(AcceptedIn(c, attempts), false) + WithFeedback(CountedOnly(c, attempts), false)
  {
    if attempts != [] {
      var front, a := attempts[..|attempts| - 1], attempts[|attempts| - 1];
      AcceptedStepsAreCountedOnce(c, front);
      var before := Run(c, front);
      StepCounts(before, a);
      assert AcceptedIn(c, front) + [] == AcceptedIn(c, front) && CountedOnly(c, front) + [] == CountedOnly(c, front);
    }
  }

  lemma {:induction false} FeedbackSplits(attempts: seq<Attempt>)
    ensures WithFeedback(attempts, true) + WithFeedback(attempts, false) == |attempts|
  {
    if attempts != [] { FeedbackSplits(attempts[..|attempts| - 1]); }
  }

  /** Data points and skipped steps together are the steps done, exactly when no step raised after
      being counted. */
  lemma {:induction false} PointsAndSkippedAreTheStepsDone(c: Config, plan: seq<Planned>, attempts: seq<Attempt>)
    requires Aligned(c.scan) && Boundary(c.scan, plan, [], 0)
    requires c.driver.Some? && c.driver.value.points == c.driver.value.skipped == 0
    ensures var c' := Run(c, attempts);
            && c'.driver.Some?
            && (c'.driver.value.points + c'.driver.value.skipped == c'.scan.nextStep <==> CountedOnly(c, attempts) == [])
  {
    AcceptedStepsAreCountedOnce(c, attempts);
    RunKeepsBoundary(c, plan, attempts);
    FeedbackSplits(AcceptedIn(c, attempts));
    FeedbackSplits(CountedOnly(c, attempts));
  }

  // ---------------------------------------------------------------- the expected number of steps

  /** Without a time budget the scan expects `max_points` steps until the driver is done, and then
      exactly those planned. */
  ghost predicate ExpectsMaxPoints(c: Config) {
    c.driver.Some? && c.driver.value.maxPoints != 0 ==>
      if c.driver.value.done then c.scan.extraExpected == 0
      else ExpectedSteps(c.scan) == c.driver.value.maxPoints
  }

  predicate NoTimeBudget(a: Attempt) { a.allowance.None? && a.allowanceAfter.None? }

  /** The step's end says anew how many steps to expect. */
  predicate Announces(c: Config, a: Attempt) {
    ProgressOf(c.scan, a).Complete? && c.driver.Some? && a.ok && !RaisesInDriver(c, a)
  }

  /** The plan, and whether the driver was done, when the expectation was said last. */
  ghost function Announced(c: Config, plan: seq<Planned>, attempts: seq<Attempt>): (seq<Planned>, bool)
    requires Aligned(c.scan)
  {
    if attempts == [] then (plan, c.driver.Some? && c.driver.value.done)
    else
      var front, c' := attempts[..|attempts| - 1], Run(c, attempts);
      if Announces(Run(c, front), attempts[|attempts| - 1])
      then (PlanAfter(plan, c, attempts), c'.driver.Some? && c'.driver.value.done)
      else Announced(c, plan, front)
  }

  /** What a driver with a point limit and no time budget makes the scan expect beyond the queue. */
  function ExtraFor(d: Driver, planned: nat, done: bool): int { if done then 0 else d.maxPoints - planned }

  lemma StepSaysExtra(c: Config, plan: seq<Planned>, accepted: seq<Attempt>, left: nat, a: Attempt)
    requires Aligned(c.scan) && Boundary(c.scan, plan, accepted, left)
    requires c.driver.Some? && c.driver.value.maxPoints != 0 && Within(c.driver.value, plan + PlannedBy(c, a)) && NoTimeBudget(a)
    ensures var c', d := Step(c, a).0, c.driver.value;
            && c'.driver.Some?
            && c'.scan.extraExpected == if Announces(c, a) then ExtraFor(d, |plan + PlannedBy(c, a)|, c'.driver.value.done)
                                        else c.scan.extraExpected
  {
    assert |plan| == |Targets(plan)| == c.scan.nextStep + |c.scan.valuesTodo|;
    if ProgressOf(c.scan, a).Complete? {
      CallbacksKeepHead(c.(scan := Recorded(c.scan, a)), a);
      CallbacksAdd(c, a);
    }
  }

  /** Without a time budget what the scan expects beyond the queue is what was left to plan when it was said
      last. */
  lemma {:induction false} ExpectationIsAnnounced(c: Config, plan: seq<Planned>, attempts: seq<Attempt>)
    requires Aligned(c.scan) && Boundary(c.scan, plan, [], 0)
    requires c.driver.Some? && c.driver.value.maxPoints != 0 && Within(c.driver.value, plan) && ExpectsMaxPoints(c)
    requires forall a :: a in attempts ==> NoTimeBudget(a)
    ensures var (planned, done) := Announced(c, plan, attempts);
            Run(c, attempts).scan.extraExpected == ExtraFor(c.driver.value, |planned|, done)
  {
    if attempts == [] {
      assert |plan| == |Targets(plan)|;
    } else {
      var front, a := attempts[..|attempts| - 1], attempts[|attempts| - 1];
      ExpectationIsAnnounced(c, plan, front);
      RunKeepsBoundary(c, plan, front);
      PlanStaysWithinMaxPoints(c, plan, attempts);
      RunKeepsSettings(c, front);
      assert NoTimeBudget(a);
      StepSaysExtra(Run(c, front), PlanAfter(plan, c, front), AcceptedIn(c, front), EntriesLeft(c, front), a);
    }
  }

  /** The plan only grows, and a driver that is done stays so. */
  lemma {:induction false} AnnouncedIsPart(c: Config, plan: seq<Planned>, attempts: seq<Attempt>)
    requires Aligned(c.scan) && c.driver.Some?
    ensures var (planned, done) := Announced(c, plan, attempts);
            && planned <= PlanAfter(plan, c, attempts)
            && Run(c, attempts).driver.Some? && (done ==> Run(c, attempts).driver.value.done)
  {
    if attempts != [] { AnnouncedIsPart(c, plan, attempts[..|attempts| - 1]); }
  }

  /** Without exceptions between planning and saying what to expect, that is always up to date. */
  lemma {:induction false} AnnouncedUnlessRaised(c: Config, plan: seq<Planned>, attempts: seq<Attempt>)
    requires Aligned(c.scan) && c.driver.Some?
    requires forall a :: a in attempts ==> a.failure != AfterPlanning
    ensures var c' := Run(c, attempts);
            c'.driver.Some? && Announced(c, plan, attempts) == (PlanAfter(plan, c, attempts), c'.driver.value.done)
  {
    if attempts != [] {
      var front, a := attempts[..|attempts| - 1], attempts[|attempts| - 1];
      AnnouncedUnlessRaised(c, plan, front);
      assert a in attempts;
      NothingUnannounced(Run(c, front), a);
      assert PlanAfter(plan, c, front) + [] == PlanAfter(plan, c, front);
    }
  }

  lemma NothingUnannounced(c: Config, a: Attempt)
    requires Aligned(c.scan) && c.driver.Some? && a.failure != AfterPlanning
    ensures var c' := Step(c, a).0;
            c'.driver.Some? && (!Announces(c, a) ==> PlannedBy(c, a) == [] && c'.driver.value.done == c.driver.value.done)
  {
  }

  /** From the start of the scan on, through rejected, repeated and raising steps, a driver without a time
      budget that is not done makes the scan expect `max_points` steps and as many more as were planned
      since the expectation was said last: none, unless a step raised between planning and that. So the
      scan expects `max_points` steps until the driver is done, and then exactly those planned, if and only
      if what was said last still holds. */
  lemma {:induction false} ExpectedStaysMaxPoints(c: Config, plan: seq<Planned>, attempts: seq<Attempt>)
    requires Aligned(c.scan) && Boundary(c.scan, plan, [], 0)
    requires c.driver.Some? && c.driver.value.maxPoints != 0 && Within(c.driver.value, plan) && ExpectsMaxPoints(c)
    requires forall a :: a in attempts ==> NoTimeBudget(a)
    ensures var c', p := Run(c, attempts), PlanAfter(plan, c, attempts);
            var (planned, done) := Announced(c, plan, attempts);
            && c'.driver.Some? && planned <= p
            && (!c'.driver.value.done ==> ExpectedSteps(c'.scan) == c.driver.value.maxPoints + |p| - |planned|)
            && (ExpectsMaxPoints(c') <==>
                  if c'.driver.value.done then done || |planned| == c.driver.value.maxPoints else planned == p)
    ensures (forall a :: a in attempts ==> a.failure != AfterPlanning) ==> ExpectsMaxPoints(Run(c, attempts))
  {
    ExpectationIsAnnounced(c, plan, attempts);
    AnnouncedIsPart(c, plan, attempts);
    RunKeepsBoundary(c, plan, attempts);
    RunKeepsSettings(c, attempts);
    var s, p := Run(c, attempts).scan, PlanAfter(plan, c, attempts);
    assert |p| == |Targets(p)| == s.nextStep + |s.valuesTodo|;
    if forall a :: a in attempts ==> a.failure != AfterPlanning { AnnouncedUnlessRaised(c, plan, attempts); }
  }

  /** A step that plans one more and raises before that is said: the scan expects one step too many. */
  lemma RaisingAfterPlanningExpectsMore(s: Scan, d: Driver, next: Planned)
    requires |s.valuesTodo| == |s.pulsesTodo| == 1 && !PlanTooShort(s)
    requires !d.done && d.batch == 1 && !d.avoidRevisits && s.nextStep + 1 < d.maxPoints == ExpectedSteps(s)
    ensures var a := Attempt([], [], true, AfterPlanning, true, None, None, Some([next]));
            var (c', outcome) := Step(Config(s, Some(d)), a);
            outcome == Raised && !c'.driver.value.done && ExpectedSteps(c'.scan) == d.maxPoints + 1
  {
    var a := Attempt([], [], true, AfterPlanning, true, None, None, Some([next]));
    assert NextBatch(Recorded(s, a), Counted(d, a), a) == [next];
  }

  lemma StepSaysAtMost(c: Config, plan: seq<Planned>, accepted: seq<Attempt>, left: nat, a: Attempt)
    requires Aligned(c.scan) && Boundary(c.scan, plan, accepted, left)
    requires c.driver.Some? && c.driver.value.maxPoints != 0 && Within(c.driver.value, plan + PlannedBy(c, a))
    ensures var c' := Step(c, a).0;
            if Announces(c, a) then c'.scan.extraExpected <= c.driver.value.maxPoints - |plan + PlannedBy(c, a)|
            else c'.scan.extraExpected == c.scan.extraExpected
  {
    assert |plan| == |Targets(plan)| == c.scan.nextStep + |c.scan.valuesTodo|;
    if ProgressOf(c.scan, a).Complete? {
      CallbacksKeepHead(c.(scan := Recorded(c.scan, a)), a);
      CallbacksAdd(c, a);
    }
  }

  lemma {:induction false} AnnouncedIsAtMost(c: Config, plan: seq<Planned>, attempts: seq<Attempt>)
    requires Aligned(c.scan) && Boundary(c.scan, plan, [], 0)
    requires c.driver.Some? && c.driver.value.maxPoints != 0 && Within(c.driver.value, plan)
    requires ExpectedSteps(c.scan) <= c.driver.value.maxPoints
    ensures Run(c, attempts).scan.extraExpected <= c.driver.value.maxPoints - |Announced(c, plan, attempts).0|
  {
    if attempts == [] {
      assert |plan| == |Targets(plan)|;
    } else {
      var front, a := attempts[..|attempts| - 1], attempts[|attempts| - 1];
      AnnouncedIsAtMost(c, plan, front);
      RunKeepsBoundary(c, plan, front);
      PlanStaysWithinMaxPoints(c, plan, attempts);
      RunKeepsSettings(c, front);
      StepSaysAtMost(Run(c, front), PlanAfter(plan, c, front), AcceptedIn(c, front), EntriesLeft(c, front), a);
    }
  }

  /** In every run, whatever the time budget allows when it is asked, the scan never expects more than
      `max_points` steps and those planned since the expectation was said last: none, unless a step raised
      between planning and that. */
  lemma {:induction false} ExpectedNeverExceedsMaxPoints(c: Config, plan: seq<Planned>, attempts: seq<Attempt>)
    requires Aligned(c.scan) && Boundary(c.scan, plan, [], 0)
    requires c.driver.Some? && c.driver.value.maxPoints != 0 && Within(c.driver.value, plan)
    requires ExpectedSteps(c.scan) <= c.driver.value.maxPoints
    ensures var s, p := Run(c, attempts).scan, PlanAfter(plan, c, attempts);
            ExpectedSteps(s) <= c.driver.value.maxPoints + |p| - |Announced(c, plan, attempts).0|
    ensures (forall a :: a in attempts ==> a.failure != AfterPlanning) ==>
              ExpectedSteps(Run(c, attempts).scan) <= c.driver.value.maxPoints
  {
    AnnouncedIsAtMost(c, plan, attempts);
    RunKeepsBoundary(c, plan, attempts);
    var s, p := Run(c, attempts).scan, PlanAfter(plan, c, attempts);
    assert |p| == |Targets(p)| == s.nextStep + |s.valuesTodo|;
    if forall a :: a in attempts ==> a.failure != AfterPlanning { AnnouncedUnlessRaised(c, plan, attempts); }
  }

  /** After an accepted step of a driver that is not done, the scan expects exactly `max_points` steps if
      and only if the time budget allows as many points as are left after this step, or they are all
      queued already. */
  lemma ExpectsMaxPointsIffTimeAllows(c: Config, plan: seq<Planned>, accepted: seq<Attempt>, left: nat, a: Attempt)
    requires Aligned(c.scan) && Boundary(c.scan, plan, accepted, left) && Accepts(c, a)
    requires c.driver.Some? && Within(c.driver.value, plan) && c.driver.value.maxPoints != 0
    ensures var c' := Step(c, a).0;
            var limit := c.driver.value.maxPoints;
            c'.driver.Some? && !c'.driver.value.done ==>
              (ExpectedSteps(c'.scan) == limit <==>
               || a.allowanceAfter.None? || a.allowanceAfter.value >= limit - c.scan.nextStep - 1
               || c'.scan.nextStep + |c'.scan.valuesTodo| == limit)
  {
    assert |plan| == |Targets(plan)| == c.scan.nextStep + |c.scan.valuesTodo|;
    var c1 := c.(scan := Recorded(c.scan, a));
    CallbacksKeepHead(c1, a);
    CallbackExtra(c1.scan, c.driver.value, a);
  }

  lemma CallbackExtra(s: Scan, d: Driver, a: Attempt)
    requires s.valuesTodo != [] && d.maxPoints != 0 && s.nextStep + |s.valuesTodo| <= d.maxPoints
    requires a.ok && a.failure != AfterCounting && a.failure != AfterPlanning
    ensures var (s', d') := StepEnded(s, d, a);
            && s'.nextStep == s.nextStep && s'.nextStep + |s'.valuesTodo| <= d.maxPoints
            && (!d'.done ==>
                  (ExpectedSteps(s') == d.maxPoints <==>
                   || a.allowanceAfter.None? || a.allowanceAfter.value >= d.maxPoints - s.nextStep - 1
                   || s'.nextStep + |s'.valuesTodo| == d.maxPoints))
  {
  }

  /** The start callback makes the expectation true and keeps the plan. */
  lemma StartExpects(c: Config, plan: seq<Planned>, spacing: Resolution)
    requires Aligned(c.scan) && Boundary(c.scan, plan, [], 0)
    requires c.driver.Some? && Within(c.driver.value, plan) && !c.driver.value.done
    ensures var c' := Started(c, spacing, None);
            Aligned(c'.scan) && Boundary(c'.scan, plan, [], 0) && ExpectsMaxPoints(c')
  {
    assert |plan| == |Targets(plan)|;
  }

  // ---------------------------------------------------------------- the scan ends

  ghost predicate KeepsStepping(c: Config, attempts: seq<Attempt>)
    requires Aligned(c.scan)
  {
    attempts == [] ||
    var front := attempts[..|attempts| - 1];
    KeepsStepping(c, front) && Step(Run(c, front), attempts[|attempts| - 1]).1.Stepped?
  }

  function Rejections(attempts: seq<Attempt>): nat {
    if attempts == [] then 0
    else Rejections(attempts[..|attempts| - 1]) + if attempts[|attempts| - 1].ok then 0 else 1
  }

  lemma {:induction false} SteppingAccepts(c: Config, attempts: seq<Attempt>)
    requires Aligned(c.scan) && KeepsStepping(c, attempts)
    ensures |attempts| == |AcceptedIn(c, attempts)| + Rejections(attempts)
  {
    if attempts != [] { SteppingAccepts(c, attempts[..|attempts| - 1]); }
  }

  /** A scan ends: it can go on for as many attempts as there are steps in the plan and rejections,
      and the plan of an adaptive scan with a point limit stays within that limit. */
  lemma {:induction false} ScanEnds(c: Config, plan: seq<Planned>, attempts: seq<Attempt>)
    requires Aligned(c.scan) && Boundary(c.scan, plan, [], 0) && KeepsStepping(c, attempts)
    requires c.driver.Some? ==> Within(c.driver.value, plan)
    ensures |attempts| <= |PlanAfter(plan, c, attempts)| + Rejections(attempts)
    ensures c.driver.Some? && c.driver.value.maxPoints != 0 ==> |attempts| <= c.driver.value.maxPoints + Rejections(attempts)
    ensures c.driver.None? ==> |attempts| <= |plan| + Rejections(attempts)
  {
    SteppingAccepts(c, attempts);
    RunKeepsBoundary(c, plan, attempts);
    var p := PlanAfter(plan, c, attempts);
    assert |p| == |Targets(p)|;
    if c.driver.Some? {
      PlanStaysWithinMaxPoints(c, plan, attempts);
    } else {
      FixedPlanStays(c, plan, attempts);
    }
  }

  /** The time budget is used up when the step ends. */
  predicate TimeIsUp(a: Attempt) { a.allowance.Some? && a.allowance.value <= 0 }

  /** Once the time is up nothing more is planned: an accepted step leaves one step fewer. */
  lemma NothingPlannedAfterTime(c: Config, a: Attempt)
    requires Aligned(c.scan) && TimeIsUp(a) && Step(c, a).1.Stepped?
    ensures PlannedBy(c, a) == []
    ensures |Step(c, a).0.scan.valuesTodo| + (if a.ok then 1 else 0) == |c.scan.valuesTodo|
  {
    CallbacksAdd(c, a);
    CallbacksKeepHead(c.(scan := Recorded(c.scan, a)), a);
  }

  ghost predicate TimeUpFrom(attempts: seq<Attempt>, n: nat) {
    forall i :: n <= i < |attempts| ==> TimeIsUp(attempts[i])
  }

  /** A scan limited by its time budget alone ends too: once the time is up it goes on for at most as many
      attempts as steps were queued then, and rejections. */
  lemma {:induction false} ScanEndsOnTime(c: Config, attempts: seq<Attempt>, n: nat)
    requires Aligned(c.scan) && KeepsStepping(c, attempts) && n <= |attempts| && TimeUpFrom(attempts, n)
    ensures |Run(c, attempts).scan.valuesTodo| + (|attempts| - n) + Rejections(attempts[..n])
            == |Run(c, attempts[..n]).scan.valuesTodo| + Rejections(attempts)
    ensures |attempts| - n <= |Run(c, attempts[..n]).scan.valuesTodo| + Rejections(attempts) - Rejections(attempts[..n])
  {
    if n == |attempts| {
      assert attempts[..n] == attempts;
    } else {
      var front, a := attempts[..|attempts| - 1], attempts[|attempts| - 1];
      assert front[..n] == attempts[..n] && TimeUpFrom(front, n);
      ScanEndsOnTime(c, front, n);
      NothingPlannedAfterTime(Run(c, front), a);
    }
  }

  // ---------------------------------------------------------------- no revisits

  /** With `avoid_revisits` a refill plans only cells that no earlier step of the plan targeted. */
  lemma RefillAvoidsMeasuredCells(c: Config, plan: seq<Planned>, accepted: seq<Attempt>, left: nat, a: Attempt)
    requires Aligned(c.scan) && Boundary(c.scan, plan, accepted, left)
    requires c.driver.Some? && c.driver.value.avoidRevisits
    ensures forall p, q :: p in PlannedBy(c, a) && q in plan ==>
              GridIndex(c.driver.value.axes, p.target) != GridIndex(c.driver.value.axes, q.target)
  {
    var s, d := c.scan, c.driver.value;
    if PlannedBy(c, a) != [] {
      forall q | q in plan ensures GridIndex(d.axes, q.target) in MeasuredCells(s, d) {
        var i :| 0 <= i < |plan| && plan[i] == q;
        assert Targets(plan)[i] == q.target;
        assert (s.valuesDone + s.valuesTodo)[i] == q.target;
        if i < |s.valuesDone| { assert s.valuesDone[i] in s.valuesDone; } else { assert i == |s.valuesDone|; }
      }
    }
  }
}
