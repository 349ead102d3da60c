/**
 The loop over all steps of a scan (eco/acquisition/scan.py `scan_all`): that it ends, and what is
 done then.
 */
module ScanControl {
  import opened Collections
  import opened ScanMesh
  import opened ScanModel
  import opened ScanRuns
  import opened AdaptiveRuns
  import opened StepScan

  // ---------------------------------------------------------------- the loop

  ghost function Bound(c: Config, plan: seq<Planned>): nat {
    if c.driver.Some? then c.driver.value.maxPoints else |plan|
  }

  lemma {:induction false} FewRejections(attempts: seq<Attempt>, n: nat)
    requires forall i :: n <= i < |attempts| ==> attempts[i].ok
    ensures Rejections(attempts) <= n
    decreases |attempts|
  {
    if |attempts| <= n {
      AtMostAll(attempts);
    } else {
      var front := attempts[..|attempts| - 1];
      FewRejections(front, n);
    }
  }

  lemma {:induction false} AtMostAll(attempts: seq<Attempt>)
    ensures Rejections(attempts) <= |attempts|
  {
    if attempts != [] { AtMostAll(attempts[..|attempts| - 1]); }
  }

  lemma {:induction false} StepsAreBounded(c: Config, plan: seq<Planned>, attempts: seq<Attempt>, calm: nat)
    requires Aligned(c.scan) && Boundary(c.scan, plan, [], 0) && KeepsStepping(c, attempts)
    requires c.driver.Some? ==> c.driver.value.maxPoints != 0 && Within(c.driver.value, plan)
    requires forall i :: calm <= i < |attempts| ==> attempts[i].ok
    ensures |attempts| <= Bound(c, plan) + calm
  {
    ScanEnds(c, plan, attempts);
    FewRejections(attempts, calm);
  }

  /** A scan whose queue is empty has done its whole plan, each step once and in order. */
  lemma {:induction false} EmptyQueueMeansAllDone(c: Config, plan: seq<Planned>, attempts: seq<Attempt>)
    requires Aligned(c.scan) && Boundary(c.scan, plan, [], 0)
    requires Run(c, attempts).scan.valuesTodo == []
    ensures Run(c, attempts).scan.valuesDone == Targets(PlanAfter(plan, c, attempts))
    ensures Run(c, attempts).scan.pulsesDone == Exposures(PlanAfter(plan, c, attempts))
  {
    RunKeepsBoundary(c, plan, attempts);
    var s := Run(c, attempts).scan;
    assert s.valuesDone + [] == s.valuesDone && s.pulsesDone + [] == s.pulsesDone;
    assert s.pulsesTodo == [];
  }

  /** The scan and its driver are where `attempts` lead from `c`. */
  ghost predicate At(scan: StepScan, driver: AdaptiveDriver?, c: Config, attempts: seq<Attempt>)
    reads scan, scan.Parts(), driver
  {
    && scan.Valid() && (driver != null ==> driver !in scan.Parts())
    && Aligned(c.scan) && Config(scan.View(), DriverView(driver)) == Run(c, attempts)
  }

  ghost predicate Follow(attempts: seq<Attempt>, world: nat -> Attempt) {
    forall k :: 0 <= k < |attempts| ==> attempts[k] == world(k)
  }

  /** What `attempts` with `outcome` at the last say: the scan went on at all of them, or has nothing queued. */
  ghost predicate Tells(c: Config, attempts: seq<Attempt>, outcome: Outcome, world: nat -> Attempt)
    requires Aligned(c.scan)
  {
    && Follow(attempts, world) && (outcome == Stepped ==> KeepsStepping(c, attempts))
    && (outcome == Finished ==> Waiting(c, attempts) == 0)
  }

  method OneStep(scan: StepScan, driver: AdaptiveDriver?, a: Attempt,
                 ghost c: Config, ghost attempts: seq<Attempt>, ghost world: nat -> Attempt)
      returns (outcome: Outcome)
    requires At(scan, driver, c, attempts) && a == world(|attempts|) && Tells(c, attempts, Stepped, world)
    modifies scan.Parts(), driver
    ensures At(scan, driver, c, attempts + [a]) && Tells(c, attempts + [a], outcome, world)
  {
    outcome := scan.DoNextStep(driver, a);
    OneMoreTells(c, attempts, a, world);
  }

  lemma {:induction false} OneMoreTells(c: Config, attempts: seq<Attempt>, a: Attempt, world: nat -> Attempt)
    requires Aligned(c.scan) && a == world(|attempts|) && Tells(c, attempts, Stepped, world)
    ensures Run(c, attempts + [a]) == Step(Run(c, attempts), a).0
    ensures Tells(c, attempts + [a], Step(Run(c, attempts), a).1, world)
  {
    assert (attempts + [a])[..|attempts|] == attempts;
    FinishedMeansEmpty(Run(c, attempts), a);
  }

  lemma FinishedMeansEmpty(c: Config, a: Attempt)
    requires Aligned(c.scan)
    ensures Step(c, a).1 == Finished ==> |Step(c, a).0.scan.valuesTodo| == 0
  {
  }

  /** The scan's steps are limited: no adaptive driver, or one with a point limit. */
  ghost predicate Limited(c: Config, plan: seq<Planned>) {
    c.driver.Some? ==> c.driver.value.maxPoints != 0 && Within(c.driver.value, plan)
  }

  /** From attempt `calm` on no step is rejected. */
  ghost predicate CalmFrom(world: nat -> Attempt, calm: nat) {
    forall i :: calm <= i ==> world(i).ok
  }

  /** From attempt `expiry` on the time budget is used up. */
  ghost predicate TimeUpAfter(world: nat -> Attempt, expiry: nat) {
    forall i :: expiry <= i ==> TimeIsUp(world(i))
  }

  /** The attempt from which on a scan without a point limit only works off its queue; a limited scan does
      not get that far. */
  ghost function Horizon(c: Config, plan: seq<Planned>, calm: nat, expiry: nat): nat {
    if Limited(c, plan) then Bound(c, plan) + calm + 1 else Max(calm, expiry)
  }

  /** Run the scan's steps until there are none, one raises, or a stop is requested before one.
      `world(i)` decides attempt i, `stop(i)` whether a stop is seen at the checkpoint before it;
      from some attempt on no step is rejected, and without a point limit the time budget is used up
      from some attempt on. */
  method ScanAll(scan: StepScan, driver: AdaptiveDriver?, world: nat -> Attempt, stop: nat -> bool,
                 ghost c: Config, ghost plan: seq<Planned>, ghost calm: nat, ghost expiry: nat)
      returns (ghost attempts: seq<Attempt>, outcome: Outcome)
    requires At(scan, driver, c, []) && Boundary(c.scan, plan, [], 0)
    requires CalmFrom(world, calm) && (Limited(c, plan) || TimeUpAfter(world, expiry))
    modifies scan.Parts(), driver
    ensures At(scan, driver, c, attempts)
    ensures Follow(attempts, world)
    ensures outcome == Finished ==> scan.View().valuesDone == Targets(PlanAfter(plan, c, attempts))
    ensures outcome == Stepped ==> stop(|attempts|)
  {
    ghost var horizon: int := Horizon(c, plan, calm, expiry);
    attempts, outcome := [], Stepped;
    var i := 0;
    while outcome == Stepped
      invariant At(scan, driver, c, attempts) && i == |attempts| && Tells(c, attempts, outcome, world)
      decreases outcome == Stepped, Max(horizon - i, 0), Waiting(c, attempts)
    {
      if stop(i) { break; }
      ghost var before := attempts;
      outcome := OneStep(scan, driver, world(i), c, attempts, world);
      attempts := attempts + [world(i)];
      if outcome == Stepped { StepGoesOn(c, plan, before, world, calm, expiry); }
      i := i + 1;
    }
    if outcome == Finished { EmptyQueueMeansAllDone(c, plan, attempts); }
  }

  ghost function Waiting(c: Config, attempts: seq<Attempt>): nat
    requires Aligned(c.scan)
  {
    |Run(c, attempts).scan.valuesTodo|
  }

  lemma {:induction false} QueueShrinks(c: Config, attempts: seq<Attempt>, a: Attempt)
    requires Aligned(c.scan) && TimeIsUp(a) && a.ok && KeepsStepping(c, attempts + [a])
    ensures Waiting(c, attempts + [a]) < Waiting(c, attempts)
  {
    assert (attempts + [a])[..|attempts|] == attempts;
    NothingPlannedAfterTime(Run(c, attempts), a);
  }

  /** Every step brings the scan closer to its horizon or, behind it, shortens the queue. */
  lemma {:induction false} StepGoesOn(c: Config, plan: seq<Planned>, attempts: seq<Attempt>, world: nat -> Attempt, calm: nat, expiry: nat)
    requires Aligned(c.scan) && Boundary(c.scan, plan, [], 0) && Follow(attempts, world)
    requires CalmFrom(world, calm) && (Limited(c, plan) || TimeUpAfter(world, expiry))
    requires KeepsStepping(c, attempts) && KeepsStepping(c, attempts + [world(|attempts|)])
    ensures |attempts| < Horizon(c, plan, calm, expiry) || Waiting(c, attempts + [world(|attempts|)]) < Waiting(c, attempts)
  {
    if Limited(c, plan) {
      StepsAreBounded(c, plan, attempts, calm);
    } else if |attempts| >= Horizon(c, plan, calm, expiry) {
      QueueShrinks(c, attempts, world(|attempts|));
    }
  }
}
