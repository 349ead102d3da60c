/**
 What a scan keeps at every step boundary of every run: steps rejected and repeated, steps that
 raise and a scan started again after it, steps an adaptive driver adds
 (eco/acquisition/scan.py, eco/acquisition/adaptive.py).
 */
module ScanRuns {
  import opened Collections
  import opened ScanMesh
  import opened ScanModel

  // ---------------------------------------------------------------- runs

  /** The state after some attempts, one after the other. */
  ghost function Run(c: Config, attempts: seq<Attempt>): (c': Config)
    requires Aligned(c.scan)
    ensures Aligned(c'.scan)
  {
    if attempts == [] then c
    else
      var before := Run(c, attempts[..|attempts| - 1]);
      StepAligned(before, attempts[|attempts| - 1]);
      Step(before, attempts[|attempts| - 1]).0
  }

  lemma StepAligned(c: Config, a: Attempt)
    requires Aligned(c.scan)
    ensures Aligned(Step(c, a).0.scan)
  {
    if ProgressOf(c.scan, a).Complete? {
      CallbacksKeepHead(c.(scan := Recorded(c.scan, a)), a);
    }
  }

  /** The steps an attempt plans. */
  ghost function PlannedBy(c: Config, a: Attempt): seq<Planned>
    requires Aligned(c.scan)
  {
    if ProgressOf(c.scan, a).Complete? && c.driver.Some? && a.ok && a.failure != AfterCounting
    then PlannedAtEnd(c.scan, c.driver.value, a) else []
  }

  predicate Accepts(c: Config, a: Attempt)
    requires Aligned(c.scan)
  {
    Step(c, a).1.Stepped? && a.ok
  }

  /** An attempt that raises after its scan info was recorded leaves an entry behind. */
  predicate LeavesEntry(c: Config, a: Attempt)
    requires Aligned(c.scan)
  {
    Step(c, a).1.Raised? && (ProgressOf(c.scan, a).RecordedOnly? || ProgressOf(c.scan, a).Complete?)
  }

  /** Everything planned: the plan at the start and what was added since. */
  ghost function PlanAfter(plan: seq<Planned>, c: Config, attempts: seq<Attempt>): seq<Planned>
    requires Aligned(c.scan)
  {
    if attempts == [] then plan
    else
      var front := attempts[..|attempts| - 1];
      PlanAfter(plan, c, front) + PlannedBy(Run(c, front), attempts[|attempts| - 1])
  }

  /** The accepted attempts, in order. */
  ghost function AcceptedIn(c: Config, attempts: seq<Attempt>): seq<Attempt>
    requires Aligned(c.scan)
  {
    if attempts == [] then []
    else
      var front, a := attempts[..|attempts| - 1], attempts[|attempts| - 1];
      AcceptedIn(c, front) + if Accepts(Run(c, front), a) then [a] else []
  }

  /** How many attempts left an entry behind. */
  ghost function EntriesLeft(c: Config, attempts: seq<Attempt>): nat
    requires Aligned(c.scan)
  {
    if attempts == [] then 0
    else
      var front, a := attempts[..|attempts| - 1], attempts[|attempts| - 1];
      EntriesLeft(c, front) + if LeavesEntry(Run(c, front), a) then 1 else 0
  }

  // ---------------------------------------------------------------- the boundary invariant

  /** The parallel lists agree: what is done and what is queued is exactly the plan, in order, with
      its exposures; readbacks are those of the accepted attempts. */
  ghost predicate PlanKept(s: Scan, plan: seq<Planned>, accepted: seq<Attempt>) {
    && s.valuesDone + s.valuesTodo == Targets(plan)
    && s.pulsesDone + s.pulsesTodo == Exposures(plan)
    && s.nextStep == |accepted| == |s.valuesDone| == |s.pulsesDone| == |s.readbacks|
    && forall i :: 0 <= i < s.nextStep ==> s.readbacks[i] == accepted[i].readback
  }

  /** The lists of `scan_info` have an entry per accepted step and per entry left behind; when none
      was left behind, entry i describes step i of the plan. */
  ghost predicate InfoKept(s: Scan, accepted: seq<Attempt>, left: nat) {
    && |s.info.values| == |s.info.readbacks| == |s.info.files| == |s.info.steps| == s.nextStep + left
    && (left == 0 ==>
          && s.info.values == s.valuesDone
          && s.info.readbacks == s.readbacks
          && |accepted| == s.nextStep
          && forall i :: 0 <= i < s.nextStep ==> s.info.files[i] == accepted[i].files)
  }

  /** In a grid scan the plan of cells is as long as the plan, and an accepted step is labelled with
      its plan entry. */
  ghost predicate GridKept(s: Scan, plan: seq<Planned>, left: nat) {
    s.grid.Some? ==>
      && |s.grid.value.indexPlan| == |plan| == s.nextStep + |s.valuesTodo|
      && s.grid.value.recordedPlan == s.grid.value.indexPlan
      && (left == 0 ==>
            && |s.info.steps| == s.nextStep
            && forall i :: 0 <= i < s.nextStep ==> s.info.steps[i].gridIndex == Some(s.grid.value.indexPlan[i]))
  }

  /** The lists agree with the plan, grid or not. */
  ghost predicate ListsKept(s: Scan, plan: seq<Planned>, accepted: seq<Attempt>, left: nat) {
    PlanKept(s, plan, accepted) && InfoKept(s, accepted, left)
  }

  ghost predicate Boundary(s: Scan, plan: seq<Planned>, accepted: seq<Attempt>, left: nat) {
    ListsKept(s, plan, accepted, left) && GridKept(s, plan, left)
  }

  lemma ConcatTargets(a: seq<Planned>, b: seq<Planned>)
    ensures Targets(a + b) == Targets(a) + Targets(b)
    ensures Exposures(a + b) == Exposures(a) + Exposures(b)
  {
  }

  lemma RecordedKeeps(s: Scan, plan: seq<Planned>, accepted: seq<Attempt>, left: nat, a: Attempt)
    requires ListsKept(s, plan, accepted, left) && s.valuesTodo != []
    ensures ListsKept(Recorded(s, a), plan, accepted, left + 1)
    ensures GridKept(s, plan, left) ==> GridKept(Recorded(s, a), plan, left + 1)
  {
  }

  lemma QueuedKeeps(s: Scan, d: Driver, plan: seq<Planned>, accepted: seq<Attempt>, steps: seq<Planned>)
    requires PlanKept(s, plan, accepted)
    ensures PlanKept(Queued(s, d, steps), plan + steps, accepted)
  {
    ConcatTargets(plan, steps);
    var q := Queued(s, d, steps);
    assert q.valuesDone + q.valuesTodo == (s.valuesDone + s.valuesTodo) + Targets(steps);
    assert q.pulsesDone + q.pulsesTodo == (s.pulsesDone + s.pulsesTodo) + Exposures(steps);
  }

  ghost function WithQueue(s: Scan, driver: Option<Driver>, steps: seq<Planned>): Scan {
    if steps == [] || driver.None? then s else Queued(s, driver.value, steps)
  }

  /** The callbacks add what `PlannedBy` says to the queue and leave what is done alone. */
  lemma CallbacksAdd(c: Config, a: Attempt)
    requires Aligned(c.scan) && ProgressOf(c.scan, a).Complete?
    ensures var s1 := Recorded(c.scan, a);
            var s2 := CallbacksRun(c.(scan := s1), a).scan;
            s2 == WithQueue(s1, c.driver, PlannedBy(c, a)).(extraExpected := s2.extraExpected)
  {
    var s1 := Recorded(c.scan, a);
    if c.driver.Some? && a.ok && a.failure != AfterCounting {
      var d := c.driver.value;
      assert RemainingPoints(s1, Counted(d, a), a.allowance) == RemainingPoints(c.scan, d, a.allowance);
      assert MeasuredCells(s1, Counted(d, a)) == MeasuredCells(c.scan, d);
      assert PlannedAtEnd(s1, Counted(d, a), a) == PlannedBy(c, a);
      assert Cells(Counted(d, a), PlannedBy(c, a)) == Cells(d, PlannedBy(c, a));
    }
  }

  lemma AcceptedKeeps(s: Scan, plan: seq<Planned>, accepted: seq<Attempt>, left: nat, a: Attempt)
    requires PlanKept(s, plan, accepted) && s.valuesTodo != [] && s.pulsesTodo != []
    ensures PlanKept(Accepted(s, a), plan, accepted + [a])
  {
    var t := Accepted(s, a);
    assert t.valuesDone + t.valuesTodo == s.valuesDone + s.valuesTodo;
    assert t.pulsesDone + t.pulsesTodo == s.pulsesDone + s.pulsesTodo;
  }

  lemma StepKeepsLists(c: Config, plan: seq<Planned>, accepted: seq<Attempt>, left: nat, a: Attempt)
    requires Aligned(c.scan) && ListsKept(c.scan, plan, accepted, left)
    ensures ListsKept(Step(c, a).0.scan, plan + PlannedBy(c, a),
                      accepted + if Accepts(c, a) then [a] else [],
                      left + if LeavesEntry(c, a) then 1 else 0)
  {
    var s := c.scan;
    assert plan + [] == plan && accepted + [] == accepted;
    match ProgressOf(s, a)
    case NothingDone(_) =>
    case RecordedOnly => RecordedKeeps(s, plan, accepted, left, a);
    case Complete =>
      var s1, steps := Recorded(s, a), PlannedBy(c, a);
      RecordedKeeps(s, plan, accepted, left, a);
      CallbacksAdd(c, a);
      CallbacksKeepHead(c.(scan := s1), a);
      var s2 := CallbacksRun(c.(scan := s1), a).scan;
      if steps != [] { QueuedKeeps(s1, c.driver.value, plan, accepted, steps); }
      if a.ok && !RaisesAtEnd(c, a) { AcceptedKeeps(s2, plan + steps, accepted, left, a); }
  }

  lemma StepKeepsGrid(c: Config, plan: seq<Planned>, accepted: seq<Attempt>, left: nat, a: Attempt)
    requires Aligned(c.scan) && Boundary(c.scan, plan, accepted, left)
    ensures GridKept(Step(c, a).0.scan, plan + PlannedBy(c, a), left + if LeavesEntry(c, a) then 1 else 0)
  {
    assert plan + [] == plan;
    if ProgressOf(c.scan, a).Complete? {
      var c1 := c.(scan := Recorded(c.scan, a));
      CallbacksKeepGrid(c, plan, left, a);
      CallbacksKeepHead(c1, a);
      FinishedGrid(CallbacksRun(c1, a).scan, plan + PlannedBy(c, a), left, a);
    }
  }

  lemma CallbacksKeepGrid(c: Config, plan: seq<Planned>, left: nat, a: Attempt)
    requires Aligned(c.scan) && GridKept(c.scan, plan, left) && ProgressOf(c.scan, a).Complete?
    ensures GridRecorded(CallbacksRun(c.(scan := Recorded(c.scan, a)), a).scan, plan + PlannedBy(c, a), left)
  {
    var s1, steps := Recorded(c.scan, a), PlannedBy(c, a);
    RecordedGrid(c.scan, plan, left, a);
    CallbacksAdd(c, a);
    assert plan + [] == plan;
    if steps != [] && c.driver.Some? { QueuedGrid(s1, c.driver.value, plan, left, steps); }
  }

  /** The grid while a step is under way: the step is recorded, labelled with its plan entry. */
  ghost predicate GridRecorded(s: Scan, plan: seq<Planned>, left: nat) {
    s.grid.Some? ==>
      && |s.grid.value.indexPlan| == |plan| == s.nextStep + |s.valuesTodo| && s.valuesTodo != []
      && s.grid.value.recordedPlan == s.grid.value.indexPlan
      && (left == 0 ==>
            && |s.info.steps| == s.nextStep + 1
            && forall i :: 0 <= i <= s.nextStep ==> s.info.steps[i].gridIndex == Some(s.grid.value.indexPlan[i]))
  }

  lemma RecordedGrid(s: Scan, plan: seq<Planned>, left: nat, a: Attempt)
    requires GridKept(s, plan, left) && s.valuesTodo != []
    ensures GridRecorded(Recorded(s, a), plan, left)
  {
  }

  lemma QueuedGrid(s: Scan, d: Driver, plan: seq<Planned>, left: nat, steps: seq<Planned>)
    requires GridRecorded(s, plan, left)
    ensures GridRecorded(Queued(s, d, steps), plan + steps, left)
  {
  }

  lemma FinishedGrid(s: Scan, plan: seq<Planned>, left: nat, a: Attempt)
    requires GridRecorded(s, plan, left) && s.valuesTodo != [] && s.pulsesTodo != []
    ensures GridKept(Accepted(s, a), plan, left) && GridKept(Rejected(s), plan, left) && GridKept(s, plan, left + 1)
  {
  }

  /** At every step boundary of every run what is done followed by what is queued is the plan made so
      far, and the recorded lists have exactly one entry per accepted step and per step that raised
      in its end-of-step callbacks. */
  lemma {:induction false} RunKeepsLists(c: Config, plan: seq<Planned>, attempts: seq<Attempt>)
    requires Aligned(c.scan) && ListsKept(c.scan, plan, [], 0)
    ensures ListsKept(Run(c, attempts).scan, PlanAfter(plan, c, attempts), AcceptedIn(c, attempts), EntriesLeft(c, attempts))
  {
    if attempts != [] {
      var front, a := attempts[..|attempts| - 1], attempts[|attempts| - 1];
      RunKeepsLists(c, plan, front);
      StepKeepsLists(Run(c, front), PlanAfter(plan, c, front), AcceptedIn(c, front), EntriesLeft(c, front), a);
    }
  }

  /** In a grid scan the plan of cells keeps up with the plan, step by step. */
  lemma {:induction false} RunKeepsBoundary(c: Config, plan: seq<Planned>, attempts: seq<Attempt>)
    requires Aligned(c.scan) && Boundary(c.scan, plan, [], 0)
    ensures Boundary(Run(c, attempts).scan, PlanAfter(plan, c, attempts), AcceptedIn(c, attempts), EntriesLeft(c, attempts))
  {
    RunKeepsLists(c, plan, attempts);
    if attempts != [] {
      var front, a := attempts[..|attempts| - 1], attempts[|attempts| - 1];
      RunKeepsBoundary(c, plan, front);
      StepKeepsGrid(Run(c, front), PlanAfter(plan, c, front), AcceptedIn(c, front), EntriesLeft(c, front), a);
    }
  }

  /** The recorded values and the shared list `scan_values_all` together are the whole plan exactly
      when no step raised between being recorded and being accepted. */
  lemma {:induction false} RecordedAndQueuedAreThePlan(c: Config, plan: seq<Planned>, attempts: seq<Attempt>)
    requires Aligned(c.scan) && ListsKept(c.scan, plan, [], 0)
    ensures var s := Run(c, attempts).scan;
            s.info.values + s.valuesTodo == Targets(PlanAfter(plan, c, attempts)) <==> EntriesLeft(c, attempts) == 0
  {
    RunKeepsLists(c, plan, attempts);
    var s := Run(c, attempts).scan;
    assert |s.info.values + s.valuesTodo| == |Targets(PlanAfter(plan, c, attempts))| + EntriesLeft(c, attempts);
  }

  /** Without a driver the plan stays as it was given. */
  lemma {:induction false} FixedPlanStays(c: Config, plan: seq<Planned>, attempts: seq<Attempt>)
    requires Aligned(c.scan) && c.driver.None?
    ensures PlanAfter(plan, c, attempts) == plan && Run(c, attempts).driver.None?
  {
    if attempts != [] {
      FixedPlanStays(c, plan, attempts[..|attempts| - 1]);
      assert plan + [] == plan;
    }
  }

  /** A callback that raises after the step was recorded, and a scan started again after it, leave two
      entries for the first step and shift every later one. */
  lemma RaisingCallbackShiftsEntries()
    ensures var plan := [Planned([1.0], 10.0), Planned([2.0], 10.0)];
            var r := NewScan([[1.0], [2.0]], Each(10.0), 1, None, 1);
            var good := Attempt([1.0], [], true, NoFailure, true, None, None, None);
            var attempts := [good.(failure := InCallbacks), good];
            && r.Ok? && Aligned(r.value) && ListsKept(r.value, plan, [], 0)
            && var s := Run(Config(r.value, None), attempts).scan;
               s.valuesDone == [[1.0]] && s.info.values == [[1.0], [1.0]]
  {
    var c := Config(NewScan([[1.0], [2.0]], Each(10.0), 1, None, 1).value, None);
    var good := Attempt([1.0], [], true, NoFailure, true, None, None, None);
    var bad := good.(failure := InCallbacks);
    assert [bad, good][..1] == [bad] && [bad][..0] == [];
    assert Run(c, [bad]) == Step(Run(c, []), bad).0;
    assert Run(c, [bad, good]) == Step(Run(c, [bad]), good).0;
  }

  // ---------------------------------------------------------------- a new scan

  /** What a new scan plans: each value with its exposure, once per repetition. */
  ghost function PlanOf(values: seq<Point>, def: ExposureDef, repetitions: int): seq<Planned>
    requires |ExposureList(def, |values|)| == |values|
  {
    Repeat(seq(|values|, i requires 0 <= i < |values| => Planned(values[i], ExposureList(def, |values|)[i])), repetitions)
  }

  lemma {:induction false} RepeatTargets(plan: seq<Planned>, n: int)
    ensures Targets(Repeat(plan, n)) == Repeat(Targets(plan), n)
    ensures Exposures(Repeat(plan, n)) == Repeat(Exposures(plan), n)
    decreases n
  {
    if n > 1 {
      RepeatTargets(plan, n - 1);
      ConcatTargets(plan, Repeat(plan, n - 1));
    }
  }

  /** A scan can be built exactly when the exposures given per step match the values, and then starts
      with the repeated plan; a grid's plan of cells is repeated with it. */
  lemma NewScanPlans(values: seq<Point>, def: ExposureDef, repetitions: int, grid: Option<Grid>, ndim: nat)
    requires grid.Some? ==> |grid.value.indexPlan| == |values|
    ensures var r := NewScan(values, def, repetitions, grid, ndim);
            && (r.Ok? <==> |ExposureList(def, |values|)| == |values|)
            && (r.Ok? ==> Aligned(r.value) && Boundary(r.value, PlanOf(values, def, repetitions), [], 0)
                          && r.value.valuesDone == [] && ExpectedSteps(r.value) == |PlanOf(values, def, repetitions)|)
  {
    var r := NewScan(values, def, repetitions, grid, ndim);
    if r.Ok? {
      var once := seq(|values|, i requires 0 <= i < |values| => Planned(values[i], ExposureList(def, |values|)[i]));
      assert Targets(once) == values && Exposures(once) == ExposureList(def, |values|);
      RepeatTargets(once, repetitions);
      RepeatLength(values, once, repetitions);
      RepeatLength(values, ExposureList(def, |values|), repetitions);
      if grid.Some? { RepeatLength(values, grid.value.indexPlan, repetitions); }
    }
  }

  // ---------------------------------------------------------------- grid labels

  /** Every cell's position is what the step of the same number targets. */
  ghost predicate OnCells(positions: seq<seq<real>>, cells: seq<GridCell>, plan: seq<Planned>) {
    |cells| == |plan| && forall i :: 0 <= i < |plan| ==> CellPoint(positions, cells[i]) == Some(plan[i].target)
  }

  /** Every planned target is the position of its cell in the plan of cells. */
  ghost predicate OnGrid(s: Scan, plan: seq<Planned>) {
    s.grid.Some? ==> OnCells(s.grid.value.positions, s.grid.value.indexPlan, plan)
  }

  /** A strategy that plans points of its grid only. */
  ghost predicate OnAxes(axes: seq<seq<real>>, target: Point) {
    |axes| == |target| && forall d :: 0 <= d < |axes| ==> target[d] in axes[d]
  }

  lemma {:induction false} NearestCellOfGridPoint(axes: seq<seq<real>>, target: Point)
    requires OnAxes(axes, target)
    ensures CellPoint(axes, GridIndex(axes, target)) == Some(target)
  {
    if axes != [] {
      var i :| 0 <= i < |axes[0]| && axes[0][i] == target[0];
      assert Distance(axes[0][i], target[0]) == 0.0;
      assert axes[0][NearestOn(axes[0], target[0])] == target[0];
      assert OnAxes(axes[1..], target[1..]) by {
        forall d | 0 <= d < |axes[1..]| ensures target[1..][d] in axes[1..][d] {
          assert target[d + 1] in axes[d + 1];
        }
      }
      NearestCellOfGridPoint(axes[1..], target[1..]);
      assert [target[0]] + target[1..] == target;
    }
  }

  ghost predicate PlansOnGrid(c: Config, a: Attempt) {
    c.driver.Some? && c.scan.grid.Some? && a.plan.Some? ==>
      && c.driver.value.axes == c.scan.grid.value.positions
      && forall p :: p in a.plan.value ==> OnAxes(c.driver.value.axes, p.target)
  }

  lemma QueuedOnGrid(s: Scan, d: Driver, plan: seq<Planned>, steps: seq<Planned>)
    requires OnGrid(s, plan) && s.grid.Some? && d.axes == s.grid.value.positions
    requires forall p :: p in steps ==> OnAxes(d.axes, p.target)
    ensures OnGrid(Queued(s, d, steps), plan + steps)
  {
    NewCellsOnGrid(d, steps);
    LongerPlanOnGrid(d.axes, s.grid.value.indexPlan, Cells(d, steps), plan, steps);
  }

  lemma NewCellsOnGrid(d: Driver, steps: seq<Planned>)
    requires forall p :: p in steps ==> OnAxes(d.axes, p.target)
    ensures OnCells(d.axes, Cells(d, steps), steps)
  {
    forall i | 0 <= i < |steps| ensures CellPoint(d.axes, Cells(d, steps)[i]) == Some(steps[i].target) {
      assert steps[i] in steps;
      NearestCellOfGridPoint(d.axes, steps[i].target);
    }
  }

  lemma LongerPlanOnGrid(positions: seq<seq<real>>, cells: seq<GridCell>, moreCells: seq<GridCell>, plan: seq<Planned>, steps: seq<Planned>)
    requires OnCells(positions, cells, plan) && OnCells(positions, moreCells, steps)
    ensures OnCells(positions, cells + moreCells, plan + steps)
  {
  }

  lemma PlannedComesFromStrategy(c: Config, a: Attempt)
    requires Aligned(c.scan)
    ensures forall p :: p in PlannedBy(c, a) ==> a.plan.Some? && p in a.plan.value
    ensures PlannedBy(c, a) != [] ==> c.driver.Some?
  {
  }

  /** A step changes neither the grid's positions nor the driver's axes. */
  lemma StepKeepsAxes(c: Config, a: Attempt)
    requires Aligned(c.scan)
    ensures var c' := Step(c, a).0;
            && c'.driver.Some? == c.driver.Some?
            && (c.driver.Some? ==> c'.driver.value.axes == c.driver.value.axes)
            && c'.scan.grid.Some? == c.scan.grid.Some?
            && (c.scan.grid.Some? ==> c'.scan.grid.value.positions == c.scan.grid.value.positions)
  {
    if ProgressOf(c.scan, a).Complete? { CallbacksAdd(c, a); }
  }

  lemma StepGrid(c: Config, a: Attempt)
    requires Aligned(c.scan)
    ensures Step(c, a).0.scan.grid == WithQueue(c.scan, c.driver, PlannedBy(c, a)).grid
  {
    if ProgressOf(c.scan, a).Complete? { CallbacksAdd(c, a); }
  }

  lemma StepKeepsOnGrid(c: Config, plan: seq<Planned>, a: Attempt)
    requires Aligned(c.scan) && OnGrid(c.scan, plan) && PlansOnGrid(c, a)
    ensures OnGrid(Step(c, a).0.scan, plan + PlannedBy(c, a))
  {
    var steps := PlannedBy(c, a);
    StepGrid(c, a);
    PlannedComesFromStrategy(c, a);
    if steps == [] {
      assert plan + steps == plan;
    } else if c.scan.grid.Some? {
      QueuedOnGrid(c.scan, c.driver.value, plan, steps);
    }
  }

  ghost predicate AllPlansOnGrid(c: Config, attempts: seq<Attempt>) {
    forall a :: a in attempts ==> PlansOnGrid(c, a)
  }

  lemma {:induction false} RunKeepsOnGrid(c: Config, plan: seq<Planned>, attempts: seq<Attempt>)
    requires Aligned(c.scan) && OnGrid(c.scan, plan) && AllPlansOnGrid(c, attempts)
    ensures var c' := Run(c, attempts);
            && OnGrid(c'.scan, PlanAfter(plan, c, attempts))
            && c'.driver.Some? == c.driver.Some?
            && (c.driver.Some? ==> c'.driver.value.axes == c.driver.value.axes)
            && c'.scan.grid.Some? == c.scan.grid.Some?
            && (c.scan.grid.Some? ==> c'.scan.grid.value.positions == c.scan.grid.value.positions)
  {
    if attempts != [] {
      var front, a := attempts[..|attempts| - 1], attempts[|attempts| - 1];
      RunKeepsOnGrid(c, plan, front);
      assert a in attempts && PlansOnGrid(c, a);
      StepKeepsOnGrid(Run(c, front), PlanAfter(plan, c, front), a);
      StepKeepsAxes(Run(c, front), a);
    }
  }

  /** In a grid scan, fixed or growing, every accepted step is labelled with the cell whose position
      it targeted, and the plan of cells always covers the steps done and queued. */
  lemma {:induction false} GridLabelsAreTargets(c: Config, plan: seq<Planned>, attempts: seq<Attempt>, i: nat)
    requires Aligned(c.scan) && Boundary(c.scan, plan, [], 0) && c.scan.grid.Some?
    requires OnGrid(c.scan, plan) && AllPlansOnGrid(c, attempts)
    requires EntriesLeft(c, attempts) == 0 && i < Run(c, attempts).scan.nextStep
    ensures var s := Run(c, attempts).scan;
            && s.grid.Some? && |s.grid.value.indexPlan| == s.nextStep + |s.valuesTodo|
            && |s.info.steps| == |s.valuesDone| == s.nextStep
            && s.info.steps[i].gridIndex == Some(s.grid.value.indexPlan[i])
            && CellPoint(c.scan.grid.value.positions, s.info.steps[i].gridIndex.value) == Some(s.valuesDone[i])
  {
    RunKeepsBoundary(c, plan, attempts);
    RunKeepsOnGrid(c, plan, attempts);
    var s, p := Run(c, attempts).scan, PlanAfter(plan, c, attempts);
    assert (s.valuesDone + s.valuesTodo)[i] == Targets(p)[i];
  }
}
