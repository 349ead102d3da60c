/**
 The scan object and the driver of an adaptive scan, changing their lists in place
 (eco/acquisition/scan.py, eco/acquisition/adaptive.py). The queue of targets and the list
 `scan_info["scan_values_all"]` are one and the same list object, which the driver extends while
 the scan is running.
 */
module StepScan {
  import opened Collections
  import opened ScanMesh
  import opened ScanModel

  /** A list shared by reference. */
  class List<T> {
    var items: seq<T>

    constructor (items: seq<T>)
      ensures this.items == items
    {
      this.items := items;
    }

    method Append(x: T)
      modifies this
      ensures items == old(items) + [x]
    {
      items := items + [x];
    }

    method PopFirst() returns (x: T)
      requires items != []
      modifies this
      ensures [x] + items == old(items)
    {
      x := items[0];
      items := items[1..];
    }
  }

  class StepScan {
    const valuesTodo: List<Point>
    /** `scan_info["scan_values_all"]` */
    const scanValuesAll: List<Point>
    const pulsesPerStep: List<real>
    /** The live plan of cells of a grid scan. */
    const indexPlan: List?<GridCell>
    const positions: seq<seq<real>>
    const ndim: nat
    const mesh: ScanMesh
    var recordedPlan: seq<GridCell>
    var valuesDone: seq<Point>
    var pulsesDone: seq<real>
    var readbacks: seq<Point>
    var scanValues: seq<Point>
    var scanReadbacks: seq<Point>
    var scanFiles: seq<seq<string>>
    var scanStepInfo: seq<StepInfo>
    var nextStep: nat
    var extraExpectedSteps: int
    var currentStepOk: bool

    ghost function Parts(): set<object>
      reads this
    {
      {this, valuesTodo, pulsesPerStep, mesh} + if indexPlan == null then {} else {indexPlan}
    }

    /** The queue is the list in `scan_info`; the other lists are their own. */
    ghost predicate Valid()
      reads Parts()
    {
      && valuesTodo == scanValuesAll
      && (valuesTodo as object) != pulsesPerStep && (valuesTodo as object) != mesh && (pulsesPerStep as object) != mesh
      && (indexPlan != null ==> (indexPlan as object) != valuesTodo && (indexPlan as object) != pulsesPerStep
                                && (indexPlan as object) != mesh)
      && Aligned(View())
    }

    ghost function View(): Scan
      reads Parts()
    {
      Scan(valuesTodo.items, valuesDone, pulsesPerStep.items, pulsesDone, readbacks,
           Info(scanValues, scanReadbacks, scanFiles, scanStepInfo), nextStep, extraExpectedSteps,
           if indexPlan == null then None else Some(Grid(positions, indexPlan.items, recordedPlan)), ndim, mesh.View())
    }

    /** A scan of `values`, repeated, after the exposures were found to match them. */
    constructor (values: seq<Point>, def: ExposureDef, repetitions: int, grid: Option<Grid>, ndim: nat)
      requires NewScan(values, def, repetitions, grid, ndim).Ok?
      ensures Valid() && fresh(Parts())
      ensures View() == NewScan(values, def, repetitions, grid, ndim).value
    {
      var queue := new List(Repeat(values, repetitions));
      valuesTodo := queue;
      scanValuesAll := queue;
      pulsesPerStep := new List(Repeat(ExposureList(def, |values|), repetitions));
      if grid.Some? {
        var plan := Repeat(grid.value.indexPlan, repetitions);
        indexPlan := new List(plan);
        recordedPlan := plan;
        positions := grid.value.positions;
      } else {
        indexPlan := null;
        recordedPlan := [];
        positions := [];
      }
      this.ndim := ndim;
      mesh := new ScanMesh(None);
      valuesDone, pulsesDone, readbacks := [], [], [];
      scanValues, scanReadbacks, scanFiles, scanStepInfo := [], [], [], [];
      nextStep, extraExpectedSteps, currentStepOk := 0, 0, true;
      new;
      RepeatLength(values, ExposureList(def, |values|), repetitions);
    }

    method AppendScanInfo(value: Point, readback: Point, files: seq<string>, info: StepInfo)
      modifies this`scanValues, this`scanReadbacks, this`scanFiles, this`scanStepInfo
      ensures scanValues == old(scanValues) + [value] && scanReadbacks == old(scanReadbacks) + [readback]
      ensures scanFiles == old(scanFiles) + [files] && scanStepInfo == old(scanStepInfo) + [info]
    {
      scanValues := scanValues + [value];
      scanReadbacks := scanReadbacks + [readback];
      scanFiles := scanFiles + [files];
      scanStepInfo := scanStepInfo + [info];
    }

    method RemoveLastScanInfoEntry()
      requires scanValues != [] && scanReadbacks != [] && scanFiles != [] && scanStepInfo != []
      modifies this`scanValues, this`scanReadbacks, this`scanFiles, this`scanStepInfo
      ensures scanValues == old(DropLast(scanValues)) && scanReadbacks == old(DropLast(scanReadbacks))
      ensures scanFiles == old(DropLast(scanFiles)) && scanStepInfo == old(DropLast(scanStepInfo))
    {
      scanValues := scanValues[..|scanValues| - 1];
      scanReadbacks := scanReadbacks[..|scanReadbacks| - 1];
      scanFiles := scanFiles[..|scanFiles| - 1];
      scanStepInfo := scanStepInfo[..|scanStepInfo| - 1];
    }

    /** Place the step under way on the mesh and record it. */
    method Record(a: Attempt)
      requires Valid() && valuesTodo.items != [] && !PlanTooShort(View())
      modifies this, mesh
      ensures Valid() && View() == Recorded(old(View()), a)
      ensures scanValues != [] && scanReadbacks != [] && scanFiles != [] && scanStepInfo != []
    {
      var current := valuesTodo.items[0];
      var cell := if indexPlan == null then None else Some(indexPlan.items[nextStep]);
      var point := if indexPlan != null && cell.Some? then CellPoint(positions, cell.value)
                   else if |current| == ndim then Some(current) else None;
      var meshIndex := None;
      if point.Some? {
        var node := mesh.Add(point.value);
        meshIndex := Some(node);
      }
      AppendScanInfo(current, a.readback, a.files, StepInfo(cell, meshIndex));
    }

    /** Take the step under way off the queue. */
    method Accept(a: Attempt)
      requires Valid() && valuesTodo.items != []
      modifies this, valuesTodo, pulsesPerStep
      ensures Valid() && View() == Accepted(old(View()), a)
    {
      var value := valuesTodo.PopFirst();
      valuesDone := valuesDone + [value];
      var pulses := pulsesPerStep.PopFirst();
      pulsesDone := pulsesDone + [pulses];
      readbacks := readbacks + [a.readback];
      nextStep := nextStep + 1;
    }

    /** Run the end-of-step callbacks and take the step off the queue, or its entry off the lists. */
    method FinishStep(driver: AdaptiveDriver?, a: Attempt) returns (outcome: Outcome)
      requires Valid() && (driver != null ==> driver !in Parts())
      requires valuesTodo.items != [] && currentStepOk == a.ok
      requires scanValues != [] && scanReadbacks != [] && scanFiles != [] && scanStepInfo != []
      modifies Parts(), driver
      ensures Valid()
      ensures var c := old(Config(View(), DriverView(driver)));
              (Config(View(), DriverView(driver)), outcome) == Finish(c, a)
    {
      ghost var c := Config(View(), DriverView(driver));
      CallbacksKeepHead(c, a);
      if driver != null {
        var raised := driver.OnStepEnd(this, a);
        if raised { return Raised; }
      }
      if a.failure == AfterCallbacks { return Raised; }
      if currentStepOk {
        Accept(a);
      } else {
        RemoveLastScanInfoEntry();
      }
      outcome := Stepped;
    }

    /** Move, acquire, run the callbacks; False when the queue is empty. */
    method DoNextStep(driver: AdaptiveDriver?, a: Attempt) returns (outcome: Outcome)
      requires Valid() && (driver != null ==> driver !in Parts())
      modifies Parts(), driver
      ensures Valid()
      ensures (Config(View(), DriverView(driver)), outcome) == Step(old(Config(View(), DriverView(driver))), a)
    {
      currentStepOk := true;
      if a.failure == BeforeRecording { return Raised; }
      if valuesTodo.items == [] { return Finished; }
      if indexPlan != null && nextStep >= |indexPlan.items| { return Raised; }
      Record(a);
      if a.failure == InCallbacks { return Raised; }
      currentStepOk := a.ok;
      outcome := FinishStep(driver, a);
    }
  }

  ghost function DriverView(driver: AdaptiveDriver?): Option<Driver>
    reads driver
  {
    if driver == null then None else Some(driver.View())
  }

  class AdaptiveDriver {
    const axes: seq<seq<real>>
    const maxPoints: nat
    const batch: int
    const avoidRevisits: bool
    var done: bool
    var points: nat
    var skipped: nat

    constructor (axes: seq<seq<real>>, maxPoints: nat, batch: int, avoidRevisits: bool)
      ensures View() == Driver(axes, maxPoints, batch, avoidRevisits, false, 0, 0)
    {
      this.axes, this.maxPoints, this.batch, this.avoidRevisits := axes, maxPoints, batch, avoidRevisits;
      done, points, skipped := false, 0, 0;
    }

    ghost function View(): Driver
      reads this
    {
      Driver(axes, maxPoints, batch, avoidRevisits, done, points, skipped)
    }

    /** The scan starts: give the mesh the grid's spacing and say how many steps to expect. */
    method OnStart(scan: StepScan, spacing: Resolution, allowance: Option<int>)
      requires scan.Valid() && this !in scan.Parts()
      modifies scan, scan.mesh
      ensures scan.Valid()
      ensures Config(scan.View(), Some(View())) == Started(old(Config(scan.View(), Some(View()))), spacing, allowance)
    {
      scan.mesh.SetResolution(spacing);
      UpdateExpected(scan, allowance);
    }

    method Remaining(scan: StepScan, allowance: Option<int>) returns (n: Option<nat>)
      requires scan.Valid()
      ensures n == RemainingPoints(scan.View(), View(), allowance)
    {
      var limits: seq<int> := [];
      if maxPoints != 0 {
        limits := limits + [maxPoints - scan.nextStep - |scan.valuesTodo.items|];
      }
      if allowance.Some? {
        limits := limits + [allowance.value - (|scan.valuesTodo.items| - 1)];
      }
      if limits == [] { return None; }
      var least := limits[0];
      if |limits| > 1 && limits[1] < least { least := limits[1]; }
      n := Some(if least < 0 then 0 else least);
    }

    method UpdateExpected(scan: StepScan, allowance: Option<int>)
      requires scan.Valid() && this !in scan.Parts()
      modifies scan`extraExpectedSteps
      ensures scan.View() == old(scan.View()).(extraExpected := ExtraExpected(old(scan.View()), View(), allowance))
      ensures scan.Valid()
    {
      if done {
        scan.extraExpectedSteps := 0;
      } else {
        var remaining := Remaining(scan, allowance);
        scan.extraExpectedSteps := if remaining.None? then batch else remaining.value;
      }
    }

    /** What the strategy plans next, as far as the limits and the measured cells allow. */
    method PlanBatch(scan: StepScan, a: Attempt) returns (steps: seq<Planned>)
      requires scan.Valid() && scan.valuesTodo.items != []
      ensures steps == NextBatch(scan.View(), View(), a)
    {
      var n := batch;
      var remaining := Remaining(scan, a.allowance);
      if remaining.Some? && remaining.value < n { n := remaining.value; }
      if n <= 0 || a.plan.None? { return []; }
      steps := a.plan.value[..Min(n, |a.plan.value|)];
      if avoidRevisits {
        var measured := (set v | v in scan.valuesDone :: GridIndex(axes, v)) + {GridIndex(axes, scan.valuesTodo.items[0])};
        steps := Unmeasured(steps, axes, measured);
      }
    }

    /** Append planned steps to the running scan's lists. */
    method Enqueue(scan: StepScan, steps: seq<Planned>)
      requires scan.Valid() && this !in scan.Parts()
      modifies scan`recordedPlan, scan.valuesTodo, scan.pulsesPerStep, scan.indexPlan
      ensures scan.Valid() && scan.View() == Queued(old(scan.View()), View(), steps)
    {
      ghost var s := scan.View();
      for i := 0 to |steps|
        invariant scan.Valid()
        invariant scan.valuesTodo.items == s.valuesTodo + Targets(steps[..i])
        invariant scan.pulsesPerStep.items == s.pulsesTodo + Exposures(steps[..i])
        invariant scan.indexPlan != null ==> scan.indexPlan.items == s.grid.value.indexPlan + Cells(View(), steps[..i])
        invariant scan.View() == s.(valuesTodo := scan.valuesTodo.items, pulsesTodo := scan.pulsesPerStep.items,
                                    grid := if s.grid.None? then None
                                            else Some(s.grid.value.(indexPlan := scan.indexPlan.items)))
      {
        assert steps[..i + 1] == steps[..i] + [steps[i]];
        scan.valuesTodo.Append(steps[i].target);
        scan.pulsesPerStep.Append(steps[i].exposure);
        if scan.indexPlan != null {
          scan.indexPlan.Append(GridIndex(axes, steps[i].target));
        }
      }
      assert steps[..|steps|] == steps;
      if scan.indexPlan != null {
        scan.recordedPlan := scan.indexPlan.items;
      }
    }

    /** Plan further steps; the driver is done when there are none. */
    method Refill(scan: StepScan, a: Attempt)
      requires scan.Valid() && this !in scan.Parts() && scan.valuesTodo.items != []
      modifies scan`recordedPlan, scan.valuesTodo, scan.pulsesPerStep, scan.indexPlan, this`done
      ensures scan.Valid()
      ensures var s, d := old(scan.View()), old(View());
              var steps := NextBatch(s, d, a);
              && scan.View() == (if steps == [] then s else Queued(s, d, steps))
              && View() == if steps == [] then d.(done := true) else d
    {
      var steps := PlanBatch(scan, a);
      if steps == [] {
        done := true;
      } else {
        Enqueue(scan, steps);
      }
    }

    /** The end of a step: count it, plan further steps when the queue runs out, update the number
        of steps expected. True if it raised after counting or after planning. */
    method OnStepEnd(scan: StepScan, a: Attempt) returns (raised: bool)
      requires scan.Valid() && this !in scan.Parts() && scan.valuesTodo.items != []
      requires scan.currentStepOk == a.ok
      modifies scan`recordedPlan, scan`extraExpectedSteps, scan.valuesTodo, scan.pulsesPerStep, scan.indexPlan, this
      ensures scan.Valid()
      ensures (scan.View(), View()) == StepEnded(old(scan.View()), old(View()), a)
      ensures raised <==> a.ok && (a.failure == AfterCounting || a.failure == AfterPlanning)
    {
      if !scan.currentStepOk { return false; }
      if a.feedback { points := points + 1; } else { skipped := skipped + 1; }
      if a.failure == AfterCounting { return true; }
      if |scan.valuesTodo.items| <= 1 && !done {
        Refill(scan, a);
      }
      if a.failure == AfterPlanning { return true; }
      UpdateExpected(scan, a.allowanceAfter);
      raised := false;
    }
  }
}
