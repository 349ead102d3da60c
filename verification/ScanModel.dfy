/**
 The state of a step scan and what one step does to it (eco/acquisition/scan.py), together with the
 driver of an adaptive scan, which plans further steps from inside the end-of-step callbacks
 (eco/acquisition/adaptive.py). The objects that carry this state are in `StepScan`.
 */
module ScanModel {
  import opened Collections
  import opened ScanMesh

  type GridCell = seq<nat>

  /** A step as it is planned: the adjustables' targets and the exposure. */
  datatype Planned = Planned(target: Point, exposure: real)

  datatype StepInfo = StepInfo(gridIndex: Option<GridCell>, meshIndex: Option<nat>)

  /** The four parallel lists of `scan_info`. */
  datatype Info = Info(values: seq<Point>, readbacks: seq<Point>, files: seq<seq<string>>, steps: seq<StepInfo>)

  /** A grid's positions per dimension, the plan of cells and its copy in `scan_info`. */
  datatype Grid = Grid(positions: seq<seq<real>>, indexPlan: seq<GridCell>, recordedPlan: seq<GridCell>)

  datatype Scan = Scan(
    valuesTodo: seq<Point>, valuesDone: seq<Point>,
    pulsesTodo: seq<real>, pulsesDone: seq<real>,
    readbacks: seq<Point>, info: Info,
    nextStep: nat, extraExpected: int,
    grid: Option<Grid>, ndim: nat, mesh: Mesh)

  datatype Driver = Driver(axes: seq<seq<real>>, maxPoints: nat, batch: int, avoidRevisits: bool,
                           done: bool, points: nat, skipped: nat)

  datatype Config = Config(scan: Scan, driver: Option<Driver>)

  /** Where an exception ends a step: before its scan info is recorded, in an end-of-step callback, in the
      driver after it has counted the step or after it has queued further ones, or behind the callbacks. */
  datatype Failure = NoFailure | BeforeRecording | InCallbacks | AfterCounting | AfterPlanning | AfterCallbacks

  /** All that the outside world decides about one attempt at a step. `allowance` is the number of
      points the time budget still allows (None: no budget, or no step time known yet), read once
      for planning and once for the expected number of steps; `plan` is what the strategy answers
      when it is asked (None: planning fails). */
  datatype Attempt = Attempt(
    readback: Point, files: seq<string>, ok: bool, failure: Failure,
    feedback: bool, allowance: Option<int>, allowanceAfter: Option<int>, plan: Option<seq<Planned>>)

  datatype Outcome = Stepped | Finished | Raised

  function Targets(plan: seq<Planned>): seq<Point> {
    seq(|plan|, i requires 0 <= i < |plan| => plan[i].target)
  }

  function Exposures(plan: seq<Planned>): seq<real> {
    seq(|plan|, i requires 0 <= i < |plan| => plan[i].exposure)
  }

  function Min(a: int, b: int): int { if a <= b then a else b }

  function Max(a: int, b: int): int { if a >= b then a else b }

  // ---------------------------------------------------------------- grid cells

  function Distance(a: real, b: real): real { if a < b then b - a else a - b }

  /** The first index of the position nearest to `v`. */
  function Nearest(axis: seq<real>, v: real): (n: nat)
    requires axis != []
    ensures n < |axis|
    ensures forall i :: 0 <= i < |axis| ==> Distance(axis[n], v) <= Distance(axis[i], v)
    ensures forall i :: 0 <= i < n ==> Distance(axis[n], v) < Distance(axis[i], v)
    decreases |axis|
  {
    if |axis| == 1 then 0
    else
      var n := Nearest(axis[..|axis| - 1], v);
      if Distance(axis[|axis| - 1], v) < Distance(axis[n], v) then |axis| - 1 else n
  }

  function NearestOn(axis: seq<real>, v: real): nat { if axis == [] then 0 else Nearest(axis, v) }

  /** The grid cell nearest to a target. */
  function GridIndex(axes: seq<seq<real>>, target: Point): GridCell {
    if axes == [] || target == [] then [] else [NearestOn(axes[0], target[0])] + GridIndex(axes[1..], target[1..])
  }

  /** The position of a grid cell; None for a cell outside the grid. */
  function CellPoint(positions: seq<seq<real>>, cell: GridCell): Option<Point> {
    if cell == [] then Some([])
    else if positions == [] || cell[0] >= |positions[0]| then None
    else
      var rest := CellPoint(positions[1..], cell[1..]);
      if rest.None? then None else Some([positions[0][cell[0]]] + rest.value)
  }

  /** The point of a step on the mesh: its grid cell's position, else its targets. */
  function StepPoint(grid: Option<Grid>, ndim: nat, target: Point, cell: Option<GridCell>): Option<Point> {
    if grid.Some? && cell.Some? then CellPoint(grid.value.positions, cell.value)
    else if |target| == ndim then Some(target)
    else None
  }

  // ---------------------------------------------------------------- the adaptive driver

  /** How many more points the limits allow; None without a limit. The step under way is the first
      of those queued. */
  function RemainingPoints(s: Scan, d: Driver, allowance: Option<int>): Option<nat> {
    var byCount := d.maxPoints - s.nextStep - |s.valuesTodo|;
    if d.maxPoints == 0 && allowance.None? then None
    else if allowance.None? then Some(Max(byCount, 0))
    else
      var byTime := allowance.value - (|s.valuesTodo| - 1);
      Some(Max(if d.maxPoints == 0 then byTime else Min(byCount, byTime), 0))
  }

  /** The cells measured so far, the step under way included. */
  function MeasuredCells(s: Scan, d: Driver): set<GridCell>
    requires s.valuesTodo != []
  {
    (set v | v in s.valuesDone :: GridIndex(d.axes, v)) + {GridIndex(d.axes, s.valuesTodo[0])}
  }

  /** The steps whose cell is not among `measured`. */
  function Unmeasured(steps: seq<Planned>, axes: seq<seq<real>>, measured: set<GridCell>): (r: seq<Planned>)
    ensures |r| <= |steps|
    ensures forall p :: p in r <==> p in steps && GridIndex(axes, p.target) !in measured
  {
    if steps == [] then []
    else
      (if GridIndex(axes, steps[0].target) in measured then [] else [steps[0]]) + Unmeasured(steps[1..], axes, measured)
  }

  /** The steps a refill plans: as many as the limits and the batch size allow at most. */
  function NextBatch(s: Scan, d: Driver, a: Attempt): seq<Planned>
    requires s.valuesTodo != []
  {
    var remaining := RemainingPoints(s, d, a.allowance);
    var n := if remaining.Some? then Min(d.batch, remaining.value) else d.batch;
    if n <= 0 || a.plan.None? then []
    else
      var steps := a.plan.value[..Min(n, |a.plan.value|)];
      if d.avoidRevisits then Unmeasured(steps, d.axes, MeasuredCells(s, d)) else steps
  }

  function Cells(d: Driver, steps: seq<Planned>): seq<GridCell> {
    seq(|steps|, i requires 0 <= i < |steps| => GridIndex(d.axes, steps[i].target))
  }

  /** The scan with further steps queued. */
  function Queued(s: Scan, d: Driver, steps: seq<Planned>): Scan {
    s.(valuesTodo := s.valuesTodo + Targets(steps),
       pulsesTodo := s.pulsesTodo + Exposures(steps),
       grid := if s.grid.None? then None
               else var plan := s.grid.value.indexPlan + Cells(d, steps);
                    Some(s.grid.value.(indexPlan := plan, recordedPlan := plan)))
  }

  /** The steps planned when a step ends: only when the queue runs out and the driver is not done. */
  function PlannedAtEnd(s: Scan, d: Driver, a: Attempt): seq<Planned>
    requires s.valuesTodo != []
  {
    if |s.valuesTodo| <= 1 && !d.done then NextBatch(s, d, a) else []
  }

  function ExtraExpected(s: Scan, d: Driver, allowance: Option<int>): int {
    if d.done then 0
    else
      var remaining := RemainingPoints(s, d, allowance);
      if remaining.None? then d.batch else remaining.value
  }

  function Counted(d: Driver, a: Attempt): Driver {
    if a.feedback then d.(points := d.points + 1) else d.(skipped := d.skipped + 1)
  }

  /** The driver's end-of-step callback. */
  function StepEnded(s: Scan, d: Driver, a: Attempt): (Scan, Driver)
    requires s.valuesTodo != []
  {
    if !a.ok then (s, d)
    else
      var d1 := Counted(d, a);
      if a.failure == AfterCounting then (s, d1)
      else
        var steps := PlannedAtEnd(s, d1, a);
        var d2 := if |s.valuesTodo| <= 1 && !d1.done && steps == [] then d1.(done := true) else d1;
        var s2 := if steps == [] then s else Queued(s, d1, steps);
        if a.failure == AfterPlanning then (s2, d2)
        else (s2.(extraExpected := ExtraExpected(s2, d2, a.allowanceAfter)), d2)
  }

  // ---------------------------------------------------------------- one step

  /** The cell of the step under way; None outside a grid scan. */
  function CellNow(s: Scan): Option<GridCell> {
    if s.grid.None? || s.nextStep >= |s.grid.value.indexPlan| then None else Some(s.grid.value.indexPlan[s.nextStep])
  }

  /** A grid scan whose plan of cells is too short raises before anything is recorded. */
  predicate PlanTooShort(s: Scan) {
    s.grid.Some? && s.nextStep >= |s.grid.value.indexPlan|
  }

  /** The scan with the step under way placed on the mesh and recorded in all four lists. */
  function Recorded(s: Scan, a: Attempt): Scan
    requires s.valuesTodo != []
  {
    var point := StepPoint(s.grid, s.ndim, s.valuesTodo[0], CellNow(s));
    var added := if point.Some? then Added(s.mesh, point.value) else (s.mesh, 0);
    var entry := StepInfo(CellNow(s), if point.Some? then Some(added.1) else None);
    s.(mesh := added.0,
       info := Info(s.info.values + [s.valuesTodo[0]], s.info.readbacks + [a.readback],
                    s.info.files + [a.files], s.info.steps + [entry]))
  }

  function DropLast<T>(s: seq<T>): seq<T> { if s == [] then [] else s[..|s| - 1] }

  function Accepted(s: Scan, a: Attempt): Scan
    requires s.valuesTodo != [] && s.pulsesTodo != []
  {
    s.(valuesDone := s.valuesDone + [s.valuesTodo[0]], valuesTodo := s.valuesTodo[1..],
       pulsesDone := s.pulsesDone + [s.pulsesTodo[0]], pulsesTodo := s.pulsesTodo[1..],
       readbacks := s.readbacks + [a.readback], nextStep := s.nextStep + 1)
  }

  function Rejected(s: Scan): Scan {
    s.(info := Info(DropLast(s.info.values), DropLast(s.info.readbacks), DropLast(s.info.files), DropLast(s.info.steps)))
  }

  /** Every queued step has its exposure. */
  predicate Aligned(s: Scan) { |s.valuesTodo| == |s.pulsesTodo| }

  /** How far a step gets. */
  datatype Progress = NothingDone(outcome: Outcome) | RecordedOnly | Complete

  function ProgressOf(s: Scan, a: Attempt): Progress {
    if a.failure == BeforeRecording then NothingDone(Raised)
    else if s.valuesTodo == [] then NothingDone(Finished)
    else if PlanTooShort(s) then NothingDone(Raised)
    else if a.failure == InCallbacks then RecordedOnly
    else Complete
  }

  /** The end-of-step callbacks: the driver's, if there is one. */
  function CallbacksRun(c: Config, a: Attempt): Config
    requires c.scan.valuesTodo != []
  {
    if c.driver.None? then c
    else var (s, d) := StepEnded(c.scan, c.driver.value, a); Config(s, Some(d))
  }

  /** An exception in the driver needs one that takes the step in. */
  predicate RaisesInDriver(c: Config, a: Attempt) {
    (a.failure == AfterCounting || a.failure == AfterPlanning) && c.driver.Some? && a.ok
  }

  predicate RaisesAtEnd(c: Config, a: Attempt) { RaisesInDriver(c, a) || a.failure == AfterCallbacks }

  /** The driver has counted the step when it raises. */
  predicate RaisesAfterCounting(c: Config, a: Attempt) { RaisesAtEnd(c, a) && c.driver.Some? && a.ok }

  lemma CallbacksKeepHead(c: Config, a: Attempt)
    requires c.scan.valuesTodo != [] && Aligned(c.scan)
    ensures var c' := CallbacksRun(c, a);
            && c'.scan.valuesTodo != [] && Aligned(c'.scan)
            && c'.scan.valuesTodo[0] == c.scan.valuesTodo[0] && c'.scan.pulsesTodo[0] == c.scan.pulsesTodo[0]
            && c.scan.valuesTodo <= c'.scan.valuesTodo && c.scan.pulsesTodo <= c'.scan.pulsesTodo
  {
  }

  /** What follows once a step is recorded. */
  function Finish(c: Config, a: Attempt): (Config, Outcome)
    requires Aligned(c.scan) && c.scan.valuesTodo != []
  {
    CallbacksKeepHead(c, a);
    var c' := CallbacksRun(c, a);
    if RaisesAtEnd(c, a) then (c', Raised)
    else (c'.(scan := if a.ok then Accepted(c'.scan, a) else Rejected(c'.scan)), Stepped)
  }

  /** One call of `do_next_step`. */
  function Step(c: Config, a: Attempt): (Config, Outcome)
    requires Aligned(c.scan)
  {
    match ProgressOf(c.scan, a)
    case NothingDone(outcome) => (c, outcome)
    case RecordedOnly => (c.(scan := Recorded(c.scan, a)), Raised)
    case Complete => Finish(c.(scan := Recorded(c.scan, a)), a)
  }

  // ---------------------------------------------------------------- building and starting a scan

  /** Exposures as a scan is given them: one for every step, or one per step. */
  datatype ExposureDef = Each(exposure: real) | PerStep(exposures: seq<real>)

  function ExposureList(def: ExposureDef, n: nat): seq<real> {
    match def
    case Each(e) => seq(n, _ => e)
    case PerStep(es) => es
  }

  function Repeat<T>(s: seq<T>, n: int): seq<T> {
    if n <= 1 then s else s + Repeat(s, n - 1)
  }

  lemma {:induction false} RepeatLength<S, T>(a: seq<S>, b: seq<T>, n: int)
    requires |a| == |b|
    ensures |Repeat(a, n)| == |Repeat(b, n)|
    decreases n
  {
    if n > 1 { RepeatLength(a, b, n - 1); }
  }

  /** The plan of a new scan: every pass over the given values, each with its exposure. */
  function NewScan(values: seq<Point>, def: ExposureDef, repetitions: int, grid: Option<Grid>, ndim: nat): Result<Scan, string> {
    if def.PerStep? && |def.exposures| != |values| then Err("steps for Number of pulses and values must match!")
    else Ok(Scan(Repeat(values, repetitions), [], Repeat(ExposureList(def, |values|), repetitions), [],
                 [], Info([], [], [], []), 0, 0,
                 if grid.None? then None
                 else var plan := Repeat(grid.value.indexPlan, repetitions); Some(Grid(grid.value.positions, plan, plan)),
                 ndim, NewMesh(None)))
  }

  /** The driver's start callback: the mesh takes the grid's spacing as its resolution. */
  function Started(c: Config, spacing: Resolution, allowance: Option<int>): Config
    requires c.driver.Some?
  {
    var s := c.scan.(mesh := Rekeyed(c.scan.mesh, spacing));
    c.(scan := s.(extraExpected := ExtraExpected(s, c.driver.value, allowance)))
  }

  /** The first points of an adaptive scan: at most the survey's size and `max_points`. */
  function InitialSteps(surveySize: nat, maxPoints: nat, plan: seq<Planned>): seq<Planned> {
    var n := if maxPoints != 0 then Min(surveySize, maxPoints) else surveySize;
    plan[..Min(n, |plan|)]
  }

  function ExpectedSteps(s: Scan): int { s.nextStep + |s.valuesTodo| + s.extraExpected }
}
