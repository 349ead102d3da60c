/**
 Pausing, stopping and resuming a scan (eco/acquisition/scan.py `pause`, `resume`, `request_stop`,
 `snapshot_remaining`, `scan_all`; eco/acquisition/scan_tasks.py). The scan's thread and the
 callers of `pause` and `request_stop` interleave freely.
 */
module ScanPause {
  import opened Collections
  import opened ScanMesh
  import opened ScanModel
  import opened ScanRuns

  /** Where the scan's thread is: waiting for the pause event, past it, in a step, or out of the loop. */
  datatype Place = Waiting | Awake | Stepping | Ended

  datatype State = State(place: Place, eventSet: bool, stopRequested: bool, config: Config)

  datatype Event =
    | WakeUp                 // the scan's thread finds the pause event set
    | Check                  // it looks at the stop request and starts a step, or leaves the loop
    | Complete(a: Attempt)   // the step it started returns
    | Pause                  // another thread clears the event
    | Resume                 // another thread sets the event; also the second half of request_stop
    | RaiseStop              // the first half of request_stop

  predicate Enabled(s: State, e: Event) {
    match e
    case WakeUp => s.place == Waiting && s.eventSet
    case Check => s.place == Awake
    case Complete(_) => s.place == Stepping && Aligned(s.config.scan)
    case _ => true
  }

  function Next(s: State, e: Event): State
    requires Enabled(s, e)
  {
    match e
    case WakeUp => s.(place := Awake)
    case Check => s.(place := if s.stopRequested then Ended else Stepping)
    case Complete(a) =>
      var (c, outcome) := Step(s.config, a);
      s.(config := c, place := if outcome.Stepped? then Waiting else Ended)
    case Pause => s.(eventSet := false)
    case Resume => s.(eventSet := true)
    case RaiseStop => s.(stopRequested := true)
  }

  /** `events` can happen one after the other from `s`. */
  ghost predicate Possible(s: State, events: seq<Event>)
    decreases |events|
  {
    events == [] || (Enabled(s, events[0]) && Possible(Next(s, events[0]), events[1..]))
  }

  ghost function After(s: State, events: seq<Event>): State
    requires Possible(s, events)
    decreases |events|
  {
    if events == [] then s else After(Next(s, events[0]), events[1..])
  }

  ghost function StepsCompleted(events: seq<Event>): nat {
    if events == [] then 0 else (if events[0].Complete? then 1 else 0) + StepsCompleted(events[1..])
  }

  // ---------------------------------------------------------------- pausing and stopping

  /** Once paused, a scan completes at most the step already under way or just about to start, until
      somebody sets the event again; none if it was waiting at its checkpoint. */
  lemma {:induction false} PausedScanCompletesAtMostOneStep(s: State, events: seq<Event>)
    requires Possible(s, events) && !s.eventSet && Resume !in events
    ensures StepsCompleted(events) <= if s.place == Awake || s.place == Stepping then 1 else 0
    ensures StepsCompleted(events) == 0 ==> After(s, events).config == s.config
    decreases |events|
  {
    if events != [] {
      PausedScanCompletesAtMostOneStep(Next(s, events[0]), events[1..]);
    }
  }

  /** Once a stop is requested, only a step that has already started is still completed, whatever
      pauses and resumes follow. */
  lemma {:induction false} StoppedScanCompletesAtMostOneStep(s: State, events: seq<Event>)
    requires Possible(s, events) && s.stopRequested
    ensures StepsCompleted(events) <= if s.place == Stepping then 1 else 0
    ensures After(s, events).stopRequested
    decreases |events|
  {
    if events != [] {
      StoppedScanCompletesAtMostOneStep(Next(s, events[0]), events[1..]);
    }
  }

  /** Whether the last pause or resume was a resume. */
  ghost function LastWasResume(initially: bool, events: seq<Event>): bool
    decreases |events|
  {
    if events == [] then initially
    else LastWasResume(if events[0].Pause? then false else if events[0].Resume? then true else initially, events[1..])
  }

  /** A scan hangs at its checkpoint exactly when the last call was a pause -- even when a stop has
      been requested before that pause. */
  lemma {:induction false} HangsIffPausedLast(s: State, events: seq<Event>)
    requires Possible(s, events)
    ensures var t := After(s, events);
            t.place == Waiting ==> (!Enabled(t, WakeUp) <==> !LastWasResume(s.eventSet, events))
    decreases |events|
  {
    if events != [] {
      HangsIffPausedLast(Next(s, events[0]), events[1..]);
    }
  }

  /** What the scan's own thread does. */
  predicate ByThread(e: Event) { e.WakeUp? || e.Check? || e.Complete? }

  ghost function ThreadEvents(events: seq<Event>): nat {
    if events == [] then 0 else (if ByThread(events[0]) then 1 else 0) + ThreadEvents(events[1..])
  }

  /** How many more events the thread of a stopped scan has before it leaves its loop. */
  function ThreadLeft(place: Place): nat {
    match place
    case Stepping => 3
    case Waiting => 2
    case Awake => 1
    case Ended => 0
  }

  /** A stop that no pause follows ends the scan: until it has left its loop its thread can go on, and
      it does so at most three times. */
  lemma {:induction false} StoppedScanEnds(s: State, events: seq<Event>)
    requires Possible(s, events) && Aligned(s.config.scan)
    requires s.stopRequested && s.eventSet && Pause !in events
    ensures var t := After(s, events);
            && ThreadEvents(events) + ThreadLeft(t.place) <= ThreadLeft(s.place)
            && (t.place != Ended ==> exists e :: ByThread(e) && Enabled(t, e))
    decreases |events|
  {
    if events == [] {
      var a := Attempt([], [], true, NoFailure, true, None, None, None);
      assert s.place == Waiting ==> Enabled(s, WakeUp);
      assert s.place == Awake ==> Enabled(s, Check);
      assert s.place == Stepping ==> Enabled(s, Event.Complete(a));
    } else {
      if events[0].Complete? { StepAligned(s.config, events[0].a); }
      StoppedScanEnds(Next(s, events[0]), events[1..]);
    }
  }

  /** A stop requested before a pause does not end the scan. */
  lemma {:induction false} StopThenPauseHangs(s: State)
    requires s.place == Waiting
    ensures Possible(s, [RaiseStop, Resume, Pause])
    ensures var t := After(s, [RaiseStop, Resume, Pause]);
            t.stopRequested && t.place == Waiting && !Enabled(t, WakeUp)
  {
    var s1 := Next(s, RaiseStop);
    var s2 := Next(s1, Resume);
    assert [RaiseStop, Resume, Pause][1..] == [Resume, Pause] && [Resume, Pause][1..] == [Pause] && [Pause][1..] == [];
    assert Possible(s2, [Pause]) && Possible(s1, [Resume, Pause]);
    assert After(s2, [Pause]) == Next(s2, Pause);
    assert After(s1, [Resume, Pause]) == After(s2, [Pause]);
  }

  // ---------------------------------------------------------------- saving and resuming elsewhere

  /** What is saved of a scan: the steps not yet done and the whole grid. */
  datatype Snapshot = Snapshot(values: seq<Point>, pulses: seq<real>, grid: Option<Grid>)

  function Remaining(s: Scan): Snapshot { Snapshot(s.valuesTodo, s.pulsesTodo, s.grid) }

  /** The scan rebuilt from a snapshot: a new scan of the remaining steps. */
  function Resumed(snap: Snapshot, ndim: nat): Result<Scan, string> {
    NewScan(snap.values, PerStep(snap.pulses), 1, snap.grid, ndim)
  }

  ghost function RestOfPlan(plan: seq<Planned>, done: nat): seq<Planned>
    requires done <= |plan|
  {
    plan[done..]
  }

  lemma ResumedScanPlans(s: Scan, plan: seq<Planned>, accepted: seq<Attempt>, left: nat)
    requires ListsKept(s, plan, accepted, left)
    ensures s.nextStep <= |plan|
    ensures Resumed(Remaining(s), s.ndim).Ok?
    ensures ListsKept(Resumed(Remaining(s), s.ndim).value, RestOfPlan(plan, s.nextStep), [], 0)
    ensures Targets(plan) == s.valuesDone + Targets(RestOfPlan(plan, s.nextStep))
    ensures Exposures(plan) == s.pulsesDone + Exposures(RestOfPlan(plan, s.nextStep))
  {
    assert |plan| == |Targets(plan)| && |plan| == |Exposures(plan)|;
    var rest := RestOfPlan(plan, s.nextStep);
    assert Targets(rest) == Targets(plan)[s.nextStep..] == s.valuesTodo;
    assert Exposures(rest) == Exposures(plan)[s.nextStep..] == s.pulsesTodo;
  }

  /** The scan rebuilt from a snapshot and run to its end does exactly the steps the first scan had
      left, with their exposures: the two together do the plan once, in order. */
  lemma {:induction false} ResumedScanCompletesThePlan(c: Config, plan: seq<Planned>, attempts: seq<Attempt>, later: seq<Attempt>)
    requires Aligned(c.scan) && ListsKept(c.scan, plan, [], 0)
    ensures var s := Run(c, attempts).scan;
            && Resumed(Remaining(s), s.ndim).Ok?
            && var c2 := Config(Resumed(Remaining(s), s.ndim).value, None);
            && Aligned(c2.scan)
            && (Run(c2, later).scan.valuesTodo == [] ==>
                  && s.valuesDone + Run(c2, later).scan.valuesDone == Targets(PlanAfter(plan, c, attempts))
                  && s.pulsesDone + Run(c2, later).scan.pulsesDone == Exposures(PlanAfter(plan, c, attempts)))
  {
    RunKeepsLists(c, plan, attempts);
    var s, made := Run(c, attempts).scan, PlanAfter(plan, c, attempts);
    ResumedScanPlans(s, made, AcceptedIn(c, attempts), EntriesLeft(c, attempts));
    var c2, rest := Config(Resumed(Remaining(s), s.ndim).value, None), RestOfPlan(made, s.nextStep);
    RunKeepsLists(c2, rest, later);
    FixedPlanStays(c2, rest, later);
    var t := Run(c2, later).scan;
    if t.valuesTodo == [] {
      assert t.valuesDone + [] == t.valuesDone && t.pulsesDone + [] == t.pulsesDone && t.pulsesTodo == [];
    }
  }

  /** A snapshot taken of a scan paused at its checkpoint stays what the scan has left to do, until
      somebody resumes it. */
  lemma {:induction false} PausedSnapshotStaysCurrent(s: State, events: seq<Event>)
    requires Possible(s, events) && s.place == Waiting && !s.eventSet && Resume !in events
    ensures Remaining(After(s, events).config.scan) == Remaining(s.config.scan)
  {
    PausedScanCompletesAtMostOneStep(s, events);
  }

  /** A snapshot taken while a step is under way still contains that step: it is done twice, by both
      scans, exactly when the step is accepted. */
  lemma SnapshotDuringAStepRepeatsIt(c: Config, plan: seq<Planned>, accepted: seq<Attempt>, left: nat, a: Attempt)
    requires Aligned(c.scan) && ListsKept(c.scan, plan, accepted, left) && c.driver.None?
    ensures var s, t := c.scan, Step(c, a).0.scan;
            t.valuesDone + Remaining(s).values == Targets(plan) <==> !Accepts(c, a)
  {
    assert |c.scan.valuesDone + c.scan.valuesTodo| == |Targets(plan)|;
  }

  // ---------------------------------------------------------------- grid labels after resuming

  /** The position of step `i` within its pass over `n` cells. */
  function Phase(i: nat, n: nat): nat
    requires n > 0
  {
    if i < n then i else Phase(i - n, n)
  }

  lemma {:induction false} PhaseShift(done: nat, i: nat, n: nat)
    requires n > 0 && Phase(done, n) == 0
    ensures Phase(done + i, n) == Phase(i, n)
  {
    if done >= n { PhaseShift(done - n, i, n); }
  }

  lemma {:induction false} PhaseBelow(i: nat, n: nat)
    requires n > 0
    ensures Phase(i, n) < n
  {
    if i >= n { PhaseBelow(i - n, n); }
  }

  lemma {:induction false} RepeatAt<T>(base: seq<T>, passes: int, i: nat)
    requires base != [] && i < |Repeat(base, passes)|
    ensures Phase(i, |base|) < |base| && Repeat(base, passes)[i] == base[Phase(i, |base|)]
    decreases passes
  {
    PhaseBelow(i, |base|);
    if passes > 1 && i >= |base| { RepeatAt(base, passes - 1, i - |base|); }
  }

  lemma {:induction false} RepeatWholePasses<T>(base: seq<T>, passes: int)
    requires base != []
    ensures Phase(|Repeat(base, passes)|, |base|) == 0 && |Repeat(base, passes)| > 0
    decreases passes
  {
    if passes > 1 { RepeatWholePasses(base, passes - 1); }
  }

  /** The recorded labels are the entries of `cells` from its start, as far as no entry was left behind. */
  ghost predicate LabelledFromStart(s: Scan, cells: seq<GridCell>, left: nat) {
    && s.grid.Some? && s.grid.value.indexPlan == cells
    && |s.info.steps| == s.nextStep + left
    && (left == 0 ==>
          && s.nextStep <= |cells|
          && forall i :: 0 <= i < s.nextStep ==> s.info.steps[i].gridIndex == Some(cells[i]))
  }

  lemma StepLabels(c: Config, cells: seq<GridCell>, left: nat, a: Attempt)
    requires Aligned(c.scan) && c.driver.None? && LabelledFromStart(c.scan, cells, left)
    ensures Step(c, a).0.driver.None?
    ensures LabelledFromStart(Step(c, a).0.scan, cells, left + if LeavesEntry(c, a) then 1 else 0)
  {
  }

  lemma {:induction false} RunLabels(c: Config, cells: seq<GridCell>, attempts: seq<Attempt>)
    requires Aligned(c.scan) && c.driver.None? && LabelledFromStart(c.scan, cells, 0)
    ensures Run(c, attempts).driver.None?
    ensures LabelledFromStart(Run(c, attempts).scan, cells, EntriesLeft(c, attempts))
  {
    if attempts != [] {
      var front := attempts[..|attempts| - 1];
      RunLabels(c, cells, front);
      StepLabels(Run(c, front), cells, EntriesLeft(c, front), attempts[|attempts| - 1]);
    }
  }

  /** The scan rebuilt from a snapshot of `s`. */
  ghost function ResumedConfig(s: Scan): Config
    requires Resumed(Remaining(s), s.ndim).Ok?
  {
    Config(Resumed(Remaining(s), s.ndim).value, None)
  }

  lemma ResumedConfigStarts(s: Scan, plan: seq<Planned>, accepted: seq<Attempt>, left: nat)
    requires Boundary(s, plan, accepted, left) && s.grid.Some?
    ensures Resumed(Remaining(s), s.ndim).Ok? && s.nextStep <= |plan|
    ensures var c := ResumedConfig(s);
            && Aligned(c.scan) && c.driver.None?
            && ListsKept(c.scan, RestOfPlan(plan, s.nextStep), [], 0)
            && LabelledFromStart(c.scan, s.grid.value.indexPlan, 0)
  {
    ResumedScanPlans(s, plan, accepted, left);
  }

  /** In every run of a resumed grid scan, step i is labelled with entry i of the plan that was saved,
      and does what the first scan would have done as step done + i. (`s` is the first scan at any step
      boundary of any run, by `RunKeepsBoundary`.) */
  lemma {:induction false} ResumedRunLabelsFromTheStart(s: Scan, plan: seq<Planned>, accepted: seq<Attempt>, left: nat, later: seq<Attempt>, i: nat)
    requires Boundary(s, plan, accepted, left) && s.grid.Some?
    ensures Resumed(Remaining(s), s.ndim).Ok? && Aligned(ResumedConfig(s).scan)
    ensures var c, t := ResumedConfig(s), Run(ResumedConfig(s), later).scan;
            EntriesLeft(c, later) == 0 && i < t.nextStep ==>
              && |t.info.steps| == t.nextStep == |t.valuesDone| && s.nextStep + t.nextStep <= |plan| == |s.grid.value.indexPlan|
              && t.info.steps[i].gridIndex == Some(s.grid.value.indexPlan[i])
              && t.valuesDone[i] == plan[s.nextStep + i].target
  {
    ResumedConfigStarts(s, plan, accepted, left);
    var c, rest := ResumedConfig(s), RestOfPlan(plan, s.nextStep);
    RunKeepsLists(c, rest, later);
    FixedPlanStays(c, rest, later);
    RunLabels(c, s.grid.value.indexPlan, later);
    var t := Run(c, later).scan;
    DoneIsPartOfPlan(plan, s.nextStep, t.valuesDone, t.valuesTodo, i);
  }

  lemma DoneIsPartOfPlan(plan: seq<Planned>, start: nat, done: seq<Point>, todo: seq<Point>, i: nat)
    requires start <= |plan| && done + todo == Targets(RestOfPlan(plan, start))
    ensures start + |done| <= |plan| && (i < |done| ==> done[i] == plan[start + i].target)
  {
    assert |Targets(RestOfPlan(plan, start))| == |done + todo|;
    if i < |done| { assert (done + todo)[i] == done[i]; }
  }

  /** Each step of a resumed scan is labelled with the cell that the first scan had planned for it. */
  ghost predicate LabelsRight(t: Scan, cells: seq<GridCell>, done: nat) {
    && |t.info.steps| == t.nextStep && done + t.nextStep <= |cells|
    && forall i :: 0 <= i < t.nextStep ==> t.info.steps[i].gridIndex == Some(cells[done + i])
  }

  /** The plan of cells repeats itself after its first `done` entries. */
  ghost predicate RepeatsAfter(cells: seq<GridCell>, done: nat)
    requires done <= |cells|
  {
    forall i :: 0 <= i < |cells| - done ==> cells[i] == cells[done + i]
  }

  /** A resumed scan done to its end has all labels right exactly when the saved plan of cells repeats
      itself after the steps that were done: for fixed and growing grids, whatever their cells. */
  lemma {:induction false} ResumedLabelsRightIff(s: Scan, plan: seq<Planned>, accepted: seq<Attempt>, left: nat, later: seq<Attempt>)
    requires Boundary(s, plan, accepted, left) && s.grid.Some?
    ensures Resumed(Remaining(s), s.ndim).Ok? && Aligned(ResumedConfig(s).scan) && s.nextStep <= |s.grid.value.indexPlan|
    ensures var c, t := ResumedConfig(s), Run(ResumedConfig(s), later).scan;
            t.valuesTodo == [] && EntriesLeft(c, later) == 0 ==>
              (LabelsRight(t, s.grid.value.indexPlan, s.nextStep) <==> RepeatsAfter(s.grid.value.indexPlan, s.nextStep))
  {
    ResumedConfigStarts(s, plan, accepted, left);
    var c, rest := ResumedConfig(s), RestOfPlan(plan, s.nextStep);
    RunKeepsLists(c, rest, later);
    FixedPlanStays(c, rest, later);
    RunLabels(c, s.grid.value.indexPlan, later);
    var t := Run(c, later).scan;
    assert |Targets(rest)| == |t.valuesDone + t.valuesTodo|;
    if t.valuesTodo == [] && EntriesLeft(c, later) == 0 {
      LabelsRightIff(t, s.grid.value.indexPlan, s.nextStep);
    }
  }

  lemma LabelsRightIff(t: Scan, cells: seq<GridCell>, done: nat)
    requires LabelledFromStart(t, cells, 0) && done + t.nextStep == |cells|
    ensures LabelsRight(t, cells, done) <==> RepeatsAfter(cells, done)
  {
    if LabelsRight(t, cells, done) {
      forall i | 0 <= i < |cells| - done ensures cells[i] == cells[done + i] {
        assert t.info.steps[i].gridIndex == Some(cells[done + i]);
      }
    }
  }

  /** A grid measured in whole passes repeats itself exactly after complete passes. */
  lemma {:induction false} PassesRepeatIff(base: seq<GridCell>, passes: int, done: nat)
    requires base != [] && done <= |Repeat(base, passes)|
    requires forall i, j :: 0 <= i < j < |base| ==> base[i] != base[j]
    ensures RepeatsAfter(Repeat(base, passes), done) <==> Phase(done, |base|) == 0
  {
    var cells, n := Repeat(base, passes), |base|;
    RepeatWholePasses(base, passes);
    if Phase(done, n) == 0 {
      forall i | 0 <= i < |cells| - done ensures cells[i] == cells[done + i] {
        RepeatAt(base, passes, i);
        RepeatAt(base, passes, done + i);
        PhaseShift(done, i, n);
      }
    } else {
      RepeatAt(base, passes, 0);
      RepeatAt(base, passes, done);
      assert cells[0] != cells[done + 0];
    }
  }

  /** A plan without repeated cells repeats itself only if nothing was done or nothing is left. */
  lemma DistinctCellsRepeatIff(cells: seq<GridCell>, done: nat)
    requires done <= |cells| && forall i, j :: 0 <= i < j < |cells| ==> cells[i] != cells[j]
    ensures RepeatsAfter(cells, done) <==> done == 0 || done == |cells|
  {
    if 0 < done < |cells| { assert cells[0] != cells[done + 0]; }
  }

  /** A grid of two cells, left after its first step: the resumed scan measures the second cell and
      labels it as the first. */
  lemma ResumedLabelIsWrong()
    ensures var grid := Grid([[1.0, 2.0]], [[0], [1]], [[0], [1]]);
            var r := NewScan([[1.0], [2.0]], Each(10.0), 1, Some(grid), 1);
            var good := Attempt([1.0], [], true, NoFailure, true, None, None, None);
            && r.Ok? && Aligned(r.value)
            && var s := Run(Config(r.value, None), [good]).scan;
            && Resumed(Remaining(s), 1).Ok? && Aligned(Resumed(Remaining(s), 1).value)
            && var t := Run(Config(Resumed(Remaining(s), 1).value, None), [good]).scan;
            && t.valuesDone == [[2.0]] && |t.info.steps| == 1 && t.info.steps[0].gridIndex == Some([0])
            && CellPoint(grid.positions, [0]) == Some([1.0])
  {
    var grid := Grid([[1.0, 2.0]], [[0], [1]], [[0], [1]]);
    var scan := NewScan([[1.0], [2.0]], Each(10.0), 1, Some(grid), 1).value;
    var good := Attempt([1.0], [], true, NoFailure, true, None, None, None);
    var c := Config(scan, None);
    assert [good][..0] == [];
    var s := Step(c, good).0.scan;
    assert Run(c, [good]) == Step(c, good).0;
    var c2 := Config(Resumed(Remaining(s), 1).value, None);
    assert Run(c2, [good]) == Step(c2, good).0;
    var cell: GridCell := [0];
    var rest := CellPoint(grid.positions[1..], cell[1..]);
    assert cell[1..] == [] && rest == Some([]);
    assert CellPoint(grid.positions, cell) == Some([grid.positions[0][0]] + rest.value);
    assert [grid.positions[0][0]] + rest.value == [1.0];
  }
}
