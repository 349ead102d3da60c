/**
 The plan of a grid scan (eco/acquisition/scan.py, `meshscan` and `scan`): the order in which the
 cells of the grid are measured, and each step's targets.
 */
module GridPlan {
  import opened Collections
  import opened ScanModel
  import opened ScanRuns
  import opened ScanMesh

  type Shape = seq<nat>

  // ---------------------------------------------------------------- the cells in order

  /** The cells that continue `cell` along a further dimension of `n` positions. */
  function Row(cell: GridCell, n: nat): (r: seq<GridCell>)
    ensures |r| == n
  {
    seq(n, i requires 0 <= i < n => cell + [i])
  }

  function Rows(cells: seq<GridCell>, n: nat): seq<GridCell> {
    if cells == [] then [] else Rows(cells[..|cells| - 1], n) + Row(cells[|cells| - 1], n)
  }

  /** The product of the ranges of a grid's dimensions, one range after the other. */
  function Product(shape: Shape): seq<GridCell> {
    if shape == [] then [[]] else Rows(Product(shape[..|shape| - 1]), shape[|shape| - 1])
  }

  function Reversed<T>(s: seq<T>): (r: seq<T>)
    ensures |r| == |s|
    ensures forall i :: 0 <= i < |s| ==> r[i] == s[|s| - 1 - i]
  {
    seq(|s|, i requires 0 <= i < |s| => s[|s| - 1 - i])
  }

  function ReversedCells(cells: seq<GridCell>): seq<GridCell> {
    seq(|cells|, i requires 0 <= i < |cells| => Reversed(cells[i]))
  }

  /** The plan of cells in a scanning order; None for an order that is neither of the two. */
  function IndexPlan(shape: Shape, order: string): Option<seq<GridCell>> {
    if order == "last_fastest" then Some(Product(shape))
    else if order == "first_fastest" then Some(ReversedCells(Product(Reversed(shape))))
    else None
  }

  predicate InShape(cell: GridCell, shape: Shape) {
    |cell| == |shape| && forall d :: 0 <= d < |cell| ==> cell[d] < shape[d]
  }

  // ---------------------------------------------------------------- steps and cells, one to one

  /** The number of cells of a grid. */
  function Size(shape: Shape): nat {
    if shape == [] then 1 else Size(shape[..|shape| - 1]) * shape[|shape| - 1]
  }

  /** A cell read as a number whose last digit counts fastest. */
  function Number(shape: Shape, cell: GridCell): nat
    requires |cell| == |shape|
  {
    if shape == [] then 0
    else
      var last := |shape| - 1;
      Number(shape[..last], cell[..last]) * shape[last] + cell[last]
  }

  lemma {:induction false} RowsLength(cells: seq<GridCell>, n: nat)
    ensures |Rows(cells, n)| == |cells| * n
  {
    if cells != [] {
      RowsLength(cells[..|cells| - 1], n);
      assert (|cells| - 1) * n + n == |cells| * n;
    }
  }

  lemma {:induction false} RowsAt(cells: seq<GridCell>, n: nat, j: nat, i: nat)
    requires j < |cells| && i < n
    ensures j * n + i < |Rows(cells, n)| && Rows(cells, n)[j * n + i] == cells[j] + [i]
  {
    var front := cells[..|cells| - 1];
    RowsLength(cells, n);
    RowsLength(front, n);
    if j < |front| {
      RowsAt(front, n, j, i);
    } else {
      assert j == |front| && j * n == |Rows(front, n)|;
      assert Rows(cells, n)[j * n + i] == Row(cells[j], n)[i];
    }
  }

  /** Every row number is the one of exactly one cell and place in its row. */
  lemma {:induction false} SplitNumber(k: nat, rows: nat, n: nat) returns (j: nat, i: nat)
    requires k < rows * n
    ensures j < rows && i < n && k == j * n + i
  {
    if k < (rows - 1) * n {
      j, i := SplitNumber(k, rows - 1, n);
    } else {
      j, i := rows - 1, k - (rows - 1) * n;
    }
  }

  lemma {:induction false} ProductLength(shape: Shape)
    ensures |Product(shape)| == Size(shape)
  {
    if shape != [] {
      ProductLength(shape[..|shape| - 1]);
      RowsLength(Product(shape[..|shape| - 1]), shape[|shape| - 1]);
    }
  }

  /** A cell of the grid is measured in the step whose number is the cell's number. */
  lemma {:induction false} CellHasItsStep(shape: Shape, cell: GridCell)
    requires InShape(cell, shape)
    ensures Number(shape, cell) < |Product(shape)| && Product(shape)[Number(shape, cell)] == cell
  {
    if shape != [] {
      var last := |shape| - 1;
      CellHasItsStep(shape[..last], cell[..last]);
      RowsAt(Product(shape[..last]), shape[last], Number(shape[..last], cell[..last]), cell[last]);
      assert cell == cell[..last] + [cell[last]];
    }
  }

  /** A step measures a cell of the grid, the one whose number is the step's number. */
  lemma {:induction false} StepHasItsCell(shape: Shape, k: nat)
    requires k < |Product(shape)|
    ensures InShape(Product(shape)[k], shape) && Number(shape, Product(shape)[k]) == k
  {
    if shape != [] {
      var last := |shape| - 1;
      var rows := Product(shape[..last]);
      RowsLength(rows, shape[last]);
      var j, i := SplitNumber(k, |rows|, shape[last]);
      RowsAt(rows, shape[last], j, i);
      StepHasItsCell(shape[..last], j);
      var cell := Product(shape)[k];
      assert cell[..last] == rows[j] && cell[last] == i;
      forall d | 0 <= d < |cell| ensures cell[d] < shape[d] {
        if d < last { assert cell[d] == rows[j][d] && shape[d] == shape[..last][d]; }
      }
    }
  }

  /** Counting on: the last digit that can grow does, the ones behind it start again. */
  function NextCell(shape: Shape, cell: GridCell): GridCell
    requires |cell| == |shape|
  {
    if shape == [] then []
    else
      var last := |shape| - 1;
      if cell[last] + 1 < shape[last] then cell[..last] + [cell[last] + 1]
      else NextCell(shape[..last], cell[..last]) + [0]
  }

  /** From step to step the last dimension moves fastest. */
  lemma {:induction false} LastMovesFastest(shape: Shape, k: nat)
    requires k + 1 < |Product(shape)|
    ensures |Product(shape)[k]| == |shape| && Product(shape)[k + 1] == NextCell(shape, Product(shape)[k])
  {
    StepHasItsCell(shape, k);
    var last := |shape| - 1;
    var rows, n := Product(shape[..last]), shape[last];
    RowsLength(rows, n);
    var j, i := SplitNumber(k, |rows|, n);
    RowsAt(rows, n, j, i);
    NextOfRow(shape, rows[j], i);
    if i + 1 < n {
      RowsAt(rows, n, j, i + 1);
    } else {
      NextRow(|rows|, n, j, k);
      RowsAt(rows, n, j + 1, 0);
      LastMovesFastest(shape[..last], j);
    }
  }

  lemma {:induction false} NextOfRow(shape: Shape, row: GridCell, i: nat)
    requires shape != [] && |row| == |shape| - 1
    ensures NextCell(shape, row + [i])
            == if i + 1 < shape[|row|] then row + [i + 1] else NextCell(shape[..|row|], row) + [0]
  {
    assert (row + [i])[..|row|] == row;
  }

  /** Behind the last place of a row comes the first of the next one. */
  lemma NextRow(rows: nat, n: nat, j: nat, k: nat)
    requires n > 0 && j < rows && k == j * n + n - 1 && k + 1 < rows * n
    ensures j + 1 < rows && k + 1 == (j + 1) * n
  {
  }

  // ---------------------------------------------------------------- the other scanning order

  lemma ReversedTwice<T>(s: seq<T>)
    ensures Reversed(Reversed(s)) == s
  {
  }

  lemma ReversedInShape(cell: GridCell, shape: Shape)
    ensures InShape(Reversed(cell), Reversed(shape)) <==> InShape(cell, shape)
  {
    if InShape(Reversed(cell), Reversed(shape)) {
      forall d | 0 <= d < |cell| ensures cell[d] < shape[d] {
        assert Reversed(cell)[|cell| - 1 - d] < Reversed(shape)[|cell| - 1 - d];
      }
    }
  }

  /** A sequence that holds each cell of the grid once and nothing else. */
  ghost predicate EachCellOnce(cells: seq<GridCell>, shape: Shape) {
    && (forall k :: 0 <= k < |cells| ==> InShape(cells[k], shape))
    && (forall j, k :: 0 <= j < k < |cells| ==> cells[j] != cells[k])
    && (forall cell: GridCell :: InShape(cell, shape) ==> cell in cells)
  }

  lemma {:induction false} ProductHasEachCellOnce(shape: Shape)
    ensures EachCellOnce(Product(shape), shape)
  {
    var cells := Product(shape);
    forall k | 0 <= k < |cells| ensures InShape(cells[k], shape) { StepHasItsCell(shape, k); }
    forall j, k | 0 <= j < k < |cells| ensures cells[j] != cells[k] {
      StepHasItsCell(shape, j);
      StepHasItsCell(shape, k);
    }
    forall cell: GridCell | InShape(cell, shape) ensures cell in cells { CellHasItsStep(shape, cell); }
  }

  lemma ReversedHasEachCellOnce(cells: seq<GridCell>, shape: Shape)
    requires EachCellOnce(cells, Reversed(shape))
    ensures EachCellOnce(ReversedCells(cells), shape)
  {
    var back := ReversedCells(cells);
    forall k | 0 <= k < |back| ensures InShape(back[k], shape) {
      ReversedInShape(cells[k], Reversed(shape));
      ReversedTwice(shape);
    }
    forall j, k | 0 <= j < k < |back| ensures back[j] != back[k] {
      ReversedTwice(cells[j]);
      ReversedTwice(cells[k]);
      assert cells[j] != cells[k];
    }
    forall cell: GridCell | InShape(cell, shape) ensures cell in back {
      ReversedInShape(cell, shape);
      var k :| 0 <= k < |cells| && cells[k] == Reversed(cell);
      ReversedTwice(cell);
      assert back[k] == cell;
    }
  }

  lemma {:induction false} CountOnce<T>(s: seq<T>, x: T)
    requires forall j, k :: 0 <= j < k < |s| ==> s[j] != s[k]
    ensures multiset(s)[x] == if x in s then 1 else 0
  {
    if s != [] {
      var front := s[..|s| - 1];
      assert s == front + [s[|s| - 1]];
      CountOnce(front, x);
    }
  }

  lemma SameCells(a: seq<GridCell>, b: seq<GridCell>, shape: Shape)
    requires EachCellOnce(a, shape) && EachCellOnce(b, shape)
    ensures multiset(a) == multiset(b) && |a| == |b|
  {
    forall cell: GridCell ensures multiset(a)[cell] == multiset(b)[cell] {
      CountOnce(a, cell);
      CountOnce(b, cell);
      if cell in a || cell in b { assert InShape(cell, shape); }
    }
    assert multiset(a) == multiset(b);
    assert |multiset(a)| == |a| && |multiset(b)| == |b|;
  }

  /** Either order measures every cell of the grid exactly once; the one is a permutation of the
      other, and no other order has a plan. */
  lemma {:induction false} BothOrdersMeasureEachCellOnce(shape: Shape, order: string)
    ensures IndexPlan(shape, order).Some? <==> order == "last_fastest" || order == "first_fastest"
    ensures var r := IndexPlan(shape, order);
            r.Some? ==> EachCellOnce(r.value, shape) && |r.value| == Size(shape)
                        && multiset(r.value) == multiset(Product(shape))
  {
    ProductHasEachCellOnce(shape);
    ProductLength(shape);
    ProductHasEachCellOnce(Reversed(shape));
    ReversedHasEachCellOnce(Product(Reversed(shape)), shape);
    SameCells(ReversedCells(Product(Reversed(shape))), Product(shape), shape);
  }

  /** The other order's step k is the mirror image of counting with the first digit fastest. */
  lemma FirstMovesFastest(shape: Shape, k: nat)
    requires k + 1 < |ReversedCells(Product(Reversed(shape)))|
    ensures var cells := ReversedCells(Product(Reversed(shape)));
            && |cells[k]| == |shape|
            && cells[k + 1] == Reversed(NextCell(Reversed(shape), Reversed(cells[k])))
  {
    LastMovesFastest(Reversed(shape), k);
    ReversedTwice(Product(Reversed(shape))[k]);
  }

  // ---------------------------------------------------------------- axes and their positions

  datatype Line = Line(adjustable: string, positions: seq<real>)

  /** A dimension of the grid: one adjustable, or several that move together. */
  datatype Axis = Single(line: Line) | Together(lines: seq<Line>)

  /** A dimension's position: a number, or one number per adjustable that moves. */
  datatype Position = One(x: real) | Several(xs: Point)

  function LinesOf(axis: Axis): seq<Line> {
    match axis
    case Single(line) => [line]
    case Together(lines) => lines
  }

  /** Adjustables that move together have the same number of positions. */
  predicate Matching(axis: Axis) {
    var lines := LinesOf(axis);
    lines != [] && forall m :: 0 <= m < |lines| ==> |lines[m].positions| == |lines[0].positions|
  }

  predicate AllMatching(axes: seq<Axis>) { forall d :: 0 <= d < |axes| ==> Matching(axes[d]) }

  /** The positions of several lines at index `i`. */
  function Across(lines: seq<Line>, i: nat): Point
    requires forall m :: 0 <= m < |lines| ==> i < |lines[m].positions|
  {
    seq(|lines|, m requires 0 <= m < |lines| => lines[m].positions[i])
  }

  function PositionsOf(axis: Axis): (r: seq<Position>)
    requires Matching(axis)
    ensures |r| == |LinesOf(axis)[0].positions|
  {
    match axis
    case Single(line) => seq(|line.positions|, i requires 0 <= i < |line.positions| => One(line.positions[i]))
    case Together(lines) =>
      seq(|lines[0].positions|, i requires 0 <= i < |lines[0].positions| => Several(Across(lines, i)))
  }

  function AllPositions(axes: seq<Axis>): seq<seq<Position>>
    requires AllMatching(axes)
  {
    seq(|axes|, d requires 0 <= d < |axes| => PositionsOf(axes[d]))
  }

  function ShapeOf<T>(positions: seq<seq<T>>): (r: Shape) {
    seq(|positions|, d requires 0 <= d < |positions| => |positions[d]|)
  }

  function Concat<T>(parts: seq<seq<T>>): seq<T> {
    if parts == [] then [] else Concat(parts[..|parts| - 1]) + parts[|parts| - 1]
  }

  function AllLines(axes: seq<Axis>): seq<seq<Line>> {
    seq(|axes|, d requires 0 <= d < |axes| => LinesOf(axes[d]))
  }

  /** The lines of all adjustables, dimension after dimension. */
  function Flat(axes: seq<Axis>): seq<Line> { Concat(AllLines(axes)) }

  function Names(lines: seq<Line>): seq<string> {
    seq(|lines|, m requires 0 <= m < |lines| => lines[m].adjustable)
  }

  function Numbers(p: Position): Point {
    match p
    case One(x) => [x]
    case Several(xs) => xs
  }

  /** What each dimension contributes to the targets of a cell. */
  function Contributions(positions: seq<seq<Position>>, cell: GridCell): seq<Point>
    requires InShape(cell, ShapeOf(positions))
  {
    seq(|cell|, d requires 0 <= d < |cell| => (assert cell[d] < ShapeOf(positions)[d]; Numbers(positions[d][cell[d]])))
  }

  /** The targets of a cell: the dimensions' contributions one after the other. */
  function CellTargets(positions: seq<seq<Position>>, cell: GridCell): Point
    requires InShape(cell, ShapeOf(positions))
  {
    Concat(Contributions(positions, cell))
  }

  // ---------------------------------------------------------------- building the plan

  datatype GridScan<T> = GridScan(
    adjustables: seq<string>, shape: Shape, positions: seq<seq<T>>, indexPlan: seq<GridCell>, values: seq<Point>)

  const UNEQUAL_LINES := "Simultaneous scan adjustables must have the same number of step positions!"
  const UNKNOWN_ORDER := "no index plan for this scanning order"

  method ReadAxes(axes: seq<Axis>) returns (r: Result<seq<seq<Position>>, string>)
    ensures r == if AllMatching(axes) then Ok(AllPositions(axes)) else Err(UNEQUAL_LINES)
  {
    var positions: seq<seq<Position>> := [];
    for d := 0 to |axes|
      invariant AllMatching(axes[..d]) && positions == AllPositions(axes[..d])
    {
      if !Matching(axes[d]) { return Err(UNEQUAL_LINES); }
      positions := positions + [PositionsOf(axes[d])];
      assert axes[..d + 1] == axes[..d] + [axes[d]];
    }
    assert axes[..|axes|] == axes;
    return Ok(positions);
  }

  method StepTargets(positions: seq<seq<Position>>, cell: GridCell) returns (targets: Point)
    requires InShape(cell, ShapeOf(positions))
    ensures targets == CellTargets(positions, cell)
  {
    targets := [];
    for d := 0 to |cell|
      invariant targets == Concat(Contributions(positions, cell)[..d])
    {
      assert cell[d] < ShapeOf(positions)[d];
      assert Contributions(positions, cell)[..d + 1][..d] == Contributions(positions, cell)[..d];
      var position := positions[d][cell[d]];
      match position {
        case One(x) => targets := targets + [x];
        case Several(xs) => targets := targets + xs;
      }
    }
    assert Contributions(positions, cell)[..|cell|] == Contributions(positions, cell);
  }

  method FlatNames(axes: seq<Axis>) returns (names: seq<string>)
    ensures names == Names(Flat(axes))
  {
    names := [];
    for d := 0 to |axes|
      invariant names == Names(Concat(AllLines(axes)[..d]))
    {
      assert AllLines(axes)[..d + 1][..d] == AllLines(axes)[..d];
      match axes[d] {
        case Single(line) => names := names + [line.adjustable];
        case Together(lines) => names := names + Names(lines);
      }
    }
    assert AllLines(axes)[..|axes|] == AllLines(axes);
  }

  method PlanTargets(positions: seq<seq<Position>>, plan: seq<GridCell>) returns (values: seq<Point>)
    requires forall k :: 0 <= k < |plan| ==> InShape(plan[k], ShapeOf(positions))
    ensures |values| == |plan|
    ensures forall k :: 0 <= k < |values| ==> values[k] == CellTargets(positions, plan[k])
  {
    values := [];
    for k := 0 to |plan|
      invariant |values| == k
      invariant forall j :: 0 <= j < k ==> values[j] == CellTargets(positions, plan[j])
    {
      var targets := StepTargets(positions, plan[k]);
      values := values + [targets];
    }
  }

  /** The scan over `axes`: refused for adjustables that move together but not equally often and for
      an unknown order; otherwise one step per cell, with the targets of its cell. */
  method PlanScan(axes: seq<Axis>, order: string) returns (r: Result<GridScan<Position>, string>)
    ensures r.Ok? <==> AllMatching(axes) && (order == "last_fastest" || order == "first_fastest")
    ensures r.Ok? ==>
              && r.value.adjustables == Names(Flat(axes))
              && r.value.positions == AllPositions(axes) && r.value.shape == ShapeOf(AllPositions(axes))
              && IndexPlan(r.value.shape, order) == Some(r.value.indexPlan)
              && EachCellOnce(r.value.indexPlan, r.value.shape)
              && |r.value.values| == |r.value.indexPlan| == Size(r.value.shape)
              && forall k :: 0 <= k < |r.value.values| ==>
                   r.value.values[k] == CellTargets(r.value.positions, r.value.indexPlan[k])
    ensures r.Err? ==> r.error == if AllMatching(axes) then UNKNOWN_ORDER else UNEQUAL_LINES
  {
    var read := ReadAxes(axes);
    if read.Err? { return Err(read.error); }
    var positions := read.value;
    var shape := ShapeOf(positions);
    BothOrdersMeasureEachCellOnce(shape, order);
    var planned := IndexPlan(shape, order);
    if planned.None? { return Err(UNKNOWN_ORDER); }
    var plan := planned.value;
    var values := PlanTargets(positions, plan);
    var names := FlatNames(axes);
    return Ok(GridScan(names, shape, positions, plan, values));
  }

  /** Where the elements of two parts of the same length come in the concatenations. */
  lemma {:induction false} ConcatAt<S, T>(a: seq<seq<S>>, b: seq<seq<T>>, d: nat, m: nat)
    requires |a| == |b| && forall k :: 0 <= k < |a| ==> |a[k]| == |b[k]|
    requires d < |a| && m < |a[d]|
    ensures var at := |Concat(a[..d])| + m;
            && at < |Concat(a)| == |Concat(b)|
            && Concat(a)[at] == a[d][m] && Concat(b)[at] == b[d][m]
  {
    var n := |a| - 1;
    ConcatLengths(a[..n], b[..n]);
    if d < n {
      assert a[..n][..d] == a[..d];
      ConcatAt(a[..n], b[..n], d, m);
    }
  }

  lemma {:induction false} ConcatLengths<S, T>(a: seq<seq<S>>, b: seq<seq<T>>)
    requires |a| == |b| && forall d :: 0 <= d < |a| ==> |a[d]| == |b[d]|
    ensures |Concat(a)| == |Concat(b)|
  {
    if a != [] { ConcatLengths(a[..|a| - 1], b[..|b| - 1]); }
  }

  ghost predicate InGrid(axes: seq<Axis>, cell: GridCell) {
    AllMatching(axes) && InShape(cell, ShapeOf(AllPositions(axes)))
  }

  /** A dimension contributes the position of each of its adjustables. */
  lemma ContributionOf(axes: seq<Axis>, cell: GridCell, d: nat)
    requires InGrid(axes, cell) && d < |axes|
    ensures var lines, part := LinesOf(axes[d]), Contributions(AllPositions(axes), cell)[d];
            && |part| == |lines|
            && forall m :: 0 <= m < |lines| ==> cell[d] < |lines[m].positions| && part[m] == lines[m].positions[cell[d]]
  {
    assert Matching(axes[d]);
    assert cell[d] < ShapeOf(AllPositions(axes))[d];
  }

  /** One target per line, and the one at `at` is its line's position at index `i`. */
  ghost predicate TargetIs(targets: Point, flat: seq<Line>, at: nat, line: Line, i: nat) {
    && at < |flat| == |targets| && flat[at] == line
    && i < |line.positions| && targets[at] == line.positions[i]
  }

  lemma {:induction false} TargetAt(parts: seq<Point>, lines: seq<seq<Line>>, d: nat, m: nat, i: nat)
    requires |lines| == |parts| && forall k :: 0 <= k < |lines| ==> |lines[k]| == |parts[k]|
    requires d < |lines| && m < |lines[d]| && i < |lines[d][m].positions| && parts[d][m] == lines[d][m].positions[i]
    ensures TargetIs(Concat(parts), Concat(lines), |Concat(lines[..d])| + m, lines[d][m], i)
  {
    ConcatAt(lines, parts, d, m);
  }

  /** Each step of the scan has one target per adjustable: the adjustable's own position at the
      index of its dimension. The dimensions' adjustables follow one another without gaps. */
  lemma OneTargetPerAdjustable(axes: seq<Axis>, cell: GridCell, d: nat, m: nat)
    requires InGrid(axes, cell) && d < |axes| && m < |LinesOf(axes[d])|
    ensures TargetIs(CellTargets(AllPositions(axes), cell), Flat(axes), |Flat(axes[..d])| + m, LinesOf(axes[d])[m], cell[d])
  {
    var lines, parts := AllLines(axes), Contributions(AllPositions(axes), cell);
    forall n | 0 <= n < |axes| ensures |lines[n]| == |parts[n]| { ContributionOf(axes, cell, n); }
    ContributionOf(axes, cell, d);
    TargetAt(parts, lines, d, m, cell[d]);
    assert AllLines(axes[..d]) == lines[..d];
  }

  // ---------------------------------------------------------------- mesh scans

  /** What a mesh scan is given per dimension; anything that is no adjustable is dropped. */
  datatype MeshSpec = MeshSpec(line: Line, isAdjustable: bool)

  function Adjusting(): MeshSpec -> bool { (spec: MeshSpec) => spec.isAdjustable }

  function MeshLines(specs: seq<MeshSpec>): seq<Line> {
    var kept := Filter(specs, Adjusting());
    seq(|kept|, d requires 0 <= d < |kept| => kept[d].line)
  }

  function LinePositions(lines: seq<Line>): seq<seq<real>> {
    seq(|lines|, d requires 0 <= d < |lines| => lines[d].positions)
  }

  function PointAt(positions: seq<seq<real>>, cell: GridCell): Point
    requires InShape(cell, ShapeOf(positions))
  {
    seq(|cell|, d requires 0 <= d < |cell| => (assert cell[d] < ShapeOf(positions)[d]; positions[d][cell[d]]))
  }

  lemma {:induction false} CellPointIsPointAt(positions: seq<seq<real>>, cell: GridCell)
    requires InShape(cell, ShapeOf(positions))
    ensures CellPoint(positions, cell) == Some(PointAt(positions, cell))
  {
    if cell != [] {
      assert cell[0] < ShapeOf(positions)[0];
      forall d | 0 <= d < |cell| - 1 ensures cell[1..][d] < ShapeOf(positions[1..])[d] {
        assert cell[d + 1] < ShapeOf(positions)[d + 1];
      }
      CellPointIsPointAt(positions[1..], cell[1..]);
      assert PointAt(positions, cell) == [positions[0][cell[0]]] + PointAt(positions[1..], cell[1..]);
    }
  }

  method ReadSpecs(specs: seq<MeshSpec>) returns (adjustables: seq<string>, positions: seq<seq<real>>)
    ensures adjustables == Names(MeshLines(specs)) && positions == LinePositions(MeshLines(specs))
  {
    adjustables, positions := [], [];
    for d := 0 to |specs|
      invariant adjustables == Names(MeshLines(specs[..d])) && positions == LinePositions(MeshLines(specs[..d]))
    {
      if specs[d].isAdjustable {
        adjustables := adjustables + [specs[d].line.adjustable];
        positions := positions + [specs[d].line.positions];
      }
      assert specs[..d + 1] == specs[..d] + [specs[d]];
      FilterConcat(specs[..d], [specs[d]], Adjusting());
    }
    assert specs[..|specs|] == specs;
  }

  method PlanMesh(specs: seq<MeshSpec>, order: string) returns (r: Result<GridScan<real>, string>)
    ensures r.Ok? <==> order == "last_fastest" || order == "first_fastest"
    ensures r.Ok? ==>
              && r.value.adjustables == Names(MeshLines(specs))
              && r.value.positions == LinePositions(MeshLines(specs)) && r.value.shape == ShapeOf(r.value.positions)
              && IndexPlan(r.value.shape, order) == Some(r.value.indexPlan)
              && EachCellOnce(r.value.indexPlan, r.value.shape)
              && |r.value.values| == |r.value.indexPlan| == Size(r.value.shape)
              && forall k :: 0 <= k < |r.value.values| ==>
                   CellPoint(r.value.positions, r.value.indexPlan[k]) == Some(r.value.values[k])
  {
    var adjustables, positions := ReadSpecs(specs);
    var shape := ShapeOf(positions);
    BothOrdersMeasureEachCellOnce(shape, order);
    var planned := IndexPlan(shape, order);
    if planned.None? { return Err(UNKNOWN_ORDER); }
    var plan := planned.value;
    var values: seq<Point> := [];
    for k := 0 to |plan|
      invariant |values| == k
      invariant forall j :: 0 <= j < k ==> CellPoint(positions, plan[j]) == Some(values[j])
    {
      CellPointIsPointAt(positions, plan[k]);
      values := values + [PointAt(positions, plan[k])];
    }
    return Ok(GridScan(adjustables, shape, positions, plan, values));
  }

  lemma {:induction false} RepeatPairs<S, T>(a: seq<S>, b: seq<T>, n: int, i: nat) returns (j: nat)
    requires |a| == |b| && i < |Repeat(a, n)|
    ensures |Repeat(b, n)| == |Repeat(a, n)| && j < |a| && Repeat(a, n)[i] == a[j] && Repeat(b, n)[i] == b[j]
    decreases n
  {
    RepeatLength(a, b, n);
    if n <= 1 || i < |a| {
      j := i;
    } else {
      j := RepeatPairs(a, b, n - 1, i - |a|);
    }
  }

  /** A scan built from a mesh plan, repeated or not, starts with every target at the position of its
      planned cell, so that its grid labels stay right in every run (`GridLabelsAreTargets`). */
  lemma {:induction false} MeshScanStartsOnGrid(positions: seq<seq<real>>, plan: seq<GridCell>, values: seq<Point>,
                             def: ExposureDef, repetitions: int, ndim: nat)
    requires |values| == |plan|
    requires forall k :: 0 <= k < |values| ==> CellPoint(positions, plan[k]) == Some(values[k])
    ensures var r := NewScan(values, def, repetitions, Some(Grid(positions, plan, plan)), ndim);
            r.Ok? ==> OnGrid(r.value, PlanOf(values, def, repetitions))
                      && Boundary(r.value, PlanOf(values, def, repetitions), [], 0)
  {
    var grid := Some(Grid(positions, plan, plan));
    var r := NewScan(values, def, repetitions, grid, ndim);
    if r.Ok? {
      NewScanPlans(values, def, repetitions, grid, ndim);
      var all := PlanOf(values, def, repetitions);
      var once := seq(|values|, i requires 0 <= i < |values| => Planned(values[i], ExposureList(def, |values|)[i]));
      RepeatLength(once, plan, repetitions);
      forall i | 0 <= i < |all|
        ensures CellPoint(positions, Repeat(plan, repetitions)[i]) == Some(all[i].target)
      {
        var j := RepeatPairs(once, plan, repetitions, i);
      }
    }
  }

  // ---------------------------------------------------------------- running a scan of any axes

  /** The positions of a dimension as the mesh reads them: numbers. A dimension whose positions are
      several numbers each gives no node. */
  function Readable(dimension: seq<Position>): seq<real> {
    if OneNumberEach(dimension)
    then seq(|dimension|, k requires 0 <= k < |dimension| => (assert dimension[k] in dimension; Numbers(dimension[k])[0]))
    else []
  }

  function MeshPositions(positions: seq<seq<Position>>): seq<seq<real>> {
    seq(|positions|, d requires 0 <= d < |positions| => Readable(positions[d]))
  }

  predicate OneNumberEach(dimension: seq<Position>) {
    forall p :: p in dimension ==> |Numbers(p)| == 1
  }

  lemma {:induction false} ConcatFront<T>(part: seq<T>, parts: seq<seq<T>>)
    ensures Concat([part] + parts) == part + Concat(parts)
  {
    if parts == [] {
      assert [part] + parts == [part] && Concat([part]) == Concat([part][..0]) + part;
    } else {
      var front, last := parts[..|parts| - 1], parts[|parts| - 1];
      ConcatFront(part, front);
      assert ([part] + parts)[..|parts|] == [part] + front;
      Associative(part, Concat(front), last);
    }
  }

  predicate MovesOneEach(positions: seq<seq<Position>>) {
    forall d :: 0 <= d < |positions| ==> OneNumberEach(positions[d])
  }

  lemma RestInShape(positions: seq<seq<Position>>, cell: GridCell)
    requires cell != [] && InShape(cell, ShapeOf(positions))
    ensures cell[0] < |positions[0]| && InShape(cell[1..], ShapeOf(positions[1..]))
    ensures MovesOneEach(positions) <==> OneNumberEach(positions[0]) && MovesOneEach(positions[1..])
  {
    assert cell[0] < ShapeOf(positions)[0];
    forall d | 0 <= d < |cell| - 1 ensures cell[1..][d] < ShapeOf(positions[1..])[d] {
      assert cell[d + 1] < ShapeOf(positions)[d + 1];
    }
    forall d | 0 < d < |positions| ensures positions[d] == positions[1..][d - 1] {}
  }

  lemma {:induction false} FirstOfNode(positions: seq<seq<Position>>, cell: GridCell)
    requires cell != [] && InShape(cell, ShapeOf(positions)) && cell[0] < |positions[0]|
    ensures var rest := CellPoint(MeshPositions(positions[1..]), cell[1..]);
            CellPoint(MeshPositions(positions), cell)
            == if OneNumberEach(positions[0]) && rest.Some? then Some(Numbers(positions[0][cell[0]]) + rest.value) else None
  {
    var mesh := MeshPositions(positions);
    assert mesh[1..] == MeshPositions(positions[1..]);
    assert positions[0][cell[0]] in positions[0];
    if OneNumberEach(positions[0]) {
      assert [mesh[0][cell[0]]] == Numbers(positions[0][cell[0]]);
    } else {
      assert mesh[0] == [];
    }
  }

  lemma FirstOfTargets(positions: seq<seq<Position>>, cell: GridCell)
    requires cell != [] && InShape(cell, ShapeOf(positions)) && cell[0] < |positions[0]|
    requires InShape(cell[1..], ShapeOf(positions[1..]))
    ensures CellTargets(positions, cell) == Numbers(positions[0][cell[0]]) + CellTargets(positions[1..], cell[1..])
  {
    var first := Numbers(positions[0][cell[0]]);
    assert Contributions(positions, cell) == [first] + Contributions(positions[1..], cell[1..]);
    ConcatFront(first, Contributions(positions[1..], cell[1..]));
  }

  /** A cell's node is at its targets if every dimension moves one adjustable; if one moves several
      together, the step has no node. */
  lemma {:induction false} NodeOfCell(positions: seq<seq<Position>>, cell: GridCell)
    requires InShape(cell, ShapeOf(positions))
    ensures CellPoint(MeshPositions(positions), cell)
            == if MovesOneEach(positions) then Some(CellTargets(positions, cell)) else None
  {
    if cell == [] {
      assert Contributions(positions, cell) == [];
    } else {
      RestInShape(positions, cell);
      NodeOfCell(positions[1..], cell[1..]);
      FirstOfNode(positions, cell);
      FirstOfTargets(positions, cell);
    }
  }

  /** Without a driver the plan of cells stays what it was. */
  lemma {:induction false} FixedGridStays(c: Config, attempts: seq<Attempt>)
    requires Aligned(c.scan) && c.driver.None?
    ensures Run(c, attempts).driver.None? && Run(c, attempts).scan.grid == c.scan.grid
  {
    if attempts != [] {
      var front := attempts[..|attempts| - 1];
      FixedGridStays(c, front);
      StepGrid(Run(c, front), attempts[|attempts| - 1]);
      StepKeepsAxes(Run(c, front), attempts[|attempts| - 1]);
    }
  }

  /** Every target of the plan is the targets of its cell. */
  ghost predicate TargetsAtCells(positions: seq<seq<Position>>, cells: seq<GridCell>, plan: seq<Planned>) {
    && |cells| == |plan|
    && forall k :: 0 <= k < |plan| ==>
         InShape(cells[k], ShapeOf(positions)) && plan[k].target == CellTargets(positions, cells[k])
  }

  lemma {:induction false} RepeatedAtCells(positions: seq<seq<Position>>, cells: seq<GridCell>, values: seq<Point>, def: ExposureDef, repetitions: int)
    requires |values| == |cells| == |ExposureList(def, |values|)|
    requires forall k :: 0 <= k < |values| ==>
               InShape(cells[k], ShapeOf(positions)) && values[k] == CellTargets(positions, cells[k])
    ensures TargetsAtCells(positions, Repeat(cells, repetitions), PlanOf(values, def, repetitions))
  {
    var all := PlanOf(values, def, repetitions);
    var once := seq(|values|, i requires 0 <= i < |values| => Planned(values[i], ExposureList(def, |values|)[i]));
    RepeatLength(once, cells, repetitions);
    forall k | 0 <= k < |all|
      ensures InShape(Repeat(cells, repetitions)[k], ShapeOf(positions))
      ensures all[k].target == CellTargets(positions, Repeat(cells, repetitions)[k])
    {
      var j := RepeatPairs(once, cells, repetitions, k);
    }
  }

  /** In every run of a scan over any axes, repeated or not, every accepted step is labelled with the
      cell whose targets it measured: one target per adjustable, also of those that move together. */
  lemma {:induction false} ScanLabelsAreTargets(positions: seq<seq<Position>>, cells: seq<GridCell>, values: seq<Point>, def: ExposureDef,
                             repetitions: int, ndim: nat, attempts: seq<Attempt>, i: nat)
    requires |values| == |cells| == |ExposureList(def, |values|)|
    requires forall k :: 0 <= k < |values| ==>
               InShape(cells[k], ShapeOf(positions)) && values[k] == CellTargets(positions, cells[k])
    ensures var r := NewScan(values, def, repetitions, Some(Grid(MeshPositions(positions), cells, cells)), ndim);
            && r.Ok? && Aligned(r.value)
            && var c := Config(r.value, None);
            && var s := Run(c, attempts).scan;
            EntriesLeft(c, attempts) == 0 && i < s.nextStep ==>
              && |s.info.steps| == |s.valuesDone| == s.nextStep && s.info.steps[i].gridIndex.Some?
              && InShape(s.info.steps[i].gridIndex.value, ShapeOf(positions))
              && s.valuesDone[i] == CellTargets(positions, s.info.steps[i].gridIndex.value)
  {
    var grid := Some(Grid(MeshPositions(positions), cells, cells));
    NewScanPlans(values, def, repetitions, grid, ndim);
    var c, plan := Config(NewScan(values, def, repetitions, grid, ndim).value, None), PlanOf(values, def, repetitions);
    RunKeepsBoundary(c, plan, attempts);
    FixedPlanStays(c, plan, attempts);
    FixedGridStays(c, attempts);
    RepeatedAtCells(positions, cells, values, def, repetitions);
    var s := Run(c, attempts).scan;
    if i < s.nextStep { assert (s.valuesDone + s.valuesTodo)[i] == Targets(plan)[i]; }
  }
}
