/**
 Where the steps of a run lie on the scan's mesh (eco/acquisition/scan.py, eco/acquisition/mesh.py):
 the `mesh_index` recorded with each step identifies its point.
 */
module ScanNodes {
  import opened Collections
  import opened ScanMesh
  import opened ScanModel
  import opened ScanRuns

  /** The point of a recorded step. */
  ghost function EntryPoint(s: Scan, i: nat): Option<Point>
    requires i < |s.info.values| && i < |s.info.steps|
  {
    StepPoint(s.grid, s.ndim, s.info.values[i], s.info.steps[i].gridIndex)
  }

  ghost predicate OnNode(m: Mesh, node: Option<nat>, point: Option<Point>) {
    && (node.Some? <==> point.Some?)
    && (node.Some? ==> node.value < |m.points| && KeyOf(m.resolution, m.points[node.value]) == KeyOf(m.resolution, point.value))
  }

  /** Each recorded step that has a point lies on a node with the point's key. */
  ghost predicate MeshKept(s: Scan) {
    && OneNodePerKey(s.mesh)
    && |s.info.values| == |s.info.steps|
    && forall i :: 0 <= i < |s.info.steps| ==> OnNode(s.mesh, s.info.steps[i].meshIndex, EntryPoint(s, i))
  }

  lemma {:induction false} AddOne(m: Mesh, p: Point)
    ensures AddAll(m, [p]) == (Added(m, p).0, [Added(m, p).1])
  {
    assert [p][..0] == [];
    assert AddAll(m, []) == (m, []);
    assert [] + [Added(m, p).1] == [Added(m, p).1];
  }

  /** A mesh that has kept its nodes and has `node` for a point. */
  ghost predicate Grown(m: Mesh, m': Mesh, node: nat, p: Point) {
    && OneNodePerKey(m') && m'.resolution == m.resolution && m.points <= m'.points
    && OnNode(m', Some(node), Some(p))
  }

  lemma AddedKeepsNodes(m: Mesh, p: Point)
    requires OneNodePerKey(m)
    ensures Grown(m, Added(m, p).0, Added(m, p).1, p)
  {
    AddKeepsOneNodePerKey(m, [p]);
    AddOne(m, p);
  }

  lemma RecordedOnNode(s: Scan, a: Attempt)
    requires MeshKept(s) && s.valuesTodo != []
    ensures MeshKept(Recorded(s, a))
  {
    var point := StepPoint(s.grid, s.ndim, s.valuesTodo[0], CellNow(s));
    var s' := Recorded(s, a);
    if point.Some? { AddedKeepsNodes(s.mesh, point.value); }
    forall i | 0 <= i < |s'.info.steps| ensures OnNode(s'.mesh, s'.info.steps[i].meshIndex, EntryPoint(s', i)) {
      if i < |s.info.steps| {
        assert OnNode(s.mesh, s.info.steps[i].meshIndex, EntryPoint(s, i));
      }
    }
  }

  /** What follows recording changes neither the mesh nor the entries, except that a rejected step's
      entry goes. */
  lemma StepAfterRecording(c: Config, a: Attempt)
    requires Aligned(c.scan) && ProgressOf(c.scan, a).Complete?
    ensures var s1, s' := Recorded(c.scan, a), Step(c, a).0.scan;
            && s'.mesh == s1.mesh && s'.ndim == s1.ndim
            && s'.grid.Some? == s1.grid.Some?
            && (s1.grid.Some? ==> s'.grid.value.positions == s1.grid.value.positions)
            && (s'.info == s1.info || s'.info == Rejected(s1).info)
  {
    CallbacksAdd(c, a);
  }

  lemma StepKeepsMesh(c: Config, a: Attempt)
    requires Aligned(c.scan) && MeshKept(c.scan)
    ensures MeshKept(Step(c, a).0.scan)
  {
    if !ProgressOf(c.scan, a).NothingDone? { RecordedOnNode(c.scan, a); }
    if ProgressOf(c.scan, a).Complete? {
      var s1, s' := Recorded(c.scan, a), Step(c, a).0.scan;
      StepAfterRecording(c, a);
      forall i | 0 <= i < |s'.info.steps| ensures OnNode(s'.mesh, s'.info.steps[i].meshIndex, EntryPoint(s', i)) {
        assert OnNode(s1.mesh, s1.info.steps[i].meshIndex, EntryPoint(s1, i));
      }
    }
  }

  lemma {:induction false} RunKeepsMesh(c: Config, attempts: seq<Attempt>)
    requires Aligned(c.scan) && MeshKept(c.scan)
    ensures MeshKept(Run(c, attempts).scan)
  {
    if attempts != [] {
      RunKeepsMesh(c, attempts[..|attempts| - 1]);
      StepKeepsMesh(Run(c, attempts[..|attempts| - 1]), attempts[|attempts| - 1]);
    }
  }

  /** After any run two recorded steps have the same mesh index exactly when their points round to the
      same multiple of the resolution; a repeated step is on the node of its first attempt. */
  lemma {:induction false} MeshIndexIdentifiesPoint(c: Config, attempts: seq<Attempt>, i: nat, j: nat)
    requires Aligned(c.scan) && MeshKept(c.scan)
    requires i < |Run(c, attempts).scan.info.steps| && j < |Run(c, attempts).scan.info.steps|
    ensures var s := Run(c, attempts).scan;
            && |s.info.values| == |s.info.steps|
            && (s.info.steps[i].meshIndex.Some? <==> EntryPoint(s, i).Some?)
            && (EntryPoint(s, i).Some? && EntryPoint(s, j).Some? ==>
                  (s.info.steps[i].meshIndex == s.info.steps[j].meshIndex <==>
                   KeyOf(s.mesh.resolution, EntryPoint(s, i).value) == KeyOf(s.mesh.resolution, EntryPoint(s, j).value)))
  {
    RunKeepsMesh(c, attempts);
    var s := Run(c, attempts).scan;
    assert OnNode(s.mesh, s.info.steps[i].meshIndex, EntryPoint(s, i));
    assert OnNode(s.mesh, s.info.steps[j].meshIndex, EntryPoint(s, j));
    if EntryPoint(s, i).Some? && EntryPoint(s, j).Some? {
      KeysAt(s.mesh.resolution, s.mesh.points);
      assert Nodes(s.mesh).keys[s.info.steps[i].meshIndex.value] == KeyOf(s.mesh.resolution, EntryPoint(s, i).value);
    }
  }

  /** A new scan's mesh is empty, also after an adaptive driver has set its resolution. */
  lemma NewScanHasNoNodes(values: seq<Point>, def: ExposureDef, repetitions: int, grid: Option<Grid>, ndim: nat,
                          driver: Driver, spacing: Resolution, allowance: Option<int>)
    requires NewScan(values, def, repetitions, grid, ndim).Ok?
    ensures var s := NewScan(values, def, repetitions, grid, ndim).value;
            MeshKept(s) && MeshKept(Started(Config(s, Some(driver)), spacing, allowance).scan)
  {
  }
}
