/**
 The mesh of a scan (eco/acquisition/mesh.py): the nodes measured so far, found by a key that
 rounds each coordinate to a multiple of the mesh's resolution.
 */
module ScanMesh {
  import opened Collections
  import opened NodeIndex

  type Point = seq<real>

  datatype KeyPart = Multiple(n: int) | Exact(x: real)

  type Key = seq<KeyPart>

  type Resolution = Option<seq<real>>

  /** The nearest integer, the even one when two are equally near. */
  function RoundHalfEven(x: real): (n: int)
    ensures n as real - 0.5 <= x <= n as real + 0.5
    ensures x == n as real - 0.5 || x == n as real + 0.5 ==> n % 2 == 0
  {
    var lower := x.Floor;
    var rest := x - lower as real;
    if rest < 0.5 then lower
    else if rest > 0.5 then lower + 1
    else if lower % 2 == 0 then lower
    else lower + 1
  }

  function KeyPartOf(x: real, r: real): KeyPart {
    if r != 0.0 then Multiple(RoundHalfEven(x / r)) else Exact(x)
  }

  /** The key parts of a point's coordinates, as far as the resolution goes. */
  function Rounded(point: Point, resolution: seq<real>): Key {
    if point == [] || resolution == [] then []
    else [KeyPartOf(point[0], resolution[0])] + Rounded(point[1..], resolution[1..])
  }

  function ExactKey(point: Point): Key {
    if point == [] then [] else [Exact(point[0])] + ExactKey(point[1..])
  }

  /** A node's key; without a resolution, the point itself. */
  function KeyOf(resolution: Resolution, point: Point): Key {
    if resolution.None? || resolution.value == [] then ExactKey(point) else Rounded(point, resolution.value)
  }

  datatype Mesh = Mesh(resolution: Resolution, points: seq<Point>, index: map<Key, nat>)

  function NewMesh(resolution: Resolution): Mesh { Mesh(resolution, [], map[]) }

  function KeysOf(resolution: Resolution, points: seq<Point>): seq<Key> {
    if points == [] then []
    else KeysOf(resolution, points[..|points| - 1]) + [KeyOf(resolution, points[|points| - 1])]
  }

  /** The node of `point` on the mesh, a new one if it is not one yet. */
  function Added(m: Mesh, point: Point): (Mesh, nat) {
    var key := KeyOf(m.resolution, point);
    if key in m.index then (m, m.index[key])
    else (m.(points := m.points + [point], index := m.index[key := |m.points|]), |m.points|)
  }

  function Rekeyed(m: Mesh, resolution: Resolution): Mesh {
    Mesh(resolution, m.points, Rebuilt(KeysOf(resolution, m.points)))
  }

  function AddAll(m: Mesh, points: seq<Point>): (Mesh, seq<nat>) {
    if points == [] then (m, [])
    else
      var (m1, nodes) := AddAll(m, points[..|points| - 1]);
      var (m2, node) := Added(m1, points[|points| - 1]);
      (m2, nodes + [node])
  }

  // ---------------------------------------------------------------- what the index promises

  function Nodes(m: Mesh): Index<Key> { Index(KeysOf(m.resolution, m.points), m.index) }

  lemma {:induction false} RebuiltOneMore(resolution: Resolution, points: seq<Point>, i: nat)
    requires i < |points|
    ensures Rebuilt(KeysOf(resolution, points[..i + 1]))
            == Rebuilt(KeysOf(resolution, points[..i]))[KeyOf(resolution, points[i]) := i]
  {
    var front, all := KeysOf(resolution, points[..i]), KeysOf(resolution, points[..i + 1]);
    assert points[..i + 1][..i] == points[..i];
    KeysAt(resolution, points[..i]);
    assert all == front + [KeyOf(resolution, points[i])];
    assert all[..|all| - 1] == front;
  }

  lemma {:induction false} KeysAt(resolution: Resolution, points: seq<Point>)
    ensures |KeysOf(resolution, points)| == |points|
    ensures forall i :: 0 <= i < |points| ==> KeysOf(resolution, points)[i] == KeyOf(resolution, points[i])
  {
    if points != [] {
      KeysAt(resolution, points[..|points| - 1]);
    }
  }

  lemma AddedVisits(m: Mesh, point: Point)
    ensures var (m', node) := Added(m, point);
            && m'.resolution == m.resolution
            && Visit(Nodes(m), KeyOf(m.resolution, point)) == (Nodes(m'), node)
  {
    KeysAt(m.resolution, m.points);
    assert (m.points + [point])[..|m.points|] == m.points;
  }

  lemma {:induction false} AddAllVisits(m: Mesh, points: seq<Point>)
    ensures var (m', nodes) := AddAll(m, points);
            && m'.resolution == m.resolution
            && VisitAll(Nodes(m), KeysOf(m.resolution, points)) == (Nodes(m'), nodes)
  {
    if points != [] {
      var front := points[..|points| - 1];
      AddAllVisits(m, front);
      AddedVisits(AddAll(m, front).0, points[|points| - 1]);
      var keys := KeysOf(m.resolution, points);
      assert keys[..|keys| - 1] == KeysOf(m.resolution, front);
    }
  }

  /** Every node's key finds a node with that key, and no two nodes share one: what a mesh keeps
      while its resolution stays the same. */
  ghost predicate OneNodePerKey(m: Mesh) {
    NodeIndex.Sound(Nodes(m)) && Distinct(Nodes(m).keys)
  }

  lemma {:induction false} AddKeepsOneNodePerKey(m: Mesh, points: seq<Point>)
    requires OneNodePerKey(m)
    ensures var (m', nodes) := AddAll(m, points);
            && OneNodePerKey(m') && |nodes| == |points|
            && forall i :: 0 <= i < |points| ==>
                 nodes[i] < |m'.points| && KeyOf(m.resolution, m'.points[nodes[i]]) == KeyOf(m.resolution, points[i])
  {
    AddAllVisits(m, points);
    VisitAllVisits(Nodes(m), KeysOf(m.resolution, points));
    KeysAt(m.resolution, points);
    KeysAt(m.resolution, AddAll(m, points).0.points);
  }

  /** What happens to a mesh: a point is added, or the resolution changes. */
  datatype Change = AddPoint(point: Point) | NewResolution(resolution: Resolution)

  function ChangedBy(m: Mesh, change: Change): Mesh {
    match change
    case AddPoint(point) => Added(m, point).0
    case NewResolution(resolution) => Rekeyed(m, resolution)
  }

  function Changed(m: Mesh, changes: seq<Change>): Mesh {
    if changes == [] then m else ChangedBy(Changed(m, changes[..|changes| - 1]), changes[|changes| - 1])
  }

  lemma AddKeepsSound(m: Mesh, point: Point)
    requires NodeIndex.Sound(Nodes(m))
    ensures NodeIndex.Sound(Nodes(Added(m, point).0))
  {
    AddedVisits(m, point);
    OneVisitFinds(Nodes(m), KeyOf(m.resolution, point));
  }

  lemma RekeyedIsSound(m: Mesh, resolution: Resolution)
    ensures NodeIndex.Sound(Nodes(Rekeyed(m, resolution)))
  {
    RebuiltSound(KeysOf(resolution, m.points));
  }

  /** Every node's key finds a node with that key: kept by points added and resolutions changed in any
      order. */
  lemma {:induction false} KeysStayFound(resolution: Resolution, changes: seq<Change>)
    ensures NodeIndex.Sound(Nodes(Changed(NewMesh(resolution), changes)))
  {
    if changes != [] {
      var front := changes[..|changes| - 1];
      KeysStayFound(resolution, front);
      var m := Changed(NewMesh(resolution), front);
      match changes[|changes| - 1]
      case AddPoint(point) => AddKeepsSound(m, point);
      case NewResolution(r) => RekeyedIsSound(m, r);
    }
  }

  /** After any changes, over any points added while the resolution stays, two of them get the same node
      exactly when their keys agree, also when nodes fell together under a new resolution before. */
  lemma {:induction false} SameNodeIffSameKey(resolution: Resolution, changes: seq<Change>, points: seq<Point>, i: nat, j: nat)
    requires i < |points| && j < |points|
    ensures var m := Changed(NewMesh(resolution), changes);
            var (m', nodes) := AddAll(m, points);
            && |nodes| == |points|
            && (nodes[i] == nodes[j] <==> KeyOf(m.resolution, points[i]) == KeyOf(m.resolution, points[j]))
            && nodes[i] < |m'.points| && KeyOf(m.resolution, m'.points[nodes[i]]) == KeyOf(m.resolution, points[i])
  {
    var m := Changed(NewMesh(resolution), changes);
    KeysStayFound(resolution, changes);
    AddAllVisits(m, points);
    KeysAt(m.resolution, points);
    KeysAt(m.resolution, AddAll(m, points).0.points);
    NodeIndex.SameNodeIffSameKey(Nodes(m), KeysOf(m.resolution, points), i, j);
    VisitsFind(Nodes(m), KeysOf(m.resolution, points));
  }

  /** Nodes are numbered in the order of their first visit: a point whose key is new gets the number
      of different keys visited before it. */
  lemma {:induction false} NumberedByFirstVisit(resolution: Resolution, points: seq<Point>, i: nat)
    requires i < |points|
    requires forall j :: 0 <= j < i ==> KeyOf(resolution, points[j]) != KeyOf(resolution, points[i])
    ensures var nodes := AddAll(NewMesh(resolution), points).1;
            |nodes| == |points| && nodes[i] == |KeySet(KeysOf(resolution, points[..i]))|
  {
    var keys := KeysOf(resolution, points);
    AddAllVisits(NewMesh(resolution), points);
    KeysAt(resolution, points);
    KeysAt(resolution, points[..i]);
    assert keys[..i] == KeysOf(resolution, points[..i]);
    NodeIndex.NumberedByFirstVisit(keys, i);
  }

  /** After a change of resolution every key of an existing node still finds a node with that key;
      each key still has one node exactly when no two nodes fall together under the new resolution. */
  lemma ResolutionChangeKeepsNodes(m: Mesh, resolution: Resolution)
    ensures NodeIndex.Sound(Nodes(Rekeyed(m, resolution))) && Rekeyed(m, resolution).points == m.points
    ensures OneNodePerKey(Rekeyed(m, resolution)) <==>
            forall i, j :: 0 <= i < j < |m.points| ==> KeyOf(resolution, m.points[i]) != KeyOf(resolution, m.points[j])
  {
    RebuiltSound(KeysOf(resolution, m.points));
    KeysAt(resolution, m.points);
  }

  // ---------------------------------------------------------------- the mesh object

  class ScanMesh {
    var resolution: Resolution
    var points: seq<Point>
    var index: map<Key, nat>

    constructor (resolution: Resolution)
      ensures View() == NewMesh(resolution)
    {
      this.resolution, points, index := resolution, [], map[];
    }

    ghost function View(): Mesh
      reads this
    {
      Mesh(resolution, points, index)
    }

    /** The node index of `point`. */
    method Add(point: Point) returns (node: nat)
      modifies this
      ensures (View(), node) == Added(old(View()), point)
    {
      var key := KeyOf(resolution, point);
      if key in index {
        node := index[key];
      } else {
        node := |points|;
        index := index[key := node];
        points := points + [point];
      }
    }

    method SetResolution(r: Resolution)
      modifies this
      ensures View() == Rekeyed(old(View()), r)
    {
      resolution := r;
      index := map[];
      for i := 0 to |points|
        invariant resolution == r && points == old(points)
        invariant index == Rebuilt(KeysOf(r, points[..i]))
      {
        RebuiltOneMore(r, points, i);
        index := index[KeyOf(resolution, points[i]) := i];
      }
      assert points[..|points|] == points;
    }
  }
}
