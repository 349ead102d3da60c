/**
 The tree of aliases (eco/aliases/aliases.py): nodes with children and a link to their parent,
 listed downwards by `get_all` and named upwards by `get_full_name`.
 */
module AliasTree {
  import opened Collections
  import opened Text

  /** A listed alias. */
  datatype Record = Record(name: string, channel: string, channeltype: Option<string>)

  /** A node below another one and the names on the way to it. */
  datatype Place = Place(node: Alias, path: seq<string>)

  /** An empty string counts as none. */
  predicate Given(text: Option<string>) { text.Some? && text.value != "" }

  class Alias {
    const alias: string
    const channel: Option<string>
    const channeltype: Option<string>
    var children: seq<Alias>
    var parent: Alias?
    /** Larger than the parent's: shows that the links upwards end. */
    ghost var depth: nat

    constructor (alias: string, channel: Option<string>, channeltype: Option<string>)
      ensures this.alias == alias && this.channel == channel && this.channeltype == channeltype
      ensures children == [] && parent == null && depth == 0
      ensures Forest({this}, 1)
    {
      this.alias, this.channel, this.channeltype := alias, channel, channeltype;
      children, parent, depth := [], null, 0;
    }

    method HasChild(name: string) returns (taken: bool)
      ensures taken <==> exists c :: c in children && c.alias == name
    {
      for i := 0 to |children|
        invariant forall k :: 0 <= k < i ==> children[k].alias != name
      {
        if children[i].alias == name { return true; }
      }
      taken := false;
    }

    /** Append an alias; refused if a child of that name is there. A parent the alias has is kept. If it
        had none and is of another tree, the two trees are one afterwards; if it had one, or this node is
        below it, then no forest contains this node any more. */
    method Append(sub: Alias, ghost s: set<Alias>, ghost bound: nat, ghost t: set<Alias>, ghost subBound: nat) returns (ok: bool)
      requires Forest(s, bound) && this in s && Forest(t, subBound) && sub in t
      modifies this`children, sub`parent, t`depth
      ensures ok <==> forall c :: c in old(children) ==> c.alias != sub.alias
      ensures ok ==> children == old(children) + [sub]
      ensures sub.parent == if ok && old(sub.parent) == null then this else old(sub.parent)
      ensures ok && old(sub.parent) == null && s !! t ==> Forest(s + t, bound + subBound + 1)
      ensures ok && (old(sub.parent) != null || (sub in s && old(Below(this, sub, s, bound)))) ==>
                forall u, b: nat :: this in u ==> !Forest(u, b)
      ensures !ok ==> unchanged(this) && unchanged(sub) && unchanged(t)
    {
      var taken := HasChild(sub.alias);
      if taken { return false; }
      if sub.parent == null {
        if s !! t { Lower(t, subBound, depth + 1); }
        AddRoot(sub, s, bound, t, if s !! t then subBound + depth + 1 else subBound, bound + subBound + 1);
      } else {
        AddWithParent(sub, t, subBound);
      }
      ok := true;
    }

    /** Take in a child that has another parent. */
    method AddWithParent(sub: Alias, ghost t: set<Alias>, ghost subBound: nat)
      requires Forest(t, subBound) && sub in t && sub.parent != null
      requires forall c :: c in children ==> c.alias != sub.alias
      modifies this`children
      ensures children == old(children) + [sub]
      ensures forall u, b: nat :: this in u ==> !Forest(u, b)
    {
      assert Linked(sub, t, subBound) && sub.parent != this;
      children := children + [sub];
      assert children[|children| - 1] == sub;
      forall u, b: nat | this in u ensures !Forest(u, b) {
        assert !Linked(this, u, b);
      }
    }

    /** Take in a child that has no parent. */
    method AddRoot(sub: Alias, ghost s: set<Alias>, ghost bound: nat, ghost t: set<Alias>, ghost subBound: nat, ghost more: nat)
      requires Forest(s, bound) && this in s && Forest(t, subBound) && sub in t && sub.parent == null
      requires forall c :: c in children ==> c.alias != sub.alias
      requires s !! t ==> depth < sub.depth && bound <= more && subBound <= more
      modifies this`children, sub`parent
      ensures children == old(children) + [sub] && sub.parent == this
      ensures s !! t ==> Forest(s + t, more)
      ensures sub in s && old(Below(this, sub, s, bound)) ==> forall u, b: nat :: this in u ==> !Forest(u, b)
    {
      ghost var way := if sub in s then WayFrom(this, sub, s, bound) else [];
      Adopt(sub, s, bound, t, subBound, more);
      if way != [] { NoForestAround(way, sub); }
    }

    /** Hang a child below this node; a tree of its own is already moved down to where it will hang. */
    method Adopt(sub: Alias, ghost s: set<Alias>, ghost bound: nat, ghost t: set<Alias>, ghost subBound: nat, ghost more: nat)
      requires Forest(s, bound) && this in s && Forest(t, subBound) && sub in t && sub.parent == null
      requires forall c :: c in children ==> c.alias != sub.alias
      requires s !! t ==> depth < sub.depth && bound <= more && subBound <= more
      modifies this`children, sub`parent
      ensures children == old(children) + [sub] && sub.parent == this
      ensures s !! t ==> Forest(s + t, more)
    {
      AddedTo(children, sub);
      children := children + [sub];
      sub.parent := this;
      if s !! t {
        forall n | n in t ensures Linked(n, s + t, more) {
          assert old(Linked(n, t, subBound));
        }
        forall n | n in s ensures Linked(n, s + t, more) {
          assert old(Linked(n, s, bound));
        }
      }
    }

    /** Move a forest down, to hang it below a node. */
    ghost method Lower(t: set<Alias>, bound: nat, lift: nat)
      requires Forest(t, bound)
      modifies t`depth
      ensures Forest(t, bound + lift)
      ensures forall n :: n in t ==> n.depth == old(n.depth) + lift
    {
      forall n | n in t { n.depth := n.depth + lift; }
    }

    /** Take a child out. */
    method PopObject(obj: Alias, ghost s: set<Alias>, ghost bound: nat) returns (ok: bool)
      requires Forest(s, bound) && this in s
      modifies this`children, obj`parent
      ensures ok <==> obj in old(children)
      ensures ok ==> obj !in children && obj.parent == null && Forest(s, bound)
      ensures ok ==> exists i :: 0 <= i < |old(children)| && old(children)[i] == obj
                                 && children == old(children)[..i] + old(children)[i + 1..]
      ensures !ok ==> unchanged(this) && unchanged(obj)
    {
      for i := 0 to |children|
        invariant forall k :: 0 <= k < i ==> children[k] != obj
      {
        if children[i] == obj {
          children := children[..i] + children[i + 1..];
          obj.parent := null;
          forall n | n in s ensures Linked(n, s, bound) {
            assert old(Linked(n, s, bound));
          }
          return true;
        }
      }
      ok := false;
    }
  }

  ghost predicate DistinctNames(nodes: seq<Alias>) {
    forall i, j :: 0 <= i < j < |nodes| ==> nodes[i].alias != nodes[j].alias
  }

  lemma AddedTo(nodes: seq<Alias>, sub: Alias)
    requires DistinctNames(nodes) && forall c :: c in nodes ==> c.alias != sub.alias
    ensures DistinctNames(nodes + [sub]) && forall c :: c in nodes + [sub] <==> c in nodes || c == sub
  {
  }

  /** A set of aliases closed under the links, which agree with each other in both directions. */
  ghost predicate Forest(s: set<Alias>, bound: nat)
    reads s
  {
    forall n :: n in s ==> Linked(n, s, bound)
  }

  ghost predicate Linked(n: Alias, s: set<Alias>, bound: nat)
    requires n in s
    reads s
  {
    && n.depth < bound
    && (forall c :: c in n.children ==> c in s && c.parent == n && n.depth < c.depth)
    && (n.parent != null ==> n.parent in s && n in n.parent.children)
    && DistinctNames(n.children)
  }

  // ---------------------------------------------------------------- down and up

  /** Every place below a node, the node first, each child with all below it before the next. */
  ghost function Places(n: Alias, s: set<Alias>, bound: nat): seq<Place>
    requires Forest(s, bound) && n in s
    reads s
    decreases bound - n.depth, |n.children| + 1
  {
    [Place(n, [n.alias])] + PlacesFrom(n, 0, s, bound)
  }

  ghost function PlacesFrom(n: Alias, i: nat, s: set<Alias>, bound: nat): seq<Place>
    requires Forest(s, bound) && n in s && i <= |n.children|
    reads s
    decreases bound - n.depth, |n.children| - i
  {
    if i == |n.children| then []
    else
      assert n.children[i] in n.children;
      Under(n.alias, Places(n.children[i], s, bound)) + PlacesFrom(n, i + 1, s, bound)
  }

  function Under(name: string, places: seq<Place>): seq<Place> {
    seq(|places|, i requires 0 <= i < |places| => Place(places[i].node, [name] + places[i].path))
  }

  /** The names from below `base` (null: from the top) down to a node. */
  ghost function PathUp(n: Alias, base: Alias?, s: set<Alias>, bound: nat): seq<string>
    requires Forest(s, bound) && n in s
    reads s
    decreases n.depth
  {
    if n == base then []
    else if n.parent == null then [n.alias]
    else PathUp(n.parent, base, s, bound) + [n.alias]
  }

  ghost function UpFrom(p: Alias?, base: Alias?, s: set<Alias>, bound: nat): seq<string>
    requires Forest(s, bound) && (p != null ==> p in s)
    reads s
  {
    if p == null then [] else PathUp(p, base, s, bound)
  }

  lemma {:induction false} TakeOneMoreName(names: seq<string>, name: string)
    ensures Backwards(names + [name]) == [name] + Backwards(names)
  {
    assert (names + [name])[..|names|] == names;
  }

  function Backwards(names: seq<string>): seq<string> {
    if names == [] then [] else [names[|names| - 1]] + Backwards(names[..|names| - 1])
  }

  /** A full name: text or, for an empty joiner, the list of names from the node upwards. */
  datatype FullName = Joined(text: string) | Upward(names: seq<string>)

  /** A node's full name, by walking up its parents. */
  method GetFullName(n: Alias, base: Alias?, joiner: string, ghost s: set<Alias>, ghost bound: nat) returns (name: FullName)
    requires Forest(s, bound) && n in s
    ensures name.Joined? <==> n == base || joiner != ""
    ensures name.Joined? ==> name.text == Join(PathUp(n, base, s, bound), joiner)
    ensures name.Upward? ==> Backwards(name.names) == PathUp(n, base, s, bound)
  {
    if n == base { return Joined(""); }
    var names := [n.alias];
    var p := n.parent;
    assert Backwards(names) == [n.alias];
    while p != null && p != base
      invariant p != null ==> p in s
      invariant PathUp(n, base, s, bound) == UpFrom(p, base, s, bound) + Backwards(names)
      decreases if p == null then 0 else p.depth + 1
    {
      assert UpFrom(p, base, s, bound) == UpFrom(p.parent, base, s, bound) + [p.alias];
      Associative(UpFrom(p.parent, base, s, bound), [p.alias], Backwards(names));
      TakeOneMoreName(names, p.alias);
      names := names + [p.alias];
      p := p.parent;
    }
    assert PathUp(n, base, s, bound) == Backwards(names);
    name := if joiner != "" then Joined(Join(Backwards(names), joiner)) else Upward(names);
  }

  // ---------------------------------------------------------------- the listing agrees with the names

  /** A place is a node of the forest under its name seen from above `base`. */
  ghost predicate PlaceOk(p: Place, base: Alias?, s: set<Alias>, bound: nat)
    requires Forest(s, bound)
    reads s
  {
    p.node in s && p.path != [] && p.path == PathUp(p.node, base, s, bound)
  }

  /** Below `n` a path from `base` goes through `n`. */
  ghost predicate Extends(p: Place, n: Alias, base: Alias?, s: set<Alias>, bound: nat)
    requires Forest(s, bound) && n in s
    reads s
  {
    && p.node in s && p.path != [] && p.path[0] == n.alias
    && p.node.depth >= n.depth
    && PathUp(p.node, base, s, bound) == PathUp(n, base, s, bound) + p.path[1..]
  }

  /** Walking up from any place below `n` comes by `n` with the names that were listed. */
  lemma {:induction false} PlacesGoUp(n: Alias, base: Alias?, s: set<Alias>, bound: nat)
    requires Forest(s, bound) && n in s && (base == null || base !in s || base.depth < n.depth)
    ensures forall k :: 0 <= k < |Places(n, s, bound)| ==> Extends(Places(n, s, bound)[k], n, base, s, bound)
    decreases bound - n.depth, |n.children| + 1
  {
    PlacesFromGoUp(n, 0, base, s, bound);
  }

  /** A place below one of the children from the i-th on. */
  ghost predicate ViaChild(p: Place, n: Alias, i: nat)
    reads n
  {
    |p.path| > 1 && exists j :: i <= j < |n.children| && p.path[1] == n.children[j].alias
  }

  lemma UnderExtends(p: Place, n: Alias, c: Alias, base: Alias?, s: set<Alias>, bound: nat)
    requires Forest(s, bound) && n in s && c in n.children && c in s && n != base && c != base
    requires Extends(p, c, base, s, bound)
    ensures Extends(Place(p.node, [n.alias] + p.path), n, base, s, bound)
  {
    assert c.parent == n;
    StepDown(PathUp(n, base, s, bound), c.alias, p.path);
    assert ([n.alias] + p.path)[1..] == p.path;
  }

  lemma StepDown(above: seq<string>, name: string, path: seq<string>)
    requires path != [] && path[0] == name
    ensures (above + [name]) + path[1..] == above + path
  {
  }

  lemma {:induction false} PlacesFromGoUp(n: Alias, i: nat, base: Alias?, s: set<Alias>, bound: nat)
    requires Forest(s, bound) && n in s && i <= |n.children| && (base == null || base !in s || base.depth < n.depth)
    ensures forall k :: 0 <= k < |PlacesFrom(n, i, s, bound)| ==>
              Extends(PlacesFrom(n, i, s, bound)[k], n, base, s, bound) && ViaChild(PlacesFrom(n, i, s, bound)[k], n, i)
    decreases bound - n.depth, |n.children| - i
  {
    if i < |n.children| {
      var c := n.children[i];
      assert c in n.children;
      PlacesGoUp(c, base, s, bound);
      PlacesFromGoUp(n, i + 1, base, s, bound);
      var below := Places(c, s, bound);
      forall k | 0 <= k < |below|
        ensures Extends(Under(n.alias, below)[k], n, base, s, bound) && ViaChild(Under(n.alias, below)[k], n, i)
      {
        assert Extends(below[k], c, base, s, bound);
        UnderExtends(below[k], n, c, base, s, bound);
      }
    }
  }

  // ---------------------------------------------------------------- every node once

  ghost predicate DistinctPaths(places: seq<Place>) {
    forall i, j :: 0 <= i < j < |places| ==> places[i].path != places[j].path
  }

  lemma {:induction false} PathsAreDistinct(n: Alias, s: set<Alias>, bound: nat)
    requires Forest(s, bound) && n in s
    ensures DistinctPaths(Places(n, s, bound))
    decreases bound - n.depth, |n.children| + 1
  {
    PathsFromAreDistinct(n, 0, s, bound);
    PlacesFromGoUp(n, 0, null, s, bound);
  }

  lemma {:induction false} PathsFromAreDistinct(n: Alias, i: nat, s: set<Alias>, bound: nat)
    requires Forest(s, bound) && n in s && i <= |n.children|
    ensures DistinctPaths(PlacesFrom(n, i, s, bound))
    decreases bound - n.depth, |n.children| - i
  {
    if i < |n.children| {
      var c := n.children[i];
      assert c in n.children;
      PathsAreDistinct(c, s, bound);
      PathsFromAreDistinct(n, i + 1, s, bound);
      PlacesGoUp(c, null, s, bound);
      PlacesFromGoUp(n, i + 1, null, s, bound);
      var here: seq<Place>, rest: seq<Place> := Under(n.alias, Places(c, s, bound)), PlacesFrom(n, i + 1, s, bound);
      forall a, b | 0 <= a < b < |here + rest| ensures (here + rest)[a].path != (here + rest)[b].path {
        if b < |here| {
          assert here[a].path[1..] != here[b].path[1..];
        } else if a < |here| {
          assert Extends(Places(c, s, bound)[a], c, null, s, bound);
          assert here[a].path[1] == c.alias;
        }
      }
    }
  }

  /** A node that lies below another one. */
  ghost predicate Below(n: Alias, top: Alias, s: set<Alias>, bound: nat)
    requires Forest(s, bound) && n in s
    reads s
    decreases n.depth
  {
    n == top || (n.parent != null && Below(n.parent, top, s, bound))
  }

  lemma {:induction false} ListedFrom(n: Alias, i: nat, j: nat, k: nat, s: set<Alias>, bound: nat)
    requires Forest(s, bound) && n in s && i <= j < |n.children| && n.children[j] in s
    requires k < |Places(n.children[j], s, bound)|
    ensures exists m :: 0 <= m < |PlacesFrom(n, i, s, bound)| && PlacesFrom(n, i, s, bound)[m].node == Places(n.children[j], s, bound)[k].node
    decreases j - i
  {
    var c := n.children[i];
    assert c in n.children;
    var here: seq<Place>, rest: seq<Place> := Under(n.alias, Places(c, s, bound)), PlacesFrom(n, i + 1, s, bound);
    assert PlacesFrom(n, i, s, bound) == here + rest;
    if i == j {
      assert PlacesFrom(n, i, s, bound)[k].node == Places(c, s, bound)[k].node;
    } else {
      ListedFrom(n, i + 1, j, k, s, bound);
      var m :| 0 <= m < |rest| && rest[m].node == Places(n.children[j], s, bound)[k].node;
      assert PlacesFrom(n, i, s, bound)[|here| + m] == rest[m];
    }
  }

  /** A child of a listed node is listed. */
  lemma {:induction false} ChildOfListed(top: Alias, k: nat, c: Alias, s: set<Alias>, bound: nat)
    requires Forest(s, bound) && top in s && k < |Places(top, s, bound)|
    requires c in Places(top, s, bound)[k].node.children
    ensures exists m :: 0 <= m < |Places(top, s, bound)| && Places(top, s, bound)[m].node == c
    decreases bound - top.depth
  {
    var all, from := Places(top, s, bound), PlacesFrom(top, 0, s, bound);
    if k == 0 {
      var j :| 0 <= j < |top.children| && top.children[j] == c;
      assert Places(c, s, bound)[0].node == c;
      ListedFrom(top, 0, j, 0, s, bound);
      var m :| 0 <= m < |from| && from[m].node == c;
      assert all[m + 1].node == c;
    } else {
      assert all[k] == from[k - 1];
      var j, q := WhichChild(top, 0, k - 1, s, bound);
      assert top.children[j] in top.children;
      ChildOfListed(top.children[j], q, c, s, bound);
      var m0 :| 0 <= m0 < |Places(top.children[j], s, bound)| && Places(top.children[j], s, bound)[m0].node == c;
      ListedFrom(top, 0, j, m0, s, bound);
      var m :| 0 <= m < |from| && from[m].node == c;
      assert all[m + 1].node == c;
    }
  }

  lemma {:induction false} WhichChild(n: Alias, i: nat, k: nat, s: set<Alias>, bound: nat) returns (j: nat, q: nat)
    requires Forest(s, bound) && n in s && i <= |n.children| && k < |PlacesFrom(n, i, s, bound)|
    ensures i <= j < |n.children| && n.children[j] in s && q < |Places(n.children[j], s, bound)|
    ensures PlacesFrom(n, i, s, bound)[k].node == Places(n.children[j], s, bound)[q].node
    decreases |n.children| - i
  {
    var c := n.children[i];
    assert c in n.children;
    var here := Under(n.alias, Places(c, s, bound));
    if k < |here| {
      j, q := i, k;
    } else {
      j, q := WhichChild(n, i + 1, k - |here|, s, bound);
    }
  }

  ghost predicate HasPlace(places: seq<Place>, n: Alias) {
    exists k :: 0 <= k < |places| && places[k].node == n
  }

  lemma {:induction false} EveryNodeBelowIsListed(n: Alias, top: Alias, s: set<Alias>, bound: nat)
    requires Forest(s, bound) && n in s && top in s && Below(n, top, s, bound)
    ensures HasPlace(Places(top, s, bound), n)
    decreases n.depth
  {
    if n == top {
      assert Places(top, s, bound)[0].node == n;
    } else {
      EveryNodeBelowIsListed(n.parent, top, s, bound);
      var k :| 0 <= k < |Places(top, s, bound)| && Places(top, s, bound)[k].node == n.parent;
      ChildOfListed(top, k, n, s, bound);
    }
  }

  /** Each node's parent comes next, until `top`. */
  ghost predicate Climbs(way: seq<Alias>, top: Alias)
    reads (set n | n in way && n != top)`parent
  {
    && way != [] && way[|way| - 1] == top
    && forall i :: 0 <= i < |way| - 1 ==> way[i] != top && way[i].parent == way[i + 1]
  }

  /** The way up from a node to another one; nothing if it does not lead there. */
  ghost function WayFrom(n: Alias, top: Alias, s: set<Alias>, bound: nat): (way: seq<Alias>)
    requires Forest(s, bound) && n in s
    reads s
    ensures way != [] <==> Below(n, top, s, bound)
    ensures way != [] ==> way[0] == n && Climbs(way, top) && forall m :: m in way ==> m in s
    decreases n.depth
  {
    if n == top then [n]
    else if n.parent == null then []
    else
      assert Linked(n, s, bound) && Linked(n.parent, s, bound);
      var rest := WayFrom(n.parent, top, s, bound);
      if rest == [] then [] else [n] + rest
  }

  lemma {:induction false} WayInForest(way: seq<Alias>, top: Alias, u: set<Alias>, b: nat)
    requires Climbs(way, top) && way[0] in u && Forest(u, b)
    ensures top in u && top.depth <= way[0].depth
    decreases |way|
  {
    if |way| > 1 {
      assert Linked(way[0], u, b) && Linked(way[1], u, b);
      assert forall i :: 0 <= i < |way| - 1 ==> way[1..][i] == way[i + 1];
      WayInForest(way[1..], top, u, b);
    }
  }

  /** A node that has among its children one that it is below is in no forest. */
  lemma LoopIsNoForest(way: seq<Alias>, top: Alias, u: set<Alias>, b: nat)
    requires Climbs(way, top) && way[0] in u && top in way[0].children
    ensures !Forest(u, b)
  {
    if Forest(u, b) {
      assert Linked(way[0], u, b);
      WayInForest(way, top, u, b);
    }
  }

  lemma NoForestAround(way: seq<Alias>, top: Alias)
    requires Climbs(way, top) && top in way[0].children
    ensures forall u, b: nat :: way[0] in u ==> !Forest(u, b)
  {
    forall u, b: nat | way[0] in u ensures !Forest(u, b) { LoopIsNoForest(way, top, u, b); }
  }

  /** From a root, the listing has every node below it exactly once, under exactly the name found by
      walking up from the node. */
  lemma {:induction false} ListingAgreesWithNames(root: Alias, s: set<Alias>, bound: nat)
    requires Forest(s, bound) && root in s && root.parent == null
    ensures var places := Places(root, s, bound);
            && (forall k :: 0 <= k < |places| ==> PlaceOk(places[k], null, s, bound))
            && (forall i, j :: 0 <= i < j < |places| ==> places[i].node != places[j].node)
            && (forall n :: n in s && Below(n, root, s, bound) ==> HasPlace(places, n))
  {
    var places := Places(root, s, bound);
    PlacesGoUp(root, null, s, bound);
    PathsAreDistinct(root, s, bound);
    forall k | 0 <= k < |places| ensures PlaceOk(places[k], null, s, bound) {
      assert Extends(places[k], root, null, s, bound);
      assert [root.alias] + places[k].path[1..] == places[k].path;
    }
    forall i, j | 0 <= i < j < |places| ensures places[i].node != places[j].node {
      assert PlaceOk(places[i], null, s, bound) && PlaceOk(places[j], null, s, bound);
    }
    forall n | n in s && Below(n, root, s, bound) ensures HasPlace(places, n) {
      EveryNodeBelowIsListed(n, root, s, bound);
    }
  }

  // ---------------------------------------------------------------- get_all

  /** The name a place is listed under: the given joiner only after the first name, a dot elsewhere. */
  function ListedName(path: seq<string>, joiner: string): string {
    if |path| <= 1 then Join(path, ".") else path[0] + joiner + Join(path[1..], ".")
  }

  predicate Wanted(n: Alias, types: set<string>) {
    Given(n.channel) && (types == {} || (Given(n.channeltype) && n.channeltype.value in types))
  }

  function RecordOf(p: Place, joiner: string): Record
    requires Given(p.node.channel)
  {
    Record(ListedName(p.path, joiner), p.node.channel.value, if Given(p.node.channeltype) then p.node.channeltype else None)
  }

  /** The records of the places that have a channel of a wanted type (no types: all). */
  function Listed(places: seq<Place>, joiner: string, types: set<string>): seq<Record> {
    if places == [] then []
    else (if Wanted(places[0].node, types) then [RecordOf(places[0], joiner)] else []) + Listed(places[1..], joiner, types)
  }

  /** Every place with a channel has a channel type. */
  predicate Complete(places: seq<Place>) {
    forall p :: p in places && Given(p.node.channel) ==> Given(p.node.channeltype)
  }

  lemma {:induction false} ListedConcat(a: seq<Place>, b: seq<Place>, joiner: string, types: set<string>)
    ensures Listed(a + b, joiner, types) == Listed(a, joiner, types) + Listed(b, joiner, types)
  {
    if a == [] {
      assert a + b == b;
    } else {
      assert (a + b)[1..] == a[1..] + b;
      ListedConcat(a[1..], b, joiner, types);
      var own := if Wanted(a[0].node, types) then [RecordOf(a[0], joiner)] else [];
      assert Listed(a + b, joiner, types) == own + Listed(a[1..] + b, joiner, types);
      Associative(own, Listed(a[1..], joiner, types), Listed(b, joiner, types));
    }
  }

  /** A parent's records made of a child's: the child's names after the parent's; None when a record has
      no channel type. */
  function Prefixed(name: string, records: seq<Record>, joiner: string, types: set<string>): seq<Record> {
    if records == [] then []
    else
      var r := records[0];
      (if types == {} || (r.channeltype.Some? && r.channeltype.value in types)
       then [r.(name := name + joiner + r.name)] else []) + Prefixed(name, records[1..], joiner, types)
  }

  lemma {:induction false} PrefixedListing(name: string, places: seq<Place>, joiner: string, types: set<string>)
    requires forall p :: p in places ==> p.path != []
    ensures Prefixed(name, Listed(places, ".", {}), joiner, types) == Listed(Under(name, places), joiner, types)
  {
    if places != [] {
      var p, under := places[0], Under(name, places);
      PrefixedListing(name, places[1..], joiner, types);
      assert under[1..] == Under(name, places[1..]);
      assert under[0].path[1..] == p.path;
      JoinSplits(p.path);
      var rest := Listed(places[1..], ".", {});
      if Given(p.node.channel) {
        assert Listed(places, ".", {}) == [RecordOf(p, ".")] + rest;
        assert Listed(places, ".", {})[1..] == rest;
        assert RecordOf(under[0], joiner) == RecordOf(p, ".").(name := name + joiner + RecordOf(p, ".").name);
      } else {
        assert Listed(places, ".", {}) == rest;
        assert Listed(under, joiner, types) == Listed(under[1..], joiner, types);
      }
    }
  }

  lemma {:induction false} JoinSplits(path: seq<string>)
    requires path != []
    ensures ListedName(path, ".") == Join(path, ".")
  {
  }

  /** Put the parent's name before a child's records; raises on a record without a channel type. */
  method PrefixAll(name: string, records: seq<Record>, joiner: string, types: set<string>) returns (r: Result<seq<Record>, string>)
    ensures r.Ok? <==> forall x :: x in records ==> x.channeltype.Some?
    ensures r.Ok? ==> r.value == Prefixed(name, records, joiner, types)
  {
    var out := [];
    for i := 0 to |records|
      invariant forall x :: x in records[..i] ==> x.channeltype.Some?
      invariant Prefixed(name, records, joiner, types) == out + Prefixed(name, records[i..], joiner, types)
    {
      var x := records[i];
      PrefixedNext(name, records, joiner, types, i);
      TakeOneMore(records, i);
      if x.channeltype.None? { return Err("channeltype"); }
      if types == {} || x.channeltype.value in types {
        Associative(out, [x.(name := name + joiner + x.name)], Prefixed(name, records[i + 1..], joiner, types));
        out := out + [x.(name := name + joiner + x.name)];
      }
    }
    r := Ok(out);
  }

  lemma {:induction false} PrefixedNext(name: string, records: seq<Record>, joiner: string, types: set<string>, i: nat)
    requires i < |records|
    ensures var x, rest := records[i], Prefixed(name, records[i + 1..], joiner, types);
            Prefixed(name, records[i..], joiner, types)
            == if types == {} || (x.channeltype.Some? && x.channeltype.value in types)
               then [x.(name := name + joiner + x.name)] + rest else rest
  {
    assert records[i..][0] == records[i] && records[i..][1..] == records[i + 1..];
  }

  lemma {:induction false} ListedTypes(places: seq<Place>)
    ensures (forall x :: x in Listed(places, ".", {}) ==> x.channeltype.Some?) <==> Complete(places)
  {
    if places != [] {
      ListedTypes(places[1..]);
      assert places == [places[0]] + places[1..];
      if Given(places[0].node.channel) {
        assert RecordOf(places[0], ".") in Listed(places, ".", {});
      }
    }
  }

  lemma UnderComplete(name: string, places: seq<Place>)
    ensures Complete(Under(name, places)) <==> Complete(places)
  {
    forall i | 0 <= i < |places| ensures Under(name, places)[i].node == places[i].node && Under(name, places)[i] in Under(name, places) {}
  }

  lemma {:induction false} PathsNotEmpty(n: Alias, s: set<Alias>, bound: nat)
    requires Forest(s, bound) && n in s
    ensures forall p :: p in Places(n, s, bound) ==> p.path != []
  {
    PlacesGoUp(n, null, s, bound);
    forall p | p in Places(n, s, bound) ensures p.path != [] {
      var k :| 0 <= k < |Places(n, s, bound)| && Places(n, s, bound)[k] == p;
      assert Extends(Places(n, s, bound)[k], n, null, s, bound);
    }
  }

  lemma CompleteConcat(name: string, below: seq<Place>, rest: seq<Place>)
    ensures Complete(Under(name, below) + rest) <==> Complete(below) && Complete(rest)
  {
    UnderComplete(name, below);
    var both := Under(name, below) + rest;
    assert forall p :: p in both <==> p in Under(name, below) || p in rest;
  }

  lemma NextChild(n: Alias, i: nat, joiner: string, types: set<string>, s: set<Alias>, bound: nat)
    requires Forest(s, bound) && n in s && i < |n.children| && n.children[i] in s
    ensures var below, rest := Places(n.children[i], s, bound), PlacesFrom(n, i + 1, s, bound);
            && (Complete(PlacesFrom(n, i, s, bound)) <==> Complete(below) && Complete(rest))
            && Listed(PlacesFrom(n, i, s, bound), joiner, types)
               == Listed(Under(n.alias, below), joiner, types) + Listed(rest, joiner, types)
  {
    var below := Places(n.children[i], s, bound);
    CompleteConcat(n.alias, below, PlacesFrom(n, i + 1, s, bound));
    ListedConcat(Under(n.alias, below), PlacesFrom(n, i + 1, s, bound), joiner, types);
  }

  /** One child's share of its parent's listing. */
  method ListChild(n: Alias, i: nat, joiner: string, types: set<string>, ghost s: set<Alias>, ghost bound: nat)
      returns (r: Result<seq<Record>, string>)
    requires Forest(s, bound) && n in s && i < |n.children| && n.children[i] in s
    ensures r.Ok? <==> Complete(Places(n.children[i], s, bound))
    ensures r.Ok? ==> r.value == Listed(Under(n.alias, Places(n.children[i], s, bound)), joiner, types)
    decreases bound - n.depth, 0
  {
    var c := n.children[i];
    assert c in n.children;
    ghost var below := Places(c, s, bound);
    assert below == [Place(c, [c.alias])] + PlacesFrom(c, 0, s, bound);
    ListedTypes(below);
    PathsNotEmpty(c, s, bound);
    PrefixedListing(n.alias, below, joiner, types);
    var sub := GetAll(c, ".", {}, s, bound);
    if sub.Err? {
      assert forall p :: p in PlacesFrom(c, 0, s, bound) ==> p in below;
      return sub;
    }
    r := PrefixAll(n.alias, sub.value, joiner, types);
  }

  /** The node's own record, if it has a channel of a wanted type. */
  method OwnRecord(n: Alias, joiner: string, types: set<string>) returns (r: Result<seq<Record>, string>)
    ensures r.Ok? <==> (types != {} && Given(n.channel) ==> Given(n.channeltype))
    ensures r.Ok? ==> r.value == Listed([Place(n, [n.alias])], joiner, types)
  {
    r := Ok([]);
    if Given(n.channel) {
      if types != {} && !Given(n.channeltype) { return Err("channeltype"); }
      if types == {} || n.channeltype.value in types {
        r := Ok([Record(n.alias, n.channel.value, if Given(n.channeltype) then n.channeltype else None)]);
      }
    }
  }

  /** List a node and everything below it. It raises when a node below has a channel without a channel
      type, or the node itself has and types are asked for; otherwise it lists each place with a channel
      of a wanted type, in order. */
  method GetAll(n: Alias, joiner: string, types: set<string>, ghost s: set<Alias>, ghost bound: nat) returns (r: Result<seq<Record>, string>)
    requires Forest(s, bound) && n in s
    ensures r.Ok? <==> Complete(PlacesFrom(n, 0, s, bound)) && (types != {} && Given(n.channel) ==> Given(n.channeltype))
    ensures r.Ok? ==> r.value == Listed(Places(n, s, bound), joiner, types)
    decreases bound - n.depth, 2
  {
    var own := OwnRecord(n, joiner, types);
    if own.Err? { return own; }
    var more := ListChildren(n, joiner, types, s, bound);
    if more.Err? { return more; }
    ListedConcat([Place(n, [n.alias])], PlacesFrom(n, 0, s, bound), joiner, types);
    r := Ok(own.value + more.value);
  }

  /** The children's shares, one after the other. */
  method ListChildren(n: Alias, joiner: string, types: set<string>, ghost s: set<Alias>, ghost bound: nat) returns (r: Result<seq<Record>, string>)
    requires Forest(s, bound) && n in s
    ensures r.Ok? <==> Complete(PlacesFrom(n, 0, s, bound))
    ensures r.Ok? ==> r.value == Listed(PlacesFrom(n, 0, s, bound), joiner, types)
    decreases bound - n.depth, 1
  {
    var out := [];
    for i := 0 to |n.children|
      invariant Complete(PlacesFrom(n, 0, s, bound)) <==> Complete(PlacesFrom(n, i, s, bound))
      invariant Listed(PlacesFrom(n, 0, s, bound), joiner, types) == out + Listed(PlacesFrom(n, i, s, bound), joiner, types)
    {
      assert n.children[i] in n.children;
      NextChild(n, i, joiner, types, s, bound);
      var more := ListChild(n, i, joiner, types, s, bound);
      if more.Err? { return more; }
      Associative(out, more.value, Listed(PlacesFrom(n, i + 1, s, bound), joiner, types));
      out := out + more.value;
    }
    r := Ok(out);
  }

  // ---------------------------------------------------------------- types, joiners, distinct names

  function OfTypes(records: seq<Record>, types: set<string>): seq<Record> {
    if records == [] then []
    else
      (if records[0].channeltype.Some? && records[0].channeltype.value in types then [records[0]] else []) + OfTypes(records[1..], types)
  }

  /** Asking for some types gives the full listing without the others. */
  lemma {:induction false} ListingByTypeIsFiltered(places: seq<Place>, joiner: string, types: set<string>)
    requires types != {}
    ensures Listed(places, joiner, types) == OfTypes(Listed(places, joiner, {}), types)
  {
    if places != [] {
      ListingByTypeIsFiltered(places[1..], joiner, types);
      var rest := Listed(places[1..], joiner, {});
      if Given(places[0].node.channel) {
        assert Listed(places, joiner, {}) == [RecordOf(places[0], joiner)] + rest;
        assert Listed(places, joiner, {})[1..] == rest;
      } else {
        assert Listed(places, joiner, {}) == rest;
      }
    }
  }

  lemma {:induction false} LongerJoiner(names: seq<string>, a: string, b: string)
    requires |names| >= 2 && |a| < |b|
    ensures |Join(names, a)| < |Join(names, b)|
  {
    if |names| > 2 { LongerJoiner(names[1..], a, b); }
  }

  lemma {:induction false} JoinerShows(names: seq<string>, joiner: string)
    requires |names| >= 2 && joiner != "."
    ensures Join(names, joiner) != Join(names, ".")
  {
    if |joiner| < 1 {
      LongerJoiner(names, joiner, ".");
    } else if |joiner| > 1 {
      LongerJoiner(names, ".", joiner);
    } else {
      assert Join(names, joiner)[|names[0]|] == joiner[0];
      assert Join(names, ".")[|names[0]|] == '.';
    }
  }

  /** With another joiner than a dot the listed name is the full name built with that joiner only down to
      the second level: deeper down the listing keeps dots. */
  lemma {:induction false} OtherJoinerAgreesIffShallow(path: seq<string>, joiner: string)
    requires path != []
    ensures ListedName(path, joiner) == Join(path, joiner) <==> joiner == "." || |path| <= 2
  {
    if |path| > 2 && joiner != "." {
      JoinerShows(path[1..], joiner);
      var a, b := path[0] + joiner + Join(path[1..], "."), path[0] + joiner + Join(path[1..], joiner);
      assert a[|path[0] + joiner|..] == Join(path[1..], ".") && b[|path[0] + joiner|..] == Join(path[1..], joiner);
    }
  }

  // ---------------------------------------------------------------- joiners that keep names apart

  /** The joiner stands in `text` at place `p`. */
  predicate StandsAt(text: string, joiner: string, p: nat) {
    p + |joiner| <= |text| && text[p..p + |joiner|] == joiner
  }

  ghost predicate FreeOf(names: seq<string>, joiner: string) {
    forall i, p: nat :: 0 <= i < |names| ==> !StandsAt(names[i], joiner, p)
  }

  /** No proper beginning of the joiner is also its end: true of every single character. */
  predicate Unbordered(joiner: string) {
    forall m :: 0 < m < |joiner| ==> joiner[..m] != joiner[|joiner| - m..]
  }

  /** In a joined name the joiner first stands behind the first name. */
  lemma {:induction false} FirstJoiner(names: seq<string>, joiner: string, p: nat)
    requires names != [] && FreeOf(names, joiner) && Unbordered(joiner)
    ensures var j := Join(names, joiner);
            && names[0] <= j
            && (|names| > 1 ==> StandsAt(j, joiner, |names[0]|) && j[|names[0]| + |joiner|..] == Join(names[1..], joiner))
            && (p < |names[0]| || |names| == 1 ==> !StandsAt(j, joiner, p))
  {
    var j := Join(names, joiner);
    if |names| > 1 {
      var head := names[0] + joiner;
      assert j == head + Join(names[1..], joiner);
      assert j[|head|..] == Join(names[1..], joiner);
      if p < |names[0]| { NotWithin(names[0], joiner, Join(names[1..], joiner), p); }
    } else {
      assert !StandsAt(names[0], joiner, p);
    }
  }

  lemma NotWithin(name: string, joiner: string, rest: string, p: nat)
    requires Unbordered(joiner) && p < |name| && !StandsAt(name, joiner, p)
    ensures !StandsAt(name + joiner + rest, joiner, p)
  {
    var all, n := name + joiner + rest, |joiner|;
    if p + n <= |name| {
      assert all[p..p + n] == name[p..p + n];
    } else {
      var m := p + n - |name|;
      assert all[p..p + n][n - m..] == joiner[..m];
      assert joiner[..m] != joiner[n - m..];
    }
  }

  /** A joiner keeps lists of names apart that do not contain it, if and only if no proper beginning of
      it is also its end. */
  lemma {:induction false} JoinerSeparatesIff(joiner: string)
    requires joiner != ""
    ensures Unbordered(joiner) <==>
            forall a: seq<string>, b: seq<string> ::
              a != [] && b != [] && FreeOf(a, joiner) && FreeOf(b, joiner) && Join(a, joiner) == Join(b, joiner) ==> a == b
  {
    if Unbordered(joiner) {
      forall a: seq<string>, b: seq<string>
        | a != [] && b != [] && FreeOf(a, joiner) && FreeOf(b, joiner) && Join(a, joiner) == Join(b, joiner)
        ensures a == b
      {
        JoinInjective(a, b, joiner);
      }
    } else {
      var m :| 0 < m < |joiner| && joiner[..m] == joiner[|joiner| - m..];
      BorderedCollides(joiner, m);
    }
  }

  lemma {:induction false} BorderedCollides(joiner: string, m: nat)
    requires 0 < m < |joiner| && joiner[..m] == joiner[|joiner| - m..]
    ensures var a, b := ["", joiner[m..]], [joiner[..|joiner| - m], ""];
            FreeOf(a, joiner) && FreeOf(b, joiner) && Join(a, joiner) == Join(b, joiner) && a != b
  {
    var begin, border, end := joiner[..|joiner| - m], joiner[..m], joiner[m..];
    var a, b := ["", end], [begin, ""];
    ShortNamesAreFree(a, joiner);
    ShortNamesAreFree(b, joiner);
    assert joiner == begin + border && joiner == border + end;
    SameJoin(begin, border, end, joiner);
    assert |a[0]| != |b[0]|;
  }

  lemma ShortNamesAreFree(names: seq<string>, joiner: string)
    requires forall i :: 0 <= i < |names| ==> |names[i]| < |joiner|
    ensures FreeOf(names, joiner)
  {
  }

  lemma {:induction false} SameJoin(begin: string, border: string, end: string, joiner: string)
    requires joiner == begin + border == border + end
    ensures Join(["", end], joiner) == Join([begin, ""], joiner)
  {
    JoinOfTwo("", end, joiner);
    JoinOfTwo(begin, "", joiner);
    Associative(begin, border, end);
    assert "" + joiner == joiner && begin + joiner + "" == begin + joiner;
  }

  lemma {:induction false} JoinOfTwo(a: string, b: string, joiner: string)
    ensures Join([a, b], joiner) == a + joiner + b
  {
    assert [a, b][1..] == [b];
  }

  lemma {:induction false} JoinInjective(a: seq<string>, b: seq<string>, joiner: string)
    requires joiner != "" && Unbordered(joiner)
    requires a != [] && b != [] && FreeOf(a, joiner) && FreeOf(b, joiner) && Join(a, joiner) == Join(b, joiner)
    ensures a == b
  {
    FirstJoiner(a, joiner, |b[0]|);
    FirstJoiner(b, joiner, |a[0]|);
    if |a| > 1 && |b| > 1 {
      var j := Join(a, joiner);
      assert a[0] == j[..|a[0]|] == b[0];
      JoinInjective(a[1..], b[1..], joiner);
      assert a == [a[0]] + a[1..] && b == [b[0]] + b[1..];
    } else {
      assert |a| == 1 && |b| == 1;
      assert a == [a[0]] && b == [b[0]];
    }
  }

  ghost predicate AliasesFreeOf(s: set<Alias>, joiner: string) {
    forall x, p: nat :: x in s ==> !StandsAt(x.alias, joiner, p)
  }

  lemma {:induction false} PathNamesAreAliases(n: Alias, s: set<Alias>, bound: nat, joiner: string)
    requires Forest(s, bound) && n in s && AliasesFreeOf(s, joiner)
    ensures FreeOf(PathUp(n, null, s, bound), joiner) && PathUp(n, null, s, bound) != []
    decreases n.depth
  {
    if n.parent != null { PathNamesAreAliases(n.parent, s, bound, joiner); }
  }

  /** When no alias contains the joiner, the full names of a tree are all different, for every joiner
      that keeps names apart. */
  lemma {:induction false} FullNamesAreDistinct(root: Alias, s: set<Alias>, bound: nat, joiner: string, i: nat, j: nat)
    requires Forest(s, bound) && root in s && root.parent == null
    requires joiner != "" && Unbordered(joiner) && AliasesFreeOf(s, joiner)
    requires i < j < |Places(root, s, bound)|
    ensures Join(Places(root, s, bound)[i].path, joiner) != Join(Places(root, s, bound)[j].path, joiner)
  {
    var places := Places(root, s, bound);
    ListingAgreesWithNames(root, s, bound);
    PathsAreDistinct(root, s, bound);
    assert PlaceOk(places[i], null, s, bound) && PlaceOk(places[j], null, s, bound);
    PathNamesAreAliases(places[i].node, s, bound, joiner);
    PathNamesAreAliases(places[j].node, s, bound, joiner);
    if Join(places[i].path, joiner) == Join(places[j].path, joiner) {
      JoinInjective(places[i].path, places[j].path, joiner);
    }
  }
}
