/** Nodes numbered by the key they were first visited under: the index behind a scan's mesh. */
module NodeIndex {

  /** `keys[i]` is the key of node i; `at` finds the node of a key. */
  datatype Index<!K> = Index(keys: seq<K>, at: map<K, nat>)

  function Empty<K>(): Index<K> { Index([], map[]) }

  function Visit<K>(ix: Index<K>, key: K): (Index<K>, nat) {
    if key in ix.at then (ix, ix.at[key])
    else (Index(ix.keys + [key], ix.at[key := |ix.keys|]), |ix.keys|)
  }

  function VisitAll<K>(ix: Index<K>, keys: seq<K>): (Index<K>, seq<nat>) {
    if keys == [] then (ix, [])
    else
      var (ix1, nodes) := VisitAll(ix, keys[..|keys| - 1]);
      var (ix2, node) := Visit(ix1, keys[|keys| - 1]);
      (ix2, nodes + [node])
  }

  /** A node found later replaces one with the same key. */
  function Rebuilt<K>(keys: seq<K>): map<K, nat> {
    if keys == [] then map[] else Rebuilt(keys[..|keys| - 1])[keys[|keys| - 1] := |keys| - 1]
  }

  /** Every node's key is found, and finds a node with that key. */
  ghost predicate Sound<K>(ix: Index<K>) {
    && (forall i :: 0 <= i < |ix.keys| ==> ix.keys[i] in ix.at)
    && (forall k :: k in ix.at ==> ix.at[k] < |ix.keys| && ix.keys[ix.at[k]] == k)
  }

  ghost predicate Distinct<K>(keys: seq<K>) {
    forall i, j :: 0 <= i < j < |keys| ==> keys[i] != keys[j]
  }

  ghost function KeySet<K>(keys: seq<K>): set<K> {
    set i | 0 <= i < |keys| :: keys[i]
  }

  lemma {:induction false} RebuiltSound<K>(keys: seq<K>)
    ensures Sound(Index(keys, Rebuilt(keys)))
  {
    if keys != [] {
      var front := keys[..|keys| - 1];
      RebuiltSound(front);
      assert forall i :: 0 <= i < |front| ==> keys[i] == front[i];
    }
  }

  /** The state after visiting `keys` from `ix` on, and the node each visit returned. */
  ghost predicate Visited<K>(ix: Index<K>, keys: seq<K>, ix': Index<K>, nodes: seq<nat>) {
    && Sound(ix') && Distinct(ix'.keys)
    && |nodes| == |keys|
    && KeySet(ix'.keys) == KeySet(ix.keys) + KeySet(keys)
    && forall i :: 0 <= i < |keys| ==> nodes[i] < |ix'.keys| && ix'.keys[nodes[i]] == keys[i]
  }

  lemma VisitedOneMore<K>(ix: Index<K>, front: seq<K>, ix1: Index<K>, nodes: seq<nat>, last: K)
    requires Visited(ix, front, ix1, nodes)
    ensures Visited(ix, front + [last], Visit(ix1, last).0, nodes + [Visit(ix1, last).1])
  {
    var ix2 := Visit(ix1, last).0;
    assert KeySet(front + [last]) == KeySet(front) + {last} by { SetOfOneMore(front, last); }
    if last in ix1.at {
      assert last in KeySet(ix1.keys);
    } else {
      SetOfOneMore(ix1.keys, last);
    }
  }

  lemma SetOfOneMore<K>(keys: seq<K>, k: K)
    ensures KeySet(keys + [k]) == KeySet(keys) + {k}
  {
    var all := keys + [k];
    assert all[|keys|] == k;
    forall x | x in KeySet(keys) ensures x in KeySet(all) {
      var i :| 0 <= i < |keys| && keys[i] == x;
      assert all[i] == x;
    }
  }

  lemma {:induction false} VisitAllVisits<K>(ix: Index<K>, keys: seq<K>)
    requires Sound(ix) && Distinct(ix.keys)
    ensures Visited(ix, keys, VisitAll(ix, keys).0, VisitAll(ix, keys).1)
  {
    if keys == [] {
      assert KeySet(keys) == {};
    } else {
      var front, last := keys[..|keys| - 1], keys[|keys| - 1];
      VisitAllVisits(ix, front);
      VisitedOneMore(ix, front, VisitAll(ix, front).0, VisitAll(ix, front).1, last);
      assert front + [last] == keys;
    }
  }

  /** Two visits return the same node exactly when their keys agree. */
  lemma {:induction false} SameNodeIffSameKey<K>(ix: Index<K>, keys: seq<K>, i: nat, j: nat)
    requires Sound(ix) && i < |keys| && j < |keys|
    ensures var nodes := VisitAll(ix, keys).1;
            |nodes| == |keys| && (nodes[i] == nodes[j] <==> keys[i] == keys[j])
  {
    VisitsFind(ix, keys);
  }

  /** Every visit returns the node that finds its key in the end, and nodes found before stay. */
  lemma {:induction false} VisitsFind<K>(ix: Index<K>, keys: seq<K>)
    requires Sound(ix)
    ensures var (ix', nodes) := VisitAll(ix, keys);
            && Sound(ix') && |nodes| == |keys| && ix.keys <= ix'.keys
            && (forall k :: k in ix.at ==> k in ix'.at && ix'.at[k] == ix.at[k])
            && forall i :: 0 <= i < |keys| ==> keys[i] in ix'.at && ix'.at[keys[i]] == nodes[i]
  {
    if keys != [] {
      var front := keys[..|keys| - 1];
      VisitsFind(ix, front);
      OneVisitFinds(VisitAll(ix, front).0, keys[|keys| - 1]);
    }
  }

  lemma OneVisitFinds<K>(ix: Index<K>, key: K)
    requires Sound(ix)
    ensures var (ix', node) := Visit(ix, key);
            && Sound(ix') && ix.keys <= ix'.keys && key in ix'.at && ix'.at[key] == node
            && forall k :: k in ix.at ==> k in ix'.at && ix'.at[k] == ix.at[k]
  {
  }

  lemma {:induction false} CountDistinct<K>(keys: seq<K>)
    requires Distinct(keys)
    ensures |KeySet(keys)| == |keys|
  {
    if keys == [] {
      assert KeySet(keys) == {};
    } else {
      var front, last := keys[..|keys| - 1], keys[|keys| - 1];
      CountDistinct(front);
      SetOfOneMore(front, last);
      assert front + [last] == keys;
      assert last !in KeySet(front);
    }
  }

  lemma {:induction false} VisitPrefix<K>(ix: Index<K>, keys: seq<K>, n: nat)
    requires n <= |keys|
    ensures |VisitAll(ix, keys).1| == |keys|
    ensures VisitAll(ix, keys[..n]).1 == VisitAll(ix, keys).1[..n]
  {
    if n < |keys| {
      var front := keys[..|keys| - 1];
      VisitPrefix(ix, front, n);
      assert front[..n] == keys[..n];
    } else {
      assert keys[..n] == keys;
      VisitLength(ix, keys);
    }
  }

  lemma {:induction false} VisitLength<K>(ix: Index<K>, keys: seq<K>)
    ensures |VisitAll(ix, keys).1| == |keys|
  {
    if keys != [] { VisitLength(ix, keys[..|keys| - 1]); }
  }

  lemma {:induction false} VisitAt<K>(ix: Index<K>, keys: seq<K>, i: nat)
    requires i < |keys|
    ensures |VisitAll(ix, keys).1| == |keys|
    ensures VisitAll(ix, keys).1[i] == Visit(VisitAll(ix, keys[..i]).0, keys[i]).1
  {
    VisitPrefix(ix, keys, i + 1);
    VisitLength(ix, keys[..i]);
    var upTo := keys[..i + 1];
    assert upTo[..|upTo| - 1] == keys[..i];
    assert VisitAll(ix, keys).1[i] == VisitAll(ix, keys).1[..i + 1][i];
  }

  lemma {:induction false} NewKeyGetsNextNumber<K>(keys: seq<K>, key: K)
    requires key !in KeySet(keys)
    ensures Visit(VisitAll(Empty(), keys).0, key).1 == |KeySet(keys)|
  {
    var before := VisitAll(Empty(), keys).0;
    VisitAllVisits(Empty(), keys);
    assert KeySet(Empty<K>().keys) == {};
    CountDistinct(before.keys);
  }

  /** Nodes are numbered in first-visit order: a new key gets the number of different keys before it. */
  lemma {:induction false} NumberedByFirstVisit<K>(keys: seq<K>, i: nat)
    requires i < |keys| && keys[i] !in KeySet(keys[..i])
    ensures var nodes := VisitAll(Empty(), keys).1;
            |nodes| == |keys| && nodes[i] == |KeySet(keys[..i])|
  {
    VisitAt(Empty(), keys, i);
    NewKeyGetsNextNumber(keys[..i], keys[i]);
  }
}
