/**
 The counters of a scan (eco/acquisition/counters.py): objects become their counters, every counter
 once, all plain detectors in one counter, and options follow their objects.
 */
module Counters {
  import opened Collections
  import opened NodeIndex

  /** Objects are compared by identity. */
  type Object = nat

  type Options = map<string, string>

  /** What an object becomes: one of the plain detectors, or a counter of its own. */
  datatype Group = Plain | Own(counter: Object)

  type Classifier = Object -> Group

  /** A counter of the scan: one that existed, or the one made here for the plain detectors. */
  datatype Counter = Given(counter: Object) | Combined(detectors: seq<Object>)

  const TOO_MANY_OPTIONS := "counter_options has more entries than there are counters"

  function Groups(objs: seq<Object>, classify: Classifier): seq<Group> {
    seq(|objs|, i requires 0 <= i < |objs| => classify(objs[i]))
  }

  function IsPlain(classify: Classifier): Object -> bool { (o: Object) => classify(o).Plain? }

  /** The counters in order of first appearance, and each object's counter. */
  function Grouped(objs: seq<Object>, classify: Classifier): (Index<Group>, seq<nat>) {
    VisitAll(Empty(), Groups(objs, classify))
  }

  /** The plain detectors, each once, in order of first appearance. */
  function Detectors(objs: seq<Object>, classify: Classifier): seq<Object> {
    VisitAll(Empty(), Filter(objs, IsPlain(classify))).0.keys
  }

  function CounterOf(group: Group, detectors: seq<Object>): Counter {
    if group.Plain? then Combined(detectors) else Given(group.counter)
  }

  function CountersOf(objs: seq<Object>, classify: Classifier): seq<Counter> {
    var keys := Grouped(objs, classify).0.keys;
    seq(|keys|, k requires 0 <= k < |keys| => CounterOf(keys[k], Detectors(objs, classify)))
  }

  // ---------------------------------------------------------------- the conversion

  function Slots(keys: seq<Group>): seq<Option<Object>> {
    seq(|keys|, k requires 0 <= k < |keys| => if keys[k].Plain? then None else Some(keys[k].counter))
  }

  method PlaceOf(slots: seq<Option<Object>>, counter: Object) returns (i: nat)
    ensures FirstPlace(slots, counter, i)
  {
    i := 0;
    while i < |slots| && slots[i] != Some(counter)
      invariant i <= |slots| && forall j :: 0 <= j < i ==> slots[j] != Some(counter)
    {
      i := i + 1;
    }
  }

  /** What the loop of the conversion keeps: list, slot and origins are the numbering of the groups. */
  ghost predicate Numbered(ix: Index<Group>, slots: seq<Option<Object>>, slot: Option<nat>) {
    && Sound(ix) && Distinct(ix.keys) && slots == Slots(ix.keys)
    && slot == if Plain in ix.at then Some(ix.at[Plain]) else None
  }

  lemma PlacePlain(ix: Index<Group>, slots: seq<Option<Object>>, slot: Option<nat>)
    requires Numbered(ix, slots, slot)
    ensures slot.None? ==> Numbered(Visit(ix, Plain).0, slots + [None], Some(|slots|)) && Visit(ix, Plain).1 == |slots|
    ensures slot.Some? ==> Visit(ix, Plain) == (ix, slot.value)
  {
  }

  /** `at` is the place of a counter in the list, its length if it is not there. */
  ghost predicate FirstPlace(slots: seq<Option<Object>>, counter: Object, at: nat) {
    && at <= |slots| && (at < |slots| ==> slots[at] == Some(counter))
    && forall j :: 0 <= j < at ==> slots[j] != Some(counter)
  }

  lemma PlaceOwn(ix: Index<Group>, slots: seq<Option<Object>>, slot: Option<nat>, counter: Object, at: nat)
    requires Numbered(ix, slots, slot) && FirstPlace(slots, counter, at)
    ensures at < |slots| ==> Visit(ix, Own(counter)) == (ix, at)
    ensures at == |slots| ==> Numbered(Visit(ix, Own(counter)).0, slots + [Some(counter)], slot) && Visit(ix, Own(counter)).1 == at
  {
    var group := Own(counter);
    if at < |slots| {
      assert ix.keys[at] == group;
    } else {
      NotInSlots(ix, slots, slot, counter);
      assert Slots(ix.keys + [group]) == slots + [Some(counter)];
    }
  }

  lemma NotInSlots(ix: Index<Group>, slots: seq<Option<Object>>, slot: Option<nat>, counter: Object)
    requires Numbered(ix, slots, slot) && forall j :: 0 <= j < |slots| ==> slots[j] != Some(counter)
    ensures Own(counter) !in ix.at && Own(counter) !in ix.keys
  {
    if Own(counter) in ix.at { KnownInSlots(ix, slots, slot, counter); }
  }

  lemma KnownInSlots(ix: Index<Group>, slots: seq<Option<Object>>, slot: Option<nat>, counter: Object)
    requires Numbered(ix, slots, slot) && Own(counter) in ix.at
    ensures exists j :: 0 <= j < |slots| && slots[j] == Some(counter)
  {
    assert slots[ix.at[Own(counter)]] == Some(counter);
  }

  /** One object more: its group's number, as visiting it gives. */
  method Place(ghost ix: Index<Group>, slots: seq<Option<Object>>, slot: Option<nat>, group: Group)
    returns (slots': seq<Option<Object>>, slot': Option<nat>, at: nat)
    requires Numbered(ix, slots, slot)
    ensures Numbered(Visit(ix, group).0, slots', slot') && at == Visit(ix, group).1
  {
    match group {
      case Plain =>
        PlacePlain(ix, slots, slot);
        if slot.None? {
          slots', slot', at := slots + [None], Some(|slots|), |slots|;
        } else {
          slots', slot', at := slots, slot, slot.value;
        }
      case Own(counter) =>
        at := PlaceOf(slots, counter);
        PlaceOwn(ix, slots, slot, counter, at);
        slots', slot' := if at == |slots| then slots + [Some(counter)] else slots, slot;
    }
  }

  method Collect(plain: seq<Object>, detector: Object) returns (plain': seq<Object>)
    ensures plain' == if detector in plain then plain else plain + [detector]
  {
    var known := false;
    for i := 0 to |plain|
      invariant known <==> detector in plain[..i]
    {
      if plain[i] == detector { known := true; }
    }
    plain' := if known then plain else plain + [detector];
  }

  lemma OneMoreGroup(objs: seq<Object>, classify: Classifier, i: nat)
    requires i < |objs|
    ensures var (before, after) := (Grouped(objs[..i], classify), Grouped(objs[..i + 1], classify));
            var visit := Visit(before.0, classify(objs[i]));
            after == (visit.0, before.1 + [visit.1])
  {
    assert Groups(objs[..i + 1], classify)[..i] == Groups(objs[..i], classify);
  }

  lemma OneMoreDetector(objs: seq<Object>, classify: Classifier, i: nat)
    requires i < |objs|
    ensures var before := Detectors(objs[..i], classify);
            Detectors(objs[..i + 1], classify)
            == if classify(objs[i]).Plain? && objs[i] !in before then before + [objs[i]] else before
  {
    var kept, one := Filter(objs[..i], IsPlain(classify)), [objs[i]];
    assert objs[..i + 1] == objs[..i] + one;
    FilterConcat(objs[..i], one, IsPlain(classify));
    assert Filter(one, IsPlain(classify)) == (if classify(objs[i]).Plain? then one else []) + Filter(one[1..], IsPlain(classify));
    assert Filter(objs[..i + 1], IsPlain(classify)) == if classify(objs[i]).Plain? then kept + one else kept;
    VisitAllVisits(Empty(), kept);
    var all, ix := kept + one, VisitAll(Empty(), kept).0;
    assert all[..|all| - 1] == kept && all[|all| - 1] == objs[i];
    assert VisitAll(Empty(), all).0 == Visit(ix, objs[i]).0;
    assert objs[i] in ix.at <==> objs[i] in ix.keys;
  }

  /** The counters of `objs` and, per object, the place of its counter. */
  method AsCounters(objs: seq<Object>, classify: Classifier) returns (counters: seq<Counter>, origin: seq<nat>)
    ensures counters == CountersOf(objs, classify)
    ensures origin == Grouped(objs, classify).1
  {
    var slots: seq<Option<Object>>, slot: Option<nat>, plain: seq<Object> := [], None, [];
    origin := [];
    assert Grouped(objs[..0], classify) == (Empty(), []);
    for i := 0 to |objs|
      invariant Numbered(Grouped(objs[..i], classify).0, slots, slot)
      invariant origin == Grouped(objs[..i], classify).1
      invariant plain == Detectors(objs[..i], classify)
    {
      var group := classify(objs[i]);
      OneMoreGroup(objs, classify, i);
      OneMoreDetector(objs, classify, i);
      var at: nat;
      slots, slot, at := Place(Grouped(objs[..i], classify).0, slots, slot, group);
      origin := origin + [at];
      if group.Plain? { plain := Collect(plain, objs[i]); }
    }
    assert objs[..|objs|] == objs;
    counters := seq(|slots|, k requires 0 <= k < |slots| =>
                      if slots[k].None? then Combined(plain) else Given(slots[k].value));
  }

  // ---------------------------------------------------------------- what the conversion promises

  ghost predicate EachOnce<T>(s: seq<T>) { forall i, j :: 0 <= i < j < |s| ==> s[i] != s[j] }

  /** Every counter is there once. Two objects share a counter exactly when they become the same
      one; an object's counter is the one it becomes, and a counter that no object before needed
      comes right behind the counters of those. */
  lemma EachCounterOnce(objs: seq<Object>, classify: Classifier, i: nat, j: nat)
    requires i < |objs| && j < |objs|
    ensures var counters, origin := CountersOf(objs, classify), Grouped(objs, classify).1;
            && |origin| == |objs| && EachOnce(counters)
            && origin[i] < |counters|
            && counters[origin[i]] == CounterOf(classify(objs[i]), Detectors(objs, classify))
            && (origin[i] == origin[j] <==> classify(objs[i]) == classify(objs[j]))
            && (classify(objs[i]) !in Groups(objs[..i], classify) ==>
                  origin[i] == |KeySet(Groups(objs[..i], classify))|)
  {
    var groups := Groups(objs, classify);
    CountersAreDistinct(objs, classify);
    CounterOfObject(objs, classify, i);
    SameNodeIffSameKey(Empty(), groups, i, j);
    assert groups[..i] == Groups(objs[..i], classify);
    if classify(objs[i]) !in groups[..i] { NumberedByFirstVisit(groups, i); }
  }

  lemma CountersAreDistinct(objs: seq<Object>, classify: Classifier)
    ensures EachOnce(CountersOf(objs, classify))
  {
    VisitAllVisits(Empty(), Groups(objs, classify));
  }

  lemma CounterOfObject(objs: seq<Object>, classify: Classifier, i: nat)
    requires i < |objs|
    ensures var counters, origin := CountersOf(objs, classify), Grouped(objs, classify).1;
            && |origin| == |objs| && origin[i] < |counters|
            && counters[origin[i]] == CounterOf(classify(objs[i]), Detectors(objs, classify))
  {
    VisitsFind(Empty(), Groups(objs, classify));
  }

  /** Every counter comes from some object, and the plain detectors are together in one counter:
      each of them once and nothing else. */
  lemma PlainDetectorsShareOneCounter(objs: seq<Object>, classify: Classifier, k: nat)
    requires k < |CountersOf(objs, classify)|
    ensures var counter := CountersOf(objs, classify)[k];
            && (exists o :: o in objs && counter == CounterOf(classify(o), Detectors(objs, classify)))
            && (counter.Combined? ==>
                  && EachOnce(counter.detectors)
                  && counter.detectors != []
                  && forall o :: o in counter.detectors <==> o in objs && classify(o).Plain?)
  {
    var groups := Groups(objs, classify);
    VisitAllVisits(Empty(), groups);
    var keys := VisitAll(Empty(), groups).0.keys;
    assert KeySet(Empty<Group>().keys) == {};
    assert keys[k] in KeySet(keys);
    var i :| 0 <= i < |groups| && groups[i] == keys[k];
    assert objs[i] in objs;
    DetectorsAreThePlainOnes(objs, classify);
    if keys[k].Plain? { assert objs[i] in Detectors(objs, classify); }
  }

  lemma DetectorsAreThePlainOnes(objs: seq<Object>, classify: Classifier)
    ensures EachOnce(Detectors(objs, classify))
    ensures forall o :: o in Detectors(objs, classify) <==> o in objs && classify(o).Plain?
  {
    var kept := Filter(objs, IsPlain(classify));
    VisitAllVisits(Empty(), kept);
    assert KeySet(Empty<Object>().keys) == {};
    forall o ensures o in Detectors(objs, classify) <==> o in objs && classify(o).Plain? {
      FilterMember(objs, IsPlain(classify), o);
      assert o in Detectors(objs, classify) <==> o in KeySet(Detectors(objs, classify));
      assert o in kept <==> o in KeySet(kept);
    }
  }

  // ---------------------------------------------------------------- options

  function OrEmpty(opts: Option<Options>): Options { if opts.None? then map[] else opts.value }

  /** The options of counter `k`: those of its objects, a later one over an earlier one. */
  function OptionsOf(origin: seq<nat>, options: seq<Option<Options>>, k: nat): Options
    requires |options| <= |origin|
  {
    if options == [] then map[]
    else
      var last := |options| - 1;
      OptionsOf(origin, options[..last], k) + if origin[last] == k then OrEmpty(options[last]) else map[]
  }

  /** The options given by position, moved along with their objects. */
  method MergeOptions(origin: seq<nat>, n: nat, options: seq<Option<Options>>) returns (r: Result<seq<Options>, string>)
    requires forall i :: 0 <= i < |origin| ==> origin[i] < n
    ensures r.Ok? <==> |options| <= |origin|
    ensures r.Ok? ==> |r.value| == n && forall k :: 0 <= k < n ==> r.value[k] == OptionsOf(origin, options, k)
    ensures r.Err? ==> r.error == TOO_MANY_OPTIONS
  {
    if |options| > |origin| { return Err(TOO_MANY_OPTIONS); }
    var merged: seq<Options> := seq(n, _ => map[]);
    for i := 0 to |options|
      invariant |merged| == n
      invariant forall k :: 0 <= k < n ==> merged[k] == OptionsOf(origin, options[..i], k)
    {
      merged := merged[origin[i] := merged[origin[i]] + OrEmpty(options[i])];
      assert options[..i + 1][..i] == options[..i];
    }
    assert options[..|options|] == options;
    return Ok(merged);
  }

  predicate Sets(origin: seq<nat>, options: seq<Option<Options>>, k: nat, name: string, i: nat)
    requires |options| <= |origin| && i < |options|
  {
    origin[i] == k && name in OrEmpty(options[i])
  }

  /** A counter's option is set exactly when some object of the counter sets it. */
  lemma {:induction false} SetBySomeObject(origin: seq<nat>, options: seq<Option<Options>>, k: nat, name: string)
    requires |options| <= |origin|
    ensures name in OptionsOf(origin, options, k) <==> exists i: nat :: i < |options| && Sets(origin, options, k, name, i)
  {
    if options != [] {
      var last := |options| - 1;
      SetBySomeObject(origin, options[..last], k, name);
      if name in OptionsOf(origin, options[..last], k) {
        var i: nat :| i < last && Sets(origin, options[..last], k, name, i);
        assert Sets(origin, options, k, name, i);
      }
      if i: nat :| i < |options| && Sets(origin, options, k, name, i) && i < last {
        assert Sets(origin, options[..last], k, name, i);
      }
      if Sets(origin, options, k, name, last) {
        assert name in OptionsOf(origin, options, k);
      }
    }
  }

  /** Of several objects of a counter that set an option, the last one decides. */
  lemma {:induction false} LastObjectDecides(origin: seq<nat>, options: seq<Option<Options>>, k: nat, name: string, i: nat)
    requires |options| <= |origin| && i < |options| && Sets(origin, options, k, name, i)
    requires forall j: nat :: i < j < |options| ==> !Sets(origin, options, k, name, j)
    ensures name in OptionsOf(origin, options, k) && OptionsOf(origin, options, k)[name] == OrEmpty(options[i])[name]
  {
    var last := |options| - 1;
    if i < last {
      assert !Sets(origin, options, k, name, last);
      forall j: nat | i < j < last ensures !Sets(origin, options[..last], k, name, j) {
        assert !Sets(origin, options, k, name, j);
      }
      LastObjectDecides(origin, options[..last], k, name, i);
    }
  }

  // ---------------------------------------------------------------- converting a second time

  /** Counters that are their own counters, no two of them the same. */
  ghost predicate Settled(objs: seq<Object>, classify: Classifier) {
    EachOnce(objs) && forall o :: o in objs ==> classify(o) == Own(o)
  }

  function UpTo(n: nat): seq<nat> { seq(n, i => i) }

  function AsGiven(objs: seq<Object>): seq<Counter> {
    seq(|objs|, i requires 0 <= i < |objs| => Given(objs[i]))
  }

  lemma {:induction false} DistinctKeysNumbered<K>(keys: seq<K>)
    requires Distinct(keys)
    ensures VisitAll(Empty(), keys).0.keys == keys && VisitAll(Empty(), keys).1 == UpTo(|keys|)
  {
    if keys != [] {
      var front, last := keys[..|keys| - 1], keys[|keys| - 1];
      DistinctKeysNumbered(front);
      SoundAfterVisits(front);
      NewKeyIsAppended(VisitAll(Empty(), front).0, last);
      TakeOneMore(keys, |front|);
      TakeAll(keys);
      UpToOneMore(|front|);
    }
  }

  lemma NewKeyIsAppended<K>(ix: Index<K>, key: K)
    requires Sound(ix) && key !in ix.keys
    ensures Visit(ix, key).0.keys == ix.keys + [key] && Visit(ix, key).1 == |ix.keys|
  {
  }

  lemma UpToOneMore(n: nat)
    ensures UpTo(n + 1) == UpTo(n) + [n]
  {
  }

  lemma {:induction false} SoundAfterVisits<K>(keys: seq<K>)
    ensures Sound(VisitAll(Empty(), keys).0)
  {
    VisitAllVisits(Empty(), keys);
  }

  lemma SettledGroups(objs: seq<Object>, classify: Classifier)
    requires Settled(objs, classify)
    ensures Grouped(objs, classify).0.keys == Groups(objs, classify)
    ensures Grouped(objs, classify).1 == UpTo(|objs|)
  {
    forall i, j | 0 <= i < j < |objs| ensures Groups(objs, classify)[i] != Groups(objs, classify)[j] {
      assert objs[i] in objs && objs[j] in objs;
    }
    DistinctKeysNumbered(Groups(objs, classify));
  }

  lemma {:induction false} OwnOptions(n: nat, options: seq<Option<Options>>, k: nat)
    requires |options| <= n
    ensures OptionsOf(UpTo(n), options, k) == if k < |options| then OrEmpty(options[k]) else map[]
  {
    if options != [] { OwnOptions(n, options[..|options| - 1], k); }
  }

  /** A scan that is given counters keeps them, in order, each with its own options: nothing is
      merged a second time. */
  lemma {:induction false} SettledCountersStay(objs: seq<Object>, classify: Classifier, options: seq<Option<Options>>, k: nat)
    requires Settled(objs, classify) && |options| <= |objs| && k < |objs|
    ensures CountersOf(objs, classify) == AsGiven(objs)
    ensures var origin := Grouped(objs, classify).1;
            && |options| <= |origin|
            && OptionsOf(origin, options, k) == if k < |options| then OrEmpty(options[k]) else map[]
  {
    SettledGroups(objs, classify);
    OwnOptions(|objs|, options, k);
  }

  /** The counters as objects, the combined one being the new object `made`. */
  function AsObjects(counters: seq<Counter>, made: Object): seq<Object> {
    seq(|counters|, k requires 0 <= k < |counters| => if counters[k].Given? then counters[k].counter else made)
  }

  /** Converting what a conversion returned, with or without a counter appended to it, gives the
      same counters again. It takes that a counter is its own counter and that the combined one is a
      new object. */
  lemma ConvertingAgainChangesNothing(objs: seq<Object>, classify: Classifier, made: Object)
    requires forall o :: classify(o).Own? ==> classify(classify(o).counter) == classify(o)
    requires classify(made) == Own(made) && forall o :: o in objs ==> classify(o) != Own(made)
    ensures var again := AsObjects(CountersOf(objs, classify), made);
            && Settled(again, classify)
            && CountersOf(again, classify) == AsGiven(again)
            && Grouped(again, classify).1 == UpTo(|CountersOf(objs, classify)|)
  {
    var counters := CountersOf(objs, classify);
    var again := AsObjects(counters, made);
    forall k | 0 <= k < |counters| ensures classify(again[k]) == Own(again[k]) {
      PlainDetectorsShareOneCounter(objs, classify, k);
    }
    forall i, j | 0 <= i < j < |counters| ensures again[i] != again[j] {
      PlainDetectorsShareOneCounter(objs, classify, i);
      PlainDetectorsShareOneCounter(objs, classify, j);
      VisitAllVisits(Empty(), Groups(objs, classify));
    }
    SettledGroups(again, classify);
  }

  // ---------------------------------------------------------------- finding an object's counter

  /** What counters read: the detectors an existing counter monitors, and which detectors can be
      monitored at all. */
  datatype Wiring = Wiring(monitoredBy: Object -> seq<Object>, monitorable: Object -> bool)

  function Monitored(counter: Counter, w: Wiring): seq<Object> {
    match counter
    case Given(c) => w.monitoredBy(c)
    case Combined(detectors) => Filter(detectors, w.monitorable)
  }

  /** A counter is meant by the object itself or by its stream counter. */
  predicate Is(counter: Counter, o: Object, stream: Option<Object>) {
    counter == Given(o) || (stream.Some? && counter == Given(stream.value))
  }

  predicate Reads(counter: Counter, o: Object, stream: Option<Object>, w: Wiring) {
    Is(counter, o, stream) || o in Monitored(counter, w)
  }

  /** A counter's place, and the monitored detector whose name the counter knows; None for its only
      channel. */
  datatype Found = Found(place: nat, channel: Option<Object>)

  /** The first counter that reads an object, found exactly when there is one. */
  method FindCounter(counters: seq<Counter>, o: Object, stream: Option<Object>, w: Wiring) returns (r: Option<Found>)
    ensures r.None? <==> forall k :: 0 <= k < |counters| ==> !Reads(counters[k], o, stream, w)
    ensures r.Some? ==>
              && r.value.place < |counters| && Reads(counters[r.value.place], o, stream, w)
              && (forall k :: 0 <= k < r.value.place ==> !Reads(counters[k], o, stream, w))
              && r.value.channel == if Is(counters[r.value.place], o, stream) then None else Some(o)
  {
    for k := 0 to |counters|
      invariant forall j :: 0 <= j < k ==> !Reads(counters[j], o, stream, w)
    {
      if Is(counters[k], o, stream) { return Some(Found(k, None)); }
      var monitored := Monitored(counters[k], w);
      for m := 0 to |monitored|
        invariant o !in monitored[..m]
      {
        if monitored[m] == o { return Some(Found(k, Some(o))); }
      }
      assert monitored[..|monitored|] == monitored;
    }
    return None;
  }

  /** An object's counter reads the object: if it is a counter, if its stream counter was taken, and
      if it is a plain detector that can be monitored. */
  lemma CounterReadsItsObject(objs: seq<Object>, classify: Classifier, w: Wiring, i: nat, stream: Option<Object>)
    requires i < |objs|
    requires classify(objs[i]).Plain? ==> w.monitorable(objs[i])
    requires classify(objs[i]).Own? ==> classify(objs[i]).counter == objs[i] || stream == Some(classify(objs[i]).counter)
    ensures var origin := Grouped(objs, classify).1;
            && |origin| == |objs| && origin[i] < |CountersOf(objs, classify)|
            && Reads(CountersOf(objs, classify)[origin[i]], objs[i], stream, w)
  {
    EachCounterOnce(objs, classify, i, i);
    DetectorsAreThePlainOnes(objs, classify);
    FilterMember(Detectors(objs, classify), w.monitorable, objs[i]);
    assert objs[i] in objs;
  }
}
