/**
 The acquisitions under way (eco/acquisition/daq_client.py, `start`, `stop`, `acquire_pulses`): a
 table that several threads add to and take from. A start draws a number and then puts its entry in
 the table; a stop without a number picks an entry and then takes it out; other threads come between.
 */
module Acquisitions {
  import opened Collections

  datatype Acq = Acq(name: Option<string>, startId: int)

  datatype Entry = Entry(id: nat, acq: Acq)

  /** The acquisitions under way in the order they were put in, the next number to draw, the starts
      that have drawn a number only, and what stops without a number have picked. */
  datatype Table = Table(running: seq<Entry>, nextId: nat, starting: map<nat, Acq>, picked: map<nat, nat>)

  const EMPTY_TABLE := Table([], 0, map[], map[])

  /** The pulses requested for an acquisition that was stopped. */
  datatype Window = Window(id: nat, acq: Acq, stopId: int)

  datatype Event =
    | Draw(name: Option<string>, pulse: int)   // a start draws its number, the current pulse read
    | Insert(id: nat)                          // it puts its entry in the table
    | Pick(stop: nat)                          // a stop without a number picks the entry put in last
    | TakePicked(stop: nat, last: int)         // it takes that entry out
    | Take(id: nat, last: int)                 // a stop with a number takes its entry out

  datatype Answer = Silent | Requested(window: Window) | NoPulse | NothingRunning | NotRunning

  predicate Enabled(t: Table, e: Event) {
    match e
    case Draw(_, _) => true
    case Insert(id) => id in t.starting
    case Pick(stop) => stop !in t.picked && t.running != []
    case TakePicked(stop, _) => stop in t.picked
    case Take(_, _) => true
  }

  /** The place of an acquisition in the table; the table's length if it is not there. */
  function Place(running: seq<Entry>, id: nat): (k: nat)
    ensures k <= |running| && (k < |running| ==> running[k].id == id)
    ensures forall j :: 0 <= j < k ==> running[j].id != id
  {
    if running == [] || running[0].id == id then 0 else 1 + Place(running[1..], id)
  }

  function Without(running: seq<Entry>, k: nat): seq<Entry>
    requires k < |running|
  {
    running[..k] + running[k + 1..]
  }

  /** An acquisition taken out of the table: its pulses are requested up to `last`. */
  function Taken(t: Table, id: nat, last: int): (Table, Answer) {
    var k := Place(t.running, id);
    if k == |t.running| then (t, NotRunning)
    else (t.(running := Without(t.running, k)), Requested(Window(id, t.running[k].acq, last)))
  }

  function Latest(t: Table): Entry
    requires t.running != []
  {
    t.running[|t.running| - 1]
  }

  function Next(t: Table, e: Event): (Table, Answer)
    requires Enabled(t, e)
  {
    match e
    case Draw(name, pulse) => (t.(nextId := t.nextId + 1, starting := t.starting[t.nextId := Acq(name, pulse)]), Silent)
    case Insert(id) => (t.(running := t.running + [Entry(id, t.starting[id])], starting := t.starting - {id}), Silent)
    case Pick(stop) => (t.(picked := t.picked[stop := Latest(t).id]), Silent)
    case TakePicked(stop, last) => Taken(t.(picked := t.picked - {stop}), t.picked[stop], last)
    case Take(id, last) => Taken(t, id, last)
  }

  ghost predicate Possible(t: Table, events: seq<Event>)
    decreases |events|, 0
  {
    events == [] ||
    var n := |events| - 1;
    Possible(t, events[..n]) && Enabled(After(t, events[..n]), events[n])
  }

  ghost function After(t: Table, events: seq<Event>): Table
    requires Possible(t, events)
    decreases |events|, 1
  {
    if events == [] then t else Next(After(t, events[..|events| - 1]), events[|events| - 1]).0
  }

  /** The requests made, in order. */
  ghost function Requests(t: Table, events: seq<Event>): seq<Window>
    requires Possible(t, events)
  {
    if events == [] then []
    else
      var front := events[..|events| - 1];
      var answer := Next(After(t, front), events[|events| - 1]).1;
      Requests(t, front) + if answer.Requested? then [answer.window] else []
  }

  /** The acquisitions by their number. */
  function Drawn(events: seq<Event>): seq<Acq> {
    if events == [] then []
    else
      var e := events[|events| - 1];
      Drawn(events[..|events| - 1]) + if e.Draw? then [Acq(e.name, e.pulse)] else []
  }

  // ---------------------------------------------------------------- every acquisition once

  ghost predicate DistinctIds(running: seq<Entry>) {
    forall i, j :: 0 <= i < j < |running| ==> running[i].id != running[j].id
  }

  ghost predicate NoTwo(requests: seq<Window>) {
    forall i, j :: 0 <= i < j < |requests| ==> requests[i].id != requests[j].id
  }

  ghost predicate InRequests(requests: seq<Window>, id: nat) {
    exists w :: w in requests && w.id == id
  }

  ghost predicate Running(t: Table, id: nat) {
    exists e :: e in t.running && e.id == id
  }

  /** An acquisition is about to be put in the table, in it, or requested: exactly one of these. */
  ghost predicate InOnePlace(t: Table, requests: seq<Window>, id: nat) {
    && (id in t.starting || Running(t, id) || InRequests(requests, id))
    && !(id in t.starting && Running(t, id))
    && !(id in t.starting && InRequests(requests, id))
    && !(Running(t, id) && InRequests(requests, id))
  }

  /** Whatever is known of an acquisition is what it was started with. */
  ghost predicate TrueToStart(t: Table, requests: seq<Window>, drawn: seq<Acq>) {
    && (forall id :: id in t.starting ==> id < |drawn| && t.starting[id] == drawn[id])
    && (forall e :: e in t.running ==> e.id < |drawn| && e.acq == drawn[e.id])
    && (forall w :: w in requests ==> w.id < |drawn| && w.acq == drawn[w.id])
  }

  ghost predicate Accounted(t: Table, requests: seq<Window>, drawn: seq<Acq>) {
    && t.nextId == |drawn| && DistinctIds(t.running) && NoTwo(requests)
    && TrueToStart(t, requests, drawn)
    && forall id: nat :: id < |drawn| ==> InOnePlace(t, requests, id)
  }

  lemma DrawAccounts(t: Table, requests: seq<Window>, drawn: seq<Acq>, name: Option<string>, pulse: int)
    requires Accounted(t, requests, drawn)
    ensures Accounted(Next(t, Draw(name, pulse)).0, requests, drawn + [Acq(name, pulse)])
  {
    var t' := Next(t, Draw(name, pulse)).0;
    forall id: nat | id < |drawn| + 1 ensures InOnePlace(t', requests, id) {
      if id < |drawn| {
        assert InOnePlace(t, requests, id);
      } else {
        assert !Running(t, id) && !InRequests(requests, id);
      }
    }
  }

  lemma InsertAccounts(t: Table, requests: seq<Window>, drawn: seq<Acq>, id: nat)
    requires Accounted(t, requests, drawn) && Enabled(t, Insert(id))
    ensures Accounted(Next(t, Insert(id)).0, requests, drawn)
  {
    var t' := Next(t, Insert(id)).0;
    assert InOnePlace(t, requests, id);
    assert Entry(id, t.starting[id]) in t'.running;
    forall e ensures e in t'.running <==> e in t.running || e == Entry(id, t.starting[id]) {}
    forall i | 0 <= i < |t.running| ensures t.running[i].id != id {
      assert t.running[i] in t.running;
    }
    forall n: nat | n < |drawn| ensures InOnePlace(t', requests, n) {
      assert InOnePlace(t, requests, n);
      RunningAfterInsert(t, id, n);
    }
  }

  lemma RunningAfterInsert(t: Table, id: nat, n: nat)
    requires Enabled(t, Insert(id))
    ensures Running(Next(t, Insert(id)).0, n) <==> Running(t, n) || n == id
  {
    var t' := Next(t, Insert(id)).0;
    var entry := Entry(id, t.starting[id]);
    assert entry in t'.running;
    if Running(t, n) {
      var e :| e in t.running && e.id == n;
      assert e in t'.running;
    }
  }

  lemma WithoutKeepsOthers(running: seq<Entry>, k: nat, e: Entry)
    requires k < |running| && DistinctIds(running)
    ensures e in Without(running, k) <==> e in running && e.id != running[k].id
  {
    if e in running && e.id != running[k].id {
      var i :| 0 <= i < |running| && running[i] == e;
      assert Without(running, k)[if i < k then i else i - 1] == e;
    }
  }

  lemma RunningAfterTake(t: Table, id: nat, last: int, n: nat)
    requires DistinctIds(t.running)
    ensures var t' := Taken(t, id, last).0;
            && DistinctIds(t'.running)
            && (Running(t', n) <==> Running(t, n) && n != id)
            && forall e :: e in t'.running <==> e in t.running && e.id != id
  {
    var t', k := Taken(t, id, last).0, Place(t.running, id);
    if k < |t.running| {
      forall e ensures e in t'.running <==> e in t.running && e.id != id { WithoutKeepsOthers(t.running, k, e); }
    }
    if Running(t, n) && n != id {
      var e :| e in t.running && e.id == n;
      assert e in t'.running;
    }
  }

  function Asked(answer: Answer): seq<Window> { if answer.Requested? then [answer.window] else [] }

  lemma TakenWindow(t: Table, requests: seq<Window>, id: nat, last: int)
    requires DistinctIds(t.running) && NoTwo(requests) && !(Running(t, id) && InRequests(requests, id))
    ensures var answer := Taken(t, id, last).1;
            && (answer.Requested? <==> Running(t, id))
            && (answer.Requested? ==> Entry(id, answer.window.acq) in t.running && answer.window.id == id)
            && NoTwo(requests + Asked(answer))
  {
    var k := Place(t.running, id);
    if k < |t.running| {
      assert t.running[k] in t.running;
      forall i | 0 <= i < |requests| ensures requests[i].id != id { assert requests[i] in requests; }
    }
  }

  lemma TakeAccounts(t: Table, requests: seq<Window>, drawn: seq<Acq>, id: nat, last: int)
    requires Accounted(t, requests, drawn)
    ensures Accounted(Taken(t, id, last).0, requests + Asked(Taken(t, id, last).1), drawn)
  {
    var (t', answer) := Taken(t, id, last);
    var more := requests + Asked(answer);
    assert Running(t, id) ==> id < |drawn| && InOnePlace(t, requests, id);
    TakenWindow(t, requests, id, last);
    RunningAfterTake(t, id, last, id);
    assert forall w :: w in more <==> w in requests || w in Asked(answer);
    forall n: nat | n < |drawn| ensures InOnePlace(t', more, n) {
      assert InOnePlace(t, requests, n);
      RunningAfterTake(t, id, last, n);
      RequestedAfterTake(requests, answer, n);
    }
  }

  lemma RequestedAfterTake(requests: seq<Window>, answer: Answer, n: nat)
    ensures InRequests(requests + Asked(answer), n) <==>
            InRequests(requests, n) || (answer.Requested? && answer.window.id == n)
  {
    var more := requests + Asked(answer);
    assert answer.Requested? ==> answer.window in more;
    if InRequests(requests, n) {
      var w :| w in requests && w.id == n;
      assert w in more;
    }
  }

  lemma PickedDoesNotMatter(t: Table, picked: map<nat, nat>, requests: seq<Window>, drawn: seq<Acq>)
    requires Accounted(t, requests, drawn)
    ensures Accounted(t.(picked := picked), requests, drawn)
  {
    var t' := t.(picked := picked);
    forall id: nat | id < |drawn| ensures InOnePlace(t', requests, id) { assert InOnePlace(t, requests, id); }
  }

  lemma EventAccounts(t: Table, requests: seq<Window>, drawn: seq<Acq>, e: Event)
    requires Accounted(t, requests, drawn) && Enabled(t, e)
    ensures Accounted(Next(t, e).0, requests + Asked(Next(t, e).1), drawn + if e.Draw? then [Acq(e.name, e.pulse)] else [])
  {
    assert requests + [] == requests && drawn + [] == drawn;
    match e
    case Draw(name, pulse) => DrawAccounts(t, requests, drawn, name, pulse);
    case Insert(id) => InsertAccounts(t, requests, drawn, id);
    case Pick(stop) => PickedDoesNotMatter(t, t.picked[stop := Latest(t).id], requests, drawn);
    case TakePicked(stop, last) =>
      PickedDoesNotMatter(t, t.picked - {stop}, requests, drawn);
      TakeAccounts(t.(picked := t.picked - {stop}), requests, drawn, t.picked[stop], last);
    case Take(id, last) => TakeAccounts(t, requests, drawn, id, last);
  }

  /** Under every interleaving of starts and stops, each in its two steps, every acquisition that has a
      number is about to be put in the table, under way or requested, exactly one of these; it is
      requested at most once, from the pulse and with the name it was started with. */
  lemma {:induction false} EveryAcquisitionOnce(events: seq<Event>)
    requires Possible(EMPTY_TABLE, events)
    ensures Accounted(After(EMPTY_TABLE, events), Requests(EMPTY_TABLE, events), Drawn(events))
  {
    if events != [] {
      var front, e := events[..|events| - 1], events[|events| - 1];
      EveryAcquisitionOnce(front);
      EventAccounts(After(EMPTY_TABLE, front), Requests(EMPTY_TABLE, front), Drawn(front), e);
    }
  }

  // ---------------------------------------------------------------- who ends an acquisition

  /** What an event takes out of the table, if it is there. */
  predicate Ends(t: Table, e: Event, id: nat)
    requires Enabled(t, e)
  {
    (e.Take? && e.id == id) || (e.TakePicked? && t.picked[e.stop] == id)
  }

  ghost predicate EndedBetween(t: Table, events: seq<Event>, id: nat)
    requires Possible(t, events)
  {
    events != [] &&
    var front := events[..|events| - 1];
    EndedBetween(t, front, id) || Ends(After(t, front), events[|events| - 1], id)
  }

  /** Numbers in the table differ, from each other and from those of the starts to come. */
  ghost predicate Consistent(t: Table) {
    && DistinctIds(t.running)
    && (forall e :: e in t.running ==> e.id < t.nextId && e.id !in t.starting)
    && forall id :: id in t.starting ==> id < t.nextId
  }

  lemma {:induction false} AlwaysConsistent(events: seq<Event>)
    requires Possible(EMPTY_TABLE, events)
    ensures Consistent(After(EMPTY_TABLE, events))
  {
    EveryAcquisitionOnce(events);
    var t, requests, drawn := After(EMPTY_TABLE, events), Requests(EMPTY_TABLE, events), Drawn(events);
    forall e | e in t.running ensures e.id < t.nextId && e.id !in t.starting {
      assert InOnePlace(t, requests, e.id);
    }
  }

  /** One event: an entry stays unless the event ends it, and no other entry gets its number. */
  lemma EventKeeps(t: Table, e: Event, entry: Entry)
    requires Consistent(t) && Enabled(t, e) && entry in t.running
    ensures Consistent(Next(t, e).0)
    ensures entry in Next(t, e).0.running <==> !Ends(t, e, entry.id)
    ensures Running(Next(t, e).0, entry.id) ==> entry in Next(t, e).0.running
  {
    match e
    case Draw(_, _) =>
    case Insert(id) =>
      var t' := Next(t, e).0;
      forall x ensures x in t'.running <==> x in t.running || x == Entry(id, t.starting[id]) {}
      forall i | 0 <= i < |t.running| ensures t.running[i].id != id { assert t.running[i] in t.running; }
      SameNumberSameEntry(t, entry);
    case Pick(_) => SameNumberSameEntry(t, entry);
    case TakePicked(stop, last) => TakeKeeps(t.(picked := t.picked - {stop}), t.picked[stop], last, entry);
    case Take(id, last) => TakeKeeps(t, id, last, entry);
  }

  lemma SameNumberSameEntry(t: Table, entry: Entry)
    requires DistinctIds(t.running) && entry in t.running
    ensures forall e :: e in t.running && e.id == entry.id ==> e == entry
  {
    var i :| 0 <= i < |t.running| && t.running[i] == entry;
    forall e | e in t.running && e.id == entry.id ensures e == entry {
      var j :| 0 <= j < |t.running| && t.running[j] == e;
    }
  }

  lemma TakeKeeps(t: Table, id: nat, last: int, entry: Entry)
    requires Consistent(t) && entry in t.running
    ensures var t' := Taken(t, id, last).0;
            && Consistent(t') && (entry in t'.running <==> entry.id != id)
            && (Running(t', entry.id) ==> entry in t'.running)
  {
    RunningAfterTake(t, id, last, entry.id);
    SameNumberSameEntry(t, entry);
  }

  lemma DrawnEventsKeep(t: Table, e: Event, id: nat)
    requires Consistent(t) && Enabled(t, e) && id < t.nextId && !Running(t, id) && id !in t.starting
    ensures Consistent(Next(t, e).0) && id < Next(t, e).0.nextId && !Running(Next(t, e).0, id) && id !in Next(t, e).0.starting
  {
    match e
    case Draw(_, _) =>
    case Insert(n) =>
      RunningAfterInsert(t, n, id);
      InsertKeepsConsistent(t, n);
    case Pick(_) =>
    case TakePicked(stop, last) => RunningAfterTake(t.(picked := t.picked - {stop}), t.picked[stop], last, id);
    case Take(n, last) => RunningAfterTake(t, n, last, id);
  }

  lemma InsertKeepsConsistent(t: Table, n: nat)
    requires Consistent(t) && n in t.starting
    ensures Consistent(Next(t, Insert(n)).0)
  {
    var t' := Next(t, Insert(n)).0;
    forall x ensures x in t'.running <==> x in t.running || x == Entry(n, t.starting[n]) {}
    forall i | 0 <= i < |t.running| ensures t.running[i].id != n { assert t.running[i] in t.running; }
  }

  /** Whether an acquisition is still under way after some events, and if not, that it is gone for good. */
  lemma {:induction false} StaysUnlessEnded(t: Table, events: seq<Event>, entry: Entry)
    requires Consistent(t) && entry in t.running && Possible(t, events)
    ensures var t' := After(t, events);
            && Consistent(t') && entry.id < t'.nextId && entry.id !in t'.starting
            && (entry in t'.running <==> !EndedBetween(t, events, entry.id))
            && (Running(t', entry.id) ==> entry in t'.running)
  {
    if events == [] {
      SameNumberSameEntry(t, entry);
    } else {
      var n := |events| - 1;
      StaysUnlessEnded(t, events[..n], entry);
      var s := After(t, events[..n]);
      if entry in s.running {
        EventKeeps(s, events[n], entry);
        if Running(s, entry.id) && events[n].Insert? { assert entry.id != events[n].id; }
      } else {
        DrawnEventsKeep(s, events[n], entry.id);
      }
    }
  }

  /** An acquisition of some pulses requests exactly its own pulses, and finds its start in the table
      until then, if and only if no other call ended it in between. */
  lemma {:induction false} OwnPulsesIffNotEnded(t: Table, id: nat, between: seq<Event>, last: int)
    requires Consistent(t) && id in t.starting && Possible(Next(t, Insert(id)).0, between)
    ensures var t1 := Next(t, Insert(id)).0;
            Taken(After(t1, between), id, last).1
            == if EndedBetween(t1, between, id) then NotRunning else Requested(Window(id, t.starting[id], last))
  {
    var t1, entry := Next(t, Insert(id)).0, Entry(id, t.starting[id]);
    assert t1.running[|t.running|] == entry;
    InsertKeepsConsistent(t, id);
    StaysUnlessEnded(t1, between, entry);
    TakenIffRunning(After(t1, between), entry, last);
  }

  lemma TakenIffRunning(t: Table, entry: Entry, last: int)
    requires DistinctIds(t.running) && (Running(t, entry.id) ==> entry in t.running)
    ensures Taken(t, entry.id, last).1
            == if entry in t.running then Requested(Window(entry.id, entry.acq, last)) else NotRunning
  {
    var k := Place(t.running, entry.id);
    if k < |t.running| {
      assert t.running[k] in t.running && Running(t, entry.id);
      SameNumberSameEntry(t, entry);
    } else {
      assert forall i :: 0 <= i < |t.running| ==> t.running[i] != entry;
    }
  }

  // ---------------------------------------------------------------- stops without a number

  /** No acquisition under way has a higher number than the one put in last. */
  ghost predicate InOrder(t: Table) {
    t.running != [] ==> forall e :: e in t.running ==> e.id <= Latest(t).id
  }

  /** Start `x` put its entry in while start `y` had drawn a lower number and not put its own in. */
  ghost predicate Overtook(events: seq<Event>, x: nat, y: nat)
    requires Possible(EMPTY_TABLE, events)
  {
    events != [] &&
    var n := |events| - 1;
    Overtook(events[..n], x, y) || (events[n] == Insert(x) && y in After(EMPTY_TABLE, events[..n]).starting && y < x)
  }

  ghost predicate RunningOutOfOrderOvertook(events: seq<Event>, running: seq<Entry>)
    requires Possible(EMPTY_TABLE, events)
  {
    forall i, j :: 0 <= i < j < |running| && running[i].id > running[j].id ==> Overtook(events, running[i].id, running[j].id)
  }

  ghost predicate AheadOfStartsOvertook(events: seq<Event>, t: Table)
    requires Possible(EMPTY_TABLE, events)
  {
    forall i, id :: 0 <= i < |t.running| && id in t.starting && t.running[i].id > id ==> Overtook(events, t.running[i].id, id)
  }

  lemma {:induction false} LeftKeepsOrder(events: seq<Event>, running: seq<Entry>, k: nat)
    requires Possible(EMPTY_TABLE, events) && k < |running| && RunningOutOfOrderOvertook(events, running)
    ensures RunningOutOfOrderOvertook(events, Without(running, k))
  {
    var left := Without(running, k);
    forall i, j | 0 <= i < j < |left| && left[i].id > left[j].id ensures Overtook(events, left[i].id, left[j].id) {
      var a, b := if i < k then i else i + 1, if j < k then j else j + 1;
      assert left[i] == running[a] && left[j] == running[b] && a < b;
    }
  }

  lemma {:induction false} TakenKeepsOrder(events: seq<Event>, t: Table, id: nat, last: int)
    requires Possible(EMPTY_TABLE, events)
    requires RunningOutOfOrderOvertook(events, t.running) && AheadOfStartsOvertook(events, t)
    ensures RunningOutOfOrderOvertook(events, Taken(t, id, last).0.running) && AheadOfStartsOvertook(events, Taken(t, id, last).0)
  {
    var t', k := Taken(t, id, last).0, Place(t.running, id);
    if k < |t.running| {
      LeftKeepsOrder(events, t.running, k);
      forall i, n | 0 <= i < |t'.running| && n in t'.starting && t'.running[i].id > n
        ensures Overtook(events, t'.running[i].id, n)
      {
        assert t'.running[i] == t.running[if i < k then i else i + 1];
      }
    }
  }

  lemma {:induction false} OvertakingShows(events: seq<Event>)
    requires Possible(EMPTY_TABLE, events)
    ensures RunningOutOfOrderOvertook(events, After(EMPTY_TABLE, events).running)
    ensures AheadOfStartsOvertook(events, After(EMPTY_TABLE, events))
  {
    if events != [] {
      var n := |events| - 1;
      var t, e := After(EMPTY_TABLE, events[..n]), events[n];
      OvertakingShows(events[..n]);
      OvertookBefore(events);
      match e
      case Draw(_, _) => DrawnKeepsOrder(events);
      case Insert(id) => InsertedKeepsOrder(events);
      case Pick(_) =>
      case TakePicked(stop, last) => TakenKeepsOrder(events, t.(picked := t.picked - {stop}), t.picked[stop], last);
      case Take(id, last) => TakenKeepsOrder(events, t, id, last);
    }
  }

  /** What overtaking shows before the last event is shown by the whole history too. */
  lemma {:induction false} OvertookBefore(events: seq<Event>)
    requires Possible(EMPTY_TABLE, events) && events != []
    requires var t := After(EMPTY_TABLE, events[..|events| - 1]);
             RunningOutOfOrderOvertook(events[..|events| - 1], t.running) && AheadOfStartsOvertook(events[..|events| - 1], t)
    ensures var t := After(EMPTY_TABLE, events[..|events| - 1]);
            RunningOutOfOrderOvertook(events, t.running) && AheadOfStartsOvertook(events, t)
  {
    assert forall x, y :: Overtook(events[..|events| - 1], x, y) ==> Overtook(events, x, y);
  }

  /** A number just drawn is higher than all under way. */
  lemma {:induction false} DrawnKeepsOrder(events: seq<Event>)
    requires Possible(EMPTY_TABLE, events) && events != [] && events[|events| - 1].Draw?
    requires var t := After(EMPTY_TABLE, events[..|events| - 1]);
             RunningOutOfOrderOvertook(events, t.running) && AheadOfStartsOvertook(events, t)
    ensures RunningOutOfOrderOvertook(events, After(EMPTY_TABLE, events).running)
    ensures AheadOfStartsOvertook(events, After(EMPTY_TABLE, events))
  {
    var t := After(EMPTY_TABLE, events[..|events| - 1]);
    AlwaysConsistent(events[..|events| - 1]);
    assert forall i :: 0 <= i < |t.running| ==> t.running[i] in t.running;
  }

  /** An entry just put in overtook exactly the starts with a lower number. */
  lemma {:induction false} InsertedKeepsOrder(events: seq<Event>)
    requires Possible(EMPTY_TABLE, events) && events != [] && events[|events| - 1].Insert?
    requires var t := After(EMPTY_TABLE, events[..|events| - 1]);
             RunningOutOfOrderOvertook(events, t.running) && AheadOfStartsOvertook(events, t)
    ensures RunningOutOfOrderOvertook(events, After(EMPTY_TABLE, events).running)
    ensures AheadOfStartsOvertook(events, After(EMPTY_TABLE, events))
  {
  }

  lemma {:induction false} OvertookIsHigher(events: seq<Event>, x: nat, y: nat)
    requires Possible(EMPTY_TABLE, events) && Overtook(events, x, y)
    ensures y < x
  {
    var front := events[..|events| - 1];
    if Overtook(front, x, y) { OvertookIsHigher(front, x, y); }
  }

  lemma HigherThanLatest(t: Table) returns (i: nat)
    requires t.running != [] && !InOrder(t)
    ensures i + 1 < |t.running| && t.running[i].id > t.running[|t.running| - 1].id && t.running[i] in t.running
  {
    var e :| e in t.running && e.id > Latest(t).id;
    i :| i < |t.running| && t.running[i] == e;
  }

  /** Over every history, the acquisition put in last has the highest number under way if and only if
      none of those under way overtook it. */
  lemma {:induction false} InOrderIffNotOvertaken(events: seq<Event>)
    requires Possible(EMPTY_TABLE, events) && After(EMPTY_TABLE, events).running != []
    ensures var t := After(EMPTY_TABLE, events);
            InOrder(t) <==> !exists x :: Running(t, x) && Overtook(events, x, Latest(t).id)
  {
    var t := After(EMPTY_TABLE, events);
    OvertakingShows(events);
    if !InOrder(t) {
      var i := HigherThanLatest(t);
      assert Running(t, t.running[i].id);
    }
    forall x | Running(t, x) && Overtook(events, x, Latest(t).id) ensures !InOrder(t) {
      OvertookIsHigher(events, x, Latest(t).id);
    }
  }

  /** A stop without a number requests the acquisition that had the highest number when it picked one if
      and only if no acquisition under way then had overtaken the one put in last, and no other call
      ended that one before the stop took it. */
  lemma {:induction false} UnnumberedStopEndsLatestIff(events: seq<Event>, stop: nat, between: seq<Event>, last: int)
    requires Possible(EMPTY_TABLE, events) && Enabled(After(EMPTY_TABLE, events), Pick(stop))
    requires Possible(Next(After(EMPTY_TABLE, events), Pick(stop)).0, between)
    requires var t := After(EMPTY_TABLE, events); var u := After(Next(t, Pick(stop)).0, between);
             stop in u.picked && u.picked[stop] == Latest(t).id
    ensures var t := After(EMPTY_TABLE, events); var t1 := Next(t, Pick(stop)).0;
            var answer := Next(After(t1, between), TakePicked(stop, last)).1;
            && (answer.Requested? <==> !EndedBetween(t1, between, Latest(t).id))
            && (answer.Requested? && (forall e :: e in t.running ==> e.id <= answer.window.id)
                <==> (!exists x :: Running(t, x) && Overtook(events, x, Latest(t).id))
                     && !EndedBetween(t1, between, Latest(t).id))
  {
    AlwaysConsistent(events);
    InOrderIffNotOvertaken(events);
    PickedStopEnds(After(EMPTY_TABLE, events), stop, between, last);
  }

  lemma {:induction false} PickedStopEnds(t: Table, stop: nat, between: seq<Event>, last: int)
    requires Consistent(t) && Enabled(t, Pick(stop))
    requires Possible(Next(t, Pick(stop)).0, between)
    requires var u := After(Next(t, Pick(stop)).0, between); stop in u.picked && u.picked[stop] == Latest(t).id
    ensures var t1 := Next(t, Pick(stop)).0;
            var answer := Next(After(t1, between), TakePicked(stop, last)).1;
            && (answer.Requested? <==> !EndedBetween(t1, between, Latest(t).id))
            && (answer.Requested? ==> answer.window.id == Latest(t).id)
  {
    var t1, entry := Next(t, Pick(stop)).0, Latest(t);
    assert entry in t1.running;
    StaysUnlessEnded(t1, between, entry);
    var u := After(t1, between);
    TakenIffRunning(u.(picked := u.picked - {stop}), entry, last);
  }

  /** Two starts that race, and two stops that pick the same entry. */
  function RacingStarts(): seq<Event> { [Draw(None, 10), Draw(None, 20), Insert(1), Insert(0)] }

  function RacingStops(): seq<Event> { [Pick(0), Pick(1), TakePicked(0, 30), TakePicked(1, 30)] }

  /** One event more after a history. */
  lemma {:induction false} OneEventMore(t: Table, events: seq<Event>, e: Event)
    requires Possible(t, events) && Enabled(After(t, events), e)
    ensures Possible(t, events + [e])
    ensures After(t, events + [e]) == Next(After(t, events), e).0
    ensures Requests(t, events + [e]) == Requests(t, events) + Asked(Next(After(t, events), e).1)
  {
    assert (events + [e])[..|events|] == events;
  }

  lemma RacingStartsAreOutOfOrder()
    ensures Possible(EMPTY_TABLE, RacingStarts()) && Requests(EMPTY_TABLE, RacingStarts()) == []
    ensures var t := After(EMPTY_TABLE, RacingStarts());
            t == Table([Entry(1, Acq(None, 20)), Entry(0, Acq(None, 10))], 2, map[], map[]) && !InOrder(t)
  {
    TwoStartsInsertedBackwards(Acq(None, 10), Acq(None, 20));
    FourEventsMore(EMPTY_TABLE, [], Draw(None, 10), Draw(None, 20), Insert(1), Insert(0));
    assert [] + RacingStarts() == RacingStarts();
    assert After(EMPTY_TABLE, RacingStarts()).running[0].id == 1;
  }

  lemma TwoStartsInsertedBackwards(a: Acq, b: Acq)
    ensures var t1 := Next(EMPTY_TABLE, Draw(a.name, a.startId)).0;
            var t2 := Next(t1, Draw(b.name, b.startId)).0;
            && t2 == Table([], 2, map[0 := a, 1 := b], map[])
            && Next(t2, Insert(1)) == (Table([Entry(1, b)], 2, map[0 := a], map[]), Silent)
            && Next(Next(t2, Insert(1)).0, Insert(0)) == (Table([Entry(1, b), Entry(0, a)], 2, map[], map[]), Silent)
  {
    var none: map<nat, Acq> := map[];
    assert none[0 := a][1 := b] == map[0 := a, 1 := b];
    assert map[0 := a, 1 := b] - {1} == map[0 := a];
    assert map[0 := a] - {0} == none;
    assert [] + [Entry(1, b)] == [Entry(1, b)] && [Entry(1, b)] + [Entry(0, a)] == [Entry(1, b), Entry(0, a)];
  }

  /** Two stops that pick the same entry: the second finds it gone, though another is under way. */
  lemma TwoStopsPickTheSame(t: Table, last: int)
    requires Consistent(t) && |t.running| == 2 && t.picked == map[]
    ensures Enabled(t, Pick(0)) && Enabled(Next(t, Pick(0)).0, Pick(1))
    ensures var t2 := Next(Next(t, Pick(0)).0, Pick(1)).0;
            && Enabled(t2, TakePicked(0, last)) && Enabled(Next(t2, TakePicked(0, last)).0, TakePicked(1, last))
            && var (t3, answer) := Next(t2, TakePicked(0, last));
            && t3.running == [t.running[0]] && answer == Requested(Window(t.running[1].id, t.running[1].acq, last))
            && Next(t3, TakePicked(1, last)).1 == NotRunning && Next(t3, TakePicked(1, last)).0.running == [t.running[0]]
  {
    var k := Place(t.running, t.running[1].id);
    assert k == 1;
    assert Without(t.running, 1) == [t.running[0]];
    assert Place([t.running[0]], t.running[1].id) == 1;
  }

  lemma {:induction false} FourEventsMore(t: Table, h: seq<Event>, a: Event, b: Event, c: Event, d: Event)
    requires Possible(t, h) && Enabled(After(t, h), a)
    requires var t1 := Next(After(t, h), a).0; Enabled(t1, b) && Enabled(Next(t1, b).0, c)
    requires var t3 := Next(Next(Next(After(t, h), a).0, b).0, c).0; Enabled(t3, d)
    ensures Possible(t, h + [a, b, c, d])
    ensures After(t, h + [a, b, c, d]) == Next(Next(Next(Next(After(t, h), a).0, b).0, c).0, d).0
    ensures Requests(t, h + [a, b, c, d])
            == (var t0 := After(t, h); var t1 := Next(t0, a).0; var t2 := Next(t1, b).0; var t3 := Next(t2, c).0;
                Requests(t, h) + Asked(Next(t0, a).1) + Asked(Next(t1, b).1) + Asked(Next(t2, c).1) + Asked(Next(t3, d).1))
  {
    TwoEventsMore(t, h, a, b);
    TwoEventsMore(t, h + [a, b], c, d);
    Associative(h, [a, b], [c, d]);
    assert [a, b] + [c, d] == [a, b, c, d];
  }

  lemma {:induction false} TwoEventsMore(t: Table, h: seq<Event>, a: Event, b: Event)
    requires Possible(t, h) && Enabled(After(t, h), a) && Enabled(Next(After(t, h), a).0, b)
    ensures Possible(t, h + [a, b])
    ensures After(t, h + [a, b]) == Next(Next(After(t, h), a).0, b).0
    ensures Requests(t, h + [a, b])
            == Requests(t, h) + Asked(Next(After(t, h), a).1) + Asked(Next(Next(After(t, h), a).0, b).1)
  {
    OneEventMore(t, h, a);
    OneEventMore(t, h + [a], b);
    Associative(h, [a], [b]);
    assert [a] + [b] == [a, b];
  }

  /** Two stops after the two starts: both pick the entry put in last, the second finds it gone, and the
      other acquisition stays under way. */
  lemma SecondOfTwoStopsFails()
    ensures Possible(EMPTY_TABLE, RacingStarts() + RacingStops())
    ensures After(EMPTY_TABLE, RacingStarts() + RacingStops()).running == [Entry(1, Acq(None, 20))]
    ensures Requests(EMPTY_TABLE, RacingStarts() + RacingStops()) == [Window(0, Acq(None, 10), 30)]
  {
    RacingStartsAreOutOfOrder();
    AlwaysConsistent(RacingStarts());
    TwoStopsPickTheSame(After(EMPTY_TABLE, RacingStarts()), 30);
    FourEventsMore(EMPTY_TABLE, RacingStarts(), Pick(0), Pick(1), TakePicked(0, 30), TakePicked(1, 30));
  }

  // ---------------------------------------------------------------- the client object

  /** A missing last pulse, or zero, is replaced by the current one. */
  function LastPulse(stopId: Option<int>, pulse: Option<int>): Option<int> {
    if stopId.Some? && stopId.value != 0 then stopId else pulse
  }

  /** A start that no other thread comes between: None if no current pulse can be read. */
  function Started(t: Table, name: Option<string>, pulse: Option<int>): Table {
    if pulse.None? then t else Next(Next(t, Draw(name, pulse.value)).0, Insert(t.nextId)).0
  }

  /** A stop that no other thread comes between. */
  function Stopped(t: Table, id: Option<nat>, last: Option<int>): (Table, Answer) {
    if last.None? then (t, NoPulse)
    else if id.Some? then Next(t, Take(id.value, last.value))
    else if t.running == [] then (t, NothingRunning)
    else Taken(t, Latest(t).id, last.value)
  }

  class Daq {
    var running: seq<Entry>
    var nextId: nat

    function View(): Table reads this { Table(running, nextId, map[], map[]) }

    constructor ()
      ensures View() == EMPTY_TABLE
    {
      running, nextId := [], 0;
    }

    method Start(name: Option<string>, pulse: Option<int>) returns (id: Option<nat>)
      modifies this
      ensures View() == Started(old(View()), name, pulse)
      ensures id == if pulse.None? then None else Some(old(nextId))
    {
      if pulse.None? { return None; }
      id := Some(nextId);
      running := running + [Entry(nextId, Acq(name, pulse.value))];
      nextId := nextId + 1;
      assert map[id.value := Acq(name, pulse.value)] - {id.value} == map[];
    }

    method Stop(stopId: Option<int>, id: Option<nat>, pulse: Option<int>) returns (answer: Answer)
      modifies this
      ensures (View(), answer) == Stopped(old(View()), id, LastPulse(stopId, pulse))
    {
      var last := if stopId.Some? && stopId.value != 0 then stopId else pulse;
      if last.None? { return NoPulse; }
      var ix: nat;
      if id.Some? {
        ix := id.value;
      } else {
        if running == [] { return NothingRunning; }
        ix := running[|running| - 1].id;
      }
      var k := Place(running, ix);
      if k == |running| { return NotRunning; }
      var acq := running[k].acq;
      running := running[..k] + running[k + 1..];
      answer := Requested(Window(ix, acq, last.value));
    }

    /** An acquisition of `n` pulses that nothing else comes in between: exactly its own pulses are
        requested and the acquisitions under way are what they were. When its last pulse would be pulse
        0 it runs to the current pulse instead, and stays in the table if that cannot be read. */
    method AcquirePulses(n: int, name: Option<string>, pulse: Option<int>, pulseThen: Option<int>) returns (answer: Answer)
      requires Consistent(View())
      modifies this
      ensures pulse.None? ==> answer == NoPulse && View() == old(View())
      ensures pulse.Some? ==>
                var last := LastPulse(Some(pulse.value + n - 1), pulseThen);
                && nextId == old(nextId) + 1
                && answer == (if last.None? then NoPulse else Requested(Window(old(nextId), Acq(name, pulse.value), last.value)))
                && running == if last.None? then old(running) + [Entry(old(nextId), Acq(name, pulse.value))] else old(running)
    {
      var started := Start(name, pulse);
      if started.None? { return NoPulse; }
      LastIsFound(old(running), Entry(started.value, Acq(name, pulse.value)));
      var k := Place(running, started.value);
      var stopId := running[k].acq.startId + n - 1;
      answer := Stop(Some(stopId), started, pulseThen);
    }
  }

  lemma {:induction false} LastIsFound(running: seq<Entry>, e: Entry)
    requires forall x :: x in running ==> x.id < e.id
    ensures Place(running + [e], e.id) == |running|
    ensures Without(running + [e], |running|) == running
  {
    assert forall i :: 0 <= i < |running| ==> (running + [e])[i] in running;
    assert (running + [e])[|running|] == e;
  }
}
