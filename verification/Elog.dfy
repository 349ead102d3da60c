/**
 Incremental indexing of elog logbooks (eco/logs_elog.py): an update reads the entries of the last
 days, reaching back past the previous update, and replaces what is indexed of them.

 `server` holds the entries ever written; an entry dated t can be read from time t on.
 */
module Elog {
  import opened Collections
  import opened IndexTable

  type Book = string

  datatype Entry = Entry(book: Book, mid: nat, t: real, text: string)

  /** The index: its rows and, per logbook, when its last update started. */
  datatype Index = Index(items: seq<Item>, last: map<Book, real>)

  const DAY := 86400.0
  const FULL_AFTER_DAYS := 300

  ghost predicate UniqueEntries(server: seq<Entry>) {
    forall i, j :: 0 <= i < j < |server| ==> server[i].book != server[j].book || server[i].mid != server[j].mid
  }

  function Ceil(x: real): int { -(-x).Floor }

  /** How many days to read; None for everything. */
  function Days(since: Option<real>, now: real): Option<int> {
    if since.None? then None
    else
      var days := Ceil((now - since.value) / DAY) + 1;
      if days > FULL_AFTER_DAYS then None else Some(days)
  }

  /** Whether reading `days` days at time `at` gives an entry. Zero days, like none, ask for all. */
  predicate Reads(e: Entry, book: Book, days: Option<int>, at: real) {
    e.book == book && e.t <= at && (days.Some? && days.value != 0 ==> e.t >= at - days.value as real * DAY)
  }

  function Export(server: seq<Entry>, book: Book, days: Option<int>, at: real): seq<Entry> {
    if server == [] then []
    else
      var e := server[|server| - 1];
      Export(server[..|server| - 1], book, days, at) + if Reads(e, book, days, at) then [e] else []
  }

  /** The clock of one logbook's turn: when the days are computed, when the update is said to have
      started, and when the server is read. */
  datatype Clock = Clock(now: real, started: real, readAt: real)

  predicate Prompt(c: Clock) { c.now <= c.started <= c.readAt <= c.now + DAY }

  /** The days read reach back to the previous update, if the read starts within a day. */
  lemma WindowReachesBack(since: real, c: Clock, e: Entry)
    requires Prompt(c) && e.t <= c.readAt && e.t >= since
    ensures Reads(e, e.book, Days(Some(since), c.now), c.readAt)
  {
    var days := Ceil((c.now - since) / DAY) + 1;
    assert days as real * DAY == Ceil((c.now - since) / DAY) as real * DAY + DAY;
  }

  /** A day is the limit: a read that starts later can miss entries written right after the last update. */
  lemma LaterReadCanMiss(now: real, late: real, e: Entry)
    requires late > DAY && now < e.t < now + late - DAY
    ensures !Reads(e, e.book, Days(Some(now), now), now + late)
  {
    assert Ceil(0.0) == 0;
  }

  // ---------------------------------------------------------------- rows

  function RowOf(e: Entry): Item { Item(e.text, "", ElogEntry, e.t, IndexTable.Elog(e.book, e.mid)) }

  predicate IsElog(it: Item) { it.kind == ElogEntry && it.path.Elog? }

  function OfEntry(book: Book, mid: nat): Item -> bool { it => IsElog(it) && it.path == IndexTable.Elog(book, mid) }

  function EntryRows(items: seq<Item>, book: Book, mid: nat): seq<Item> { Filter(items, OfEntry(book, mid)) }

  function OfBooks(keep: set<Book>): Item -> bool {
    (it: Item) => it.kind == ElogEntry ==> it.path.Elog? && it.path.book in keep
  }

  function NotOfBook(book: Book): Item -> bool { it => !(IsElog(it) && it.path.book == book) }

  function NotOfEntries(book: Book, mids: set<nat>): Item -> bool {
    it => !(IsElog(it) && it.path.book == book && it.path.entry in mids)
  }

  function NotElog(): Item -> bool { (it: Item) => it.kind != ElogEntry }

  function Rows(entries: seq<Entry>): seq<Item> {
    if entries == [] then [] else Rows(entries[..|entries| - 1]) + [RowOf(entries[|entries| - 1])]
  }

  function Mids(entries: seq<Entry>): set<nat> { set e | e in entries :: e.mid }

  // ---------------------------------------------------------------- one update

  function KeptBooks(ix: Index, keep: set<Book>): Index {
    Index(Filter(ix.items, OfBooks(keep)), map b | b in ix.last && b in keep :: ix.last[b])
  }

  /** One logbook's turn: drop what is read again -- all of the logbook when everything is read -- and
      insert what was read. */
  function BookUpdated(ix: Index, book: Book, server: seq<Entry>, c: Clock): Index {
    var days := Days(if book in ix.last then Some(ix.last[book]) else None, c.now);
    var entries := Export(server, book, days, c.readAt);
    var kept := if days.None? then Filter(ix.items, NotOfBook(book)) else Filter(ix.items, NotOfEntries(book, Mids(entries)));
    Index(kept + Rows(entries), ix.last[book := c.started])
  }

  function BooksUpdated(ix: Index, books: seq<Book>, server: seq<Entry>, clocks: seq<Clock>): Index
    requires |clocks| == |books|
  {
    if books == [] then ix
    else
      var n := |books| - 1;
      BookUpdated(BooksUpdated(ix, books[..n], server, clocks[..n]), books[n], server, clocks[n])
  }

  /** An update of `books`: whatever is indexed of other logbooks goes, and with `rebuild` everything. */
  function Updated(ix: Index, books: seq<Book>, rebuild: bool, server: seq<Entry>, clocks: seq<Clock>): Index
    requires |clocks| == |books|
  {
    BooksUpdated(KeptBooks(ix, if rebuild then {} else set b | b in books), books, server, clocks)
  }

  // ---------------------------------------------------------------- what an update promises

  /** The previous update of the entry's logbook started after the entry was written. */
  predicate Covered(ix: Index, e: Entry) { e.book in ix.last && e.t <= ix.last[e.book] }

  /** An entry is indexed at most once, and once if it is covered. */
  ghost predicate EntryOk(ix: Index, e: Entry) {
    EntryRows(ix.items, e.book, e.mid) == [RowOf(e)] || (EntryRows(ix.items, e.book, e.mid) == [] && !Covered(ix, e))
  }

  /** A row names an entry the server has, of a logbook that was read. */
  ghost predicate RowOk(ix: Index, server: seq<Entry>, it: Item) {
    IsElog(it) ==> exists e :: e in server && it.path == RowOf(e).path && e.book in ix.last
  }

  ghost predicate InStep(ix: Index, server: seq<Entry>) {
    && (forall e :: e in server ==> EntryOk(ix, e))
    && (forall it :: it in ix.items ==> RowOk(ix, server, it))
  }

  lemma {:induction false} ExportMember(server: seq<Entry>, book: Book, days: Option<int>, at: real, e: Entry)
    ensures e in Export(server, book, days, at) <==> e in server && Reads(e, book, days, at)
  {
    if server != [] {
      assert server == server[..|server| - 1] + [server[|server| - 1]];
      ExportMember(server[..|server| - 1], book, days, at, e);
    }
  }

  lemma {:induction false} ExportUnique(server: seq<Entry>, book: Book, days: Option<int>, at: real)
    requires UniqueEntries(server)
    ensures UniqueEntries(Export(server, book, days, at))
    ensures forall e :: e in Export(server, book, days, at) ==> e in server && e.book == book
  {
    if server != [] {
      ExportUnique(server[..|server| - 1], book, days, at);
      assert server == server[..|server| - 1] + [server[|server| - 1]];
    }
  }

  lemma SameEntry(server: seq<Entry>, a: Entry, b: Entry)
    requires UniqueEntries(server) && a in server && b in server && a.book == b.book && a.mid == b.mid
    ensures a == b
  {
    var i :| 0 <= i < |server| && server[i] == a;
    var j :| 0 <= j < |server| && server[j] == b;
  }

  lemma {:induction false} RowsOfNoEntry(entries: seq<Entry>, book: Book, mid: nat)
    requires forall e :: e in entries ==> e.book != book || e.mid != mid
    ensures EntryRows(Rows(entries), book, mid) == []
  {
    if entries != [] {
      var front, last := entries[..|entries| - 1], entries[|entries| - 1];
      assert entries == front + [last];
      RowsOfNoEntry(front, book, mid);
      FilterConcat(Rows(front), [RowOf(last)], OfEntry(book, mid));
    }
  }

  lemma {:induction false} RowsOfOneEntry(entries: seq<Entry>, e: Entry)
    requires UniqueEntries(entries) && e in entries
    ensures EntryRows(Rows(entries), e.book, e.mid) == [RowOf(e)]
  {
    var front, last := entries[..|entries| - 1], entries[|entries| - 1];
    assert entries == front + [last];
    FilterConcat(Rows(front), [RowOf(last)], OfEntry(e.book, e.mid));
    if e == last {
      RowsOfNoEntry(front, e.book, e.mid);
    } else {
      RowsOfOneEntry(front, e);
    }
  }

  /** The rows of an entry after its logbook's turn: its own if it was read again, else those kept. */
  lemma TurnRows(ix: Index, book: Book, server: seq<Entry>, c: Clock, e: Entry)
    requires UniqueEntries(server) && e in server
    ensures var days := Days(if book in ix.last then Some(ix.last[book]) else None, c.now);
            EntryRows(BookUpdated(ix, book, server, c).items, e.book, e.mid)
            == if Reads(e, book, days, c.readAt) then [RowOf(e)]
               else if days.None? && e.book == book then [] else EntryRows(ix.items, e.book, e.mid)
  {
    var days := Days(if book in ix.last then Some(ix.last[book]) else None, c.now);
    var entries := Export(server, book, days, c.readAt);
    ExportMember(server, book, days, c.readAt, e);
    ExportUnique(server, book, days, c.readAt);
    var drop := if days.None? then NotOfBook(book) else NotOfEntries(book, Mids(entries));
    FilterConcat(Filter(ix.items, drop), Rows(entries), OfEntry(e.book, e.mid));
    if e in entries {
      RowsOfOneEntry(entries, e);
      NoRowsLeft(ix.items, drop, e.book, e.mid);
    } else {
      forall x | x in entries ensures x.book != e.book || x.mid != e.mid {
        if x.book == e.book && x.mid == e.mid { SameEntry(server, x, e); }
      }
      RowsOfNoEntry(entries, e.book, e.mid);
      if days.None? && e.book == book { NoRowsLeft(ix.items, drop, e.book, e.mid); } else { AllRowsLeft(ix.items, drop, e.book, e.mid); }
    }
  }

  lemma {:induction false} NoRowsLeft(items: seq<Item>, keep: Item -> bool, book: Book, mid: nat)
    requires forall it :: OfEntry(book, mid)(it) ==> !keep(it)
    ensures EntryRows(Filter(items, keep), book, mid) == []
  {
    FilterTwice(items, keep, OfEntry(book, mid), (it: Item) => false);
    FilterNone(items, (it: Item) => false);
  }

  lemma {:induction false} AllRowsLeft(items: seq<Item>, keep: Item -> bool, book: Book, mid: nat)
    requires forall it :: OfEntry(book, mid)(it) ==> keep(it)
    ensures EntryRows(Filter(items, keep), book, mid) == EntryRows(items, book, mid)
  {
    FilterTwice(items, keep, OfEntry(book, mid), OfEntry(book, mid));
  }

  /** After a logbook's turn every entry written until the read is indexed exactly once. */
  lemma TurnCatchesUp(ix: Index, book: Book, server: seq<Entry>, c: Clock, e: Entry)
    requires InStep(ix, server) && UniqueEntries(server) && Prompt(c) && e in server
    ensures EntryOk(BookUpdated(ix, book, server, c), e)
    ensures e.book == book && e.t <= c.readAt ==> EntryRows(BookUpdated(ix, book, server, c).items, e.book, e.mid) == [RowOf(e)]
  {
    assert EntryOk(ix, e);
    TurnRows(ix, book, server, c, e);
    if e.book == book && e.t <= c.readAt && book in ix.last && e.t >= ix.last[book] {
      WindowReachesBack(ix.last[book], c, e);
    }
  }

  lemma {:induction false} RowsMember(entries: seq<Entry>, it: Item)
    requires it in Rows(entries)
    ensures exists e :: e in entries && it == RowOf(e)
  {
    var front, last := entries[..|entries| - 1], entries[|entries| - 1];
    assert entries == front + [last];
    if it != RowOf(last) { RowsMember(front, it); } else { assert last in entries; }
  }

  lemma TurnKeepsInStep(ix: Index, book: Book, server: seq<Entry>, c: Clock)
    requires InStep(ix, server) && UniqueEntries(server) && Prompt(c)
    ensures InStep(BookUpdated(ix, book, server, c), server)
  {
    var ix' := BookUpdated(ix, book, server, c);
    forall e | e in server ensures EntryOk(ix', e) {
      TurnCatchesUp(ix, book, server, c, e);
    }
    var days := Days(if book in ix.last then Some(ix.last[book]) else None, c.now);
    var entries := Export(server, book, days, c.readAt);
    forall it | it in ix'.items ensures RowOk(ix', server, it) {
      if it in Rows(entries) {
        RowsMember(entries, it);
        var e :| e in entries && it == RowOf(e);
        ExportMember(server, book, days, c.readAt, e);
      } else {
        FilterMember(ix.items, if days.None? then NotOfBook(book) else NotOfEntries(book, Mids(entries)), it);
        assert RowOk(ix, server, it);
      }
    }
  }

  /** Rows that are not elog entries stay as they are. */
  lemma TurnLeavesOthers(ix: Index, book: Book, server: seq<Entry>, c: Clock)
    ensures Filter(BookUpdated(ix, book, server, c).items, NotElog()) == Filter(ix.items, NotElog())
  {
    var days := Days(if book in ix.last then Some(ix.last[book]) else None, c.now);
    var entries := Export(server, book, days, c.readAt);
    var drop := if days.None? then NotOfBook(book) else NotOfEntries(book, Mids(entries));
    FilterConcat(Filter(ix.items, drop), Rows(entries), NotElog());
    FilterTwice(ix.items, drop, NotElog(), NotElog());
    forall it | it in Rows(entries) ensures !NotElog()(it) { RowsMember(entries, it); }
    FilterNone(Rows(entries), NotElog());
  }

  lemma {:induction false} BooksInStep(ix: Index, books: seq<Book>, server: seq<Entry>, clocks: seq<Clock>)
    requires InStep(ix, server) && UniqueEntries(server) && |clocks| == |books|
    requires forall i :: 0 <= i < |clocks| ==> Prompt(clocks[i])
    ensures InStep(BooksUpdated(ix, books, server, clocks), server)
    ensures Filter(BooksUpdated(ix, books, server, clocks).items, NotElog()) == Filter(ix.items, NotElog())
    ensures forall b :: b in BooksUpdated(ix, books, server, clocks).last ==> b in ix.last || b in books
  {
    if books != [] {
      var n := |books| - 1;
      BooksInStep(ix, books[..n], server, clocks[..n]);
      TurnKeepsInStep(BooksUpdated(ix, books[..n], server, clocks[..n]), books[n], server, clocks[n]);
      TurnLeavesOthers(BooksUpdated(ix, books[..n], server, clocks[..n]), books[n], server, clocks[n]);
    }
  }

  /** Time goes on from one logbook's turn to the next. */
  ghost predicate InOrder(clocks: seq<Clock>) {
    forall i, j :: 0 <= i < j < |clocks| ==> clocks[i].readAt <= clocks[j].readAt
  }

  /** The clocks of one update: every logbook's read is prompt, and they follow each other. */
  ghost predicate Regular(clocks: seq<Clock>) {
    InOrder(clocks) && forall i :: 0 <= i < |clocks| ==> Prompt(clocks[i])
  }

  lemma {:induction false} BooksComplete(ix: Index, books: seq<Book>, server: seq<Entry>, clocks: seq<Clock>, k: nat, e: Entry)
    requires InStep(ix, server) && UniqueEntries(server) && |clocks| == |books| && Regular(clocks)
    requires k < |books| && e in server && e.book == books[k] && e.t <= clocks[k].readAt
    ensures EntryRows(BooksUpdated(ix, books, server, clocks).items, e.book, e.mid) == [RowOf(e)]
  {
    var n := |books| - 1;
    var before := BooksUpdated(ix, books[..n], server, clocks[..n]);
    assert BooksUpdated(ix, books, server, clocks) == BookUpdated(before, books[n], server, clocks[n]);
    assert Regular(clocks[..n]);
    if k < n && books[k] != books[n] {
      BooksComplete(ix, books[..n], server, clocks[..n], k, e);
      TurnRows(before, books[n], server, clocks[n], e);
    } else {
      BooksInStep(ix, books[..n], server, clocks[..n]);
      assert clocks[k].readAt <= clocks[n].readAt;
      TurnCatchesUp(before, books[n], server, clocks[n], e);
    }
  }

  lemma KeptBooksInStep(ix: Index, server: seq<Entry>, keep: set<Book>)
    requires InStep(ix, server)
    ensures InStep(KeptBooks(ix, keep), server)
    ensures Filter(KeptBooks(ix, keep).items, NotElog()) == Filter(ix.items, NotElog())
  {
    var kept := KeptBooks(ix, keep);
    forall it | it in kept.items ensures RowOk(kept, server, it) {
      FilterMember(ix.items, OfBooks(keep), it);
      assert RowOk(ix, server, it);
    }
    forall e | e in server ensures EntryOk(kept, e) {
      assert EntryOk(ix, e);
      var mine := OfEntry(e.book, e.mid);
      if e.book in keep {
        FilterTwice(ix.items, OfBooks(keep), mine, mine);
      } else {
        FilterTwice(ix.items, OfBooks(keep), mine, (it: Item) => false);
        FilterNone(ix.items, (it: Item) => false);
      }
    }
    FilterTwice(ix.items, OfBooks(keep), NotElog(), NotElog());
  }

  /** An update misses no entry of its logbooks and keeps one copy of each, also when it reads everything
      again; entries of other logbooks go and other items stay. */
  lemma UpdateMissesNothing(ix: Index, books: seq<Book>, rebuild: bool, server: seq<Entry>, clocks: seq<Clock>)
    requires InStep(ix, server) && UniqueEntries(server) && |clocks| == |books|
    requires Regular(clocks)
    ensures var ix' := Updated(ix, books, rebuild, server, clocks);
            && InStep(ix', server)
            && (forall k, e :: 0 <= k < |books| && e in server && e.book == books[k] && e.t <= clocks[k].readAt ==>
                  EntryRows(ix'.items, e.book, e.mid) == [RowOf(e)])
            && (forall b :: b in ix'.last ==> b in books)
            && Filter(ix'.items, NotElog()) == Filter(ix.items, NotElog())
  {
    var keep := if rebuild then {} else set b | b in books;
    KeptBooksInStep(ix, server, keep);
    BooksInStep(KeptBooks(ix, keep), books, server, clocks);
    forall k, e | 0 <= k < |books| && e in server && e.book == books[k] && e.t <= clocks[k].readAt
      ensures EntryRows(Updated(ix, books, rebuild, server, clocks).items, e.book, e.mid) == [RowOf(e)]
    {
      BooksComplete(KeptBooks(ix, keep), books, server, clocks, k, e);
    }
  }

  // ---------------------------------------------------------------- any number of updates

  datatype Update = Update(books: seq<Book>, rebuild: bool, clocks: seq<Clock>)

  ghost predicate RegularUpdates(updates: seq<Update>) {
    forall i :: 0 <= i < |updates| ==> |updates[i].clocks| == |updates[i].books| && Regular(updates[i].clocks)
  }

  ghost function AfterUpdates(ix: Index, updates: seq<Update>, server: seq<Entry>): Index
    requires RegularUpdates(updates)
  {
    if updates == [] then ix
    else
      var u := updates[|updates| - 1];
      Updated(AfterUpdates(ix, updates[..|updates| - 1], server), u.books, u.rebuild, server, u.clocks)
  }

  /** Over any number of updates, at whatever times, with whatever logbooks: no entry is indexed twice,
      and every entry of a logbook just updated is indexed once. */
  lemma {:induction false} EveryEntryOnce(items: seq<Item>, updates: seq<Update>, server: seq<Entry>)
    requires forall it :: it in items ==> !IsElog(it)
    requires UniqueEntries(server) && RegularUpdates(updates)
    ensures var ix := AfterUpdates(Index(items, map[]), updates, server);
            && InStep(ix, server)
            && Filter(ix.items, NotElog()) == Filter(items, NotElog())
            && (updates != [] ==>
                  var u := updates[|updates| - 1];
                  forall k, e :: 0 <= k < |u.books| && e in server && e.book == u.books[k] && e.t <= u.clocks[k].readAt ==>
                    EntryRows(ix.items, e.book, e.mid) == [RowOf(e)])
  {
    if updates == [] {
      forall e | e in server ensures EntryOk(Index(items, map[]), e) {
        FilterNone(items, OfEntry(e.book, e.mid));
      }
    } else {
      var front, u := updates[..|updates| - 1], updates[|updates| - 1];
      EveryEntryOnce(items, front, server);
      UpdateMissesNothing(AfterUpdates(Index(items, map[]), front, server), u.books, u.rebuild, server, u.clocks);
    }
  }

  // ---------------------------------------------------------------- the index object

  class Store {
    var items: seq<Item>
    var last: map<Book, real>

    constructor (items: seq<Item>)
      ensures View() == Index(items, map[])
    {
      this.items, last := items, map[];
    }

    ghost function View(): Index
      reads this
    {
      Index(items, last)
    }

    /** Drop the rows that `keep` does not want. */
    method Drop(keep: Item -> bool) returns (dropped: nat)
      modifies this`items
      ensures items == Filter(old(items), keep)
      ensures dropped == |old(items)| - |items|
    {
      var kept := [];
      for i := 0 to |items|
        invariant items == old(items) && kept == Filter(items[..i], keep) && |kept| <= i
      {
        assert items[..i + 1] == items[..i] + [items[i]];
        FilterConcat(items[..i], [items[i]], keep);
        if keep(items[i]) { kept := kept + [items[i]]; }
      }
      assert items[..|items|] == items;
      dropped := |items| - |kept|;
      items := kept;
    }

    /** Drop the entries of logbooks not in `keep`, with where their fetch stood. */
    method ForgetOthers(keep: set<Book>) returns (dropped: nat)
      modifies this
      ensures View() == KeptBooks(old(View()), keep)
      ensures dropped == |old(items)| - |items|
    {
      dropped := Drop(OfBooks(keep));
      last := map b | b in last && b in keep :: last[b];
    }

    /** One logbook's turn. */
    method UpdateBook(book: Book, server: seq<Entry>, c: Clock)
      modifies this
      ensures View() == BookUpdated(old(View()), book, server, c)
    {
      var days := Days(if book in last then Some(last[book]) else None, c.now);
      var entries := Export(server, book, days, c.readAt);
      if days.None? {
        var n := Drop(NotOfBook(book));
      } else {
        var n := Drop(NotOfEntries(book, Mids(entries)));
      }
      AppendEntries(entries);
      last := last[book := c.started];
    }

    method AppendEntries(entries: seq<Entry>)
      modifies this`items
      ensures items == old(items) + Rows(entries)
    {
      for i := 0 to |entries|
        invariant items == old(items) + Rows(entries[..i])
      {
        OneMoreRow(entries, i);
        Associative(old(items), Rows(entries[..i]), [RowOf(entries[i])]);
        items := items + [RowOf(entries[i])];
      }
      TakeAll(entries);
    }

    /** Index the entries of `books` written since the last update. */
    method Update(books: seq<Book>, rebuild: bool, server: seq<Entry>, clocks: seq<Clock>) returns (dropped: nat)
      requires |clocks| == |books|
      modifies this
      ensures View() == Updated(old(View()), books, rebuild, server, clocks)
    {
      dropped := ForgetOthers(set b | b in books);
      if rebuild {
        var again := ForgetOthers({});
        ForgetTwice(old(items), set b | b in books);
      }
      ghost var start := View();
      for i := 0 to |books|
        invariant View() == BooksUpdated(start, books[..i], server, clocks[..i])
      {
        OneMoreBook(start, books, server, clocks, i);
        UpdateBook(books[i], server, clocks[i]);
      }
      TakeAll(books);
      TakeAll(clocks);
    }
  }

  lemma {:induction false} OneMoreRow(entries: seq<Entry>, i: nat)
    requires i < |entries|
    ensures Rows(entries[..i + 1]) == Rows(entries[..i]) + [RowOf(entries[i])]
  {
    assert entries[..i + 1][..i] == entries[..i];
  }

  lemma {:induction false} OneMoreBook(ix: Index, books: seq<Book>, server: seq<Entry>, clocks: seq<Clock>, i: nat)
    requires i < |books| == |clocks|
    ensures BooksUpdated(ix, books[..i + 1], server, clocks[..i + 1])
            == BookUpdated(BooksUpdated(ix, books[..i], server, clocks[..i]), books[i], server, clocks[i])
  {
    assert books[..i + 1][..i] == books[..i];
    assert clocks[..i + 1][..i] == clocks[..i];
  }

  lemma {:induction false} ForgetTwice(items: seq<Item>, keep: set<Book>)
    ensures Filter(Filter(items, OfBooks(keep)), OfBooks({})) == Filter(items, OfBooks({}))
  {
    FilterTwice(items, OfBooks(keep), OfBooks({}), OfBooks({}));
  }
}
