/**
 Several sessions refreshing one cache file (eco/acquisition/run_store.py): they load the column
 types, load the table, merge and rename in any order, each rename replacing the whole file.
 */
module RunSessions {
  import opened Collections
  import opened RunTable
  import opened RunStore
  import opened RunReads
  import opened RunHistory

  type Id = nat

  datatype System = System(file: Option<Stored>, sessions: map<Id, Session>)

  /** What one session does between two points where another one may run. */
  datatype Event =
    | Open(id: Id)               // read the column types and file times
    | Load(id: Id)               // read the whole table, once
    | Merge(id: Id, disk: Disk)  // read the new status files and merge them
    | Rename(id: Id)             // put the session's table in place of the file

  ghost function Step(sys: System, ev: Event): System {
    match ev
    case Open(id) =>
      if id in sys.sessions then sys
      else sys.(sessions := sys.sessions[id := MetaLoaded(FRESH, sys.file)])
    case Load(id) =>
      if id !in sys.sessions || sys.sessions[id].frame.Some? then sys
      else sys.(sessions := sys.sessions[id := FrameLoaded(sys.sessions[id], sys.file)])
    case Merge(id, disk) =>
      if id !in sys.sessions || sys.sessions[id].frame.None? then sys
      else sys.(sessions := sys.sessions[id := AfterMerge(sys.sessions[id], disk)])
    case Rename(id) =>
      if id !in sys.sessions || sys.sessions[id].frame.None? then sys
      else sys.(file := Some(Stored(sys.sessions[id].frame.value, sys.sessions[id].json)))
  }

  ghost function AfterMerge(s: Session, disk: Disk): Session
    requires s.frame.Some?
  {
    if ReadRows(s, disk) == map[] then NewFailures(s, disk)
    else RowsMerged(NewFailures(s, disk), ReadRows(s, disk))
  }

  ghost function Run(sys: System, events: seq<Event>): System {
    if events == [] then sys else Step(Run(sys, events[..|events| - 1]), events[|events| - 1])
  }

  // ---------------------------------------------------------------- what file and tables show

  /** The rows the cache file shows, and those each loaded table shows. */
  datatype Contents = Contents(file: Rows, tables: map<Id, Rows>)

  /** A load takes what the file shows, a merge adds the rows read, a rename puts a table's rows in place of
      the file's. */
  ghost function ContentsStep(sys: System, c: Contents, ev: Event): Contents {
    match ev
    case Open(_) => c
    case Load(id) =>
      if id !in sys.sessions || sys.sessions[id].frame.Some? then c
      else c.(tables := c.tables[id := c.file])
    case Merge(id, disk) =>
      if id !in sys.sessions || sys.sessions[id].frame.None? || id !in c.tables then c
      else c.(tables := c.tables[id := c.tables[id] + ReadRows(sys.sessions[id], disk)])
    case Rename(id) =>
      if id !in sys.sessions || sys.sessions[id].frame.None? || id !in c.tables then c
      else c.(file := c.tables[id])
  }

  ghost function ContentsAfter(sys: System, c: Contents, events: seq<Event>): Contents {
    if events == [] then c
    else
      var front := events[..|events| - 1];
      ContentsStep(Run(sys, front), ContentsAfter(sys, c, front), events[|events| - 1])
  }

  ghost predicate SessionShows(s: Session, tables: map<Id, Rows>, id: Id) {
    s.json !! META_COLUMNS && (s.frame.Some? ==> id in tables && Shows(s.frame.value, s.json, tables[id]))
  }

  /** File and loaded tables are typed and show exactly these rows. */
  ghost predicate SystemShows(sys: System, c: Contents) {
    FileShows(sys.file, c.file) && forall id :: id in sys.sessions ==> SessionShows(sys.sessions[id], c.tables, id)
  }

  ghost predicate FileTyped(file: Option<Stored>) { file.Some? ==> Typed(file.value.frame, file.value.json) }

  ghost predicate SystemTyped(sys: System) {
    && FileTyped(sys.file)
    && forall id :: id in sys.sessions && sys.sessions[id].frame.Some? ==> Typed(sys.sessions[id].frame.value, sys.sessions[id].json)
  }

  /** At every point of a run the file and all loaded tables are typed. */
  ghost predicate TypedThroughout(sys: System, events: seq<Event>) {
    SystemTyped(Run(sys, events)) && (events == [] || TypedThroughout(sys, events[..|events| - 1]))
  }

  /** The session's column types are right for the file: they agree with the file's own types on
      every column that holds a value. */
  ghost predicate TypesCurrent(s: Session, file: Option<Stored>) {
    file.Some? ==>
      forall n :: n in file.value.frame.columns && HoldsValue(file.value.frame, n) ==>
        (n in s.json <==> n in file.value.json)
  }

  ghost predicate CurrentAt(sys: System, ev: Event) {
    ev.Load? && ev.id in sys.sessions && sys.sessions[ev.id].frame.None? ==> TypesCurrent(sys.sessions[ev.id], sys.file)
  }

  /** The table is only ever loaded by sessions whose column types are right for it. */
  ghost predicate LoadsAreCurrent(sys: System, events: seq<Event>) {
    events == [] ||
    var front := events[..|events| - 1];
    LoadsAreCurrent(sys, front) && CurrentAt(Run(sys, front), events[|events| - 1])
  }

  /** Loading the table gives a typed one exactly when the session's column types are right for
      the file: the two are read at different moments. It then shows what the file shows. */
  lemma LoadIsTypedIffTypesCurrent(s: Session, file: Option<Stored>, rows: Rows)
    requires FileShows(file, rows) && s.json !! META_COLUMNS
    ensures Typed(FrameLoaded(s, file).frame.value, s.json) <==> TypesCurrent(s, file)
    ensures TypesCurrent(s, file) ==> Shows(FrameLoaded(s, file).frame.value, s.json, rows)
  {
    if file.Some? {
      var frame, json := file.value.frame, file.value.json;
      TypedUnderOtherMetadata(frame, json, s.json);
      if TypesCurrent(s, file) {
        forall r | r in rows ensures ShowsRow(frame, s.json, r, rows[r]) {
          assert ShowsRow(frame, json, r, rows[r]);
          forall n ensures Lookup(frame, s.json, r, n) == Lookup(frame, json, r, n) { SameUnderCurrentTypes(s, file.value, r, n); }
        }
      }
    }
  }

  lemma SameUnderCurrentTypes(s: Session, file: Stored, r: RunTable.Run, n: Name)
    requires Typed(file.frame, file.json) && Typed(file.frame, s.json) && TypesCurrent(s, Some(file))
    ensures Lookup(file.frame, s.json, r, n) == Lookup(file.frame, file.json, r, n)
  {
    if r in file.frame.rows && n in file.frame.columns && !file.frame.rows[r][n].NaN? && !file.frame.rows[r][n].Absent? {
      assert HoldsValue(file.frame, n);
    }
  }

  /** A merge into a loaded table adds the rows read to what it shows. */
  lemma MergeShowsMore(s: Session, rows: Rows, disk: Disk)
    requires s.frame.Some? && Shows(s.frame.value, s.json, rows)
    ensures var s' := AfterMerge(s, disk);
            s'.frame.Some? && Shows(s'.frame.value, s'.json, rows + ReadRows(s, disk))
  {
    var read := ReadRows(s, disk);
    if read == map[] {
      assert rows + read == rows;
    } else {
      ReadRowsAreReadable(s, disk);
      MergedMerges(s.frame.value, s.json, read);
      MergedShows(s.frame.value, s.json, rows, read, Merged(s.frame.value, s.json, read), s.json + Promoted(s.json, read));
    }
  }

  lemma StepShows(sys: System, c: Contents, ev: Event)
    requires SystemShows(sys, c) && CurrentAt(sys, ev)
    ensures SystemShows(Step(sys, ev), ContentsStep(sys, c, ev))
  {
    assert ev.id in sys.sessions ==> SessionShows(sys.sessions[ev.id], c.tables, ev.id);
    match ev
    case Open(id) =>
      OneSessionMore(sys, c, id, if id in sys.sessions then sys.sessions[id] else MetaLoaded(FRESH, sys.file), c.tables);
    case Load(id) =>
      if id in sys.sessions && sys.sessions[id].frame.None? {
        LoadIsTypedIffTypesCurrent(sys.sessions[id], sys.file, c.file);
        OneSessionMore(sys, c, id, FrameLoaded(sys.sessions[id], sys.file), c.tables[id := c.file]);
      }
    case Merge(id, disk) =>
      if id in sys.sessions && sys.sessions[id].frame.Some? {
        MergeShowsMore(sys.sessions[id], c.tables[id], disk);
        OneSessionMore(sys, c, id, AfterMerge(sys.sessions[id], disk),
                       c.tables[id := c.tables[id] + ReadRows(sys.sessions[id], disk)]);
      }
    case Rename(id) =>
  }

  /** One session's new state and table, the others as before. */
  lemma OneSessionMore(sys: System, c: Contents, id: Id, s: Session, tables: map<Id, Rows>)
    requires SystemShows(sys, c) && SessionShows(s, tables, id)
    requires forall other :: other != id && other in c.tables ==> other in tables && tables[other] == c.tables[other]
    ensures SystemShows(sys.(sessions := sys.sessions[id := s]), c.(tables := tables))
    ensures id in sys.sessions && sys.sessions[id] == s ==> sys.(sessions := sys.sessions[id := s]) == sys
  {
    forall other | other in sys.sessions && other != id ensures SessionShows(sys.sessions[other], tables, other) {
      assert SessionShows(sys.sessions[other], c.tables, other);
    }
  }

  /** Whatever the interleaving and whatever is on disk: the column types survive every rename, and file and
      tables show exactly the rows that were loaded and read, as long as no table is loaded under outdated
      column types. */
  lemma {:induction false} InterleavedSessionsKeepTable(sys: System, c: Contents, events: seq<Event>)
    requires SystemShows(sys, c) && LoadsAreCurrent(sys, events)
    ensures SystemShows(Run(sys, events), ContentsAfter(sys, c, events))
  {
    if events != [] {
      var front := events[..|events| - 1];
      InterleavedSessionsKeepTable(sys, c, front);
      StepShows(Run(sys, front), ContentsAfter(sys, c, front), events[|events| - 1]);
    }
  }

  lemma ShownIsTyped(sys: System, c: Contents)
    requires SystemShows(sys, c)
    ensures SystemTyped(sys)
  {
    assert forall id :: id in sys.sessions ==> SessionShows(sys.sessions[id], c.tables, id);
  }

  /** The other half: a load under outdated types leaves a table that is not typed. */
  lemma OutdatedLoadShows(sys: System, c: Contents, ev: Event)
    requires SystemShows(sys, c) && !CurrentAt(sys, ev)
    ensures !SystemTyped(Step(sys, ev))
  {
    assert SessionShows(sys.sessions[ev.id], c.tables, ev.id);
    LoadIsTypedIffTypesCurrent(sys.sessions[ev.id], sys.file, c.file);
    LoadStep(sys, ev.id);
  }

  /** In every interleaving file and loaded tables stay typed at all times if and only if every table was
      loaded by a session whose column types were right for it. */
  lemma {:induction false} TypedThroughoutIffLoadsCurrent(sys: System, c: Contents, events: seq<Event>)
    requires SystemShows(sys, c)
    ensures TypedThroughout(sys, events) <==> LoadsAreCurrent(sys, events)
  {
    if events == [] {
      ShownIsTyped(sys, c);
    } else {
      var front, ev := events[..|events| - 1], events[|events| - 1];
      TypedThroughoutIffLoadsCurrent(sys, c, front);
      if LoadsAreCurrent(sys, front) {
        InterleavedSessionsKeepTable(sys, c, front);
        if CurrentAt(Run(sys, front), ev) {
          StepShows(Run(sys, front), ContentsAfter(sys, c, front), ev);
          ShownIsTyped(Run(sys, events), ContentsAfter(sys, c, events));
        } else {
          OutdatedLoadShows(Run(sys, front), ContentsAfter(sys, c, front), ev);
        }
      }
    }
  }

  // ---------------------------------------------------------------- a new session

  predicate HasTime(rows: Rows, r: RunTable.Run, m: real) { r in rows && RowTime(rows[r]) == m }

  /** What a new session shows of a run: the file's row if that has the present file time or there is no
      present file that parses, else the present row. */
  function Restored(rows: Rows, disk: Disk, r: RunTable.Run, n: Name): Value {
    if r in disk && disk[r].parsed.Some? && !HasTime(rows, r, disk[r].mtime) then Get(ReadRow(disk[r]), n)
    else if r in rows then Get(rows[r], n)
    else Missing
  }

  /** A rename may drop runs another session added; a new session's refresh has every run on disk that
      parses again, with its present row unless the file has a row of the same file time, and every run
      of the file. */
  lemma {:induction false} NewSessionShows(sys: System, c: Contents, events: seq<Event>, disk: Disk, writable: bool,
                                           r: RunTable.Run, n: Name)
    requires SystemShows(sys, c) && LoadsAreCurrent(sys, events) && n !in META_COLUMNS
    ensures var file := Run(sys, events).file;
            Tabled(Refreshed(FRESH, file, disk), FileAfter(FRESH, file, disk, writable), r, n)
            == Some(Restored(ContentsAfter(sys, c, events).file, disk, r, n))
  {
    InterleavedSessionsKeepTable(sys, c, events);
    FreshSessionShows(Run(sys, events).file, ContentsAfter(sys, c, events).file, disk, writable, r, n);
  }

  lemma FreshSessionShows(file: Option<Stored>, rows: Rows, disk: Disk, writable: bool, r: RunTable.Run, n: Name)
    requires FileShows(file, rows) && n !in META_COLUMNS
    ensures Tabled(Refreshed(FRESH, file, disk), FileAfter(FRESH, file, disk, writable), r, n) == Some(Restored(rows, disk, r, n))
  {
    var s := Opened(FRESH, file);
    var read := ReadRows(s, disk);
    RefreshShowsReads(FRESH, file, rows, disk, writable);
    CurrentTable(Refreshed(FRESH, file, disk), FileAfter(FRESH, file, disk, writable), rows + read, r, n);
    KnownTimes(s, file, rows, r);
    assert r in read <==> r in disk && disk[r].parsed.Some? && !HasTime(rows, r, disk[r].mtime);
  }

  // ---------------------------------------------------------------- when the file time determines the content

  ghost predicate RowsFrom(rows: Rows, files: Files) {
    forall r :: r in rows ==> RowFrom(rows[r], files, r)
  }

  ghost predicate RowFrom(row: Row, files: Files, r: RunTable.Run) {
    var f := files(r, RowTime(row));
    f.parsed.Some? && f.mtime == RowTime(row) && row == ReadRow(f)
  }

  ghost predicate ContentsFrom(c: Contents, files: Files) {
    RowsFrom(c.file, files) && forall id :: id in c.tables ==> RowsFrom(c.tables[id], files)
  }

  ghost predicate MergesFrom(events: seq<Event>, files: Files) {
    forall ev :: ev in events && ev.Merge? ==> FromFiles(ev.disk, files)
  }

  lemma ReadRowsFrom(s: Session, rows: Rows, disk: Disk, files: Files)
    requires RowsFrom(rows, files) && FromFiles(disk, files)
    ensures RowsFrom(rows + ReadRows(s, disk), files)
  {
    var read := ReadRows(s, disk);
    forall r | r in read ensures RowFrom(read[r], files, r) {
      assert RowTime(read[r]) == disk[r].mtime;
    }
  }

  lemma {:induction false} ContentsStayFrom(sys: System, c: Contents, events: seq<Event>, files: Files)
    requires ContentsFrom(c, files) && MergesFrom(events, files)
    ensures ContentsFrom(ContentsAfter(sys, c, events), files)
  {
    if events != [] {
      var front, ev := events[..|events| - 1], events[|events| - 1];
      ContentsStayFrom(sys, c, front, files);
      var before, c0 := Run(sys, front), ContentsAfter(sys, c, front);
      if ev.Merge? && ev.id in before.sessions && ev.id in c0.tables {
        assert ev in events;
        ReadRowsFrom(before.sessions[ev.id], c0.tables[ev.id], ev.disk, files);
      }
    }
  }

  /** When a run's file time determines its content a new session's refresh has every readable run on
      disk again, each with its present status file's values. */
  lemma {:induction false} NewSessionRestoresEveryRun(sys: System, c: Contents, events: seq<Event>, files: Files, disk: Disk,
                                                      r: RunTable.Run, n: Name)
    requires SystemShows(sys, c) && LoadsAreCurrent(sys, events)
    requires ContentsFrom(c, files) && MergesFrom(events, files) && FromFiles(disk, files)
    requires r in disk && disk[r].parsed.Some? && n !in META_COLUMNS
    ensures var file := Run(sys, events).file;
            Tabled(Refreshed(FRESH, file, disk), FileAfter(FRESH, file, disk, true), r, n)
            == Some(Get(ReadRow(disk[r]), n))
  {
    NewSessionShows(sys, c, events, disk, true, r, n);
    ContentsStayFrom(sys, c, events, files);
    var rows := ContentsAfter(sys, c, events).file;
    assert r in rows ==> RowFrom(rows[r], files, r);
  }

  // ---------------------------------------------------------------- a session that has loaded no table

  /** What the file shows of a run. */
  function Held(rows: Rows, r: RunTable.Run, n: Name): Value { if r in rows then Get(rows[r], n) else Missing }

  /** A session that has loaded no table reads the file anew with the column types, columns and file
      times it read earlier, from a file that showed the rows `seen`. What it shows of a run is what it saw
      exactly when it does not know of the column, or the file still holds that value and, unless the value
      is missing, the column types agree on the column. A run that another session's rename dropped shows no
      value at all. */
  lemma UnloadedSessionRightIff(s: Session, earlier: Stored, seen: Rows, file: Stored, rows: Rows, r: RunTable.Run, n: Name)
    requires Shows(earlier.frame, earlier.json, seen) && Shows(file.frame, file.json, rows) && n !in META_COLUMNS
    requires s == MetaLoaded(s, Some(earlier)) && s.frame.None?
    ensures var known := Held(seen, r, n);
            Tabled(s, Some(file), r, n) == Some(known) <==>
            n !in s.columns || (Held(rows, r, n) == known && (known.Missing? || (n in s.json <==> n in file.json)))
    ensures r !in rows ==> Tabled(s, Some(file), r, n) == Some(Missing)
  {
    assert r in rows ==> ShowsRow(file.frame, file.json, r, rows[r]);
    assert r in seen ==> ShowsRow(earlier.frame, earlier.json, r, seen[r]);
    assert Lookup(file.frame, file.json, r, n) == Some(Held(rows, r, n));
    assert Lookup(earlier.frame, earlier.json, r, n) == Some(Held(seen, r, n));
  }

  // ---------------------------------------------------------------- outdated column types

  /** A session that read the column types before another one turned `n` into JSON text, and the
      table after it, writes a file in which the old values of `n` can no longer be decoded. (Had
      the runs it merges turned the column into JSON text, the old texts would be encoded twice.) */
  lemma OutdatedTypesSpoilTheFile(s: Session, file: Stored, disk: Disk, r: RunTable.Run, n: Name)
    requires s.frame.None? && r in file.frame.rows && n in file.frame.columns && n in file.frame.rows[r]
    requires n in file.json && file.frame.rows[r][n].Json?
    requires n !in s.json && n !in Promoted(s.json, ReadRows(s, disk)) && n != SOURCE
    requires r !in ReadRows(s, disk)
    ensures var after := AfterMerge(FrameLoaded(s, Some(file)), disk);
            && Lookup(after.frame.value, after.json, r, n) == None
            && !Typed(after.frame.value, after.json)
  {
    var loaded := FrameLoaded(s, Some(file));
    var rows := ReadRows(loaded, disk);
    assert rows == ReadRows(s, disk);
    var after := AfterMerge(loaded, disk);
    assert after.frame.value.rows[r][n] == file.frame.rows[r][n];
    assert !FitsColumn(after.json, n, after.frame.value.rows[r][n]);
  }

  /** The status file of run 1, which has a text under the name x. */
  const EXAMPLE_FILE := StatusFile(1.0, "p", 0.0, Some(map["x" := Other("off")]))
  const EXAMPLE_DISK: Disk := map[1 := EXAMPLE_FILE]

  /** Two sessions open an empty store; the second one stores run 1, and then the first one loads. */
  function ExampleEvents(): seq<Event> { [Open(1), Open(2), Load(2), Merge(2, EXAMPLE_DISK), Rename(2), Load(1)] }

  lemma {:induction false} RunOneMore(sys: System, events: seq<Event>, ev: Event)
    ensures Run(sys, events + [ev]) == Step(Run(sys, events), ev)
  {
    assert (events + [ev])[..|events|] == events;
  }

  /** The second session's table after the merge shows the text, in a JSON column. */
  lemma ExampleMerge(s: Session)
    requires s == FrameLoaded(MetaLoaded(FRESH, None), None)
    ensures var after := AfterMerge(s, EXAMPLE_DISK);
            && after.frame.Some? && Typed(after.frame.value, after.json) && "x" in after.json
            && Lookup(after.frame.value, after.json, 1, "x") == Some(Other("off"))
  {
    var rows := ReadRows(s, EXAMPLE_DISK);
    assert 1 in Todo(s, EXAMPLE_DISK) && rows == map[1 := ReadRow(EXAMPLE_FILE)];
    assert Get(rows[1], "x") == Other("off");
    assert NeedsJson(rows, "x") && "x" in Names(rows);
    MergeKeepsTypes(EMPTY_FRAME, {}, rows);
    MergeShowsRows(EMPTY_FRAME, {}, rows, 1, "x");
  }

  /** A text in a JSON column is lost to a session that takes the column for numbers. */
  lemma ValueLost(frame: Frame, json: set<Name>)
    requires Typed(frame, json) && "x" in json && Lookup(frame, json, 1, "x") == Some(Other("off"))
    ensures Lookup(frame, {}, 1, "x") == None
    ensures !TypesCurrent(MetaLoaded(FRESH, None), Some(Stored(frame, json)))
  {
    assert FitsColumn(json, "x", frame.rows[1]["x"]);
    assert HoldsValue(frame, "x");
  }

  /** In this run the first session's column types are outdated when it loads the table, and the value is
      lost to it. */
  lemma OutdatedTypesExample()
    ensures var sys := Run(System(None, map[]), ExampleEvents());
            && sys.file.Some? && 1 in sys.sessions && sys.sessions[1].frame.Some?
            && Typed(sys.file.value.frame, sys.file.value.json)
            && Lookup(sys.file.value.frame, sys.file.value.json, 1, "x") == Some(Other("off"))
            && Lookup(sys.sessions[1].frame.value, sys.sessions[1].json, 1, "x") == None
            && !TypesCurrent(MetaLoaded(FRESH, None), sys.file)
  {
    ExampleStart();
    var meta := MetaLoaded(FRESH, None);
    var loaded := FrameLoaded(meta, None);
    ExampleMerge(loaded);
    var after := AfterMerge(loaded, EXAMPLE_DISK);
    ExampleEnd(meta, after);
    ValueLost(after.frame.value, after.json);
  }

  lemma ExampleStart()
    ensures var meta := MetaLoaded(FRESH, None);
            Run(System(None, map[]), [Open(1), Open(2), Load(2)]) == System(None, map[1 := meta, 2 := FrameLoaded(meta, None)])
  {
    var start := System(None, map[]);
    RunOneMore(start, [], Open(1));
    RunOneMore(start, [Open(1)], Open(2));
    RunOneMore(start, [Open(1), Open(2)], Load(2));
    assert [] + [Open(1)] == [Open(1)];
    assert [Open(1)] + [Open(2)] == [Open(1), Open(2)] && [Open(1), Open(2)] + [Load(2)] == [Open(1), Open(2), Load(2)];
  }

  lemma MergeStep(sys: System, id: Id, disk: Disk)
    requires id in sys.sessions && sys.sessions[id].frame.Some?
    ensures var sys' := Step(sys, Merge(id, disk));
            && sys'.file == sys.file && id in sys'.sessions && sys'.sessions[id] == AfterMerge(sys.sessions[id], disk)
            && forall other :: other != id && other in sys.sessions ==> other in sys'.sessions && sys'.sessions[other] == sys.sessions[other]
  {
  }

  lemma RenameStep(sys: System, id: Id)
    requires id in sys.sessions && sys.sessions[id].frame.Some?
    ensures var s := sys.sessions[id];
            Step(sys, Rename(id)) == sys.(file := Some(Stored(s.frame.value, s.json)))
  {
  }

  lemma LoadStep(sys: System, id: Id)
    requires id in sys.sessions && sys.sessions[id].frame.None?
    ensures var sys' := Step(sys, Load(id));
            sys'.file == sys.file && id in sys'.sessions && sys'.sessions[id] == FrameLoaded(sys.sessions[id], sys.file)
  {
  }

  lemma {:induction false} TwoMore(sys: System, events: seq<Event>, a: Event, b: Event)
    ensures Run(sys, events + [a, b]) == Step(Step(Run(sys, events), a), b)
  {
    Associative(events, [a], [b]);
    assert [a] + [b] == [a, b];
    RunOneMore(sys, events, a);
    RunOneMore(sys, events + [a], b);
  }

  lemma {:induction false} ThreeMore(sys: System, events: seq<Event>, a: Event, b: Event, c: Event)
    ensures Run(sys, events + [a, b, c]) == Step(Step(Step(Run(sys, events), a), b), c)
  {
    Associative(events, [a, b], [c]);
    assert [a, b] + [c] == [a, b, c];
    TwoMore(sys, events, a, b);
    RunOneMore(sys, events + [a, b], c);
  }

  lemma ExampleEnd(meta: Session, after: Session)
    requires meta == MetaLoaded(FRESH, None) && after == AfterMerge(FrameLoaded(meta, None), EXAMPLE_DISK) && after.frame.Some?
    ensures var file := Some(Stored(after.frame.value, after.json));
            var sys := Run(System(None, map[]), ExampleEvents());
            sys.file == file && 1 in sys.sessions && sys.sessions[1] == FrameLoaded(meta, file)
  {
    var first := [Open(1), Open(2), Load(2)];
    ExampleStart();
    ThreeMore(System(None, map[]), first, Merge(2, EXAMPLE_DISK), Rename(2), Load(1));
    assert first + [Merge(2, EXAMPLE_DISK), Rename(2), Load(1)] == ExampleEvents();
    var sys := Run(System(None, map[]), first);
    MergeStep(sys, 2, EXAMPLE_DISK);
    var merged := Step(sys, Merge(2, EXAMPLE_DISK));
    RenameStep(merged, 2);
    LoadStep(Step(merged, Rename(2)), 1);
  }
}
