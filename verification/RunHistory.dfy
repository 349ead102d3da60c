/**
 The run table over histories in which a run's file time determines its status file's content
 (eco/acquisition/run_store.py): what was read last is then the file each run was last good with.
 */
module RunHistory {
  import opened Collections
  import opened RunTable
  import opened RunStore
  import opened RunReads

  /** The status file a run has at a file time. */
  type Files = (Run, real) -> StatusFile

  ghost predicate FromFiles(disk: Disk, files: Files) {
    forall r :: r in disk ==> disk[r] == files(r, disk[r].mtime)
  }

  /** The status files of these runs at these times are readable. */
  ghost predicate Known(known: map<Run, real>, files: Files) {
    forall r :: r in known ==> files(r, known[r]).parsed.Some? && files(r, known[r]).mtime == known[r]
  }

  ghost function RowsAt(files: Files, known: map<Run, real>): Rows
    requires Known(known, files)
  {
    map r | r in known :: ReadRow(files(r, known[r]))
  }

  /** A typed table each row of which is that of the run's status file at the row's file time. */
  ghost predicate GoodTable(frame: Frame, json: set<Name>, files: Files) {
    Known(FileTimes(frame), files) && Shows(frame, json, RowsAt(files, FileTimes(frame)))
  }

  /** The file time of each run when it was last there and readable: a function of what was on
      disk alone. */
  ghost function LastGood(base: map<Run, real>, history: seq<Refresh>): map<Run, real> {
    if history == [] then base
    else GoodAfter(LastGood(base, history[..|history| - 1]), history[|history| - 1].disk)
  }

  ghost function GoodAfter(known: map<Run, real>, disk: Disk): map<Run, real> {
    map r | r in known.Keys + disk.Keys && (r in known || disk[r].parsed.Some?) ::
      if r in disk && disk[r].parsed.Some? then disk[r].mtime else known[r]
  }

  function TimesIn(file: Option<Stored>): map<Run, real> {
    if file.Some? then FileTimes(file.value.frame) else map[]
  }

  /** A session and cache file that show the runs' status files at the file times `known`. */
  ghost predicate Consistent(s: Session, file: Option<Stored>, files: Files, known: map<Run, real>) {
    && Known(known, files) && Current(s, file, RowsAt(files, known))
    && forall r :: r in s.failed ==> files(r, s.failed[r]).parsed.None?
  }

  /** Reading only new and changed files loses nothing: a run that is skipped is already in the
      table with this file time, or is known to be unreadable. */
  lemma SkippedRunsAreKnown(s: Session, known: map<Run, real>, disk: Disk, files: Files)
    requires Known(known, files) && FromFiles(disk, files)
    requires forall r :: r in s.failed ==> files(r, s.failed[r]).parsed.None?
    requires forall r :: KnowsTime(s, RowsAt(files, known), r)
    ensures Known(GoodAfter(known, disk), files)
    ensures RowsAt(files, known) + ReadRows(s, disk) == RowsAt(files, GoodAfter(known, disk))
  {
    forall r ensures ShowsGood(RowsAt(files, known) + ReadRows(s, disk), GoodAfter(known, disk), files, r) {
      assert KnowsTime(s, RowsAt(files, known), r);
      SkippedRunIsKnown(s, known, disk, files, r);
    }
    AllShowGood(RowsAt(files, known) + ReadRows(s, disk), GoodAfter(known, disk), files);
  }

  /** The rows have the file of this run at the time `known` says, if it says one. */
  ghost predicate ShowsGood(rows: Rows, known: map<Run, real>, files: Files, r: Run) {
    && (r in rows <==> r in known)
    && (r in known ==>
          var f := files(r, known[r]);
          f.parsed.Some? && f.mtime == known[r] && r in rows && rows[r] == ReadRow(f))
  }

  lemma AllShowGood(rows: Rows, known: map<Run, real>, files: Files)
    requires forall r :: ShowsGood(rows, known, files, r)
    ensures Known(known, files) && rows == RowsAt(files, known)
  {
    assert forall r :: r in known ==> ShowsGood(rows, known, files, r);
    assert forall r :: r in rows ==> ShowsGood(rows, known, files, r);
  }

  lemma SkippedRunIsKnown(s: Session, known: map<Run, real>, disk: Disk, files: Files, r: Run)
    requires Known(known, files) && FromFiles(disk, files) && KnowsTime(s, RowsAt(files, known), r)
    requires r in s.failed ==> files(r, s.failed[r]).parsed.None?
    ensures ShowsGood(RowsAt(files, known) + ReadRows(s, disk), GoodAfter(known, disk), files, r)
  {
    if r in disk && disk[r].parsed.Some? && r !in ReadRows(s, disk) {
      assert r !in Todo(s, disk);
      assert RowTime(RowsAt(files, known)[r]) == known[r];
    }
  }

  lemma StillUnreadable(s: Session, disk: Disk, files: Files)
    requires FromFiles(disk, files) && forall r :: r in s.failed ==> files(r, s.failed[r]).parsed.None?
    ensures forall r :: r in StillFailed(s, disk) ==> files(r, StillFailed(s, disk)[r]).parsed.None?
  {
  }

  lemma OpenedStaysCurrent(s: Session, file: Option<Stored>, rows: Rows)
    requires Current(s, file, rows)
    ensures Current(Opened(s, file), file, rows) && Opened(s, file).loaded && Opened(s, file).failed == s.failed
  {
  }

  /** A refresh keeps session and cache file in agreement with the files the runs were last good with. */
  lemma RefreshKeepsConsistent(s: Session, file: Option<Stored>, files: Files, known: map<Run, real>,
                               disk: Disk, writable: bool)
    requires Consistent(s, file, files, known) && FromFiles(disk, files)
    ensures Consistent(Refreshed(s, file, disk), FileAfter(s, file, disk, writable), files, GoodAfter(known, disk))
    ensures RowsAt(files, known) + ReadRows(Opened(s, file), disk) == RowsAt(files, GoodAfter(known, disk))
  {
    var s1, rows := Opened(s, file), RowsAt(files, known);
    OpenedStaysCurrent(s, file, rows);
    forall r ensures KnowsTime(s1, rows, r) { KnownTimes(s1, file, rows, r); }
    SkippedRunsAreKnown(s1, known, disk, files);
    RefreshShowsReads(s, file, rows, disk, writable);
    RefreshedFields(s, file, disk);
    StillUnreadable(s1, disk, files);
  }

  /** What was read last is what every run was last good with. */
  lemma {:induction false} LastReadsAreLastGood(file: Option<Stored>, files: Files, history: seq<Refresh>)
    requires file.Some? ==> GoodTable(file.value.frame, file.value.json, files)
    requires forall h :: h in history ==> FromFiles(h.disk, files)
    ensures var (s', file') := Replay(FRESH, file, history);
            var known := LastGood(TimesIn(file), history);
            && Known(TimesIn(file), files) && Consistent(s', file', files, known)
            && LastReads(file, RowsAt(files, TimesIn(file)), history) == RowsAt(files, known)
  {
    if history != [] {
      var before, last := history[..|history| - 1], history[|history| - 1];
      LastReadsAreLastGood(file, files, before);
      var (s1, file1) := Replay(FRESH, file, before);
      RefreshKeepsConsistent(s1, file1, files, LastGood(TimesIn(file), before), last.disk, last.writable);
    }
  }

  /** The decoded table, cell by cell, is the row of the status file each run was last good with, whatever
      was read in which refresh and whenever a column became JSON text. (The columns the store keeps for
      itself cannot be asked for.) */
  lemma {:induction false} TableIsLastGoodRead(file: Option<Stored>, files: Files, history: seq<Refresh>, r: Run, n: Name)
    requires file.Some? ==> GoodTable(file.value.frame, file.value.json, files)
    requires forall h :: h in history ==> FromFiles(h.disk, files)
    ensures var (s', file') := Replay(FRESH, file, history);
            var known := LastGood(TimesIn(file), history);
            && (r in known ==> files(r, known[r]).parsed.Some?)
            && Tabled(s', file', r, n) ==
               Some(if r in known && n !in META_COLUMNS then Get(ReadRow(files(r, known[r])), n) else Missing)
  {
    LastReadsAreLastGood(file, files, history);
    TableShowsLastReads(file, RowsAt(files, TimesIn(file)), history, r, n);
  }

  /** Two histories that saw the same last good file of every run show the same table. */
  lemma {:induction false} BatchingDoesNotMatter(files: Files, one: seq<Refresh>, other: seq<Refresh>, r: Run, n: Name)
    requires forall h :: h in one || h in other ==> FromFiles(h.disk, files)
    requires LastGood(map[], one) == LastGood(map[], other)
    ensures Tabled(Replay(FRESH, None, one).0, Replay(FRESH, None, one).1, r, n)
            == Tabled(Replay(FRESH, None, other).0, Replay(FRESH, None, other).1, r, n)
  {
    LastReadsAreLastGood(None, files, one);
    LastReadsAreLastGood(None, files, other);
    assert RowsAt(files, map[]) == map[];
    SameReadsSameTable(one, other, r, n);
  }
}
