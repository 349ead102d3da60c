/**
 The run table over any history at all (eco/acquisition/run_store.py): it shows the rows that were
 last read, however files and file times change.
 */
module RunReads {
  import opened Collections
  import opened RunTable
  import opened RunStore

  type Rows = map<Run, Row>

  /** A typed table that shows exactly these rows. */
  ghost predicate Shows(frame: Frame, json: set<Name>, rows: Rows) {
    && Typed(frame, json) && AllReadable(rows) && frame.rows.Keys == rows.Keys
    && forall r :: r in rows ==> ShowsRow(frame, json, r, rows[r])
  }

  ghost predicate ShowsRow(frame: Frame, json: set<Name>, r: Run, row: Row) {
    forall n :: Lookup(frame, json, r, n) == Some(Get(row, n))
  }

  ghost predicate FileShows(file: Option<Stored>, rows: Rows) {
    if file.None? then rows == map[] else Shows(file.value.frame, file.value.json, rows)
  }

  /** A session's table shows `rows`: the one it has loaded, else the one in the cache file, whose file
      times, types and columns it then knows. */
  ghost predicate Current(s: Session, file: Option<Stored>, rows: Rows) {
    if s.frame.Some? then
      && s.loaded && Shows(s.frame.value, s.json, rows)
      && s.mtimes == FileTimes(s.frame.value) && s.columns == DataColumns(s.frame.value)
    else
      FileShows(file, rows) && (s.loaded ==> s == MetaLoaded(s, file))
  }

  // ---------------------------------------------------------------- one merge

  /** In a typed table the file time read back is the one shown. */
  lemma FileTimeShown(frame: Frame, json: set<Name>, r: Run, m: real)
    requires Typed(frame, json) && r in frame.rows
    requires Lookup(frame, json, r, MTIME) == Some(Num(m))
    ensures r in FileTimes(frame) && FileTimes(frame)[r] == m
  {
    assert MTIME in META_COLUMNS;
    assert FitsColumn(json, MTIME, frame.rows[r][MTIME]);
  }

  /** What every merge guarantees, without saying how the table is laid out. */
  ghost predicate Merges(frame: Frame, json: set<Name>, rows: map<Run, Row>, frame': Frame, json': set<Name>) {
    && Typed(frame', json')
    && frame'.rows.Keys == frame.rows.Keys + rows.Keys
    && forall r, n :: ShowsMerge(frame, json, rows, frame', json', r, n)
  }

  ghost predicate ShowsMerge(frame: Frame, json: set<Name>, rows: map<Run, Row>, frame': Frame, json': set<Name>,
                             r: Run, n: Name) {
    Lookup(frame', json', r, n) == if r in rows then Some(Get(rows[r], n)) else Lookup(frame, json, r, n)
  }

  lemma MergedMerges(frame: Frame, json: set<Name>, rows: map<Run, Row>)
    requires Typed(frame, json) && AllReadable(rows) && rows != map[]
    ensures Merges(frame, json, rows, Merged(frame, json, rows), json + Promoted(json, rows))
  {
    MergeKeepsTypes(frame, json, rows);
    MergedRuns(frame, json, rows);
    forall r, n ensures ShowsMerge(frame, json, rows, Merged(frame, json, rows), json + Promoted(json, rows), r, n) {
      MergeShowsRow(frame, json, rows, r, n);
    }
  }

  lemma MergedRuns(frame: Frame, json: set<Name>, rows: map<Run, Row>)
    ensures Merged(frame, json, rows).rows.Keys == frame.rows.Keys + rows.Keys
  {
  }

  lemma MergeShowsRow(frame: Frame, json: set<Name>, rows: map<Run, Row>, r: Run, n: Name)
    requires Typed(frame, json) && AllReadable(rows)
    ensures ShowsMerge(frame, json, rows, Merged(frame, json, rows), json + Promoted(json, rows), r, n)
  {
    MergeShowsRows(frame, json, rows, r, n);
  }

  /** What a merge leaves to see, whatever the merged table is made of. */
  lemma MergedShows(frame: Frame, json: set<Name>, shown: Rows, rows: Rows, m: Frame, json': set<Name>)
    requires Shows(frame, json, shown) && AllReadable(rows) && Merges(frame, json, rows, m, json')
    ensures Shows(m, json', shown + rows)
  {
    forall r | r in shown + rows ensures ShowsRow(m, json', r, (shown + rows)[r]) {
      if r in rows { ReadRowShows(frame, json, rows, m, json', r); } else { OldRowShows(frame, json, rows, m, json', r, shown[r]); }
    }
  }

  lemma ReadRowShows(frame: Frame, json: set<Name>, rows: Rows, m: Frame, json': set<Name>, r: Run)
    requires Merges(frame, json, rows, m, json') && r in rows
    ensures ShowsRow(m, json', r, rows[r])
  {
    forall n ensures Lookup(m, json', r, n) == Some(Get(rows[r], n)) {
      assert ShowsMerge(frame, json, rows, m, json', r, n);
    }
  }

  lemma OldRowShows(frame: Frame, json: set<Name>, rows: Rows, m: Frame, json': set<Name>, r: Run, row: Row)
    requires Merges(frame, json, rows, m, json') && r !in rows && ShowsRow(frame, json, r, row)
    ensures ShowsRow(m, json', r, row)
  {
    forall n ensures Lookup(m, json', r, n) == Some(Get(row, n)) {
      assert ShowsMerge(frame, json, rows, m, json', r, n);
    }
  }

  // ---------------------------------------------------------------- one session's history

  datatype Refresh = Refresh(disk: Disk, writable: bool)

  /** A session and its cache file after refreshes one after the other. */
  ghost function Replay(s: Session, file: Option<Stored>, history: seq<Refresh>): (Session, Option<Stored>) {
    if history == [] then (s, file)
    else
      var (s1, file1) := Replay(s, file, history[..|history| - 1]);
      var last := history[|history| - 1];
      (Refreshed(s1, file1, last.disk), FileAfter(s1, file1, last.disk, last.writable))
  }

  /** The rows that were read last, over refreshes one after the other: each refresh reads the runs whose
      file time is neither the table's nor that of a failure, and keeps those that parse. */
  ghost function LastReads(file: Option<Stored>, base: Rows, history: seq<Refresh>): Rows {
    if history == [] then base
    else
      var front := history[..|history| - 1];
      var (s, f) := Replay(FRESH, file, front);
      LastReads(file, base, front) + ReadRows(Opened(s, f), history[|history| - 1].disk)
  }

  lemma EmptyShowsNothing()
    ensures Shows(EMPTY_FRAME, {}, map[])
  {
  }

  lemma ReadRowsAreReadable(s: Session, disk: Disk)
    ensures AllReadable(ReadRows(s, disk))
  {
  }

  /** One refresh, whatever is on disk: the table shows the rows it read and, for all other runs, what it
      showed before. */
  lemma RefreshShowsReads(s: Session, file: Option<Stored>, rows: Rows, disk: Disk, writable: bool)
    requires Current(s, file, rows)
    ensures Current(Refreshed(s, file, disk), FileAfter(s, file, disk, writable), rows + ReadRows(Opened(s, file), disk))
  {
    var s1 := Opened(s, file);
    var s2, read := NewFailures(s1, disk), ReadRows(s1, disk);
    if read == map[] {
      assert rows + read == rows;
    } else {
      EmptyShowsNothing();
      ReadRowsAreReadable(s1, disk);
      var s3 := WithFrame(s2, file);
      MergedMerges(s3.frame.value, s3.json, read);
      MergedShows(s3.frame.value, s3.json, rows, read, Merged(s3.frame.value, s3.json, read), s3.json + Promoted(s3.json, read));
    }
  }

  lemma {:induction false} ReplayShowsReads(file: Option<Stored>, base: Rows, history: seq<Refresh>)
    requires FileShows(file, base)
    ensures var (s, f) := Replay(FRESH, file, history);
            Current(s, f, LastReads(file, base, history))
  {
    if history != [] {
      var front, last := history[..|history| - 1], history[|history| - 1];
      ReplayShowsReads(file, base, front);
      var (s, f) := Replay(FRESH, file, front);
      RefreshShowsReads(s, f, LastReads(file, base, front), last.disk, last.writable);
    }
  }

  /** Over every history, without any assumption on how files and file times change: the decoded table
      is cell by cell the row of each run's last successful read. */
  lemma {:induction false} TableShowsLastReads(file: Option<Stored>, base: Rows, history: seq<Refresh>, r: Run, n: Name)
    requires FileShows(file, base)
    ensures var (s, f) := Replay(FRESH, file, history);
            var rows := LastReads(file, base, history);
            Tabled(s, f, r, n) == Some(if r in rows && n !in META_COLUMNS then Get(rows[r], n) else Missing)
  {
    ReplayShowsReads(file, base, history);
    var (s, f) := Replay(FRESH, file, history);
    CurrentTable(s, f, LastReads(file, base, history), r, n);
  }

  lemma CurrentTable(s: Session, file: Option<Stored>, rows: Rows, r: Run, n: Name)
    requires Current(s, file, rows)
    ensures Tabled(s, file, r, n) == Some(if r in rows && n !in META_COLUMNS then Get(rows[r], n) else Missing)
  {
    var t := Opened(s, file);
    if t.frame.Some? {
      assert r in rows ==> ShowsRow(t.frame.value, t.json, r, rows[r]);
    } else if file.Some? {
      assert r in rows ==> ShowsRow(file.value.frame, file.value.json, r, rows[r]);
    }
  }

  /** The table does not depend on how the runs were batched into refreshes: only on the rows read. */
  lemma {:induction false} SameReadsSameTable(one: seq<Refresh>, other: seq<Refresh>, r: Run, n: Name)
    requires LastReads(None, map[], one) == LastReads(None, map[], other)
    ensures Tabled(Replay(FRESH, None, one).0, Replay(FRESH, None, one).1, r, n)
            == Tabled(Replay(FRESH, None, other).0, Replay(FRESH, None, other).1, r, n)
  {
    TableShowsLastReads(None, map[], one, r, n);
    TableShowsLastReads(None, map[], other, r, n);
  }

  // ---------------------------------------------------------------- refreshing again

  function RowTime(row: Row): real {
    if MTIME in row && row[MTIME].Num? then row[MTIME].r else 0.0
  }

  /** The file times of a table are those of the rows it shows. */
  lemma TimesShown(frame: Frame, json: set<Name>, rows: Rows, r: Run)
    requires Shows(frame, json, rows)
    ensures r in FileTimes(frame) <==> r in rows
    ensures r in rows ==> FileTimes(frame)[r] == RowTime(rows[r])
  {
    if r in rows {
      assert ShowsRow(frame, json, r, rows[r]) && Readable(rows[r]);
      FileTimeShown(frame, json, r, rows[r][MTIME].r);
    }
  }

  /** The file times a session knows are those of the rows its table shows. */
  lemma KnownTimes(s: Session, file: Option<Stored>, rows: Rows, r: Run)
    requires Current(s, file, rows) && s.loaded
    ensures KnowsTime(s, rows, r)
  {
    if s.frame.Some? {
      TimesShown(s.frame.value, s.json, rows, r);
    } else if file.Some? {
      TimesShown(file.value.frame, file.value.json, rows, r);
    }
  }

  /** Whether a session knows a run with the file time of its row. */
  ghost predicate KnowsTime(s: Session, rows: Rows, r: Run) {
    (r in s.mtimes <==> r in rows) && (r in rows ==> r in s.mtimes && s.mtimes[r] == RowTime(rows[r]))
  }

  lemma NotTodo(s: Session, s': Session, rows: Rows, disk: Disk, r: Run)
    requires r in disk && KnowsTime(s, rows, r) && KnowsTime(s', rows + ReadRows(s, disk), r)
    requires s'.failed == StillFailed(s, disk)
    ensures r !in Todo(s', disk)
  {
    var read := ReadRows(s, disk);
    if r in read {
      assert RowTime(read[r]) == disk[r].mtime;
    }
  }

  lemma RefreshedFields(s: Session, file: Option<Stored>, disk: Disk)
    ensures Refreshed(s, file, disk).loaded
    ensures Refreshed(s, file, disk).failed == StillFailed(Opened(s, file), disk)
  {
    var s1 := Opened(s, file);
    var s2, rows := NewFailures(s1, disk), ReadRows(s1, disk);
    if rows != map[] { MergingKeepsFields(WithFrame(s2, file), rows); }
  }

  lemma MergingKeepsFields(s: Session, rows: map<Run, Row>)
    requires s.frame.Some?
    ensures RowsMerged(s, rows).loaded == s.loaded && RowsMerged(s, rows).failed == s.failed
  {
  }

  lemma NothingToRead(s: Session, disk: Disk)
    requires Todo(s, disk) == {}
    ensures ReadRows(s, disk) == map[] && StillFailed(s, disk) == s.failed
  {
  }

  lemma NothingTodo(s: Session, file: Option<Stored>, rows: Rows, disk: Disk, writable: bool)
    requires Current(s, file, rows)
    ensures Todo(Refreshed(s, file, disk), disk) == {}
  {
    var s1, s' := Opened(s, file), Refreshed(s, file, disk);
    RefreshShowsReads(s, file, rows, disk, writable);
    RefreshedFields(s, file, disk);
    forall r | r in disk ensures r !in Todo(s', disk) {
      KnownTimes(s1, file, rows, r);
      KnownTimes(s', FileAfter(s, file, disk, writable), rows + ReadRows(s1, disk), r);
      NotTodo(s1, s', rows, disk, r);
    }
  }

  /** After any history, refreshing again on an unchanged disk reads nothing and changes nothing. */
  lemma {:induction false} RefreshAgainReadsNothing(file: Option<Stored>, base: Rows, history: seq<Refresh>, disk: Disk, writable: bool)
    requires FileShows(file, base)
    ensures var (s, f) := Replay(FRESH, file, history);
            var s' := Refreshed(s, f, disk);
            && Todo(s', disk) == {}
            && Refreshed(s', FileAfter(s, f, disk, writable), disk) == s'
  {
    ReplayShowsReads(file, base, history);
    var (s, f) := Replay(FRESH, file, history);
    NothingTodo(s, f, LastReads(file, base, history), disk, writable);
    RefreshedFields(s, f, disk);
    NothingToRead(Refreshed(s, f, disk), disk);
  }

  /** After a refresh a run on disk that can be parsed shows its present file if and only if it was read
      now or the row read last is the same: a file that changed under an unchanged file time is not
      read again. */
  lemma PresentIffReadOrSame(s: Session, file: Option<Stored>, rows: Rows, disk: Disk, writable: bool, r: Run)
    requires Current(s, file, rows) && r in disk && disk[r].parsed.Some?
    ensures var s', f' := Refreshed(s, file, disk), FileAfter(s, file, disk, writable);
            (forall n :: n !in META_COLUMNS ==> Tabled(s', f', r, n) == Some(Get(ReadRow(disk[r]), n))) <==>
            || r in ReadRows(Opened(s, file), disk)
            || (forall n :: n !in META_COLUMNS ==> Get(ReadRow(disk[r]), n) == if r in rows then Get(rows[r], n) else Missing)
  {
    var s', f' := Refreshed(s, file, disk), FileAfter(s, file, disk, writable);
    var read := ReadRows(Opened(s, file), disk);
    RefreshShowsReads(s, file, rows, disk, writable);
    forall n ensures Tabled(s', f', r, n)
                     == Some(if r in rows + read && n !in META_COLUMNS then Get((rows + read)[r], n) else Missing) {
      CurrentTable(s', f', rows + read, r, n);
    }
  }
}
