/**
 The run store (eco/acquisition/run_store.py): one session's incrementally refreshed table of all
 runs and the cache file it shares with other sessions.

 `Content` below stands for parsing a status file; a disk state is the result of `find_runs`.
 */
module RunStore {
  import opened Collections
  import opened RunTable

  /** One run's status file: its modification time, path and run start, and what parsing it gives
      (None when it cannot be parsed). */
  datatype StatusFile = StatusFile(mtime: real, path: string, time: real, parsed: Option<Row>)

  type Disk = map<Run, StatusFile>

  /** What the cache file holds: the table and the names of its JSON columns. */
  datatype Stored = Stored(frame: Frame, json: set<Name>)

  /** A session's private state; `columns` are the columns it knows of. */
  datatype Session = Session(loaded: bool, mtimes: map<Run, real>, json: set<Name>, columns: set<Name>,
                             frame: Option<Frame>, failed: map<Run, real>)

  const FRESH := Session(false, map[], {}, {}, None, map[])

  function ReadRow(f: StatusFile): Row
    requires f.parsed.Some?
  {
    f.parsed.value[TIME := Num(f.time)][MTIME := Num(f.mtime)][SOURCE := Other(f.path)]
  }

  /** The file time of every run of a table: what tells later which runs are new. */
  function FileTimes(frame: Frame): map<Run, real> {
    map r | r in frame.rows && MTIME in frame.rows[r] && frame.rows[r][MTIME].Float? :: frame.rows[r][MTIME].r
  }

  // ---------------------------------------------------------------- what a refresh does

  function MetaLoaded(s: Session, file: Option<Stored>): Session {
    match file
    case None => s.(loaded := true, mtimes := map[], json := {}, columns := {})
    case Some(st) => s.(loaded := true, mtimes := FileTimes(st.frame), json := st.json, columns := DataColumns(st.frame))
  }

  /** The columns that can be asked for: all but those the store keeps for itself. */
  function DataColumns(frame: Frame): set<Name> { frame.columns - META_COLUMNS }

  /** The table is loaded later than its types: the session's JSON columns stay what they were. */
  function FrameLoaded(s: Session, file: Option<Stored>): Session {
    s.(frame := Some(if file.Some? then file.value.frame else EMPTY_FRAME))
  }

  /** The runs a refresh reads: not cached with this file time, nor failed with it. */
  function Todo(s: Session, disk: Disk): set<Run> {
    set r | r in disk
      && !(r in s.mtimes && s.mtimes[r] == disk[r].mtime)
      && !(r in s.failed && s.failed[r] == disk[r].mtime)
  }

  function ReadRows(s: Session, disk: Disk): map<Run, Row> { RowsOf(Todo(s, disk), disk) }

  /** The rows of those of `runs` whose files parse. */
  function RowsOf(runs: set<Run>, disk: Disk): map<Run, Row>
    requires runs <= disk.Keys
  {
    map r | r in runs && disk[r].parsed.Some? :: ReadRow(disk[r])
  }

  function StillFailed(s: Session, disk: Disk): map<Run, real> { FailedAfter(s.failed, Todo(s, disk), disk) }

  /** The failures after reading `runs`. */
  function FailedAfter(failed: map<Run, real>, runs: set<Run>, disk: Disk): map<Run, real>
    requires runs <= disk.Keys
  {
    map r | r in failed.Keys + runs && !(r in runs && disk[r].parsed.Some?)
      :: if r in runs then disk[r].mtime else failed[r]
  }

  lemma OneMoreRead(failed: map<Run, real>, runs: set<Run>, disk: Disk, r: Run)
    requires runs <= disk.Keys && r in disk && r !in runs
    ensures var (rows, still) := (RowsOf(runs, disk), FailedAfter(failed, runs, disk));
            if disk[r].parsed.Some? then
              RowsOf(runs + {r}, disk) == rows[r := ReadRow(disk[r])] && FailedAfter(failed, runs + {r}, disk) == still - {r}
            else
              RowsOf(runs + {r}, disk) == rows && FailedAfter(failed, runs + {r}, disk) == still[r := disk[r].mtime]
  {
  }

  ghost function RowsMerged(s: Session, rows: map<Run, Row>): Session
    requires s.frame.Some?
  {
    var frame := Merged(s.frame.value, s.json, rows);
    s.(frame := Some(frame), json := s.json + Promoted(s.json, rows), mtimes := FileTimes(frame), columns := DataColumns(frame))
  }

  function Opened(s: Session, file: Option<Stored>): Session {
    if s.loaded then s else MetaLoaded(s, file)
  }

  function WithFrame(s: Session, file: Option<Stored>): Session {
    if s.frame.Some? then s else FrameLoaded(s, file)
  }

  function NewFailures(s: Session, disk: Disk): Session {
    s.(failed := StillFailed(s, disk))
  }

  /** A refresh when no other session writes the cache file meanwhile. */
  ghost function Refreshed(s: Session, file: Option<Stored>, disk: Disk): Session {
    var s1 := Opened(s, file);
    var rows := ReadRows(s1, disk);
    if rows == map[] then NewFailures(s1, disk)
    else RowsMerged(WithFrame(NewFailures(s1, disk), file), rows)
  }

  /** The cache file after a refresh: rewritten when a run was read and the file can be written. */
  ghost function FileAfter(s: Session, file: Option<Stored>, disk: Disk, writable: bool): Option<Stored> {
    var s' := Refreshed(s, file, disk);
    if ReadRows(Opened(s, file), disk) == map[] || !writable then file
    else Some(Stored(s'.frame.value, s'.json))
  }

  /** What a session reads of a column: from its own table if it has one, else from the cache file,
      decoded with the types the session knows. */
  function Says(s: Session, file: Option<Stored>, r: Run, n: Name): Option<Value> {
    if s.frame.Some? then Lookup(s.frame.value, s.json, r, n)
    else if file.Some? then Lookup(file.value.frame, if s.loaded then s.json else file.value.json, r, n)
    else Some(Missing)
  }

  /** What a session's table shows: nothing for a column it does not know of. */
  function Tabled(s: Session, file: Option<Stored>, r: Run, n: Name): Option<Value> {
    if n in Opened(s, file).columns then Says(s, file, r, n) else Some(Missing)
  }

  // ---------------------------------------------------------------- the session object

  /** The cache file on disk, shared by every session of a pgroup. */
  class Cache {
    var stored: Option<Stored>
    constructor ()
      ensures stored == None
    {
      stored := None;
    }
  }

  class Store {
    const cache: Cache
    var loaded: bool
    var mtimes: map<Run, real>
    var jsonColumns: set<Name>
    var columns: set<Name>
    var frame: Option<Frame>
    var failed: map<Run, real>

    constructor (cache: Cache)
      ensures this.cache == cache && View() == FRESH
    {
      this.cache := cache;
      loaded, mtimes, jsonColumns, columns, frame, failed := false, map[], {}, {}, None, map[];
    }

    ghost function View(): Session
      reads this
    {
      Session(loaded, mtimes, jsonColumns, columns, frame, failed)
    }

    method LoadMeta()
      modifies this
      ensures View() == MetaLoaded(old(View()), cache.stored)
    {
      loaded, mtimes, jsonColumns, columns := true, map[], {}, {};
      if cache.stored.Some? {
        jsonColumns := cache.stored.value.json;
        columns := DataColumns(cache.stored.value.frame);
        mtimes := FileTimes(cache.stored.value.frame);
      }
    }

    method LoadFull()
      modifies this`frame
      ensures View() == FrameLoaded(old(View()), cache.stored)
    {
      frame := Some(EMPTY_FRAME);
      if cache.stored.Some? {
        frame := Some(cache.stored.value.frame);
      }
    }

    method SaveCache(writable: bool)
      requires frame.Some?
      modifies cache
      ensures cache.stored == if writable then Some(Stored(frame.value, jsonColumns)) else old(cache.stored)
    {
      if writable {
        cache.stored := Some(Stored(frame.value, jsonColumns));
      }
    }

    /** Turn a column into JSON text. */
    method ToJsonColumn(name: Name)
      requires frame.Some?
      modifies this`jsonColumns, this`frame
      ensures jsonColumns == old(jsonColumns) + {name}
      ensures frame == Some(PromoteColumns(old(frame).value, {name}))
    {
      jsonColumns := jsonColumns + {name};
      var f := frame.value;
      frame := Some(Frame(f.columns,
                          map r | r in f.rows :: map n | n in f.rows[r] ::
                              if n == name then Promote(f.rows[r][n]) else f.rows[r][n]));
      forall r | r in f.rows ensures frame.value.rows[r] == PromoteColumns(f, {name}).rows[r] {}
      assert frame.value.rows == PromoteColumns(f, {name}).rows;
    }

    /** Turn every column into JSON text for which a new run brings something else than a number. */
    method PromoteNames(names: set<Name>, rows: map<Run, Row>)
      requires frame.Some? && names == Names(rows)
      modifies this`jsonColumns, this`frame
      ensures jsonColumns == old(jsonColumns) + Promoted(old(jsonColumns), rows)
      ensures frame == Some(PromoteColumns(old(frame).value, Promoted(old(jsonColumns), rows)))
    {
      ghost var json0, frame0, promoted := jsonColumns, frame.value, Promoted(jsonColumns, rows);
      ghost var done: set<Name> := {};
      var todo := names;
      PromoteNothing(frame0);
      assert promoted * done == {};
      while todo != {}
        invariant frame.Some? && done + todo == names && done !! todo
        invariant jsonColumns == json0 + promoted * done
        invariant frame.value == PromoteColumns(frame0, promoted * done)
        decreases todo
      {
        var name :| name in todo;
        var needs := NeedsPromotion(jsonColumns, rows, name);
        assert needs <==> name in promoted;
        if needs {
          PromoteOneMore(frame0, promoted * done, name);
          ToJsonColumn(name);
          assert promoted * (done + {name}) == promoted * done + {name};
        } else {
          assert promoted * (done + {name}) == promoted * done;
        }
        done, todo := done + {name}, todo - {name};
      }
      assert promoted * done == promoted;
    }

    /** Merge newly read rows into the table. */
    method Merge(rows: map<Run, Row>)
      requires frame.Some?
      modifies this`jsonColumns, this`frame
      ensures jsonColumns == old(jsonColumns) + Promoted(old(jsonColumns), rows)
      ensures frame == Some(Merged(old(frame).value, old(jsonColumns), rows))
    {
      var names := CollectNames(rows);
      PromoteNames(names, rows);
      var f := AssembleRows(frame.value, jsonColumns, rows, names);
      frame := Some(f);
    }

    /** Read the status files that are new or changed; remember which could not be parsed. */
    method ReadNew(disk: Disk) returns (rows: map<Run, Row>)
      modifies this`failed
      ensures rows == ReadRows(old(View()), disk)
      ensures failed == StillFailed(old(View()), disk)
    {
      ghost var s := View();
      var todo := set r | r in disk && !(r in mtimes && mtimes[r] == disk[r].mtime)
                                    && !(r in failed && failed[r] == disk[r].mtime);
      ghost var all := todo;
      rows := map[];
      while todo != {}
        invariant todo <= all == Todo(s, disk)
        invariant rows == RowsOf(all - todo, disk)
        invariant failed == FailedAfter(s.failed, all - todo, disk)
        decreases todo
      {
        var r :| r in todo;
        OneMoreRead(s.failed, all - todo, disk, r);
        assert all - (todo - {r}) == (all - todo) + {r};
        if disk[r].parsed.None? {
          failed := failed[r := disk[r].mtime];
        } else {
          failed := failed - {r};
          rows := rows[r := ReadRow(disk[r])];
        }
        todo := todo - {r};
      }
      assert all - {} == all;
    }

    /** Bring the table up to date with the status files on disk. */
    method Refresh(disk: Disk, writable: bool)
      modifies this, cache
      ensures View() == Refreshed(old(View()), old(cache.stored), disk)
      ensures cache.stored == FileAfter(old(View()), old(cache.stored), disk, writable)
    {
      if !loaded { LoadMeta(); }
      var rows := ReadNew(disk);
      if rows != map[] { Renew(rows, writable); }
    }

    /** Merge newly read rows and rewrite the cache file. */
    method Renew(rows: map<Run, Row>, writable: bool)
      modifies this, cache
      ensures View() == RowsMerged(WithFrame(old(View()), old(cache.stored)), rows)
      ensures cache.stored == if writable then Some(Stored(frame.value, jsonColumns)) else old(cache.stored)
    {
      if frame.None? { LoadFull(); }
      Merge(rows);
      SaveCache(writable);
      mtimes := FileTimes(frame.value);
      columns := DataColumns(frame.value);
    }

    /** The decoded columns of every run, after bringing the table up to date. */
    method Table(names: seq<Name>, disk: Disk, writable: bool) returns (data: map<Name, map<Run, Option<Value>>>)
      modifies this, cache
      ensures View() == Refreshed(old(View()), old(cache.stored), disk)
      ensures cache.stored == FileAfter(old(View()), old(cache.stored), disk, writable)
      ensures forall n :: n in data <==> n in names
      ensures forall n :: n in data ==> data[n].Keys == mtimes.Keys
      ensures forall n, r :: n in data && r in mtimes ==> data[n][r] == Tabled(View(), cache.stored, r, n)
    {
      Refresh(disk, writable);
      data := Columns(names);
    }

    method Columns(names: seq<Name>) returns (data: map<Name, map<Run, Option<Value>>>)
      requires loaded
      ensures forall n :: n in data <==> n in names
      ensures forall n :: n in data ==> data[n] == Column(n)
    {
      data := map[];
      for i := 0 to |names|
        invariant forall n :: n in data <==> n in names[..i]
        invariant forall n :: n in data ==> data[n] == Column(n)
      {
        data := data[names[i] := Column(names[i])];
      }
    }

    /** One decoded column: from the session's table or from the cache file. */
    function Column(name: Name): (column: map<Run, Option<Value>>)
      requires loaded
      reads this, cache
      ensures column.Keys == mtimes.Keys
      ensures forall r :: r in mtimes ==> column[r] == Tabled(View(), cache.stored, r, name)
    {
      map r | r in mtimes ::
        if name !in columns then Some(Missing)
        else if frame.Some? then Lookup(frame.value, jsonColumns, r, name)
        else if cache.stored.Some? then Lookup(cache.stored.value.frame, jsonColumns, r, name)
        else Some(Missing)
    }
  }

  /** What the directory of a run shows: the time of its status file and of its scan info, if any. */
  datatype RunFiles = RunFiles(statusTime: real, infoTime: Option<real>)

  function LatestTime(f: RunFiles): real {
    if f.infoTime.Some? && f.infoTime.value > f.statusTime then f.infoTime.value else f.statusTime
  }

  /** `place` is the first directory that has a run, with the time of the run's files there. */
  ghost predicate FirstFound(dirs: seq<map<Run, RunFiles>>, r: Run, place: (nat, real)) {
    && place.0 < |dirs| && r in dirs[place.0] && place.1 == LatestTime(dirs[place.0][r])
    && forall i :: 0 <= i < place.0 ==> r !in dirs[i]
  }

  /** The runs of all status directories with the directory each is read from: the first that has it. */
  method FindRuns(dirs: seq<map<Run, RunFiles>>) returns (found: map<Run, (nat, real)>)
    ensures forall r :: r in found <==> exists i :: 0 <= i < |dirs| && r in dirs[i]
    ensures forall r :: r in found ==> FirstFound(dirs, r, found[r])
  {
    found := map[];
    for d := 0 to |dirs|
      invariant forall r :: r in found <==> exists i :: 0 <= i < d && r in dirs[i]
      invariant forall r :: r in found ==> FirstFound(dirs, r, found[r])
    {
      var todo := dirs[d].Keys;
      while todo != {}
        invariant todo <= dirs[d].Keys
        invariant forall r :: r in found <==> (exists i :: 0 <= i < d && r in dirs[i]) || r in dirs[d].Keys - todo
        invariant forall r :: r in found ==> FirstFound(dirs, r, found[r])
        decreases todo
      {
        var r :| r in todo;
        if r !in found {
          found := found[r := (d, LatestTime(dirs[d][r]))];
        }
        todo := todo - {r};
      }
    }
  }

  method AssembleRows(kept: Frame, json: set<Name>, rows: map<Run, Row>, names: set<Name>) returns (f: Frame)
    requires names == Names(rows)
    ensures f == Assembled(kept, json, rows)
  {
    var columns := (if kept.rows.Keys <= rows.Keys then {} else kept.columns) + names;
    var cells: map<Run, map<Name, Cell>> := map[];
    var runs := kept.rows.Keys + rows.Keys;
    while runs != {}
      invariant runs <= kept.rows.Keys + rows.Keys
      invariant cells.Keys == kept.rows.Keys + rows.Keys - runs
      invariant forall r :: r in cells ==> cells[r] == AssembledRow(kept, json, rows, r)
      decreases runs
    {
      var r :| r in runs;
      var row := if r in rows then map n | n in names :: NewCell(json, n, Get(rows[r], n)) else kept.rows[r];
      assert r in rows ==> row == NewRow(json, names, rows[r]);
      cells := cells[r := map n | n in columns :: Aligned(json, row, n)];
      assert cells[r] == AlignRow(json, columns, row);
      runs := runs - {r};
    }
    f := Frame(columns, cells);
    assert cells == Assembled(kept, json, rows).rows;
  }

  /** The names of all rows. */
  method CollectNames(rows: map<Run, Row>) returns (names: set<Name>)
    ensures names == Names(rows)
  {
    names := {};
    var todo := rows.Keys;
    while todo != {}
      invariant todo <= rows.Keys
      invariant names == set r, n | r in rows.Keys - todo && n in rows[r] :: n
      decreases todo
    {
      var r :| r in todo;
      names := names + rows[r].Keys;
      todo := todo - {r};
    }
  }

  method NeedsPromotion(json: set<Name>, rows: map<Run, Row>, name: Name) returns (needs: bool)
    requires name in Names(rows)
    ensures needs <==> name in Promoted(json, rows)
  {
    if name in json || name == SOURCE { return false; }
    needs := !(forall r :: r in rows ==> IsNumber(Get(rows[r], name)));
  }

  lemma PromoteNothing(f: Frame)
    ensures PromoteColumns(f, {}) == f
  {
    forall r | r in f.rows ensures PromoteColumns(f, {}).rows[r] == f.rows[r] {}
    assert PromoteColumns(f, {}).rows == f.rows;
  }

  lemma PromoteOneMore(f: Frame, names: set<Name>, name: Name)
    requires name !in names
    ensures PromoteColumns(PromoteColumns(f, names), {name}) == PromoteColumns(f, names + {name})
  {
    var a, b := PromoteColumns(PromoteColumns(f, names), {name}), PromoteColumns(f, names + {name});
    forall r | r in f.rows ensures a.rows[r] == b.rows[r] {}
    assert a.rows == b.rows;
  }
}
