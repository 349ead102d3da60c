/**
 The column-typed table behind the run store (eco/acquisition/run_store.py), as values:
 what a cell holds, what it decodes to, and what merging newly read runs does to the table.

 A JSON text cell is represented by the value it was dumped from.
 A float NaN and an absent value are both read as `Missing`.
 */
module RunTable {
  import opened Collections

  type Run = nat
  type Name = string

  datatype Value = Missing | Num(r: real) | Other(text: string)

  /** One run's status names and values; a name that is not there is `Missing`. */
  type Row = map<Name, Value>

  datatype Cell = NaN | Absent | Float(r: real) | Json(v: Value) | Text(s: string)

  /** A rectangular table: every row has a cell in every column. */
  datatype Frame = Frame(columns: set<Name>, rows: map<Run, map<Name, Cell>>)

  const TIME := "_time"
  const MTIME := "_mtime"
  const SOURCE := "_source"
  const META_COLUMNS := {TIME, MTIME, SOURCE}
  const EMPTY_FRAME := Frame(META_COLUMNS, map[])

  predicate IsNumber(v: Value) { !v.Other? }

  function Get(row: Row, name: Name): Value {
    if name in row then row[name] else Missing
  }

  function Encode(v: Value): Cell {
    if v.Missing? then Absent else Json(v)
  }

  /** The value of a cell of a JSON column; None where decoding raises. */
  function Decode(c: Cell): Option<Value> {
    match c
    case NaN => Some(Missing)
    case Absent => Some(Missing)
    case Json(v) => Some(v)
    case _ => None
  }

  /** A cell of a numeric column after the column became JSON text. A text that was already
      there is dumped as a string; what that string contains is not followed. */
  function Promote(c: Cell): Cell {
    match c
    case NaN => Absent
    case Absent => Absent
    case Float(r) => Json(Num(r))
    case Text(s) => Json(Other(s))
    case Json(_) => Json(Other("dumped text"))
  }

  /** A new run's cell in a column that is not JSON text. */
  function PlainCell(name: Name, v: Value): Cell {
    match v
    case Missing => if name == SOURCE then Absent else NaN
    case Num(r) => Float(r)
    case Other(s) => Text(s)
  }

  function NewCell(json: set<Name>, name: Name, v: Value): Cell {
    if name in json && name != SOURCE then Encode(v) else PlainCell(name, v)
  }

  // ---------------------------------------------------------------- what a table means

  /** The value a cell shows in a column; None where the cell does not fit the column. */
  function Shown(json: set<Name>, name: Name, c: Cell): Option<Value> {
    if name in json then Decode(c)
    else
      match c
      case NaN => Some(Missing)
      case Absent => Some(Missing)
      case Float(r) => Some(Num(r))
      case Text(s) => if name == SOURCE then Some(Other(s)) else None
      case Json(_) => None
  }

  /** What the table says about `name` in `run`; a column or row it lacks says `Missing`. */
  function Lookup(frame: Frame, json: set<Name>, run: Run, name: Name): Option<Value> {
    if run in frame.rows && name in frame.columns && name in frame.rows[run]
    then Shown(json, name, frame.rows[run][name])
    else Some(Missing)
  }

  ghost predicate Rectangular(frame: Frame) {
    && META_COLUMNS <= frame.columns
    && forall r :: r in frame.rows ==> frame.rows[r].Keys == frame.columns
  }

  /** What a column of a kind may hold: text of the status file's path, JSON text of a value or
      nothing, numbers or NaN. */
  predicate FitsColumn(json: set<Name>, name: Name, c: Cell) {
    || c.NaN?
    || c.Absent?
    || (if name == SOURCE then c.Text? else if name in json then c.Json? && !c.v.Missing? else c.Float?)
  }

  ghost predicate Typed(frame: Frame, json: set<Name>) {
    && Rectangular(frame)
    && json !! META_COLUMNS
    && forall r, n :: r in frame.rows && n in frame.columns ==> FitsColumn(json, n, frame.rows[r][n])
  }

  /** A row as it is read: the run's time, file time and path are always in it. */
  predicate Readable(row: Row) {
    && TIME in row && row[TIME].Num?
    && MTIME in row && row[MTIME].Num?
    && SOURCE in row && row[SOURCE].Other?
  }

  ghost predicate AllReadable(rows: map<Run, Row>) {
    forall r :: r in rows ==> Readable(rows[r])
  }

  // ---------------------------------------------------------------- merging

  ghost function Names(rows: map<Run, Row>): set<Name> {
    set r, n | r in rows && n in rows[r] :: n
  }

  ghost predicate NeedsJson(rows: map<Run, Row>, name: Name) {
    exists r :: r in rows && !IsNumber(Get(rows[r], name))
  }

  /** The columns a new run turns into JSON text. */
  ghost function Promoted(json: set<Name>, rows: map<Run, Row>): set<Name> {
    set n | n in Names(rows) && n !in json && n != SOURCE && NeedsJson(rows, n)
  }

  ghost function PromoteColumns(frame: Frame, names: set<Name>): Frame {
    Frame(frame.columns,
          map r | r in frame.rows :: map n | n in frame.rows[r] ::
              if n in names then Promote(frame.rows[r][n]) else frame.rows[r][n])
  }

  ghost function NewRow(json: set<Name>, names: set<Name>, row: Row): map<Name, Cell> {
    map n | n in names :: NewCell(json, n, Get(row, n))
  }

  /** The cell a row gets when the rows of two tables are put under common columns. */
  function Aligned(json: set<Name>, cells: map<Name, Cell>, name: Name): Cell {
    var c := if name in cells then cells[name] else NaN;
    if name in json && c.NaN? then Absent else c
  }

  ghost function AlignRow(json: set<Name>, columns: set<Name>, cells: map<Name, Cell>): map<Name, Cell> {
    map n | n in columns :: Aligned(json, cells, n)
  }

  /** The columns after a merge: an old table of which no row is left contributes none. */
  ghost function MergedColumns(kept: Frame, rows: map<Run, Row>): set<Name> {
    (if kept.rows.Keys <= rows.Keys then {} else kept.columns) + Names(rows)
  }

  ghost function AssembledRow(kept: Frame, json: set<Name>, rows: map<Run, Row>, r: Run): map<Name, Cell>
    requires r in kept.rows || r in rows
  {
    AlignRow(json, MergedColumns(kept, rows),
             if r in rows then NewRow(json, Names(rows), rows[r]) else kept.rows[r])
  }

  /** The kept rows and the new ones under common columns, every read run's row replaced as a whole. */
  ghost function Assembled(kept: Frame, json: set<Name>, rows: map<Run, Row>): Frame {
    Frame(MergedColumns(kept, rows),
          map r | r in kept.rows.Keys + rows.Keys :: AssembledRow(kept, json, rows, r))
  }

  /** The table with `rows` merged in. */
  ghost function Merged(frame: Frame, json: set<Name>, rows: map<Run, Row>): Frame {
    var promoted := Promoted(json, rows);
    Assembled(PromoteColumns(frame, promoted), json + promoted, rows)
  }

  // ---------------------------------------------------------------- merging keeps the meaning

  lemma MetaStaysTyped(json: set<Name>, rows: map<Run, Row>)
    requires json !! META_COLUMNS && AllReadable(rows)
    ensures json + Promoted(json, rows) !! META_COLUMNS
    ensures rows != map[] ==> META_COLUMNS <= Names(rows)
  {
    if rows != map[] {
      var r :| r in rows;
      assert TIME in rows[r] && MTIME in rows[r] && SOURCE in rows[r];
    }
  }

  lemma NewCellFits(json: set<Name>, rows: map<Run, Row>, r: Run, n: Name)
    requires json !! META_COLUMNS && AllReadable(rows) && r in rows && n in Names(rows)
    ensures var json' := json + Promoted(json, rows);
            var c := NewCell(json', n, Get(rows[r], n));
            FitsColumn(json', n, c) && Shown(json', n, c) == Some(Get(rows[r], n))
  {
    MetaStaysTyped(json, rows);
    if n != SOURCE && n !in json {
      assert !IsNumber(Get(rows[r], n)) ==> NeedsJson(rows, n);
    }
  }

  lemma OldCellFits(json: set<Name>, more: set<Name>, n: Name, c: Cell)
    requires FitsColumn(json, n, c) && (json + more) !! META_COLUMNS && more !! json
    ensures var c' := if n in more then Promote(c) else c;
            FitsColumn(json + more, n, c') && Shown(json + more, n, c') == Shown(json, n, c)
  {
  }

  /** A cell fits its column and shows this value. */
  ghost predicate CellShows(json: set<Name>, n: Name, c: Cell, shown: Option<Value>) {
    FitsColumn(json, n, c) && Shown(json, n, c) == shown
  }

  lemma ReadCell(frame: Frame, json: set<Name>, rows: map<Run, Row>, r: Run, n: Name)
    requires Typed(frame, json) && AllReadable(rows) && r in rows && n in MergedColumns(frame, rows)
    ensures var json' := json + Promoted(json, rows);
            CellShows(json', n, Aligned(json', NewRow(json', Names(rows), rows[r]), n), Some(Get(rows[r], n)))
  {
    MetaStaysTyped(json, rows);
    if n in Names(rows) { NewCellFits(json, rows, r, n); }
  }

  lemma KeptCell(frame: Frame, json: set<Name>, rows: map<Run, Row>, r: Run, n: Name)
    requires Typed(frame, json) && AllReadable(rows) && r in frame.rows && n in MergedColumns(frame, rows)
    ensures var more := Promoted(json, rows);
            CellShows(json + more, n, Aligned(json + more, PromoteColumns(frame, more).rows[r], n), Lookup(frame, json, r, n))
  {
    MetaStaysTyped(json, rows);
    if n in frame.columns { OldCellFits(json, Promoted(json, rows), n, frame.rows[r][n]); }
  }

  /** Every cell of the merged table fits its column and shows the new row's value, or what the
      old table showed. */
  lemma MergedCell(frame: Frame, json: set<Name>, rows: map<Run, Row>, r: Run, n: Name)
    requires Typed(frame, json) && AllReadable(rows)
    requires r in frame.rows || r in rows
    requires n in Merged(frame, json, rows).columns
    ensures CellShows(json + Promoted(json, rows), n, Merged(frame, json, rows).rows[r][n],
                      if r in rows then Some(Get(rows[r], n)) else Lookup(frame, json, r, n))
  {
    var promoted := PromoteColumns(frame, Promoted(json, rows));
    assert MergedColumns(promoted, rows) == MergedColumns(frame, rows);
    if r in rows { ReadCell(frame, json, rows, r, n); } else { KeptCell(frame, json, rows, r, n); }
  }

  /** A merge keeps every column typed, whatever the new runs bring. */
  lemma MergeKeepsTypes(frame: Frame, json: set<Name>, rows: map<Run, Row>)
    requires Typed(frame, json) && AllReadable(rows)
    requires rows != map[]
    ensures Typed(Merged(frame, json, rows), json + Promoted(json, rows))
  {
    var m := Merged(frame, json, rows);
    var json' := json + Promoted(json, rows);
    MetaStaysTyped(json, rows);
    assert Rectangular(m);
    forall r, n | r in m.rows && n in m.columns ensures FitsColumn(json', n, m.rows[r][n]) {
      MergedCell(frame, json, rows, r, n);
    }
  }

  /** After a merge a read run shows exactly its new row, names it lost included, and every other
      run shows what it showed before, although columns changed type or appeared. */
  lemma MergeShowsRows(frame: Frame, json: set<Name>, rows: map<Run, Row>, r: Run, n: Name)
    requires Typed(frame, json) && AllReadable(rows)
    ensures Lookup(Merged(frame, json, rows), json + Promoted(json, rows), r, n)
            == if r in rows then Some(Get(rows[r], n)) else Lookup(frame, json, r, n)
  {
    if (r in frame.rows || r in rows) && n in Merged(frame, json, rows).columns {
      MergedCell(frame, json, rows, r, n);
    } else if r in rows {
      assert n !in rows[r];
    }
  }

  ghost predicate HoldsValue(frame: Frame, name: Name) {
    exists r :: r in frame.rows && name in frame.rows[r] && !frame.rows[r][name].NaN? && !frame.rows[r][name].Absent?
  }

  /** A table fits another session's column types exactly when the two sets of JSON columns agree
      on every column that holds a value in some row. */
  lemma TypedUnderOtherMetadata(frame: Frame, json: set<Name>, other: set<Name>)
    requires Typed(frame, json) && other !! META_COLUMNS
    ensures Typed(frame, other) <==>
            forall n :: n in frame.columns && HoldsValue(frame, n) ==> (n in json <==> n in other)
  {
    if Typed(frame, other) {
      forall n | n in frame.columns && HoldsValue(frame, n) ensures n in json <==> n in other {
        var r :| r in frame.rows && !frame.rows[r][n].NaN? && !frame.rows[r][n].Absent?;
        assert FitsColumn(json, n, frame.rows[r][n]) && FitsColumn(other, n, frame.rows[r][n]);
      }
    }
    if forall n :: n in frame.columns && HoldsValue(frame, n) ==> (n in json <==> n in other) {
      forall r, n | r in frame.rows && n in frame.columns ensures FitsColumn(other, n, frame.rows[r][n]) {
        assert FitsColumn(json, n, frame.rows[r][n]);
      }
    }
  }
}
