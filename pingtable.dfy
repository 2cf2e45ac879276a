/** The `ping` table of the outage monitor's database: one row per outage
    episode, with an auto-increment id, the episode's start time, its duration
    in milliseconds and a `continuing` flag. The SQL engine is replaced by a
    sequence of rows in insertion (table) order. */
module PingTable {

  /** One row of the `ping` table. Instants are integer nanoseconds, as Go's
      `time.Time` holds them; the duration column is milliseconds. */
  datatype Row = Row(id: int, startTime: int, durationMs: int, continuing: bool)

  /** Go's `Duration.Milliseconds()`: integer nanoseconds divided by 1,000,000,
      truncated toward zero (Go's `/`), not Dafny's Euclidean division. */
  function Milliseconds(d: int): (ms: int)
    ensures d >= 0 ==> ms >= 0 && ms * 1000000 <= d < (ms + 1) * 1000000
    ensures d < 0 ==> ms <= 0 && (ms - 1) * 1000000 < d <= ms * 1000000
  {
    if d >= 0 then d / 1000000 else -((-d) / 1000000)
  }

  /** What SQLite's AUTOINCREMENT and primary key guarantee of the table:
      ids are positive, below the next id to be handed out, and increasing in
      table order (a rowid table is scanned in rowid order). */
  ghost predicate WellFormed(rows: seq<Row>, nextId: int)
  {
    && 1 <= nextId
    && (forall i :: 0 <= i < |rows| ==> 1 <= rows[i].id < nextId)
    && (forall i, j :: 0 <= i < j < |rows| ==> rows[i].id < rows[j].id)
  }

  /** Row `k` has the greatest `startTime` of the table. */
  ghost predicate IsLatest(rows: seq<Row>, k: int)
  {
    0 <= k < |rows| && forall j :: 0 <= j < |rows| ==> rows[j].startTime <= rows[k].startTime
  }

  /** The row `SELECT ... ORDER BY startTime DESC LIMIT 1` returns. SQL leaves
      the order of rows with equal `startTime` open; the model settles ties on
      the first such row in table order. */
  function Latest(rows: seq<Row>): (k: nat)
    requires |rows| > 0
    ensures IsLatest(rows, k)
    ensures forall j :: 0 <= j < k ==> rows[j].startTime < rows[k].startTime
  {
    if |rows| == 1 then 0
    else
      var k := Latest(rows[..|rows| - 1]);
      if rows[|rows| - 1].startTime > rows[k].startTime then |rows| - 1 else k
  }

  /** The id the query scans into: the latest row's id, or Go's zero value
      when the query reports `sql.ErrNoRows`. */
  function LatestId(rows: seq<Row>): int
  {
    if |rows| == 0 then 0 else rows[Latest(rows)].id
  }

  /** `UPDATE ping SET duration = ?, continuing = true WHERE id = ?`. */
  function SetWhereId(rows: seq<Row>, id: int, durationMs: int): seq<Row>
  {
    seq(|rows|, i requires 0 <= i < |rows| =>
      if rows[i].id == id then rows[i].(durationMs := durationMs, continuing := true) else rows[i])
  }

  /** The table after `updateContinuingRecord`: the query for the latest row,
      then the update of the row with that id. */
  function UpdateLatest(rows: seq<Row>, durationMs: int): seq<Row>
  {
    SetWhereId(rows, LatestId(rows), durationMs)
  }

  /** On a well-formed table, `updateContinuingRecord` keeps the row count,
      leaves an empty table as it is, and otherwise overwrites exactly the
      `duration` and `continuing` columns of the latest row, `continuing`
      always with true. */
  lemma UpdateLatestEffect(rows: seq<Row>, nextId: int, durationMs: int)
    requires WellFormed(rows, nextId)
    ensures |UpdateLatest(rows, durationMs)| == |rows|
    ensures rows == [] ==> UpdateLatest(rows, durationMs) == rows
    ensures rows != [] ==>
      var k := Latest(rows);
      UpdateLatest(rows, durationMs) == rows[k := rows[k].(durationMs := durationMs, continuing := true)]
  {
    if rows != [] {
      var k := Latest(rows);
      var r := UpdateLatest(rows, durationMs);
      var want := rows[k := rows[k].(durationMs := durationMs, continuing := true)];
      forall i | 0 <= i < |rows| ensures r[i] == want[i] {
        if i != k {
          assert i < k ==> rows[i].id < rows[k].id;
          assert k < i ==> rows[k].id < rows[i].id;
        }
      }
    }
  }

  /** `updateContinuingRecord` changes no id and no start time, so the table
      stays well formed. */
  lemma UpdateLatestKeepsKeys(rows: seq<Row>, nextId: int, durationMs: int)
    requires WellFormed(rows, nextId)
    ensures WellFormed(UpdateLatest(rows, durationMs), nextId)
    ensures forall i :: 0 <= i < |rows| ==>
      UpdateLatest(rows, durationMs)[i].id == rows[i].id &&
      UpdateLatest(rows, durationMs)[i].startTime == rows[i].startTime
  {
    var r := UpdateLatest(rows, durationMs);
    assert forall i :: 0 <= i < |rows| ==> r[i].id == rows[i].id;
  }

  /** The `ping` table as the program mutates it through `INSERT` and `UPDATE`. */
  class Table {
    var rows: seq<Row>
    var nextId: int

    ghost predicate Valid()
      reads this
    {
      WellFormed(rows, nextId)
    }

    /** The table as opened from the database file: rows persisted by earlier
        runs and the AUTOINCREMENT counter. */
    constructor (rows0: seq<Row>, nextId0: int)
      requires WellFormed(rows0, nextId0)
      ensures Valid() && rows == rows0 && nextId == nextId0
    {
      rows := rows0;
      nextId := nextId0;
    }

    /** `INSERT INTO ping (startTime, duration, continuing) VALUES (?, ?, ?)`:
        one row at the end with a fresh id greater than every id in use. */
    method Insert(startTime: int, durationMs: int, continuing: bool) returns (id: int)
      requires Valid()
      modifies this
      ensures Valid()
      ensures id == old(nextId) && nextId == old(nextId) + 1
      ensures forall i :: 0 <= i < |old(rows)| ==> old(rows)[i].id < id
      ensures rows == old(rows) + [Row(id, startTime, durationMs, continuing)]
    {
      id := nextId;
      rows := rows + [Row(id, startTime, durationMs, continuing)];
      nextId := nextId + 1;
    }

    /** `updateContinuingRecord(db, duration)`: store `duration.Milliseconds()`
        and `continuing = true` in the row with the latest start time. */
    method UpdateContinuingRecord(duration: int)
      requires Valid()
      modifies this
      ensures Valid()
      ensures nextId == old(nextId)
      ensures rows == UpdateLatest(old(rows), Milliseconds(duration))
      ensures |rows| == |old(rows)|
      ensures old(rows) == [] ==> rows == old(rows)
      ensures old(rows) != [] ==>
        var k := Latest(old(rows));
        rows == old(rows)[k := old(rows)[k].(durationMs := Milliseconds(duration), continuing := true)]
    {
      UpdateLatestEffect(rows, nextId, Milliseconds(duration));
      UpdateLatestKeepsKeys(rows, nextId, Milliseconds(duration));
      var id := LatestId(rows);
      rows := SetWhereId(rows, id, Milliseconds(duration));
    }
  }
}
