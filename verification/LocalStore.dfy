/**
 The revisioned ticket store (src/runtime/local-store.ts:59-181). One row per ticket; every accepted save raises the
 row's revision by one and leaves a control state whose sequence is that revision.
 */
module LocalStore {
  import opened Basics
  import opened Execution

  const MAX_SAFE_INTEGER := 9_007_199_254_740_991

  datatype Key = Key(scope: string, repository: string, number: int)

  datatype StoreError = BadRevision | Misaligned | Stale | Corrupt | Busy

  predicate Aligned(row: Stored) {
    row.value.control.Some? ==> row.value.control.value.sequence == row.revision
  }

  /** `stored`: a row is only handed out when its control sequence matches its revision. */
  function LoadRow(row: Option<Stored>): Result<Option<Stored>, StoreError> {
    if row.Some? && !Aligned(row.value) then Err(Corrupt) else Ok(row)
  }

  /** `save` on one row: the row it leaves and what it answers. */
  function SaveRow(row: Option<Stored>, expected: Option<int>, value: LocalExecution, busy: bool)
    : (r: (Option<Stored>, Result<Stored, StoreError>))
    ensures r.1.Ok? <==>
              && !busy
              && (if expected.None? then row.None? else row.Some? && 0 <= row.value.revision <= MAX_SAFE_INTEGER && expected.value == row.value.revision && Aligned(row.value))
              && Aligned(Stored(if expected.None? then 0 else expected.value + 1, value))
    ensures r.1.Ok? ==> r.0 == Some(r.1.value) && Aligned(r.1.value) && r.1.value.value == value
    ensures r.1.Ok? ==> r.1.value.revision == if row.None? then 0 else row.value.revision + 1
    ensures r.1.Err? ==> r.0 == row
  {
    var revision := if expected.None? then 0 else expected.value + 1;
    if expected.Some? && !(0 <= expected.value <= MAX_SAFE_INTEGER) then (row, Err(BadRevision))
    else if !Aligned(Stored(revision, value)) then (row, Err(Misaligned))
    else if busy then (row, Err(Busy))
    else if expected.Some? && (row.None? || row.value.revision != expected.value) then (row, Err(Stale))
    else if expected.Some? && !Aligned(row.value) then (row, Err(Corrupt))
    else if expected.None? && row.Some? then (row, Err(Stale))
    else (Some(Stored(revision, value)), Ok(Stored(revision, value)))
  }

  /** The database behind `openLocalStore`. */
  class Database {
    var rows: map<Key, Stored>

    function Row(key: Key): Option<Stored>
      reads this
    {
      if key in rows then Some(rows[key]) else None
    }

    ghost predicate Valid()
      reads this
    {
      forall key :: key in rows ==> rows[key].revision >= 0 && Aligned(rows[key])
    }

    constructor ()
      ensures Valid() && rows == map[]
    {
      rows := map[];
    }

    method Load(key: Key) returns (r: Result<Option<Stored>, StoreError>)
      ensures r == LoadRow(Row(key))
      ensures Valid() ==> r == Ok(Row(key))
    {
      if key !in rows { return Ok(None); }
      var row := rows[key];
      if row.value.control.Some? && row.value.control.value.sequence != row.revision { return Err(Corrupt); }
      return Ok(Some(row));
    }

    /** One `BEGIN IMMEDIATE` transaction; `busy` is the lock timing out. Other tickets are never touched. */
    method Save(key: Key, expected: Option<int>, value: LocalExecution, busy: bool) returns (r: Result<Stored, StoreError>)
      modifies this
      ensures (Row(key), r) == SaveRow(old(Row(key)), expected, value, busy)
      ensures rows - {key} == old(rows) - {key}
      ensures old(Valid()) ==> Valid()
    {
      if expected.Some? && !(0 <= expected.value <= MAX_SAFE_INTEGER) { return Err(BadRevision); }
      var revision := if expected.None? then 0 else expected.value + 1;
      if value.control.Some? && value.control.value.sequence != revision { return Err(Misaligned); }
      if busy { return Err(Busy); }
      if expected.Some? {
        if key !in rows || rows[key].revision != expected.value { return Err(Stale); }
        if !Aligned(rows[key]) { return Err(Corrupt); }
      } else if key in rows {
        return Err(Stale);
      }
      rows := rows[key := Stored(revision, value)];
      return Ok(Stored(revision, value));
    }
  }
}
