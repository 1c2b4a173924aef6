/**
  The cursor the engine consumes (the rowsi interface): column names, row
  iteration, per-row Scan and the error reported once the rows run out. The
  cursor belongs to the database layer; this module states what the engine
  relies on.
 */
module Cursors {
  import opened Wrappers
  import opened Types

  /**
    What a result set will deliver: its column names or the error Columns()
    reports, its rows in order, the rows whose Scan fails with the driver's
    error (a value that does not convert into its destination, say), and the
    error Err() reports after the last row.
   */
  datatype ResultSet = ResultSet(
    columns: seq<string>,
    columnsErr: Option<DriverError>,
    rows: seq<seq<Value>>,
    scanErrors: map<nat, DriverError>,
    finalErr: Option<DriverError>)

  /** Every row has one value per column. */
  predicate WellFormed(rs: ResultSet)
  {
    forall r | r in rs.rows :: |r| == |rs.columns|
  }

  /**
    What Scan reports on row k when handed n destinations: database/sql first
    checks that there is one destination per column, then the row's conversion.
   */
  function ScanFault(rs: ResultSet, k: nat, n: nat): Option<CursorError>
  {
    if n != |rs.columns| then Some(DestinationCount(|rs.columns|, n))
    else if k in rs.scanErrors then Some(Driver(rs.scanErrors[k]))
    else None
  }

  /** rows.Err() as the engine returns it. */
  function FinalError(rs: ResultSet): Option<Error>
  {
    if rs.finalErr.Some? then Some(CursorFailure(Driver(rs.finalErr.value))) else None
  }

  /**
    A cursor over a result set. `pos` counts the rows Next has moved onto;
    `columnsCalls` counts the calls of Columns. `handle` is the dynamic type of
    the rows value (an sqlx *Rows with its unsafe flag, or another rowsi).
   */
  class Cursor {
    const data: ResultSet
    const handle: Handle
    var pos: nat
    var columnsCalls: nat

    predicate Valid()
      reads this
    {
      WellFormed(data) && pos <= |data.rows|
    }

    constructor (data: ResultSet, handle: Handle)
      requires WellFormed(data)
      ensures Valid() && this.data == data && this.handle == handle
      ensures pos == 0 && columnsCalls == 0
    {
      this.data := data;
      this.handle := handle;
      pos := 0;
      columnsCalls := 0;
    }

    /** rows.Columns() */
    method Columns() returns (r: Result<seq<string>, CursorError>)
      modifies this`columnsCalls
      ensures columnsCalls == old(columnsCalls) + 1
      ensures data.columnsErr.Some? ==> r == Failure(Driver(data.columnsErr.value))
      ensures data.columnsErr.None? ==> r == Success(data.columns)
    {
      columnsCalls := columnsCalls + 1;
      if data.columnsErr.Some? {
        r := Failure(Driver(data.columnsErr.value));
      } else {
        r := Success(data.columns);
      }
    }

    /** rows.Next(): moves onto the next row if there is one. */
    method Next() returns (more: bool)
      requires Valid()
      modifies this`pos
      ensures Valid()
      ensures more <==> old(pos) < |data.rows|
      ensures pos == if more then old(pos) + 1 else old(pos)
    {
      more := pos < |data.rows|;
      if more {
        pos := pos + 1;
      }
    }

    /** rows.Scan with n destinations, on the row Next last moved onto. */
    method Scan(n: nat) returns (r: Result<seq<Value>, CursorError>)
      requires Valid() && 0 < pos
      ensures ScanFault(data, pos - 1, n).Some? ==> r == Failure(ScanFault(data, pos - 1, n).value)
      ensures ScanFault(data, pos - 1, n).None? ==> r == Success(data.rows[pos - 1]) && |r.value| == n
    {
      var fault := ScanFault(data, pos - 1, n);
      if fault.Some? {
        r := Failure(fault.value);
      } else {
        assert data.rows[pos - 1] in data.rows;
        r := Success(data.rows[pos - 1]);
      }
    }

    /** rows.Err() */
    method Err() returns (e: Option<DriverError>)
      ensures e == data.finalErr
    {
      e := data.finalErr;
    }
  }
}
