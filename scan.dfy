/**
  The scan engine: scanAll and its helpers. The engine checks the shape of the
  destination, classifies the element type, resolves the cursor's columns to
  traversal paths, and drains the cursor, appending one element per row.
 */
module Scan {
  import opened Wrappers
  import opened Types
  import opened Classify
  import opened Cursors

  /** The slice variable a non-nil destination pointer points to. */
  class Target {
    const pointee: Type
    var items: seq<Item>

    constructor (pointee: Type, items: seq<Item>)
      ensures this.pointee == pointee && this.items == items
    {
      this.pointee := pointee;
      this.items := items;
    }
  }

  /** The `dest` argument of scanAll: a value that is not a pointer, a nil pointer, or a pointer to a variable. */
  datatype Dest = NonPointerDest | NilPointerDest | PointerDest(target: Target)

  function Footprint(dest: Dest): set<object>
  {
    if dest.PointerDest? then {dest.target} else {}
  }

  /** The elements the destination holds (none when there is no variable behind it). */
  function ItemsOf(dest: Dest): seq<Item>
    reads Footprint(dest)
  {
    if dest.PointerDest? then dest.target.items else []
  }

  /** The mapper's type map of t; a non-struct has none. */
  function IndexOf(t: Type): map<string, Path>
  {
    if t.StructOf? then t.index else map[]
  }

  /** TraversalsByName: one path per column name, the empty path where no field carries the name. */
  function TraversalsByName(t: Type, columns: seq<string>): seq<Path>
  {
    seq(|columns|, i requires 0 <= i < |columns| =>
      if columns[i] in IndexOf(t) then IndexOf(t)[columns[i]] else [])
  }

  /** The position of the first empty traversal, if there is one. */
  function FirstMissing(ts: seq<Path>): (r: Option<nat>)
    ensures r.Some? ==> r.value < |ts| && |ts[r.value]| == 0
    ensures r.Some? ==> forall j :: 0 <= j < r.value ==> |ts[j]| > 0
    ensures r.None? ==> forall j :: 0 <= j < |ts| ==> |ts[j]| > 0
  {
    if |ts| == 0 then None
    else if |ts[0]| == 0 then Some(0)
    else match FirstMissing(ts[1..])
      case None => None
      case Some(i) => Some(i + 1)
  }

  /** missingFields: the index of the first empty traversal with an error, or (0, nil). */
  method MissingFields(traversals: seq<Path>) returns (field: nat, err: Option<Error>)
    ensures err.Some? <==> exists i :: 0 <= i < |traversals| && |traversals[i]| == 0
    ensures err.Some? ==> err == Some(MissingField) && field < |traversals| && |traversals[field]| == 0
    ensures err.Some? ==> forall j :: 0 <= j < field ==> |traversals[j]| > 0
    ensures err.None? ==> field == 0
    ensures FirstMissing(traversals) == if err.Some? then Some(field) else None
  {
    var i := 0;
    while i < |traversals|
      invariant 0 <= i <= |traversals|
      invariant forall j :: 0 <= j < i ==> |traversals[j]| > 0
    {
      if |traversals[i]| == 0 {
        return i, Some(MissingField);
      }
      i := i + 1;
    }
    return 0, None;
  }

  /** The value of the field at path p of a record (None: still the zero value). */
  function FieldOf(v: Obj, p: Path): Option<Value>
    requires v.Record?
  {
    if p in v.fields then Some(v.fields[p]) else None
  }

  /** The buffer entry for one traversal: a discard slot, or the field's address (ptrs) or current value. */
  function SlotFor(v: Obj, p: Path, ptrs: bool): Slot
    requires v.Record?
  {
    if |p| == 0 then Discard
    else if ptrs then FieldAddr(p)
    else FieldValue(FieldOf(v, p))
  }

  /**
    fieldsByTraversal: fills values[i] for every traversal i of a struct value
    and touches no other entry; a value that is not a struct is refused.
   */
  method FieldsByTraversal(v: Obj, traversals: seq<Path>, values: array<Slot>, ptrs: bool)
    returns (err: Option<Error>)
    requires |traversals| <= values.Length
    modifies values
    ensures !v.Record? ==> err == Some(ArgumentNotStruct) && values[..] == old(values[..])
    ensures v.Record? ==> err == None
    ensures v.Record? ==> forall i :: 0 <= i < |traversals| ==> values[i] == SlotFor(v, traversals[i], ptrs)
    ensures forall i :: |traversals| <= i < values.Length ==> values[i] == old(values[i])
  {
    if !v.Record? {
      return Some(ArgumentNotStruct);
    }
    var i := 0;
    while i < |traversals|
      invariant 0 <= i <= |traversals|
      invariant forall j :: 0 <= j < i ==> values[j] == SlotFor(v, traversals[j], ptrs)
      invariant forall j :: i <= j < values.Length ==> values[j] == old(values[j])
    {
      if |traversals[i]| == 0 {
        values[i] := Discard;
        i := i + 1;
        continue;
      }
      if ptrs {
        values[i] := FieldAddr(traversals[i]);
      } else {
        values[i] := FieldValue(FieldOf(v, traversals[i]));
      }
      i := i + 1;
    }
    return None;
  }

  /**
    The fields of a record after rows.Scan has stored each column's value through
    its slot, column by column: a field address receives the value, any other
    slot swallows it.
   */
  function Fill(fields: map<Path, Value>, slots: seq<Slot>, row: seq<Value>): map<Path, Value>
    requires |slots| <= |row|
  {
    if |slots| == 0 then fields
    else
      var last := |slots| - 1;
      var before := Fill(fields, slots[..last], row);
      if slots[last].FieldAddr? then before[slots[last].path := row[last]] else before
  }

  /** The slots fieldsByTraversal produces (with ptrs) for a fresh struct. */
  function SlotsFor(ts: seq<Path>): seq<Slot>
  {
    seq(|ts|, i requires 0 <= i < |ts| => SlotFor(Record(map[]), ts[i], true))
  }

  /** How a row becomes an element: one decoded value, or a struct filled by traversals. */
  datatype Conv = Single(isPtr: bool) | Fields(isPtr: bool, traversals: seq<Path>)

  /** The number of destinations the engine hands to rows.Scan. */
  function SlotCount(conv: Conv): nat
  {
    if conv.Single? then 1 else |conv.traversals|
  }

  /** The object allocated and filled for one row. */
  function RowObject(conv: Conv, row: seq<Value>): Obj
    requires |row| == SlotCount(conv)
  {
    match conv
    case Single(_) => Decoded(row[0])
    case Fields(_, ts) => Record(Fill(map[], SlotsFor(ts), row))
  }

  /** The element appended for one row: the pointer when the slice holds pointers, the value otherwise. */
  function MakeItem(conv: Conv, row: seq<Value>): Item
    requires |row| == SlotCount(conv)
  {
    if conv.isPtr then ByPointer(RowObject(conv, row)) else ByValue(RowObject(conv, row))
  }

  /** The result of draining: the error returned, the slice contents, the rows Next moved onto. */
  datatype Drained = Drained(err: Option<Error>, items: seq<Item>, consumed: nat)

  /**
    The row loop from row k on: each row is scanned and appended; the first
    failing Scan ends the loop with its error; after the last row, rows.Err().
   */
  function Drain(rs: ResultSet, k: nat, conv: Conv, items: seq<Item>): (d: Drained)
    requires WellFormed(rs) && k <= |rs.rows|
    ensures d.consumed <= |rs.rows| - k
    decreases |rs.rows| - k
  {
    if k == |rs.rows| then Drained(FinalError(rs), items, 0)
    else
      var fault := ScanFault(rs, k, SlotCount(conv));
      if fault.Some? then Drained(Some(CursorFailure(fault.value)), items, 1)
      else
        assert rs.rows[k] in rs.rows;
        var rest := Drain(rs, k + 1, conv, items + [MakeItem(conv, rs.rows[k])]);
        rest.(consumed := rest.consumed + 1)
  }

  /** What happens before the row loop: an early error (and whether Columns was called), or the plan. */
  datatype Prep = Ready(conv: Conv) | Abort(err: Error, askedColumns: bool)

  /** The checks of scanAll before its row loop, in the order the source makes them. */
  function Prepare(dest: Dest, rs: ResultSet, structOnly: bool, unsafe: bool): (p: Prep)
    ensures p.Ready? ==> dest.PointerDest? && rs.columnsErr.None?
    ensures p.Ready? && p.conv.Single? ==> |rs.columns| <= 1
    ensures p.Ready? && structOnly ==> p.conv.Fields?
    ensures p.Ready? && p.conv.Fields? ==> |p.conv.traversals| == |rs.columns|
    ensures p.Ready? && p.conv.Fields? && !unsafe ==>
      forall i :: 0 <= i < |p.conv.traversals| ==> |p.conv.traversals[i]| > 0
    ensures p.Abort? && !p.askedColumns ==> !dest.PointerDest? || p.err.KindMismatch? || structOnly
  {
    match dest
    case NonPointerDest => Abort(NotAPointer, false)
    case NilPointerDest => Abort(NilDestination, false)
    case PointerDest(target) =>
      match BaseType(PointerTo(target.pointee), Slice)
      case Failure(e) => Abort(e, false)
      case Success(slice) =>
        var isPtr := KindOf(slice.elem) == Ptr;
        var base := Deref(slice.elem);
        var scannable := IsScannable(base);
        if structOnly && scannable then Abort(StructOnlyError(base), false)
        else if rs.columnsErr.Some? then Abort(CursorFailure(Driver(rs.columnsErr.value)), true)
        else if scannable && |rs.columns| > 1 then Abort(TooManyColumns(KindOf(base), |rs.columns|), true)
        else if !scannable then
          var fields := TraversalsByName(base, rs.columns);
          var missing := FirstMissing(fields);
          if missing.Some? && !unsafe then Abort(MissingDestination(rs.columns[missing.value]), true)
          else Ready(Fields(isPtr, fields))
        else Ready(Single(isPtr))
  }

  /** One run of scanAll: the error returned, the slice contents, whether Columns was called, rows moved onto. */
  datatype Run = Run(err: Option<Error>, items: seq<Item>, askedColumns: bool, consumed: nat)

  /** scanAll over a cursor positioned before row `start`, with the slice holding `items`. */
  function ScanAllSpec(dest: Dest, rs: ResultSet, start: nat, structOnly: bool, unsafe: bool, items: seq<Item>): (r: Run)
    requires WellFormed(rs) && start <= |rs.rows|
    ensures !r.askedColumns ==> r.err.Some? && r.items == items && r.consumed == 0
    ensures r.consumed <= |rs.rows| - start
  {
    match Prepare(dest, rs, structOnly, unsafe)
    case Abort(e, asked) => Run(Some(e), items, asked, 0)
    case Ready(conv) =>
      var d := Drain(rs, start, conv, items);
      Run(d.err, d.items, true, d.consumed)
  }

  /** Draining from row k reaches `goal`, which draining from row `start` gives. */
  ghost predicate Resumes(rs: ResultSet, k: nat, conv: Conv, items: seq<Item>, start: nat, goal: Drained)
    requires WellFormed(rs) && start <= k <= |rs.rows|
  {
    var d := Drain(rs, k, conv, items);
    d.err == goal.err && d.items == goal.items && k - start + d.consumed == goal.consumed
  }

  /** A row that scans cleanly is appended, and draining goes on from the next row towards the same goal. */
  lemma ResumesAfterRow(rs: ResultSet, k: nat, conv: Conv, items: seq<Item>, start: nat, goal: Drained)
    requires WellFormed(rs) && start <= k < |rs.rows| && ScanFault(rs, k, SlotCount(conv)).None?
    requires Resumes(rs, k, conv, items, start, goal)
    ensures rs.rows[k] in rs.rows && |rs.rows[k]| == SlotCount(conv)
    ensures Resumes(rs, k + 1, conv, items + [MakeItem(conv, rs.rows[k])], start, goal)
  {
    assert rs.rows[k] in rs.rows;
  }

  /** A failing Scan at row k ends the drain there: the goal is that error, with the rows so far. */
  lemma ResumesAtFault(rs: ResultSet, k: nat, conv: Conv, items: seq<Item>, start: nat, goal: Drained)
    requires WellFormed(rs) && start <= k < |rs.rows| && ScanFault(rs, k, SlotCount(conv)).Some?
    requires Resumes(rs, k, conv, items, start, goal)
    ensures goal == Drained(Some(CursorFailure(ScanFault(rs, k, SlotCount(conv)).value)), items, k - start + 1)
  {
  }

  /** With the rows exhausted, the goal is rows.Err() with the rows so far. */
  lemma ResumesAtEnd(rs: ResultSet, conv: Conv, items: seq<Item>, start: nat, goal: Drained)
    requires WellFormed(rs) && start <= |rs.rows|
    requires Resumes(rs, |rs.rows|, conv, items, start, goal)
    ensures goal == Drained(FinalError(rs), items, |rs.rows| - start)
  {
  }

  /**
    One pass of the struct loop's body (scan.go:206-224): a fresh record, the
    buffer bound to its fields, Scan, and the record (or its pointer) to append.
   */
  method ScanRecord(rows: Cursor, fields: seq<Path>, values: array<Slot>, isPtr: bool) returns (r: Result<Item, Error>)
    requires rows.Valid() && 0 < rows.pos && values.Length == |fields| == |rows.data.columns|
    modifies values
    ensures var fault := ScanFault(rows.data, rows.pos - 1, |fields|);
      && (fault.Some? ==> r == Failure(CursorFailure(fault.value)))
      && (fault.None? ==> rows.data.rows[rows.pos - 1] in rows.data.rows
                          && r == Success(MakeItem(Fields(isPtr, fields), rows.data.rows[rows.pos - 1])))
  {
    // create a new struct and bind the buffer to its fields
    var v := Record(map[]);
    var failed := FieldsByTraversal(v, fields, values, true);
    if failed.Some? {
      return Failure(ArgumentNotStruct);
    }
    assert values[..] == SlotsFor(fields);
    var row := rows.Scan(values.Length);
    if row.Failure? {
      return Failure(CursorFailure(row.error));
    }
    assert rows.data.rows[rows.pos - 1] in rows.data.rows;
    v := Record(Fill(v.fields, values[..], row.value));
    if isPtr {
      r := Success(ByPointer(v));
    } else {
      r := Success(ByValue(v));
    }
  }

  /** The row loop of the struct path (scan.go:205-226); returns the failing Scan's error, nil when the rows ran out. */
  method ScanStructRows(rows: Cursor, direct: Target, fields: seq<Path>, values: array<Slot>, isPtr: bool)
    returns (failed: Option<Error>)
    requires rows.Valid() && values.Length == |fields| == |rows.data.columns|
    modifies rows`pos, direct`items, values
    ensures rows.Valid()
    ensures var d := Drain(rows.data, old(rows.pos), Fields(isPtr, fields), old(direct.items));
      && direct.items == d.items
      && rows.pos == old(rows.pos) + d.consumed
      && (failed.Some? ==> failed == d.err)
      && (failed.None? ==> d.err == FinalError(rows.data))
  {
    ghost var conv := Fields(isPtr, fields);
    ghost var goal := Drain(rows.data, rows.pos, conv, direct.items);
    var more := rows.Next();
    while more
      invariant rows.Valid() && values.Length == |fields|
      invariant more ==> old(rows.pos) < rows.pos
      invariant !more ==> old(rows.pos) <= rows.pos == |rows.data.rows|
      invariant Resumes(rows.data, if more then rows.pos - 1 else rows.pos, conv, direct.items, old(rows.pos), goal)
      decreases |rows.data.rows| - rows.pos + (if more then 1 else 0)
    {
      var item := ScanRecord(rows, fields, values, isPtr);
      if item.Failure? {
        ResumesAtFault(rows.data, rows.pos - 1, conv, direct.items, old(rows.pos), goal);
        return Some(item.error);
      }
      ResumesAfterRow(rows.data, rows.pos - 1, conv, direct.items, old(rows.pos), goal);
      direct.items := direct.items + [item.value];
      more := rows.Next();
    }
    ResumesAtEnd(rows.data, conv, direct.items, old(rows.pos), goal);
    return None;
  }

  /** The row loop of the scannable path (scan.go:228-240). */
  method ScanSingleRows(rows: Cursor, direct: Target, isPtr: bool) returns (failed: Option<Error>)
    requires rows.Valid()
    modifies rows`pos, direct`items
    ensures rows.Valid()
    ensures var d := Drain(rows.data, old(rows.pos), Single(isPtr), old(direct.items));
      && direct.items == d.items
      && rows.pos == old(rows.pos) + d.consumed
      && (failed.Some? ==> failed == d.err)
      && (failed.None? ==> d.err == FinalError(rows.data))
  {
    ghost var conv := Single(isPtr);
    ghost var goal := Drain(rows.data, rows.pos, conv, direct.items);
    var more := rows.Next();
    while more
      invariant rows.Valid()
      invariant more ==> old(rows.pos) < rows.pos
      invariant !more ==> old(rows.pos) <= rows.pos == |rows.data.rows|
      invariant Resumes(rows.data, if more then rows.pos - 1 else rows.pos, conv, direct.items, old(rows.pos), goal)
      decreases |rows.data.rows| - rows.pos + (if more then 1 else 0)
    {
      var row := rows.Scan(1);
      if row.Failure? {
        ResumesAtFault(rows.data, rows.pos - 1, conv, direct.items, old(rows.pos), goal);
        return Some(CursorFailure(row.error));
      }
      var v := Decoded(row.value[0]);
      ResumesAfterRow(rows.data, rows.pos - 1, conv, direct.items, old(rows.pos), goal);
      if isPtr {
        direct.items := direct.items + [ByPointer(v)];
      } else {
        direct.items := direct.items + [ByValue(v)];
      }
      more := rows.Next();
    }
    ResumesAtEnd(rows.data, conv, direct.items, old(rows.pos), goal);
    return None;
  }

  /** The row loop the plan calls for, then rows.Err() (scan.go:204-243): the run `Drain` describes. */
  method RunPlan(rows: Cursor, direct: Target, conv: Conv) returns (err: Option<Error>)
    requires rows.Valid() && (conv.Fields? ==> |conv.traversals| == |rows.data.columns|)
    modifies rows`pos, direct`items
    ensures rows.Valid()
    ensures var d := Drain(rows.data, old(rows.pos), conv, old(direct.items));
      && err == d.err
      && direct.items == d.items
      && rows.pos == old(rows.pos) + d.consumed
  {
    var failed: Option<Error>;
    if conv.Fields? {
      var values := new Slot[|conv.traversals|];
      failed := ScanStructRows(rows, direct, conv.traversals, values, conv.isPtr);
    } else {
      failed := ScanSingleRows(rows, direct, conv.isPtr);
    }
    if failed.Some? {
      return failed;
    }
    var e := rows.Err();
    if e.Some? {
      return Some(CursorFailure(Driver(e.value)));
    }
    return None;
  }

  /**
    The checks of scanAll before its row loop (scan.go:153-203): not a pointer,
    nil, not a slice, struct-only, Columns, too many columns, missing fields.
    The cursor is touched only by Columns.
   */
  method Plan(rows: Cursor, dest: Dest, structOnly: bool) returns (p: Prep)
    requires rows.Valid()
    modifies rows`columnsCalls
    ensures rows.Valid()
    ensures p == Prepare(dest, rows.data, structOnly, IsUnsafe(rows.handle))
    ensures rows.columnsCalls == old(rows.columnsCalls) + (if p.Ready? || p.askedColumns then 1 else 0)
  {
    if dest.NonPointerDest? {
      return Abort(NotAPointer, false);
    }
    if dest.NilPointerDest? {
      return Abort(NilDestination, false);
    }
    var slice := BaseType(PointerTo(dest.target.pointee), Slice);
    if slice.Failure? {
      return Abort(slice.error, false);
    }
    var isPtr := KindOf(slice.value.elem) == Ptr;
    var base := Deref(slice.value.elem);
    var scannable := IsScannable(base);
    if structOnly && scannable {
      return Abort(StructOnlyError(base), false);
    }
    var columns := rows.Columns();
    if columns.Failure? {
      return Abort(CursorFailure(columns.error), true);
    }
    // a scannable element takes exactly one column
    if scannable && |columns.value| > 1 {
      return Abort(TooManyColumns(KindOf(base), |columns.value|), true);
    }
    if !scannable {
      var fields := TraversalsByName(base, columns.value);
      var f, missing := MissingFields(fields);
      if missing.Some? && !IsUnsafe(rows.handle) {
        return Abort(MissingDestination(columns.value[f]), true);
      }
      return Ready(Fields(isPtr, fields));
    }
    return Ready(Single(isPtr));
  }

  /**
    scanAll: refuses a destination that is not a non-nil pointer to a slice,
    classifies the element type, checks the columns, then drains the cursor,
    appending one element per row; ends with rows.Err().
   */
  method ScanAll(rows: Cursor, dest: Dest, structOnly: bool) returns (err: Option<Error>)
    requires rows.Valid()
    modifies rows, Footprint(dest)
    ensures rows.Valid()
    ensures var run := ScanAllSpec(dest, rows.data, old(rows.pos), structOnly, IsUnsafe(rows.handle), old(ItemsOf(dest)));
      && err == run.err
      && ItemsOf(dest) == run.items
      && rows.pos == old(rows.pos) + run.consumed
      && rows.columnsCalls == old(rows.columnsCalls) + (if run.askedColumns then 1 else 0)
  {
    var plan := Plan(rows, dest, structOnly);
    if plan.Abort? {
      return Some(plan.err);
    }
    err := RunPlan(rows, dest.target, plan.conv);
  }
}
