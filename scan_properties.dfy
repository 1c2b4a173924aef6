/**
  What scanAll promises, stated over its specification: which error comes
  first, what is left in the destination, how many rows were consumed, and
  which column lands in which field.
 */
module ScanProperties {
  import opened Wrappers
  import opened Types
  import opened Classify
  import opened Cursors
  import opened Scan

  /** The destination is a non-nil pointer to a slice variable. */
  predicate PointsToSlice(dest: Dest)
  {
    dest.PointerDest? && dest.target.pointee.SliceOf?
  }

  /** The slice's element type with one pointer level removed. */
  function ElemBase(dest: Dest): Type
    requires PointsToSlice(dest)
  {
    Deref(dest.target.pointee.elem)
  }

  /** Whether the slice holds pointers. */
  function ElemIsPtr(dest: Dest): bool
    requires PointsToSlice(dest)
  {
    KindOf(dest.target.pointee.elem) == Ptr
  }

  /** Every name in a struct's type map leads to a field (reflectx never records an empty path). */
  predicate PathsNonEmpty(t: Type)
  {
    forall name | name in IndexOf(t) :: |IndexOf(t)[name]| > 0
  }

  /** The first row at or after k whose Scan with n destinations fails, or the row count. */
  function FirstFailure(rs: ResultSet, k: nat, n: nat): (f: nat)
    requires k <= |rs.rows|
    ensures k <= f <= |rs.rows|
    ensures f < |rs.rows| ==> ScanFault(rs, f, n).Some?
    ensures forall j :: k <= j < f ==> ScanFault(rs, j, n).None?
    decreases |rs.rows| - k
  {
    if k == |rs.rows| || ScanFault(rs, k, n).Some? then k else FirstFailure(rs, k + 1, n)
  }

  /** The elements made from the rows from..to, in cursor order. */
  function Converted(rs: ResultSet, conv: Conv, from: nat, to: nat): (s: seq<Item>)
    requires WellFormed(rs) && from <= to <= |rs.rows|
    requires forall j :: from <= j < to ==> ScanFault(rs, j, SlotCount(conv)).None?
    ensures |s| == to - from
  {
    seq(to - from, i requires 0 <= i < to - from =>
      assert ScanFault(rs, from + i, SlotCount(conv)).None? && rs.rows[from + i] in rs.rows;
      MakeItem(conv, rs.rows[from + i]))
  }

  /** Peeling the first row off a run of converted rows. */
  lemma ConvertedUnfolds(rs: ResultSet, conv: Conv, from: nat, to: nat)
    requires WellFormed(rs) && from < to <= |rs.rows|
    requires forall j :: from <= j < to ==> ScanFault(rs, j, SlotCount(conv)).None?
    ensures ScanFault(rs, from, SlotCount(conv)).None? && rs.rows[from] in rs.rows
    ensures Converted(rs, conv, from, to) == [MakeItem(conv, rs.rows[from])] + Converted(rs, conv, from + 1, to)
  {
    assert ScanFault(rs, from, SlotCount(conv)).None? && rs.rows[from] in rs.rows;
    var tail := Converted(rs, conv, from + 1, to);
    forall i | 0 < i < to - from
      ensures Converted(rs, conv, from, to)[i] == tail[i - 1]
    {
      assert ScanFault(rs, from + i, SlotCount(conv)).None? && rs.rows[from + i] in rs.rows;
    }
  }

  /** The elements the row loop leaves: those already there, then one per row up to the first failing Scan. */
  lemma {:induction false} DrainItems(rs: ResultSet, k: nat, conv: Conv, items: seq<Item>)
    requires WellFormed(rs) && k <= |rs.rows|
    ensures Drain(rs, k, conv, items).items == items + Converted(rs, conv, k, FirstFailure(rs, k, SlotCount(conv)))
    decreases |rs.rows| - k
  {
    if k < |rs.rows| && ScanFault(rs, k, SlotCount(conv)).None? {
      assert rs.rows[k] in rs.rows;
      var item := MakeItem(conv, rs.rows[k]);
      var f := FirstFailure(rs, k, SlotCount(conv));
      DrainItems(rs, k + 1, conv, items + [item]);
      ConvertedUnfolds(rs, conv, k, f);
      assert items + [item] + Converted(rs, conv, k + 1, f) == items + Converted(rs, conv, k, f);
    }
  }

  /** The error the row loop returns and the rows it moves onto: up to and including the first failing Scan. */
  lemma {:induction false} DrainOutcome(rs: ResultSet, k: nat, conv: Conv, items: seq<Item>)
    requires WellFormed(rs) && k <= |rs.rows|
    ensures var f := FirstFailure(rs, k, SlotCount(conv));
      var d := Drain(rs, k, conv, items);
      && d.err == (if f < |rs.rows| then Some(CursorFailure(ScanFault(rs, f, SlotCount(conv)).value)) else FinalError(rs))
      && d.consumed == f - k + (if f < |rs.rows| then 1 else 0)
    decreases |rs.rows| - k
  {
    if k < |rs.rows| && ScanFault(rs, k, SlotCount(conv)).None? {
      assert rs.rows[k] in rs.rows;
      DrainOutcome(rs, k + 1, conv, items + [MakeItem(conv, rs.rows[k])]);
    }
  }

  /**
    The row loop in closed form: the elements already in the slice are kept, one
    element per row is appended in cursor order up to the first failing Scan,
    whose error is returned; if no Scan fails the result is rows.Err().
   */
  lemma DrainClosedForm(rs: ResultSet, k: nat, conv: Conv, items: seq<Item>)
    requires WellFormed(rs) && k <= |rs.rows|
    ensures var f := FirstFailure(rs, k, SlotCount(conv));
      var d := Drain(rs, k, conv, items);
      && d.items == items + Converted(rs, conv, k, f)
      && d.err == (if f < |rs.rows| then Some(CursorFailure(ScanFault(rs, f, SlotCount(conv)).value)) else FinalError(rs))
      && d.consumed == f - k + (if f < |rs.rows| then 1 else 0)
  {
    DrainItems(rs, k, conv, items);
    DrainOutcome(rs, k, conv, items);
  }

  /**
    A destination that is not a non-nil pointer to a slice is refused before the
    cursor is touched and nothing is written: not a pointer, then nil, then the
    kind of the pointed-to type.
   */
  lemma RejectsAllButSlicePointers(dest: Dest, rs: ResultSet, start: nat, structOnly: bool, unsafe: bool, items: seq<Item>)
    requires WellFormed(rs) && start <= |rs.rows| && !PointsToSlice(dest)
    ensures var run := ScanAllSpec(dest, rs, start, structOnly, unsafe, items);
      && run.items == items && !run.askedColumns && run.consumed == 0
      && run.err == Some(
        if dest.NonPointerDest? then NotAPointer
        else if dest.NilPointerDest? then NilDestination
        else KindMismatch(Slice, KindOf(dest.target.pointee)))
  {
  }

  /** With structOnly, a scannable element type is refused before Columns is called or any row is read. */
  lemma StructOnlyRefusesScannable(dest: Dest, rs: ResultSet, start: nat, unsafe: bool, items: seq<Item>)
    requires WellFormed(rs) && start <= |rs.rows|
    requires PointsToSlice(dest) && IsScannable(ElemBase(dest))
    ensures ScanAllSpec(dest, rs, start, true, unsafe, items) == Run(Some(StructOnlyError(ElemBase(dest))), items, false, 0)
  {
  }

  /** A scannable element type with more than one column is refused before any row is read. */
  lemma ScannableNeedsOneColumn(dest: Dest, rs: ResultSet, start: nat, unsafe: bool, items: seq<Item>)
    requires WellFormed(rs) && start <= |rs.rows|
    requires PointsToSlice(dest) && IsScannable(ElemBase(dest))
    requires rs.columnsErr.None? && |rs.columns| > 1
    ensures ScanAllSpec(dest, rs, start, false, unsafe, items)
      == Run(Some(TooManyColumns(KindOf(ElemBase(dest)), |rs.columns|)), items, true, 0)
  {
  }

  /**
    A scannable element type over one column: one element per row, in cursor
    order, holding that row's value (the pointer when the slice holds pointers);
    the elements already there are kept and the result is rows.Err().
   */
  lemma ScannableAppendsEachRow(dest: Dest, rs: ResultSet, start: nat, unsafe: bool, items: seq<Item>)
    requires WellFormed(rs) && start <= |rs.rows|
    requires PointsToSlice(dest) && IsScannable(ElemBase(dest))
    requires rs.columnsErr.None? && |rs.columns| == 1
    requires forall j :: start <= j < |rs.rows| ==> j !in rs.scanErrors
    ensures var run := ScanAllSpec(dest, rs, start, false, unsafe, items);
      && run.err == FinalError(rs)
      && run.consumed == |rs.rows| - start
      && |run.items| == |items| + |rs.rows| - start
      && run.items[..|items|] == items
      && forall j :: |items| <= j < |run.items| ==>
           run.items[j] == (if ElemIsPtr(dest) then ByPointer(Decoded(rs.rows[start + j - |items|][0]))
                            else ByValue(Decoded(rs.rows[start + j - |items|][0])))
  {
    var conv := Single(ElemIsPtr(dest));
    assert Prepare(dest, rs, false, unsafe) == Ready(conv);
    var run := ScanAllSpec(dest, rs, start, false, unsafe, items);
    DrainClosedForm(rs, start, conv, items);
    var f := FirstFailure(rs, start, 1);
    assert f == |rs.rows|;
    var added := Converted(rs, conv, start, f);
    assert run.items == items + added;
    forall j | |items| <= j < |run.items|
      ensures run.items[j] == (if ElemIsPtr(dest) then ByPointer(Decoded(rs.rows[start + j - |items|][0]))
                               else ByValue(Decoded(rs.rows[start + j - |items|][0])))
    {
      var row := rs.rows[start + j - |items|];
      assert run.items[j] == added[j - |items|] == MakeItem(conv, row);
      assert RowObject(conv, row) == Decoded(row[0]);
    }
  }

  /** The first empty traversal belongs to the first column that names no field. */
  lemma FirstMissingIsFirstUnknownColumn(t: Type, columns: seq<string>)
    requires PathsNonEmpty(t)
    ensures var m := FirstMissing(TraversalsByName(t, columns));
      && (m.None? <==> forall i :: 0 <= i < |columns| ==> columns[i] in IndexOf(t))
      && (m.Some? ==> m.value < |columns| && columns[m.value] !in IndexOf(t)
                      && forall j :: 0 <= j < m.value ==> columns[j] in IndexOf(t))
  {
    var ts := TraversalsByName(t, columns);
    var m := FirstMissing(ts);
    if m.None? {
      forall i | 0 <= i < |columns| ensures columns[i] in IndexOf(t) {
        assert |ts[i]| > 0;
      }
    } else {
      forall j | 0 <= j < m.value ensures columns[j] in IndexOf(t) {
        assert |ts[j]| > 0;
      }
    }
  }

  /**
    Strict mode: when some column names no field, scanAll fails naming the first
    such column, after Columns and before any row is read or appended.
   */
  lemma StrictModeRefusesUnknownColumn(dest: Dest, rs: ResultSet, start: nat, structOnly: bool, items: seq<Item>, c: nat)
    requires WellFormed(rs) && start <= |rs.rows|
    requires PointsToSlice(dest) && !IsScannable(ElemBase(dest)) && PathsNonEmpty(ElemBase(dest))
    requires rs.columnsErr.None?
    requires c < |rs.columns| && rs.columns[c] !in IndexOf(ElemBase(dest))
    ensures var run := ScanAllSpec(dest, rs, start, structOnly, false, items);
      && run.items == items && run.askedColumns && run.consumed == 0
      && run.err.Some? && run.err.value.MissingDestination?
      && run.err.value.column !in IndexOf(ElemBase(dest))
      && exists f :: 0 <= f <= c && rs.columns[f] == run.err.value.column
  {
    FirstMissingIsFirstUnknownColumn(ElemBase(dest), rs.columns);
    var m := FirstMissing(TraversalsByName(ElemBase(dest), rs.columns));
    assert m.Some?;
    assert m.value <= c;
  }

  /**
    The struct path once the columns are accepted (no unknown column, or lenient
    mode): elements already in the slice are kept, one record per row is appended
    in cursor order until the first failing Scan, whose error is returned with the
    rows appended so far; otherwise the result is rows.Err().
   */
  lemma StructRowsPartialPopulation(dest: Dest, rs: ResultSet, start: nat, structOnly: bool, unsafe: bool, items: seq<Item>)
    requires WellFormed(rs) && start <= |rs.rows|
    requires PointsToSlice(dest) && !IsScannable(ElemBase(dest)) && rs.columnsErr.None?
    requires unsafe || FirstMissing(TraversalsByName(ElemBase(dest), rs.columns)).None?
    ensures var conv := Fields(ElemIsPtr(dest), TraversalsByName(ElemBase(dest), rs.columns));
      var f := FirstFailure(rs, start, |rs.columns|);
      var run := ScanAllSpec(dest, rs, start, structOnly, unsafe, items);
      && run.items == items + Converted(rs, conv, start, f)
      && run.err == (if f < |rs.rows| then Some(CursorFailure(Driver(rs.scanErrors[f]))) else FinalError(rs))
      && run.consumed == f - start + (if f < |rs.rows| then 1 else 0)
  {
    var conv := Fields(ElemIsPtr(dest), TraversalsByName(ElemBase(dest), rs.columns));
    DrainClosedForm(rs, start, conv, items);
  }

  /**
    Lenient mode: the same input that strict mode refuses for an unknown column
    is scanned, every row before the first failing Scan giving one element.
   */
  lemma LenientModeScansDespiteUnknownColumn(dest: Dest, rs: ResultSet, start: nat, structOnly: bool, items: seq<Item>, c: nat)
    requires WellFormed(rs) && start <= |rs.rows|
    requires PointsToSlice(dest) && !IsScannable(ElemBase(dest)) && rs.columnsErr.None?
    requires c < |rs.columns| && rs.columns[c] !in IndexOf(ElemBase(dest))
    ensures var run := ScanAllSpec(dest, rs, start, structOnly, true, items);
      var f := FirstFailure(rs, start, |rs.columns|);
      && (run.err.Some? ==> !run.err.value.MissingDestination?)
      && |run.items| == |items| + f - start
      && run.consumed == f - start + (if f < |rs.rows| then 1 else 0)
  {
    StructRowsPartialPopulation(dest, rs, start, structOnly, true, items);
  }

  /** Once the checks pass and no Scan fails, every remaining row is appended and the result is rows.Err(). */
  lemma ExhaustedCursorReturnsErr(dest: Dest, rs: ResultSet, start: nat, structOnly: bool, unsafe: bool, items: seq<Item>)
    requires WellFormed(rs) && start <= |rs.rows|
    requires Prepare(dest, rs, structOnly, unsafe).Ready?
    requires forall j :: start <= j < |rs.rows| ==> ScanFault(rs, j, SlotCount(Prepare(dest, rs, structOnly, unsafe).conv)).None?
    ensures var run := ScanAllSpec(dest, rs, start, structOnly, unsafe, items);
      && run.err == FinalError(rs)
      && run.consumed == |rs.rows| - start
      && |run.items| == |items| + |rs.rows| - start
      && run.items[..|items|] == items
  {
    var conv := Prepare(dest, rs, structOnly, unsafe).conv;
    DrainClosedForm(rs, start, conv, items);
    assert FirstFailure(rs, start, SlotCount(conv)) == |rs.rows|;
  }

  /** A cursor with no rows left leaves the slice as it was; the result is rows.Err(). */
  lemma EmptyCursorLeavesSliceUnchanged(dest: Dest, rs: ResultSet, structOnly: bool, unsafe: bool, items: seq<Item>)
    requires WellFormed(rs)
    requires Prepare(dest, rs, structOnly, unsafe).Ready?
    ensures ScanAllSpec(dest, rs, |rs.rows|, structOnly, unsafe, items) == Run(FinalError(rs), items, true, 0)
  {
  }

  /** Scan stores a column's value in the field its slot addresses unless a later column addresses the same field. */
  lemma {:induction false} FillStoresLastWrite(fields: map<Path, Value>, slots: seq<Slot>, row: seq<Value>, i: nat)
    requires |slots| <= |row| && i < |slots| && slots[i].FieldAddr?
    requires forall j :: i < j < |slots| ==> slots[j] != slots[i]
    ensures slots[i].path in Fill(fields, slots, row)
    ensures Fill(fields, slots, row)[slots[i].path] == row[i]
  {
    var last := |slots| - 1;
    if i < last {
      FillStoresLastWrite(fields, slots[..last], row, i);
    }
  }

  /** A field no slot addresses keeps what it held: discarded columns leave no trace in the record. */
  lemma {:induction false} FillKeepsUnaddressed(fields: map<Path, Value>, slots: seq<Slot>, row: seq<Value>, p: Path)
    requires |slots| <= |row|
    requires forall j :: 0 <= j < |slots| ==> slots[j] != FieldAddr(p)
    ensures p in Fill(fields, slots, row) <==> p in fields
    ensures p in fields ==> Fill(fields, slots, row)[p] == fields[p]
  {
    if |slots| > 0 {
      FillKeepsUnaddressed(fields, slots[..|slots| - 1], row, p);
    }
  }

  /**
    A struct element takes each column's value in the field that column's name
    maps to, whatever the column order, provided no later column maps to the
    same field; a field no column names is left at its zero value.
   */
  lemma RecordFollowsColumnNames(base: Type, columns: seq<string>, isPtr: bool, row: seq<Value>, i: nat)
    requires |row| == |columns| && i < |columns|
    requires columns[i] in IndexOf(base) && |IndexOf(base)[columns[i]]| > 0
    requires forall j :: i < j < |columns| ==>
      (columns[j] != columns[i] && (columns[j] in IndexOf(base) ==> IndexOf(base)[columns[j]] != IndexOf(base)[columns[i]]))
    ensures var rec := RowObject(Fields(isPtr, TraversalsByName(base, columns)), row);
      && IndexOf(base)[columns[i]] in rec.fields
      && rec.fields[IndexOf(base)[columns[i]]] == row[i]
  {
    var ts := TraversalsByName(base, columns);
    var slots := SlotsFor(ts);
    assert slots[i] == FieldAddr(IndexOf(base)[columns[i]]);
    FillStoresLastWrite(map[], slots, row, i);
  }

  /** The record of a row holds only fields some column maps to. */
  lemma RecordHoldsOnlyNamedFields(base: Type, columns: seq<string>, isPtr: bool, row: seq<Value>, p: Path)
    requires |row| == |columns|
    requires forall i :: 0 <= i < |columns| ==> !(columns[i] in IndexOf(base) && IndexOf(base)[columns[i]] == p)
    ensures p !in RowObject(Fields(isPtr, TraversalsByName(base, columns)), row).fields
  {
    var ts := TraversalsByName(base, columns);
    FillKeepsUnaddressed(map[], SlotsFor(ts), row, p);
  }

  /**
    The usage the source documents: `select id from people` scanned into a
    []int gives the ids in row order.
   */
  lemma IdsExample(target: Target)
    requires target.pointee == SliceOf(Primitive(Int, false), false)
    ensures var rs := ResultSet(["id"], None, [[IntValue(1)], [IntValue(2)], [IntValue(3)]], map[], None);
      ScanAllSpec(PointerDest(target), rs, 0, false, false, [])
        == Run(None, [ByValue(Decoded(IntValue(1))), ByValue(Decoded(IntValue(2))), ByValue(Decoded(IntValue(3)))], true, 3)
  {
  }
}
