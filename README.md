# kratos-sqlx scan engine, modelled in Dafny

This project models the row-to-object scan engine of kratos-sqlx (`scan.go`). `scanAll` takes a cursor over a result set and a pointer to a slice. It checks the shape of the destination and classifies the slice's element type as scannable (one decoded value per row) or field-mapped (a struct filled column by column). It then resolves the cursor's column names to traversal paths through the struct's type map. Strict mode refuses an unknown column. Lenient ("unsafe") mode discards it. Finally it drains the cursor, appending one element per row in cursor order, and returns `rows.Err()`. The model also covers the package-level mapper cache behind `mapper()`, `mapperFor`, and the small case analyses (`baseType`, `isScannable`, `structOnlyError`, `isUnsafe`).

Files and modules:

- `wrappers.dfy` (`Wrappers`): `Option` and `Result`.
- `types.dfy` (`Types`): the data the engine handles. A Go type descriptor (`Primitive`, `StructOf` with its type map from canonical name to traversal path, `PointerTo`, `SliceOf`, each with a flag saying whether `*T` implements `sql.Scanner`). Driver values, row objects, slice elements, buffer slots, the error kinds, sqlx handles and mappers.
- `classify.dfy` (`Classify`): `Deref`, `BaseType`, `IsScannable`, `StructOnlyError`, `IsUnsafe`.
- `mappers.dfy` (`Mappers`): the mapper cache as a class (`MapperCache`) whose methods are specified by step functions on a `CacheState` value. It holds `mapper()` as written and as corrected (see Findings), plus `MapperFor` over each.
- `cursors.dfy` (`Cursors`): the cursor the engine consumes (the `rowsi` interface). It is a class over a `ResultSet` value that counts the rows `Next` moved onto and the calls of `Columns`.
- `scan.dfy` (`Scan`): `MissingFields`, `FieldsByTraversal` (fills an array buffer in place), the row loops, and `ScanAll`. `ScanAll` is specified by the function `ScanAllSpec`, built from `Prepare` (every check before the row loop, in source order) and `Drain` (the row loop). The method follows the same split: `Plan` makes the checks and `RunPlan` runs the row loop and returns rows.Err().
- `scan_properties.dfy` (`ScanProperties`): what `scanAll` promises, proved about `ScanAllSpec`. It covers error order and "before any row", partial population, strict versus lenient mode, one element per row in order, column-to-field by name, and the zero-row cursor.

## Model

| member | source | states |
|---|---|---|
| `Classify.BaseType` | scan.go:248-254 | succeeds exactly when the once-dereferenced type has the expected kind, and returns that type; otherwise a kind-mismatch error naming the expected and the actual kind |
| `Classify.IsScannable` | scan.go:54-69 | a type is field-mapped (not scannable) exactly when it is a struct, does not implement Scanner and has a non-empty type map. So a Scanner struct with fields is still scannable: the Scanner check wins |
| `Classify.StructOnlyError` | scan.go:294-304 | a non-struct is reported as such first, then a Scanner struct, and any other struct as having no exported fields |
| `Classify.StructOnlyErrorExplains` | scan.go:173-175 | for every scannable type the struct-only error names the real reason. "No exported fields" is reported only for a non-Scanner struct whose type map is empty |
| `Classify.IsUnsafe` | scan.go:72-107 | true exactly for an sqlx Row, Rows, Stmt, DB or Tx (by value or by pointer) whose unsafe flag is set; false for database/sql Rows and any other value |
| `Mappers.CallAsWritten` | scan.go:35-47 | first use builds a new mapper but leaves origMapper as it was. An unchanged identity returns the cached mapper with nothing changed. A changed identity builds a new mapper and records the new identity |
| `Mappers.AsWrittenServesStaleMapper` | scan.go:39-41 | as written: install f before first use, call, reinstall the default, call again. The second call returns the mapper built from f while the default is installed |
| `Mappers.CallCorrected` | scan.go:35-47 | corrected: the returned mapper is always built from the NameMapper installed at the call, and the cache invariant is kept. It rebuilds on first use or on a changed identity, and otherwise returns the cached mapper unchanged |
| `Mappers.CorrectedCallIsIdempotent` | scan.go:39-46 | a second call with NameMapper unchanged returns the same mapper and leaves the cache unchanged |
| `Mappers.CorrectedRebuildIsFresh` | scan.go:41-44 | after NameMapper changes, the call returns a mapper built from the new function that differs from the cached one |
| `Mappers.MapperCache.constructor` | scan.go:24-29 | start-up state: NameMapper and origMapper hold the default function, and there is no mapper yet |
| `Mappers.MapperCache.SetNameMapper` | scan.go:20-24 | assigning NameMapper changes only NameMapper |
| `Mappers.MapperCache.NewMapper` | scan.go:40-40 | NewMapperFunc returns a mapper with an identity no earlier mapper has, built from the current NameMapper |
| `Mappers.MapperCache.MapperAsWritten` | scan.go:35-47 | the method's new state and result are those of `CallAsWritten` |
| `Mappers.MapperCache.Mapper` | scan.go:35-47 | the method's new state and result are those of `CallCorrected`; it returns a mapper built from the installed NameMapper |
| `Mappers.StaleMapperScenario` | scan.go:39-44 | running the as-written cache through that sequence returns a mapper whose name function is not the installed one |
| `Mappers.MapperFor` | scan.go:109-122 | a DB or Tx supplies its own mapper and the cache is untouched; any other value (Stmt, Rows included) gets mapper() as written: the new cache state and the mapper are those of `CallAsWritten` |
| `Mappers.StaleMapperForStmt` | scan.go:39-44 | as written, mapperFor on a Stmt after NameMapper was set to f before first use and then reset to the default returns the mapper built from f |
| `Mappers.AsWrittenRebuildsAfterEarlyInstall` | scan.go:39-44 | as written, with NameMapper set before first use, the second call builds another mapper from the same function and only then records its identity |
| `Mappers.MapperForCorrected` | scan.go:109-122 | mapperFor over the corrected mapper(): a DB or Tx supplies its own mapper; anything else gets a mapper built from the installed NameMapper, and the cache invariant is kept |
| `Cursors.Cursor.Columns` | scan.go:129-129 | the collaborator contract assumed: the column names or the driver's error; each call is counted |
| `Cursors.Cursor.Next` | scan.go:131-131 | moves onto the next row if one remains, and says whether it did |
| `Cursors.Cursor.Scan` | scan.go:132-132 | fails if the destination count differs from the column count or the row does not convert; otherwise delivers the current row |
| `Cursors.Cursor.Err` | scan.go:130-130 | reports the result set's final error |
| `Scan.FirstMissing` | scan.go:283-290 | the index of the first empty traversal, with every earlier one non-empty; none exactly when all are non-empty |
| `Scan.MissingFields` | scan.go:283-290 | returns an error exactly when some traversal is empty, together with the index of the first empty one; otherwise (0, nil) |
| `Scan.FieldsByTraversal` | scan.go:262-281 | a non-struct is refused with the buffer untouched. For a struct, entry i gets a discard slot for an empty path, or else the field's address (ptrs) or value, for each i below the number of traversals. Every other entry is unchanged |
| `Scan.Prepare` | scan.go:150-203 | the checks before the row loop: a plan is made only for a non-nil pointer to a slice after Columns succeeded. A single-value plan has at most one column. Struct-only mode never yields a single-value plan. A field plan has one traversal per column, and in strict mode none is empty. An error raised without calling Columns comes from the destination's shape or from struct-only mode |
| `Scan.Drain` | scan.go:205-243 | the row loop from a row on: it moves onto at most as many rows as remain (its closed form is `ScanProperties.DrainClosedForm`) |
| `Scan.ScanAllSpec` | scan.go:150-244 | a run never moves onto more rows than remain. A run that did not call Columns failed, appended nothing and read no row |
| `Scan.Plan` | scan.go:150-203 | the imperative checks return exactly the plan `Prepare` describes, and Columns is called once exactly when `Prepare` says so |
| `Scan.ScanRecord` | scan.go:206-224 | one pass of the struct loop: a failing Scan gives its error; otherwise the element is the record filled from the current row (or a pointer to it) |
| `Scan.RunPlan` | scan.go:203-243 | the row loop the plan calls for, then rows.Err(): error, slice contents and cursor position are those of `Drain` |
| `Scan.ScanStructRows` | scan.go:205-226 | the struct row loop leaves the slice, the cursor position and the error exactly as `Drain` with the record conversion says |
| `Scan.ScanSingleRows` | scan.go:228-240 | the scannable row loop leaves the slice, the cursor position and the error exactly as `Drain` with the single-value conversion says |
| `Scan.ScanAll` | scan.go:150-244 | the error returned, the slice's new contents, the rows consumed and whether Columns was called are those of `ScanAllSpec` on the old state |
| `ScanProperties.DrainClosedForm` | scan.go:205-243 | the row loop keeps the elements already in the slice and appends one element per row in cursor order up to the first failing Scan. It then returns that Scan's error, with exactly one more row consumed. If no Scan fails it returns rows.Err() |
| `ScanProperties.DrainItems` | scan.go:205-240 | the slice after the row loop: the elements already there, then one per row in cursor order up to the first failing Scan |
| `ScanProperties.DrainOutcome` | scan.go:205-243 | the row loop returns the first failing Scan's error (that row is moved onto), or rows.Err() after every remaining row |
| `ScanProperties.RejectsAllButSlicePointers` | scan.go:156-167 | a non-pointer, a nil pointer, or a pointer to a non-slice fails (in that order) before Columns or any row, and leaves the destination untouched |
| `ScanProperties.StructOnlyRefusesScannable` | scan.go:173-175 | with structOnly, a scannable element type fails with the struct-only error before Columns is called and before any row is read |
| `ScanProperties.ScannableNeedsOneColumn` | scan.go:183-185 | a scannable element type with more than one column fails after Columns and before any row is read, with nothing appended |
| `ScanProperties.ScannableAppendsEachRow` | scan.go:228-240 | with one column, exactly one element per row, in cursor order, holding that row's value (the pointer for a pointer slice). Earlier elements are kept and the result is rows.Err() |
| `ScanProperties.FirstMissingIsFirstUnknownColumn` | scan.go:198-200 | the first empty traversal belongs to the first column whose name is not in the type map; there is none exactly when every column is known |
| `ScanProperties.StrictModeRefusesUnknownColumn` | scan.go:200-202 | in strict mode an unknown column makes scanAll fail, naming the first unknown column, before any row is read or appended |
| `ScanProperties.LenientModeScansDespiteUnknownColumn` | scan.go:200-203 | in unsafe mode the same input is not refused: one element is appended per row up to the first failing Scan |
| `ScanProperties.StructRowsPartialPopulation` | scan.go:205-226 | the struct path keeps earlier elements and appends one record per successfully scanned row. A Scan error returns immediately with the rows appended so far; otherwise the result is rows.Err() |
| `ScanProperties.ExhaustedCursorReturnsErr` | scan.go:243-243 | when no Scan fails, every remaining row is consumed and appended, and the result is rows.Err() |
| `ScanProperties.EmptyCursorLeavesSliceUnchanged` | scan.go:205-205 | a cursor with no rows left leaves the slice unchanged and returns rows.Err() |
| `ScanProperties.FillStoresLastWrite` | scan.go:216-216 | Scan stores a column's value in the field its slot addresses, unless a later column addresses the same field |
| `ScanProperties.FillKeepsUnaddressed` | scan.go:269-271 | a field that no slot addresses keeps its value, so a discarded column leaves no trace |
| `ScanProperties.RecordFollowsColumnNames` | scan.go:198-224 | whatever the column order, each record field takes the value of the column named after it (when no later column maps to the same field) |
| `ScanProperties.RecordHoldsOnlyNamedFields` | scan.go:268-279 | a record holds only fields that some column's name maps to; every other field stays at its zero value |
| `ScanProperties.IdsExample` | scan.go:139-143 | the documented use: `select id from people` scanned into a `[]int` gives the ids in row order, with a nil error |

## Left out

- db.go, tx.go, stmt.go and sqlx.go are pass-through wrappers over the kratos database layer (connections, transactions, statements, queries). What they pass on to the engine is the `unsafe` flag and a mapper. Here that is the cursor's `handle`.
- The `mprMu` mutex around `mapper()` is left out: concurrency. The cache is modelled as a sequential class.
- reflectx (`NewMapperFunc`, `TypeMap`, `TraversalsByName`, `FieldByIndexes`, `Deref`) is not part of this model. A struct's type map is given in its descriptor, and `Deref` strips one pointer level. How the name function turns field names into canonical names is not modelled. Neither is the per-type memo table inside a mapper.
- Which mapper scanAll uses is not modelled: the `Rows` mapper or `mapper()` (scan.go:191-196), and the `mapper()` call inside `isScannable` (scan.go:64). In the source the choice can change the result: an sqlx `Rows` carries the mapper its DB built at `Open` (db.go:36, db.go:82) with the NameMapper of that time, while any other cursor gets `mapper()` with the current NameMapper. The canonical names, so the traversals and whether strict mode refuses a column, can then differ. The model fixes one type map per type, given in its descriptor, and does not thread these calls through the mapper cache.
- Go reflection is abstracted. Interface checks become the `ptrScanner` flag. `reflect.New` allocates a zero record. `reflect.Append` becomes sequence append. Appending to a shared backing array (aliasing) and the identity of the fresh pointers in a pointer slice are not modelled. A pointer element is `ByPointer` of the object.
- Value conversion inside `rows.Scan` (database/sql's conversion and `Scanner.Scan`) is abstracted. A successful Scan stores the row's value as is. A conversion failure is a row listed in the result set's `scanErrors`.
- The text of error messages is left out; each return site has its own error kind.
- `scanAny`, `Row` and `Get` are not part of this model: their definitions are not available.
- Nil sqlx wrapper pointers (on which `isUnsafe` would panic) and nil `Mapper` fields are not modelled.
- `rows.Close()` is the caller's duty (sqlx.go defers it) and is not modelled.
- Cursors.Cursor.Scan: requires that Next has moved onto a row. database/sql reports an error instead, but the engine always calls Next first.
- Scan.FieldsByTraversal: requires the buffer to have room for every traversal. Go would panic otherwise, and scanAll always sizes it to the column count.

## Findings

| source | as written | input that shows it | evidently intended | confidence | as-written member | corrected member |
|---|---|---|---|---|---|---|
| scan.go:39-41 | when `mpr` is nil the mapper is built from the current NameMapper, but `origMapper` keeps the identity of the start-up default | set `NameMapper = f` before first use, call `mapper()`, set `NameMapper = strings.ToLower` again, call `mapper()`: the mapper built from `f` is returned | each call returns a mapper built from the NameMapper installed at that call (record `origMapper` whenever a mapper is built) | medium, not executed | `Mappers.AsWrittenServesStaleMapper` | `Mappers.CallCorrected` |
