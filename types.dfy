/**
  The values the scan engine works with: Go types as the reflect package
  shows them to the engine, the values a result set hands out, the objects the
  engine allocates per row, the errors it returns, the sqlx handles that carry
  the strict/lenient flag, and the mappers that hold the type maps.
 */
module Types {
  import opened Wrappers

  /** A traversal path: the field positions leading from a struct to one of its
      (possibly embedded) fields. The empty path is the "no such field" sentinel. */
  type Path = seq<nat>

  /** The reflect.Kind values the engine tells apart. */
  datatype Kind = Bool | Int | Uint | Float | String | Interface | Map | Array | Ptr | Slice | Struct

  /** Kinds of the types that are neither pointers, slices nor structs. */
  type ScalarKind = k: Kind | k != Ptr && k != Slice && k != Struct witness Bool

  /**
    A Go type as far as the engine inspects it. `ptrScanner` says whether the
    pointer type *T implements sql.Scanner. `index` is the mapper's type map of a
    struct: canonical field name to traversal path (reflectx computes it; it is
    given here).
   */
  datatype Type =
    | Primitive(kind: ScalarKind, ptrScanner: bool)
    | StructOf(name: string, ptrScanner: bool, index: map<string, Path>)
    | PointerTo(elem: Type)
    | SliceOf(elem: Type, ptrScanner: bool)

  /** t.Kind() */
  function KindOf(t: Type): Kind
  {
    match t
    case Primitive(k, _) => k
    case StructOf(_, _, _) => Struct
    case PointerTo(_) => Ptr
    case SliceOf(_, _) => Slice
  }

  /** A value the driver delivers for one column of one row. */
  datatype Value = Null | IntValue(i: int) | Text(s: string)

  /**
    An object allocated by reflect.New for one row: either a value decoded as a
    whole (a scannable element) or a struct whose fields are stored by path.
    A path absent from `fields` still holds its zero value.
   */
  datatype Obj = Decoded(v: Value) | Record(fields: map<Path, Value>)

  /** One element of the destination slice: the object itself, or a pointer to it. */
  datatype Item = ByValue(obj: Obj) | ByPointer(obj: Obj)

  /** One entry of the per-row buffer handed to rows.Scan. */
  datatype Slot =
    | Discard                             // new(interface{}): the value goes nowhere
    | FieldAddr(path: Path)               // the address of the field at that path
    | FieldValue(current: Option<Value>)  // the field's current value (None: still zero)

  /** An error reported by the database driver, kept opaque. */
  datatype DriverError = DriverError(code: nat)

  /** What the cursor reports: a driver error, or a wrong number of Scan destinations. */
  datatype CursorError = Driver(e: DriverError) | DestinationCount(expected: nat, got: nat)

  /** The errors scanAll and its helpers return, one variant per return site. */
  datatype Error =
    | NotAPointer                           // scan.go:157
    | NilDestination                        // scan.go:160
    | KindMismatch(expected: Kind, got: Kind)  // baseType, scan.go:251
    | NotStruct(got: Kind)                  // structOnlyError, scan.go:298
    | StructImplementsScanner(name: string) // scan.go:301
    | NoExportedFields(name: string)        // scan.go:303
    | TooManyColumns(kind: Kind, count: nat)  // scan.go:184
    | MissingField                          // missingFields, scan.go:286
    | MissingDestination(column: string)    // scan.go:201
    | ArgumentNotStruct                     // fieldsByTraversal, scan.go:265
    | CursorFailure(cause: CursorError)     // returned verbatim from the cursor

  /** The identity of a function value installed as NameMapper. */
  datatype NameFn = NameFn(id: nat)

  /** A *reflectx.Mapper: its identity and the name function it was built with. */
  datatype Mapper = Mapper(serial: nat, nameFn: NameFn)

  /** The sqlx wrapper types that carry the `unsafe` flag and a mapper. */
  datatype Wrapper = Row | Rows | Stmt | DB | Tx

  /** The dynamic type of a value handed to isUnsafe or mapperFor. */
  datatype Handle =
    | Sqlx(wrapper: Wrapper, byPointer: bool, unsafe: bool, mapper: Mapper)
    | SqlRows(byPointer: bool)   // database/sql's Rows, by value or by pointer
    | Foreign                    // any other value
}
