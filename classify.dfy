/**
  The stateless case analyses of scan.go: dereferencing, the slice-shape check,
  the scannable classification, the struct-only diagnostics and the unsafe flag.
 */
module Classify {
  import opened Wrappers
  import opened Types

  /** reflectx.Deref: strips one level of pointer. */
  function Deref(t: Type): Type
  {
    if t.PointerTo? then t.elem else t
  }

  /** reflect.PtrTo(t).Implements(sql.Scanner); a pointer to a pointer has no methods. */
  predicate ImplementsScanner(t: Type)
  {
    match t
    case Primitive(_, s) => s
    case StructOf(_, s, _) => s
    case PointerTo(_) => false
    case SliceOf(_, s) => s
  }

  /** baseType: the dereferenced type when it has the expected kind, an error naming both kinds otherwise. */
  function BaseType(t: Type, expected: Kind): (r: Result<Type, Error>)
    ensures r.Success? <==> KindOf(Deref(t)) == expected
    ensures r.Success? ==> r.value == Deref(t) && KindOf(r.value) == expected
    ensures r.Failure? ==> r.error == KindMismatch(expected, KindOf(Deref(t)))
  {
    var d := Deref(t);
    if KindOf(d) != expected then Failure(KindMismatch(expected, KindOf(d))) else Success(d)
  }

  /**
    isScannable: the Scanner check comes first, then "not a struct", then "the
    mapper's type map of the struct is empty". A type is field-mapped exactly
    when it is a struct with fields that does not implement Scanner, so a
    Scanner struct with fields is still scannable.
   */
  function IsScannable(t: Type): (r: bool)
    ensures !r <==> t.StructOf? && !t.ptrScanner && |t.index| > 0
  {
    if ImplementsScanner(t) then true
    else if KindOf(t) != Struct then true
    else |t.index| == 0
  }

  /** structOnlyError: checks "not a struct" first, then "implements Scanner", then reports no exported fields. */
  function StructOnlyError(t: Type): (e: Error)
    ensures KindOf(t) != Struct ==> e == NotStruct(KindOf(t))
    ensures t.StructOf? && t.ptrScanner ==> e == StructImplementsScanner(t.name)
    ensures t.StructOf? && !t.ptrScanner ==> e == NoExportedFields(t.name)
  {
    var isStruct := KindOf(t) == Struct;
    var isScanner := ImplementsScanner(t);
    if !isStruct then NotStruct(KindOf(t))
    else if isScanner then StructImplementsScanner(t.name)
    else NoExportedFields(t.name)
  }

  /**
    For every type the scannable check accepts, the struct-only error names the
    reason it was accepted: a non-struct is reported as such, a Scanner struct as
    a Scanner, and "no exported fields" is reported only for a struct whose type
    map really is empty.
   */
  lemma StructOnlyErrorExplains(t: Type)
    requires IsScannable(t)
    ensures StructOnlyError(t).NotStruct? <==> !t.StructOf?
    ensures StructOnlyError(t).StructImplementsScanner? <==> t.StructOf? && t.ptrScanner
    ensures StructOnlyError(t).NoExportedFields? ==> t.StructOf? && !t.ptrScanner && |t.index| == 0
  {
  }

  /** isUnsafe: the wrapper's flag for sqlx Row, Rows, Stmt, DB and Tx (by value or pointer); false otherwise. */
  function IsUnsafe(h: Handle): (r: bool)
    ensures r <==> h.Sqlx? && h.unsafe
  {
    match h
    case Sqlx(_, _, unsafe, _) => unsafe
    case SqlRows(_) => false
    case Foreign => false
  }
}
