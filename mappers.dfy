/**
  The package-level mapper cache behind mapper(): the installed NameMapper, the
  identity recorded when the cached mapper was last rebuilt, the cached mapper
  itself, and mapperFor, which prefers the mapper a DB or Tx carries.
 */
module Mappers {
  import opened Wrappers
  import opened Types

  /**
    The cache as a value: `nameMapper` is the NameMapper variable, `origMapper`
    the identity recorded at the last rebuild, `mpr` the cached mapper (None while
    nil), `built` how many mappers NewMapperFunc has made so far, which gives each
    new mapper an identity no earlier mapper has.
   */
  datatype CacheState = CacheState(nameMapper: NameFn, origMapper: NameFn, mpr: Option<Mapper>, built: nat)

  /** The outcome of one mapper() call: the new cache state and the mapper returned. */
  datatype Call = Call(state: CacheState, result: Mapper)

  /** The package state at start-up: NameMapper and origMapper both hold the default function, no mapper yet. */
  function Initial(f: NameFn): CacheState
  {
    CacheState(f, f, None, 0)
  }

  /** Every mapper built so far has an identity below `built`, and the cached one was built with `origMapper`. */
  predicate Consistent(s: CacheState)
  {
    s.mpr.Some? ==> s.mpr.value.serial < s.built && s.mpr.value.nameFn == s.origMapper
  }

  /** reflectx.NewMapperFunc("db", NameMapper): a mapper no earlier call returned. */
  function Built(s: CacheState): Mapper
  {
    Mapper(s.built, s.nameMapper)
  }

  /** One call of mapper() exactly as scan.go writes it: the nil branch does not record origMapper. */
  function CallAsWritten(s: CacheState): (c: Call)
    ensures s.mpr.None? ==> c.result == Built(s) && c.state.origMapper == s.origMapper
    ensures s.mpr.Some? && s.origMapper == s.nameMapper ==> c == Call(s, s.mpr.value)
    ensures s.mpr.Some? && s.origMapper != s.nameMapper ==>
      c.result == Built(s) && c.state.origMapper == s.nameMapper
    ensures c.state.nameMapper == s.nameMapper && c.state.mpr == Some(c.result)
  {
    if s.mpr.None? then
      var m := Built(s);
      Call(s.(mpr := Some(m), built := s.built + 1), m)
    else if s.origMapper != s.nameMapper then
      var m := Built(s);
      Call(s.(mpr := Some(m), origMapper := s.nameMapper, built := s.built + 1), m)
    else
      Call(s, s.mpr.value)
  }

  /** One call of mapper() with origMapper recorded whenever a mapper is built. */
  function CallCorrected(s: CacheState): (c: Call)
    requires Consistent(s)
    ensures Consistent(c.state)
    ensures c.result.nameFn == s.nameMapper
    ensures c.state.nameMapper == s.nameMapper && c.state.mpr == Some(c.result)
    ensures s.mpr.Some? && s.origMapper == s.nameMapper ==> c == Call(s, s.mpr.value)
    ensures s.mpr.None? || s.origMapper != s.nameMapper ==> c.result.serial == s.built
  {
    if s.mpr.None? || s.origMapper != s.nameMapper then
      var m := Built(s);
      Call(s.(mpr := Some(m), origMapper := s.nameMapper, built := s.built + 1), m)
    else
      Call(s, s.mpr.value)
  }

  /** A second call with NameMapper unchanged returns the same mapper and leaves the cache as it was. */
  lemma CorrectedCallIsIdempotent(s: CacheState)
    requires Consistent(s)
    ensures CallCorrected(CallCorrected(s).state) == Call(CallCorrected(s).state, CallCorrected(s).result)
  {
  }

  /** After a NameMapper change, the corrected cache hands out a mapper no earlier call returned. */
  lemma CorrectedRebuildIsFresh(s: CacheState, f: NameFn)
    requires Consistent(s) && s.mpr.Some? && f != s.origMapper
    ensures CallCorrected(s.(nameMapper := f)).result.nameFn == f
    ensures CallCorrected(s.(nameMapper := f)).result.serial >= s.built
    ensures CallCorrected(s.(nameMapper := f)).result != s.mpr.value
  {
  }

  /**
    As written, a NameMapper installed before the first call leaves origMapper on
    the default; reinstalling the default afterwards then passes the identity
    check and the mapper built from the other function is served.
   */
  lemma AsWrittenServesStaleMapper(d: NameFn, f: NameFn)
    requires d != f
    ensures var first := CallAsWritten(Initial(d).(nameMapper := f));
      var second := CallAsWritten(first.state.(nameMapper := d));
      second.result == first.result && second.result.nameFn == f && second.state.nameMapper == d
  {
  }

  /**
    The cache as the package variables mpr and origMapper, together with the
    NameMapper variable user code may assign at any time.
   */
  class MapperCache {
    var nameMapper: NameFn
    var origMapper: NameFn
    var mpr: Option<Mapper>
    var built: nat

    function State(): CacheState
      reads this
    {
      CacheState(nameMapper, origMapper, mpr, built)
    }

    /** The package initialisation: NameMapper = strings.ToLower, origMapper = its identity, mpr = nil. */
    constructor (default: NameFn)
      ensures State() == Initial(default)
    {
      nameMapper := default;
      origMapper := default;
      mpr := None;
      built := 0;
    }

    /** An assignment `NameMapper = f` by user code. */
    method SetNameMapper(f: NameFn)
      modifies this
      ensures State() == old(State()).(nameMapper := f)
    {
      nameMapper := f;
    }

    /** reflectx.NewMapperFunc("db", NameMapper) */
    method NewMapper() returns (m: Mapper)
      modifies this`built
      ensures m == Built(old(State())) && built == old(built) + 1
    {
      m := Types.Mapper.Mapper(built, nameMapper);
      built := built + 1;
    }

    /** mapper() as written. */
    method MapperAsWritten() returns (m: Mapper)
      modifies this
      ensures Call(State(), m) == CallAsWritten(old(State()))
    {
      if mpr.None? {
        var newMapper := NewMapper();
        mpr := Some(newMapper);
      } else if origMapper != nameMapper {
        var newMapper := NewMapper();
        mpr := Some(newMapper);
        origMapper := nameMapper;
      }
      m := mpr.value;
    }

    /** mapper() with origMapper recorded on first use as well; the rest of the model uses this one. */
    method Mapper() returns (m: Mapper)
      requires Consistent(State())
      modifies this
      ensures Call(State(), m) == CallCorrected(old(State()))
      ensures Consistent(State()) && m.nameFn == nameMapper
    {
      if mpr.None? || origMapper != nameMapper {
        var newMapper := NewMapper();
        mpr := Some(newMapper);
        origMapper := nameMapper;
      }
      m := mpr.value;
    }
  }

  /**
    The as-written cache run through the sequence that exposes it: install `f`
    before first use, call mapper(), reinstall the default, call mapper() again.
    The mapper served is built from `f` while the default is installed.
   */
  method StaleMapperScenario(d: NameFn, f: NameFn) returns (served: Mapper, installed: NameFn)
    requires d != f
    ensures served.nameFn == f && installed == d && served.nameFn != installed
  {
    var cache := new MapperCache(d);
    cache.SetNameMapper(f);
    var first := cache.MapperAsWritten();
    cache.SetNameMapper(d);
    served := cache.MapperAsWritten();
    installed := cache.nameMapper;
  }

  /**
    mapperFor: a DB or Tx (by value or pointer) supplies its own mapper; anything
    else gets mapper() as written, so its cache step is `CallAsWritten`.
   */
  method MapperFor(cache: MapperCache, h: Handle) returns (m: Mapper)
    modifies cache
    ensures h.Sqlx? && h.wrapper in {DB, Tx} ==> m == h.mapper && cache.State() == old(cache.State())
    ensures !(h.Sqlx? && h.wrapper in {DB, Tx}) ==> Call(cache.State(), m) == CallAsWritten(old(cache.State()))
  {
    if h.Sqlx? && (h.wrapper == DB || h.wrapper == Tx) {
      m := h.mapper;
    } else {
      m := cache.MapperAsWritten();
    }
  }

  /** mapperFor over the corrected mapper(): a value without its own mapper gets one built from the installed NameMapper. */
  method MapperForCorrected(cache: MapperCache, h: Handle) returns (m: Mapper)
    requires Consistent(cache.State())
    modifies cache
    ensures h.Sqlx? && h.wrapper in {DB, Tx} ==> m == h.mapper && cache.State() == old(cache.State())
    ensures !(h.Sqlx? && h.wrapper in {DB, Tx}) ==>
      Call(cache.State(), m) == CallCorrected(old(cache.State())) && m.nameFn == cache.nameMapper
    ensures Consistent(cache.State())
  {
    if h.Sqlx? && (h.wrapper == DB || h.wrapper == Tx) {
      m := h.mapper;
    } else {
      m := cache.Mapper();
    }
  }

  /**
    As written, mapperFor on a Stmt after NameMapper was set to f before first
    use and then reset to the default: the mapper built from f comes back.
   */
  method StaleMapperForStmt(d: NameFn, f: NameFn, stmt: Handle) returns (served: Mapper)
    requires d != f && stmt.Sqlx? && stmt.wrapper == Stmt
    ensures served.nameFn == f
  {
    var cache := new MapperCache(d);
    cache.SetNameMapper(f);
    var first := cache.MapperAsWritten();
    cache.SetNameMapper(d);
    served := MapperFor(cache, stmt);
  }

  /**
    As written, a NameMapper installed before first use is not recorded by the
    first call, so the second call sees a changed identity and builds a second
    mapper from the same function.
   */
  lemma AsWrittenRebuildsAfterEarlyInstall(d: NameFn, f: NameFn)
    requires d != f
    ensures var first := CallAsWritten(Initial(d).(nameMapper := f));
      var second := CallAsWritten(first.state);
      second.result != first.result && second.result.nameFn == f && second.state.origMapper == f
  {
  }
}
