/** The plugin's registry of instrumentation points (`m_instrumentations`)
    and its registration and lookup operations. */
module InstrumentationRegistry {

  import opened Wrappers
  import opened InstrumentationRecord

  /** Some stored record is `operator==`-equal to `r`. */
  predicate ContainsEqual(s: seq<Instrumentation>, r: Instrumentation) {
    exists i :: 0 <= i < |s| && Equal(s[i], r)
  }

  /** No two stored records are `operator==`-equal. */
  ghost predicate NoDuplicates(s: seq<Instrumentation>) {
    forall i, j :: 0 <= i < j < |s| ==> !Equal(s[i], s[j])
  }

  /** Record `r` is installed at offset `pc` of module `moduleName`. */
  predicate At(r: Instrumentation, moduleName: string, pc: u64) {
    r.moduleName == moduleName && r.pc == pc
  }

  /** Position of the first stored record installed at the given point. */
  function FirstAt(s: seq<Instrumentation>, moduleName: string, pc: u64): (r: Option<nat>)
    ensures r.Some? ==> r.value < |s| && At(s[r.value], moduleName, pc)
    ensures r.Some? ==> forall j :: 0 <= j < r.value ==> !At(s[j], moduleName, pc)
    ensures r.None? ==> forall j :: 0 <= j < |s| ==> !At(s[j], moduleName, pc)
  {
    if s == [] then None
    else if At(s[0], moduleName, pc) then Some(0)
    else match FirstAt(s[1..], moduleName, pc)
      case None => None
      case Some(k) => Some(k + 1)
  }

  /** The record that a call to the given point resolves to, if any. */
  function Resolve(s: seq<Instrumentation>, moduleName: string, pc: u64): Option<Instrumentation> {
    match FirstAt(s, moduleName, pc)
    case None => None
    case Some(k) => Some(s[k])
  }

  /** Appending a record that has no equal in a duplicate-free registry
      keeps it duplicate-free. */
  lemma AppendKeepsNoDuplicates(s: seq<Instrumentation>, r: Instrumentation)
    requires NoDuplicates(s) && !ContainsEqual(s, r)
    ensures NoDuplicates(s + [r])
  {
  }

  /** Once a record is stored, every record equal to it, whatever its fork
      flag, is found as a duplicate. */
  lemma {:induction false} StoredPointIsDuplicate(s: seq<Instrumentation>, r: Instrumentation, fork: bool)
    ensures ContainsEqual(s + [r], r.(fork := fork))
  {
    assert (s + [r])[|s|] == r;
    EqualIgnoresFork(r, fork);
  }

  /** Deduplication is by all five compared fields, not by the point alone:
      two records installed at the same module and offset that differ in
      name are both admitted, and lookup then resolves to the first. */
  lemma SamePointDistinctNames(a: Instrumentation, name: string)
    requires name != a.instrumentationName
    ensures NoDuplicates([a, a.(instrumentationName := name)])
    ensures Resolve([a, a.(instrumentationName := name)], a.moduleName, a.pc) == Some(a)
  {
  }

  /** The plugin's `m_instrumentations` vector. */
  class Registry {
    var entries: seq<Instrumentation>

    /** The registry never holds two `operator==`-equal records. */
    ghost predicate Valid()
      reads this
    {
      NoDuplicates(entries)
    }

    constructor ()
      ensures Valid() && entries == []
    {
      entries := [];
    }

    /** Linear scan for a stored record equal to `r`. */
    method Find(r: Instrumentation) returns (index: Option<nat>)
      ensures index.Some? ==> index.value < |entries| && Equal(entries[index.value], r)
      ensures index.None? <==> !ContainsEqual(entries, r)
    {
      var i := 0;
      while i < |entries|
        invariant 0 <= i <= |entries|
        invariant forall j :: 0 <= j < i ==> !Equal(entries[j], r)
      {
        if Equal(entries[i], r) {
          return Some(i);
        }
        i := i + 1;
      }
      return None;
    }

    /** `registerInstrumentation`: rejects a record that has an equal one
        stored, otherwise appends it and leaves every stored record as it was. */
    method Register(r: Instrumentation) returns (ok: bool)
      requires Valid()
      modifies this
      ensures Valid()
      ensures ok <==> !ContainsEqual(old(entries), r)
      ensures entries == if ok then old(entries) + [r] else old(entries)
    {
      var existing := Find(r);
      if existing.Some? {
        return false;
      }
      AppendKeepsNoDuplicates(entries, r);
      entries := entries + [r];
      return true;
    }

    /** The record a call to offset `pc` of module `moduleName` resolves to. */
    method Lookup(moduleName: string, pc: u64) returns (found: Option<Instrumentation>)
      ensures found == Resolve(entries, moduleName, pc)
      ensures found.Some? ==> found.value in entries && At(found.value, moduleName, pc)
      ensures found.None? <==> forall j :: 0 <= j < |entries| ==> !At(entries[j], moduleName, pc)
    {
      var i := 0;
      while i < |entries|
        invariant 0 <= i <= |entries|
        invariant forall j :: 0 <= j < i ==> !At(entries[j], moduleName, pc)
      {
        if At(entries[i], moduleName, pc) {
          return Some(entries[i]);
        }
        i := i + 1;
      }
      return None;
    }
  }

  /** Registering the same point twice, the second time with any fork flag,
      is rejected the second time; the first succeeds exactly when no equal
      record was stored before. */
  method RegisterSamePointTwice(registry: Registry, r: Instrumentation, fork: bool) returns (first: bool, second: bool)
    requires registry.Valid()
    modifies registry
    ensures registry.Valid()
    ensures first <==> !ContainsEqual(old(registry.entries), r)
    ensures !second
  {
    first := registry.Register(r);
    if first {
      StoredPointIsDuplicate(old(registry.entries), r, fork);
    } else {
      var i :| 0 <= i < |registry.entries| && Equal(registry.entries[i], r);
      EqualIgnoresFork(r, fork);
      EqualIsEquivalence(registry.entries[i], r, r.(fork := fork));
    }
    second := registry.Register(r.(fork := fork));
  }
}
