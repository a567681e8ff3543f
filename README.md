# Lua function instrumentation: records, registry and call/return pairing

A Dafny model of the bookkeeping core of S2E's `LuaFunctionInstrumentation`
plugin. An analyst registers instrumentation points: a function at a given
program-counter offset of a named module, with a parameter count, a calling
convention, a fork flag and the name of the Lua handler to dispatch to. When
the function monitor reports a call to a registered point, the plugin invokes
the entry callback and attaches the record to the call's return signal. When
that call returns, the plugin gets the same record back and invokes the exit
callback with it.

- `wrappers.dfy` (`Wrappers`): the optional value used for lookups and returns.
- `record.dfy` (`InstrumentationRecord`): the immutable `Instrumentation`
  record as a datatype, its constructor, the `CallingConvention` enum including
  its `MAX_CONV` sentinel, and `operator==` as the predicate `Equal`. `Equal`
  compares five fields and ignores `fork`. The fixed-width integers
  (`uint64_t` pc, `unsigned` parameter count) are newtypes with their exact ranges.
- `registry.dfy` (`InstrumentationRegistry`): the `m_instrumentations` vector as
  the `Registry` class over a `seq`, with `Register` (`registerInstrumentation`)
  and `Lookup` (resolving a called point to its record).
- `pairing.dfy` (`CallPairing`): one execution state's pending calls as the
  `PendingCalls` class. `OnCall` pushes the resolved record and logs an entry
  invocation. `OnRet` pops the innermost record and logs an exit invocation.
  They are proved against the pure `CallStep` and `ReturnStep` functions.
  `ReturnStep` does not consult the registry, because the record travels with
  the return signal. `Step` and `Run` combine the two over event sequences. The LIFO pairing
  lemmas are stated about those functions.

The header declares `registerInstrumentation`, `onCall` and `onRet` but their
bodies are not part of this model. Three behaviours are inferred:
- Registration rejects a record when an `operator==`-equal one is already
  stored. This follows from the hand-written `operator==` and the `bool`
  result, and matches the declaration at line 69. A rejected registration
  changes nothing. An accepted one appends.
- `Lookup` scans the vector in order and returns the first record installed at
  the called module and offset.
- The pairing of a return with its call is done by the function monitor's
  chain of return signals, one per call occurrence. A per-state stack of
  pending records models it, so a recursive call is tracked separately from
  the outer call.

Deduplication uses all five compared fields, not just the point. Two records
at the same module and offset that differ in name, parameter count or
convention are therefore both admitted (`SamePointDistinctNames`). Nothing in
the header prevents two records at one point. In this model a call to such a
point resolves to the first of them; that is a modelling choice, not something
the header shows.

## Model

| member | source | states |
|---|---|---|
| InstrumentationRecord.New | libs2eplugins/src/s2e/Plugins/Lua/LuaFunctionInstrumentation.h:49-53 | the constructor stores each of its six arguments unchanged in the matching field |
| InstrumentationRecord.Equal | libs2eplugins/src/s2e/Plugins/Lua/LuaFunctionInstrumentation.h:55-58 | `operator==` holds exactly when the two records are identical once the fork flag is disregarded |
| InstrumentationRecord.EqualIgnoresFork | libs2eplugins/src/s2e/Plugins/Lua/LuaFunctionInstrumentation.h:55-58 | records that differ only in `fork` are equal, in both argument orders |
| InstrumentationRecord.EqualDiffersOnlyInFork | libs2eplugins/src/s2e/Plugins/Lua/LuaFunctionInstrumentation.h:42-58 | two equal records are identical or differ in the fork flag alone |
| InstrumentationRecord.ComparedFieldsDistinguish | libs2eplugins/src/s2e/Plugins/Lua/LuaFunctionInstrumentation.h:55-58 | a difference in any one of moduleName, pc, paramCount, instrumentationName or convention makes two records unequal |
| InstrumentationRecord.EqualIsEquivalence | libs2eplugins/src/s2e/Plugins/Lua/LuaFunctionInstrumentation.h:55-58 | `operator==` is reflexive, symmetric and transitive, so it is a valid deduplication key |
| InstrumentationRegistry.FirstAt | libs2eplugins/src/s2e/Plugins/Lua/LuaFunctionInstrumentation.h:63-64 | the position found holds a record installed at the given module and offset and no earlier record is; no position means no record is installed there |
| InstrumentationRegistry.AppendKeepsNoDuplicates | libs2eplugins/src/s2e/Plugins/Lua/LuaFunctionInstrumentation.h:63-69 | appending a record with no equal keeps the registry free of `operator==`-equal pairs |
| InstrumentationRegistry.StoredPointIsDuplicate | libs2eplugins/src/s2e/Plugins/Lua/LuaFunctionInstrumentation.h:55-69 | once a record is stored, a record equal to it with any fork flag is found as a duplicate |
| InstrumentationRegistry.SamePointDistinctNames | libs2eplugins/src/s2e/Plugins/Lua/LuaFunctionInstrumentation.h:55-58 | two records at one module and offset that differ in name are not duplicates, and lookup resolves the point to the first |
| InstrumentationRegistry.Registry.Find | libs2eplugins/src/s2e/Plugins/Lua/LuaFunctionInstrumentation.h:63-69 | returns the position of a stored record equal to the argument, and none exactly when no stored record is equal |
| InstrumentationRegistry.Registry.Register | libs2eplugins/src/s2e/Plugins/Lua/LuaFunctionInstrumentation.h:69 | succeeds exactly when no equal record is stored; on success the registry is the old one with the record appended, on failure it is unchanged; no two equal records are ever both stored |
| InstrumentationRegistry.Registry.Lookup | libs2eplugins/src/s2e/Plugins/Lua/LuaFunctionInstrumentation.h:73-74 | returns the first stored record installed at the called module and offset, or none exactly when no record is installed there |
| InstrumentationRegistry.RegisterSamePointTwice | libs2eplugins/src/s2e/Plugins/Lua/LuaFunctionInstrumentation.h:55-69 | on any duplicate-free registry, registering a record succeeds exactly when no equal one is stored, and registering it again with any fork flag returns false |
| CallPairing.UnmatchedCallIsIgnored | libs2eplugins/src/s2e/Plugins/Lua/LuaFunctionInstrumentation.h:73-74 | a call to a point with no registered record invokes nothing and leaves nothing pending |
| CallPairing.MatchedCallIsPending | libs2eplugins/src/s2e/Plugins/Lua/LuaFunctionInstrumentation.h:73-74 | a call to a registered point invokes the entry callback with the first record installed there and leaves that record pending |
| CallPairing.ReturnPairsWithLatestCall | libs2eplugins/src/s2e/Plugins/Lua/LuaFunctionInstrumentation.h:76-77 | a return hands the most recently pushed pending record to the exit callback and leaves the other pending records unchanged |
| CallPairing.OrphanReturnIsDropped | libs2eplugins/src/s2e/Plugins/Lua/LuaFunctionInstrumentation.h:76-77 | a return with no pending call invokes nothing and changes nothing |
| CallPairing.RunCalls | libs2eplugins/src/s2e/Plugins/Lua/LuaFunctionInstrumentation.h:73-74 | nested calls to registered points push their records in call order and invoke one entry callback each |
| CallPairing.RunReturns | libs2eplugins/src/s2e/Plugins/Lua/LuaFunctionInstrumentation.h:76-77 | N returns pop the N innermost pending records innermost first, each handed to one exit callback |
| CallPairing.NestedCallsPairLifo | libs2eplugins/src/s2e/Plugins/Lua/LuaFunctionInstrumentation.h:73-77 | N nested calls then N returns give N entry callbacks in call order and N exit callbacks in reverse order, each exit with its own call's record, and leave earlier pending calls untouched |
| CallPairing.PendingCalls.OnCall | libs2eplugins/src/s2e/Plugins/Lua/LuaFunctionInstrumentation.h:73-74 | reports the record the called point resolves to; the new state is one call step from the old one |
| CallPairing.PendingCalls.OnRet | libs2eplugins/src/s2e/Plugins/Lua/LuaFunctionInstrumentation.h:76-77 | reports the innermost pending record, or none when nothing is pending; the new state is one return step from the old one |
| CallPairing.FooScenario | libs2eplugins/src/s2e/Plugins/Lua/LuaFunctionInstrumentation.h:49-77 | registering "onFoo" at offset 0x1000 of "libfoo", calling and returning invokes the entry and then the exit callback with that same record |

## Left out

- InstrumentationRegistry.Registry.Lookup: when several records share one module and offset, the model resolves a call to the first of them only by choice; the source may instead invoke every matching record and attach each one to the return, and the model does not capture that.
- Immutability of records is not a separate lemma. Dafny datatype values cannot be changed after construction, which is what the `const` members at lines 42-47 guarantee.
- `forkInstrumentation` (line 71) has no body in this model. The fork flag is stored and compared, but the fork of the execution state is not modelled.
- `invokeInstrumentation` (line 70) is modelled only as an `Invocation(record, isCall)` entry appended to a log. The Lua interpreter, the handler lookup by name and the argument marshalling are not modelled.
- Argument extraction from guest stack memory by calling convention is not modelled, because guest memory is not part of this model. For the same reason the scenario does not check the argument values.
- Translating the absolute callee pc into a module-relative offset through the module descriptor, and a call into no known module, are not modelled. `OnCall` takes the module name and the offset directly.
- Tearing down an execution state while calls are pending is not modelled. The header declares no operation for it.
- `FunctionMonitor`'s return-signal plumbing and the `KeyValueStore` (lines 66-67) are external collaborators. The per-state stack of pending records stands in for the signal chain.
- `initialize` (line 36), the Lua configuration parsing that calls `registerInstrumentation`, and warning output are not modelled. They are not part of the header's bookkeeping.
- `LuaS2E.cpp` (logging, process exit and plugin lookup for Lua scripts) and `gendriver.py` are not part of this model. They are foreign calls and code generation with no bookkeeping logic.
