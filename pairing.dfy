/** Pairing of call and return events: `onCall` resolves the called point
    to a registered record, invokes the entry callback and attaches the
    record to the call's return signal; `onRet` is handed that very record
    back and invokes the exit callback. The chain of return signals of one
    execution state behaves as a stack of pending calls. */
module CallPairing {

  import opened Wrappers
  import opened InstrumentationRecord
  import opened InstrumentationRegistry

  /** An event from the function monitor: a call to offset `pc` of module
      `moduleName`, or a return from the innermost call still pending. */
  datatype Event = Call(moduleName: string, pc: u64) | Return

  /** A callback invocation, `invokeInstrumentation(state, record, isCall)`:
      the entry callback when `isCall`, the exit callback otherwise. */
  datatype Invocation = Invocation(record: Instrumentation, isCall: bool)

  /** What one execution state holds: the records attached to its pending
      calls, innermost last, and the callbacks invoked so far, in order. */
  datatype Context = Context(pending: seq<Instrumentation>, invoked: seq<Invocation>)

  /** The effect of a call to offset `pc` of module `moduleName`. */
  function CallStep(registry: seq<Instrumentation>, c: Context, moduleName: string, pc: u64): Context {
    match Resolve(registry, moduleName, pc)
    case None => c
    case Some(r) => Context(c.pending + [r], c.invoked + [Invocation(r, true)])
  }

  /** The effect of a return; it consults only the pending calls, never the
      registry, since the record travels with the return signal. */
  function ReturnStep(c: Context): Context {
    if c.pending == [] then c
    else
      var r := c.pending[|c.pending| - 1];
      Context(c.pending[..|c.pending| - 1], c.invoked + [Invocation(r, false)])
  }

  /** The effect of one event on a context, given the registry's records. */
  function Step(registry: seq<Instrumentation>, c: Context, e: Event): Context {
    match e
    case Call(moduleName, pc) => CallStep(registry, c, moduleName, pc)
    case Return => ReturnStep(c)
  }

  /** The effect of a sequence of events, processed in program order. */
  function Run(registry: seq<Instrumentation>, c: Context, events: seq<Event>): Context
    decreases |events|
  {
    if events == [] then c else Run(registry, Step(registry, c, events[0]), events[1..])
  }

  /** A call to a point with no registered record does nothing. */
  lemma UnmatchedCallIsIgnored(registry: seq<Instrumentation>, c: Context, moduleName: string, pc: u64)
    requires forall j :: 0 <= j < |registry| ==> !At(registry[j], moduleName, pc)
    ensures Step(registry, c, Call(moduleName, pc)) == c
  {
  }

  /** A call to a registered point invokes the entry callback with the
      record installed there and leaves that record pending. */
  lemma MatchedCallIsPending(registry: seq<Instrumentation>, c: Context, k: nat)
    requires k < |registry|
    requires forall j :: 0 <= j < k ==> !At(registry[j], registry[k].moduleName, registry[k].pc)
    ensures Step(registry, c, Call(registry[k].moduleName, registry[k].pc))
         == Context(c.pending + [registry[k]], c.invoked + [Invocation(registry[k], true)])
  {
  }

  /** A return reports the most recently pushed pending record to the exit
      callback and leaves every other pending record as it was. */
  lemma ReturnPairsWithLatestCall(registry: seq<Instrumentation>, pending: seq<Instrumentation>,
                                  r: Instrumentation, invoked: seq<Invocation>)
    ensures Step(registry, Context(pending + [r], invoked), Return)
         == Context(pending, invoked + [Invocation(r, false)])
  {
  }

  /** A return with no pending call is dropped without any effect. */
  lemma OrphanReturnIsDropped(registry: seq<Instrumentation>, invoked: seq<Invocation>)
    ensures Step(registry, Context([], invoked), Return) == Context([], invoked)
  {
  }

  /** Processing two event sequences one after the other is processing
      their concatenation. */
  lemma {:induction false} RunAppend(registry: seq<Instrumentation>, c: Context, e1: seq<Event>, e2: seq<Event>)
    ensures Run(registry, c, e1 + e2) == Run(registry, Run(registry, c, e1), e2)
    decreases |e1|
  {
    if e1 != [] {
      assert (e1 + e2)[0] == e1[0];
      assert (e1 + e2)[1..] == e1[1..] + e2;
      RunAppend(registry, Step(registry, c, e1[0]), e1[1..], e2);
    } else {
      assert e1 + e2 == e2;
    }
  }

  /** One call event per record of `recs`, each to the point it is installed at. */
  function Calls(recs: seq<Instrumentation>): (events: seq<Event>)
    ensures |events| == |recs|
  {
    if recs == [] then [] else [Call(recs[0].moduleName, recs[0].pc)] + Calls(recs[1..])
  }

  /** `n` return events. */
  function Returns(n: nat): (events: seq<Event>)
    ensures |events| == n
  {
    if n == 0 then [] else [Return] + Returns(n - 1)
  }

  /** Entry callbacks for `recs`, in the order given. */
  function Entries(recs: seq<Instrumentation>): seq<Invocation> {
    if recs == [] then [] else [Invocation(recs[0], true)] + Entries(recs[1..])
  }

  /** Exit callbacks for `recs`, innermost (last) first. */
  function ExitsLifo(recs: seq<Instrumentation>): seq<Invocation> {
    if recs == [] then [] else [Invocation(recs[|recs| - 1], false)] + ExitsLifo(recs[..|recs| - 1])
  }

  /** Every record of `recs` is what the registry resolves its own point to. */
  predicate AllResolve(registry: seq<Instrumentation>, recs: seq<Instrumentation>) {
    forall i :: 0 <= i < |recs| ==> Resolve(registry, recs[i].moduleName, recs[i].pc) == Some(recs[i])
  }

  /** Nested calls to resolved points push their records in call order and
      invoke one entry callback each. */
  lemma {:induction false} RunCalls(registry: seq<Instrumentation>, c: Context, recs: seq<Instrumentation>)
    requires AllResolve(registry, recs)
    ensures Run(registry, c, Calls(recs)) == Context(c.pending + recs, c.invoked + Entries(recs))
    decreases |recs|
  {
    if recs != [] {
      var r := recs[0];
      var c' := Context(c.pending + [r], c.invoked + [Invocation(r, true)]);
      // the first call pushes its record; the rest run from there
      assert Calls(recs) == [Call(r.moduleName, r.pc)] + Calls(recs[1..]);
      assert Run(registry, c, Calls(recs)) == Run(registry, c', Calls(recs[1..]));
      assert AllResolve(registry, recs[1..]) by {
        forall i | 0 <= i < |recs[1..]|
          ensures Resolve(registry, recs[1..][i].moduleName, recs[1..][i].pc) == Some(recs[1..][i])
        {
          assert recs[1..][i] == recs[i + 1];
        }
      }
      RunCalls(registry, c', recs[1..]);
      assert c.pending + [r] + recs[1..] == c.pending + recs;
    }
  }

  /** As many returns as there are pending records above `pending` pop them
      innermost first, each reported to one exit callback. */
  lemma {:induction false} RunReturns(registry: seq<Instrumentation>, pending: seq<Instrumentation>,
                                      recs: seq<Instrumentation>, invoked: seq<Invocation>)
    ensures Run(registry, Context(pending + recs, invoked), Returns(|recs|))
         == Context(pending, invoked + ExitsLifo(recs))
    decreases |recs|
  {
    if recs != [] {
      var n := |recs|;
      var r := recs[n - 1];
      var rest := recs[..n - 1];
      assert pending + recs == (pending + rest) + [r];
      ReturnPairsWithLatestCall(registry, pending + rest, r, invoked);
      RunReturns(registry, pending, rest, invoked + [Invocation(r, false)]);
      assert invoked + [Invocation(r, false)] + ExitsLifo(rest) == invoked + ExitsLifo(recs);
    }
  }

  /** Pairing correctness: N nested calls to instrumented points followed by
      N returns invoke N entry callbacks in call order and then N exit
      callbacks in reverse order, each exit with the record of its own call,
      and leave the calls pending before them untouched. */
  lemma NestedCallsPairLifo(registry: seq<Instrumentation>, c: Context, recs: seq<Instrumentation>)
    requires AllResolve(registry, recs)
    ensures Run(registry, c, Calls(recs) + Returns(|recs|))
         == Context(c.pending, c.invoked + Entries(recs) + ExitsLifo(recs))
  {
    RunAppend(registry, c, Calls(recs), Returns(|recs|));
    RunCalls(registry, c, recs);
    RunReturns(registry, c.pending, recs, c.invoked + Entries(recs));
  }

  /** The pending-call state of one execution state. */
  class PendingCalls {
    var pending: seq<Instrumentation>
    var invoked: seq<Invocation>

    function State(): Context
      reads this
    {
      Context(pending, invoked)
    }

    constructor ()
      ensures State() == Context([], [])
    {
      pending := [];
      invoked := [];
    }

    /** `onCall`: resolve the called point; if a record is installed there,
        invoke the entry callback and attach the record to the return. */
    method OnCall(registry: Registry, moduleName: string, pc: u64) returns (entered: Option<Instrumentation>)
      modifies this
      ensures entered == Resolve(registry.entries, moduleName, pc)
      ensures State() == CallStep(registry.entries, old(State()), moduleName, pc)
    {
      entered := registry.Lookup(moduleName, pc);
      if entered.Some? {
        pending := pending + [entered.value];
        invoked := invoked + [Invocation(entered.value, true)];
      }
    }

    /** `onRet`: receive the record attached at the innermost pending call
        and invoke the exit callback with it; with nothing pending, drop
        the return. */
    method OnRet() returns (exited: Option<Instrumentation>)
      modifies this
      ensures exited == if old(pending) == [] then None else Some(old(pending)[|old(pending)| - 1])
      ensures State() == ReturnStep(old(State()))
    {
      if pending == [] {
        return None;
      }
      var r := pending[|pending| - 1];
      pending := pending[..|pending| - 1];
      invoked := invoked + [Invocation(r, false)];
      return Some(r);
    }
  }

  /** A scenario: a CDECL record named "onFoo" at offset 0x1000 of
      "libfoo" is registered, called and returned from; the entry and then
      the exit callback see that record. */
  method FooScenario() returns (ok: bool, entered: Option<Instrumentation>, exited: Option<Instrumentation>,
                                invoked: seq<Invocation>)
    ensures ok
    ensures entered == Some(Instrumentation("libfoo", 0x1000, 2, "onFoo", CDECL, false))
    ensures exited == entered
    ensures invoked == [Invocation(entered.value, true), Invocation(entered.value, false)]
  {
    var foo := New("libfoo", 0x1000, 2, "onFoo", CDECL, false);
    var registry := new Registry();
    ok := registry.Register(foo);
    var context := new PendingCalls();
    entered := context.OnCall(registry, "libfoo", 0x1000);
    exited := context.OnRet();
    invoked := context.invoked;
  }
}
