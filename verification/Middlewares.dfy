/** What the pipeline engine sees of a middleware: its pure transforms, and how it treats `next()`. */
module Middlewares {
  import opened Options
  import opened PipelineTrie

  /** A plain value of any kind. */
  type Data(==, !new)
  type Key = string

  /** `DestinationFrozen` is thrown inside a middleware that sets its destination again after `next()`. */
  datatype Violation = CalledTwice | NotCalled | NotAwaited | NoDestination | DestinationFrozen

  /** A thrown value. `Contract` stands for the errors `isMiddlewareContractError` accepts, `Denied` for RepairNotAllowedError,
      `Aborted` for the abort reason of the operation's signal, `Aggregated` for the PluginOperationAggregateError that wraps the
      error of one middleware's `use` or of storages, `NotFound` for the error of a key that no storage has, `Failed` for every other error. */
  datatype Fault = Contract(violation: Violation) | Denied | Aborted | Aggregated(index: nat, reason: Fault) | NotFound | Failed(code: nat)

  datatype Exit = Done | Threw(fault: Fault)

  datatype OnError = Rethrow | Swallow | Replace(fault: Fault)
  datatype Ending = Returns | Throws(fault: Fault)

  /** `Detached(settles)`: the promise of `next()` is not awaited; `settles` tells whether it has settled anyway when the
      middleware is done. */
  datatype Call = Awaited(onError: OnError) | Detached(settles: bool)

  /** One run of a middleware's `encode`, `decode` or `use`, as far as the engine can tell runs apart. After a fault of an
      awaited `next()` is rethrown or replaced, nothing further happens. `again`: `next()` is called once more and its rejection
      is caught; a middleware that lets the rejection escape also ends in `Throws(Contract(CalledTwice))`. The operation's
      signal may be aborted while the middleware runs, before or after its `next()`. */
  datatype Behaviour =
    | Skips(abortsBefore: bool, ending: Ending)
    | Calls(abortsBefore: bool, setsDestination: bool, call: Call, again: bool, abortsAfter: bool, ending: Ending)
  {
    /** Sets its destination, awaits `next()` once, adds no fault of its own, and nobody aborts meanwhile. */
    predicate WellBehaved() {
      && Calls? && !abortsBefore && setsDestination && call.Awaited? && !again && !abortsAfter && ending.Returns?
    }

    /** Never puts another error in the place of a contract error: it replaces faults only by contract errors, and throws an error of
        its own only when no violation can have been recorded by then. */
    predicate Disciplined() {
      Calls? ==>
        && (call.Awaited? && call.onError.Replace? ==> call.onError.fault.Contract?)
        && (ending.Throws? && !ending.fault.Contract? ==> call.Awaited? && !call.onError.Swallow? && (again ==> !setsDestination))
    }

    /** Does not wait for its `next()`, which has not settled when the middleware is done. */
    predicate Detaches() {
      Calls? && call == Detached(false)
    }

    /** Fails on its own while its `next()` is still running, so that nobody hears of what happens there, nor of the missing await. */
    predicate Abandons() {
      Detaches() && setsDestination && !again && ending.Throws? && !ending.fault.Contract?
    }

    /** Breaks the rules of `next()` or `destination` whatever its downstream does. */
    predicate BreaksAnyway() {
      if Skips? then ending.Returns?
      else !setsDestination || Detaches() || (again && (call.Detached? || call.onError.Swallow?))
    }

    /** Lets its downstream start. */
    predicate Opens() {
      Calls? && !abortsBefore && setsDestination
    }

    /** The signal is aborted while it runs. */
    predicate Aborts() {
      abortsBefore || (Calls? && abortsAfter)
    }

    /** Neither swallows the fault of its downstream nor lets go of it. */
    predicate Forwards() {
      Calls? ==> call.Awaited? && !call.onError.Swallow?
    }

    /** Breaks no rule about `next()` and `destination` and throws no contract error of its own. */
    predicate Compliant() {
      match this
      case Skips(_, ending) => ending.Throws? && !ending.fault.Contract?
      case Calls(_, sets, call, again, _, ending) =>
        && sets && !again && call != Detached(false)
        && (call.Awaited? && call.onError.Replace? ==> !call.onError.fault.Contract?)
        && (ending.Throws? ==> !ending.fault.Contract?)
    }
  }

  /** The middlewares of one operation: pure transforms by instance, behaviour and `mapKey` failure by node. A node runs at most
      once in an operation, so a function of the node is as general as can be. */
  datatype Env = Env(
    encode: (Mw, Data) -> Data,
    decode: (Mw, Data) -> Data,
    mapKey: (Mw, Key) -> Key,
    behave: seq<Mw> -> Behaviour,
    mapKeyFault: seq<Mw> -> Option<Fault>)

  const Plain: Behaviour := Calls(false, true, Awaited(Rethrow), false, false, Returns)

  /** Nothing out of the ordinary happens but at the nodes `p` and `p'`. */
  function AllPlainBut(tr: Env, p: seq<Mw>, b: Behaviour, p': seq<Mw>, b': Behaviour): Env {
    tr.(behave := (x: seq<Mw>) => if x == p then b else if x == p' then b' else Plain, mapKeyFault := (x: seq<Mw>) => None)
  }

  /** `q` is a node of the trie of `ls`. */
  ghost predicate OnTrie(q: seq<Mw>, ls: seq<Leaf>) {
    q != [] && exists l :: l in ls && q <= l.path
  }

  ghost predicate WellBehavedOn(env: Env, ls: seq<Leaf>) {
    forall q | OnTrie(q, ls) :: env.behave(q).WellBehaved() && env.mapKeyFault(q).None?
  }

  ghost predicate ForwardsOn(env: Env, ls: seq<Leaf>) {
    forall q | OnTrie(q, ls) :: env.behave(q).Forwards()
  }

  ghost predicate DisciplinedOn(env: Env, ls: seq<Leaf>) {
    forall q | OnTrie(q, ls) :: env.behave(q).Disciplined()
  }

  ghost predicate NoneAbandonsOn(env: Env, ls: seq<Leaf>) {
    forall q | OnTrie(q, ls) :: !env.behave(q).Abandons()
  }

  ghost predicate NoneDetachesOn(env: Env, ls: seq<Leaf>) {
    forall q | OnTrie(q, ls) :: !env.behave(q).Detaches()
  }

  ghost predicate NeverAbortsOn(env: Env, ls: seq<Leaf>) {
    forall q | OnTrie(q, ls) :: !env.behave(q).Aborts()
  }

  predicate CompliantAt(env: Env, q: seq<Mw>) {
    env.behave(q).Compliant() && (env.mapKeyFault(q).Some? ==> !env.mapKeyFault(q).value.Contract?)
  }

  ghost predicate CompliantOn(env: Env, ls: seq<Leaf>) {
    forall q | OnTrie(q, ls) :: CompliantAt(env, q)
  }

  /** The destination chain on its own: every encoder of `chain` in order. */
  function EncodeAlong(env: Env, chain: seq<Mw>, data: Data): Data {
    if chain == [] then data else EncodeAlong(env, chain[1..], env.encode(chain[0], data))
  }

  /** Every decoder of `chain` in reverse order. */
  function DecodeAlong(env: Env, chain: seq<Mw>, data: Data): Data {
    if chain == [] then data else env.decode(chain[0], DecodeAlong(env, chain[1..], data))
  }

  function KeyAlong(env: Env, chain: seq<Mw>, key: Key): Key {
    if chain == [] then key else KeyAlong(env, chain[1..], env.mapKey(chain[0], key))
  }

  /** Decoding a chain undoes encoding it when each decoder undoes its encoder. */
  lemma {:induction false} ChainRoundTrip(env: Env, chain: seq<Mw>, data: Data)
    requires forall m, d | m in chain :: env.decode(m, env.encode(m, d)) == d
    ensures DecodeAlong(env, chain, EncodeAlong(env, chain, data)) == data
  {
    if chain != [] {
      ChainRoundTrip(env, chain[1..], env.encode(chain[0], data));
    }
  }
}
