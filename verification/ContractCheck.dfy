/** The bookkeeping around one middleware call: what its promise settles with, and the checks of the `next()` contract after it. */
module ContractCheck {
  import opened Options
  import opened Middlewares

  /** `MiddlewareContractTracker.record`: only contract errors are kept, and only the first. */
  function Record(contract: Option<Fault>, fault: Fault): Option<Fault> {
    if contract.None? && fault.Contract? then Some(fault) else contract
  }

  /** What the middleware's own promise rejects with, when `next()` settled with `next`. */
  function Rejection(b: Behaviour, next: Exit): Option<Fault> {
    match b
    case Skips(_, ending) => if ending.Throws? then Some(ending.fault) else None
    case Calls(_, _, call, _, _, ending) =>
      if call.Awaited? && next.Threw? && call.onError.Rethrow? then Some(next.fault)
      else if call.Awaited? && next.Threw? && call.onError.Replace? then Some(call.onError.fault)
      else if ending.Throws? then Some(ending.fault)
      else None
  }

  /** The middleware gets past its `next()`. */
  predicate GoesOn(b: Behaviour, next: Exit) {
    b.Calls? && !(b.call.Awaited? && next.Threw? && !b.call.onError.Swallow?)
  }

  /** `next()` settled before the middleware did; a `next()` without a destination is refused before it starts. */
  predicate Settled(b: Behaviour) {
    b.Calls? && b.setsDestination && b.call != Detached(false)
  }

  /** The violations recorded while the middleware still runs, so that they count even if it rejects. */
  predicate Noted(b: Behaviour, next: Exit) {
    b.Calls? &&
    ((next.Threw? && next.fault.Contract? && (Settled(b) || !b.setsDestination)) || (b.again && GoesOn(b, next)))
  }

  /** The contract was broken in this call, or the downstream reported a contract error. */
  predicate Broken(b: Behaviour, next: Exit) {
    Noted(b, next) || !b.Calls? || !Settled(b)
  }

  /** The violation the tracker holds while the middleware still runs: the one the downstream reported, or else the second `next()`. */
  function FirstNoted(b: Behaviour, next: Exit): (r: Option<Fault>)
    ensures r.Some? <==> Noted(b, next)
    ensures r.Some? ==> r.value.Contract?
  {
    if !Noted(b, next) then None
    else if next.Threw? && next.fault.Contract? && (Settled(b) || !b.setsDestination) then Some(next.fault)
    else Some(Contract(CalledTwice))
  }

  /** The violation it holds after a middleware that returned: that one, or else that `next()` was not called, or not awaited. */
  function FirstBroken(b: Behaviour, next: Exit): (r: Option<Fault>)
    ensures r.Some? <==> Broken(b, next)
    ensures r.Some? ==> r.value.Contract?
  {
    if Noted(b, next) then FirstNoted(b, next)
    else if !b.Calls? then Some(Contract(NotCalled))
    else if !Settled(b) then Some(Contract(NotAwaited))
    else None
  }

  /** What the checks after a middleware call come to: `exit` is how the block ends, `contract` what the tracker then holds. */
  predicate Checked(b: Behaviour, next: Exit, aborted: bool, exit: Exit, contract: Option<Fault>, aborted': bool) {
    && aborted' == (aborted || (GoesOn(b, next) && b.abortsAfter))
    && (match Rejection(b, next)
        case Some(fault) => exit == Threw(fault) && contract == FirstNoted(b, next)
        case None =>
          if aborted' then exit == Threw(Aborted) && contract == FirstNoted(b, next)
          else contract == FirstBroken(b, next) && exit == if contract.Some? then Threw(contract.value) else Done)
  }

  /** From `await middleware.encode(ctx, next)` to `contract.throwIfViolated()`: the flags the engine keeps about `next()`, the
      abort check and the contract checks. `next` is what `next()` settles with, if it is called. */
  method AwaitChecked(b: Behaviour, next: Exit, aborted: bool) returns (exit: Exit, contract: Option<Fault>, aborted': bool)
    requires b.Calls? && !b.setsDestination ==> next == Threw(Contract(NoDestination))
    ensures Checked(b, next, aborted, exit, contract, aborted')
  {
    var nextCalled, nextSettled, calledTwice := false, false, false;
    var thrown: Option<Fault> := None;
    contract, aborted' := None, aborted;
    match b {
      case Skips(_, ending) =>
        if ending.Throws? { thrown := Some(ending.fault); }
      case Calls(_, sets, call, again, abortsAfter, ending) =>
        nextCalled := true;
        nextSettled := sets && call != Detached(false);
        if next.Threw? && (nextSettled || !sets) { contract := Record(contract, next.fault); }
        if call.Awaited? && next.Threw? {
          match call.onError {
            case Rethrow => thrown := Some(next.fault);
            case Replace(fault) => thrown := Some(fault);
            case Swallow =>
          }
        }
        if thrown.None? {
          if again {
            calledTwice := true;
            contract := Record(contract, Contract(CalledTwice));
          }
          if abortsAfter { aborted' := true; }
          if ending.Throws? { thrown := Some(ending.fault); }
        }
    }
    if thrown.Some? { return Threw(thrown.value), contract, aborted'; }
    if aborted' { return Threw(Aborted), contract, aborted'; }
    if calledTwice { contract := Record(contract, Contract(CalledTwice)); }
    if !nextCalled { contract := Record(contract, Contract(NotCalled)); }
    if !nextSettled { contract := Record(contract, Contract(NotAwaited)); }
    exit := if contract.Some? then Threw(contract.value) else Done;
  }

  /** The middleware of a node itself breaks the rules of `next()` and `destination`, or its hooks throw a contract error of their own
      making. `started`: its downstream was started. */
  predicate Breaches(b: Behaviour, next: Exit, started: bool) {
    || (b.Skips? && b.ending.Returns?)
    || (b.Calls? && !Settled(b))
    || (b.Calls? && b.again && GoesOn(b, next))
    || (b.Calls? && b.call.Awaited? && next.Threw? && b.call.onError.Replace? && b.call.onError.fault.Contract?)
    || ((b.Skips? || GoesOn(b, next)) && b.ending.Throws? && b.ending.fault.Contract?)
    || (Settled(b) && !started && next.Threw? && next.fault.Contract?)
  }

  /** One visit of a middleware: what its `next()` settled with and whether that started the downstream, whether the signal was aborted by
      then, what the call came to, and whether the signal was aborted in the end. */
  datatype Visit = Visit(next: Exit, started: bool, mid: bool, exit: Exit, after: bool)

  /** The downstream is started, or `next()` comes to this; an abort before `next()` may keep the downstream from starting. `fault` is what
      `mapKey` throws. */
  predicate Begun(b: Behaviour, fault: Option<Fault>, v: Visit) {
    && (v.started ==> b.Calls? && b.setsDestination && fault.None?)
    && (b.Skips? ==> v.next == Done)
    && (b.Calls? && !b.setsDestination ==> v.next == Threw(Contract(NoDestination)))
    && (b.Calls? && b.setsDestination && !v.started ==> v.next == Threw(fault.GetOr(Aborted)) && (fault.None? ==> b.abortsBefore))
    && (b.abortsBefore ==> v.mid) && (v.mid && !v.started ==> b.abortsBefore) && (v.mid ==> v.after)
  }

  predicate Broke(b: Behaviour, v: Visit) {
    Breaches(b, v.next, v.started)
  }

  lemma BreaksOrNot(b: Behaviour, fault: Option<Fault>, v: Visit)
    requires Begun(b, fault, v)
    ensures b.BreaksAnyway() ==> Broke(b, v)
    ensures b.Compliant() && (fault.Some? ==> !fault.value.Contract?) ==> !Broke(b, v)
  {
  }

  /** Where a catch block records what is thrown and rethrows what is recorded: a contract error comes out of a middleware call exactly when
      the middleware does not abandon its `next()`, and either breaks the contract itself or is told of a breach below. */
  lemma BreachComesOut(b: Behaviour, next: Exit, started: bool, aborted: bool, ex: Exit, contract: Option<Fault>)
    requires b.Skips? ==> !started
    requires b.Calls? && !b.setsDestination ==> !started && next == Threw(Contract(NoDestination))
    requires Checked(b, next, aborted, ex, contract, false)
    ensures contract.Some? || (ex.Threw? && ex.fault.Contract?) <==>
            !b.Abandons() && (Breaches(b, next, started) || (started && next.Threw? && next.fault.Contract?))
  {
  }

  /** Without a catch block the same holds of disciplined middlewares, and none of them abandons its `next()`. */
  lemma BreachPassedOn(b: Behaviour, next: Exit, started: bool, aborted: bool, exit: Exit, contract: Option<Fault>)
    requires b.Disciplined() && (b.Skips? ==> !started)
    requires b.Calls? && !b.setsDestination ==> !started && next == Threw(Contract(NoDestination))
    requires Checked(b, next, aborted, exit, contract, false)
    ensures !b.Abandons()
    ensures (exit.Threw? && exit.fault.Contract?) <==> Breaches(b, next, started) || (started && next.Threw? && next.fault.Contract?)
  {
  }

  /** What `next()` can settle with: a middleware that does not call it has nothing to wait for, and without a destination it is
      refused. */
  predicate Possible(b: Behaviour, next: Exit) {
    if b.Skips? then next == Done else !b.setsDestination ==> next == Threw(Contract(NoDestination))
  }

  /** A violation is recorded, or reported by the downstream, but another error comes out. */
  ghost predicate Hides(b: Behaviour, next: Exit, exit: Exit, contract: Option<Fault>) {
    && Possible(b, next) && Checked(b, next, false, exit, contract, false)
    && (contract.Some? || (next.Threw? && next.fault.Contract?))
    && !(exit.Threw? && exit.fault.Contract?)
  }

  /** Disciplined middlewares are exactly those that never hide a violation. */
  lemma DisciplinedIsExact(b: Behaviour)
    requires b.Calls? ==> !b.abortsAfter
    ensures b.Disciplined() <==> forall next, exit, contract :: !Hides(b, next, exit, contract)
  {
    if !b.Disciplined() {
      var refused := Contract(if b.setsDestination then NotCalled else NoDestination);
      if b.call.Awaited? && b.call.onError.Replace? && !b.call.onError.fault.Contract? {
        assert Hides(b, Threw(refused), Threw(b.call.onError.fault), Some(refused));
      } else if b.call.Detached? || b.call.onError.Swallow? {
        assert Hides(b, Threw(refused), Threw(b.ending.fault), FirstNoted(b, Threw(refused)));
      } else {
        assert Hides(b, Done, Threw(b.ending.fault), Some(Contract(CalledTwice)));
      }
    }
  }
}
