/** UniKvs.#use: the middlewares' `use` hooks, nested through `next()`. */
module Use {
  import opened Options
  import opened Middlewares
  import opened ContractCheck
  import opened Onion

  /** `use` has no destination to set. */
  function Hook(b: Behaviour): Behaviour {
    if b.Calls? then b.(setsDestination := true) else b
  }

  function Hooks(ms: seq<Behaviour>): (r: seq<Behaviour>)
    ensures |r| == |ms|
  {
    seq(|ms|, k requires 0 <= k < |ms| => Hook(ms[k]))
  }

  /** How `dispatch` settles around middleware `index`. */
  ghost predicate Settles(b: Behaviour, index: nat, v: Visit) {
    exists ex, contract :: Checked(b, v.next, v.mid, ex, contract, v.after) && Caught(b, index, v.next, ex, contract, v.after, v.exit)
  }

  /** The catch block. */
  predicate Caught(b: Behaviour, index: nat, next: Exit, ex: Exit, contract: Option<Fault>, aborted: bool, r: Exit) {
    match ex
    case Done => r == Done
    case Threw(fault) =>
      if aborted && fault.Aborted? then r == ex
      else if contract.Some? then r == Threw(contract.value)
      else if fault.Contract? then r == ex
      else if next == ex && Settled(b) then r == ex
      else r == Threw(Aggregated(index, fault))
  }

  /** What `dispatch(i)` does: the calls of the middlewares from `i` on, nested, each settled in its catch block. */
  ghost predicate Dispatched(ms: seq<Behaviour>, i: nat, r: Exit, visits: seq<Visit>, before: bool, after: bool)
    requires i <= |ms|
  {
    && Nested(Hooks(ms)[i..], visits, before) && |visits| <= |ms| - i
    && (forall k | 0 <= k < |visits| :: Settles(Hook(ms[i + k]), i + k, visits[k]))
    && (if i == |ms| then r == Done && after == before else visits != [] && r == visits[0].exit && after == visits[0].after)
  }

  /** One middleware and what is below it. */
  lemma Level(ms: seq<Behaviour>, i: nat, v: Visit, below: seq<Visit>, ex: Exit, contract: Option<Fault>, before: bool)
    requires i < |ms|
    requires var b := Hook(ms[i]);
             && v.started == b.Calls? && (b.Skips? ==> v.next == Done && below == [] && v.mid == (before || b.abortsBefore))
             && (b.Calls? ==> Dispatched(ms, i + 1, v.next, below, before || b.abortsBefore, v.mid))
             && Checked(b, v.next, v.mid, ex, contract, v.after) && Caught(b, i, v.next, ex, contract, v.after, v.exit)
    ensures Dispatched(ms, i, v.exit, [v] + below, before, v.after)
  {
    hide Checked, Caught, Nested;
    var b, bs := Hook(ms[i]), Hooks(ms);
    ChecksEnter(b, v, ex, contract);
    if b.Calls? { NestedFits(bs[i + 1..], below, before || b.abortsBefore); }
    NestOne(b, v, bs[i + 1..], below, before);
    assert bs[i..] == [b] + bs[i + 1..];
    forall k | 0 <= k < |[v] + below| ensures Settles(Hook(ms[i + k]), i + k, ([v] + below)[k]) {
      if k > 0 { assert Settles(Hook(ms[i + 1 + (k - 1)]), i + 1 + (k - 1), below[k - 1]); }
    }
  }

  lemma ChecksEnter(b: Behaviour, v: Visit, ex: Exit, contract: Option<Fault>)
    requires b == Hook(b) && v.started == b.Calls? && (b.Skips? ==> v.next == Done) && Checked(b, v.next, v.mid, ex, contract, v.after)
    ensures Entered(b, v)
  {
  }

  lemma SettlesTells(b: Behaviour, index: nat, v: Visit)
    requires Entered(b, v) && Settles(b, index, v)
    ensures Tells(b, v) && (v.after ==> v.exit.Threw?)
    ensures b.WellBehaved() && v.next.Done? && !v.mid ==> v.exit.Done? && !v.after
  {
    var ex, contract :| Checked(b, v.next, v.mid, ex, contract, v.after) && Caught(b, index, v.next, ex, contract, v.after, v.exit);
    if !v.after { BreachComesOut(b, v.next, v.started, v.mid, ex, contract); }
  }

  function Range(from: nat, to: nat): (r: seq<nat>)
    requires from <= to
    ensures |r| == to - from
  {
    seq(to - from, k requires 0 <= k => from + k)
  }

  lemma RangeStep(from: nat, to: nat)
    ensures Range(from, from) == []
    ensures from < to ==> Range(from, to) == [from] + Range(from + 1, to)
  {
  }

  class UseRun {
    const ms: seq<Behaviour>
    var aborted: bool
    /** The middlewares whose `use` was called, in call order. */
    ghost var ran: seq<nat>
    /** What happened at each of them. */
    ghost var visits: seq<Visit>

    constructor (ms: seq<Behaviour>, aborted: bool)
      ensures this.ms == ms && this.aborted == aborted && ran == [] && visits == []
    {
      this.ms, this.aborted, ran, visits := ms, aborted, [], [];
    }

    /** The catch block around `middleware.use`. */
    method Catch(b: Behaviour, index: nat, next: Exit, ex: Exit, contract: Option<Fault>) returns (r: Exit)
      ensures Caught(b, index, next, ex, contract, aborted, r)
    {
      if ex.Done? { return Done; }
      if aborted && ex.fault.Aborted? { return ex; }
      var held := Record(contract, ex.fault);
      if held.Some? { return Threw(held.value); }
      var hasDownstreamError := Settled(b) && next.Threw?;
      if hasDownstreamError && ex.fault == next.fault { return ex; }
      return Threw(Aggregated(index, ex.fault));
    }

    method Dispatch(i: nat) returns (r: Exit, ghost calls: seq<Visit>)
      requires i <= |ms|
      modifies this`aborted, this`ran
      ensures Dispatched(ms, i, r, calls, old(aborted), aborted) && ran == old(ran) + Range(i, i + |calls|)
      decreases |ms| - i
    {
      hide Dispatched, Checked, Caught, Range;
      calls := [];
      RangeStep(i, i);
      if i == |ms| {
        EndOfList(ms, aborted);
        return Done, [];
      }
      var b := Hook(ms[i]);
      ghost var before := aborted;
      ran := ran + [i];
      aborted := aborted || b.abortsBefore;
      var next: Exit := Done;
      if b.Calls? {
        next, calls := Dispatch(i + 1);
      }
      ghost var mid := aborted;
      var ex, contract;
      ex, contract, aborted := AwaitChecked(b, next, aborted);
      r := Catch(b, i, next, ex, contract);
      ghost var v := Visit(next, b.Calls?, mid, r, aborted);
      Level(ms, i, v, calls, ex, contract, before);
      RangeStep(i, i + 1 + |calls|);
      calls := [v] + calls;
    }
  }

  lemma EndOfList(ms: seq<Behaviour>, aborted: bool)
    ensures Dispatched(ms, |ms|, Done, [], aborted, aborted)
  {
  }

  /** What comes out of the outermost call. */
  lemma OutermostCall(ms: seq<Behaviour>, r: Exit, visits: seq<Visit>, after: bool)
    requires Dispatched(ms, 0, r, visits, false, after)
    ensures Nested(Hooks(ms), visits, false) && |visits| <= |ms|
    ensures forall k | 0 <= k < |visits| :: Settles(Hook(ms[k]), k, visits[k])
    ensures ms == [] ==> r == Done && !after
    ensures ms != [] ==> visits != [] && r == visits[0].exit && after == visits[0].after && (after ==> r.Threw?)
    ensures !after ==> ((r.Threw? && r.fault.Contract?) <==> Heard(Hooks(ms), visits))
    ensures (forall k | 0 <= k < |ms| :: !Hook(ms[k]).Aborts()) ==> !after
  {
    hide Settles, Nested, Tells, Heard;
    var bs := Hooks(ms);
    assert bs[0..] == bs;
    NestedFits(bs, visits, false);
    forall k | 0 <= k < |visits| ensures Tells(bs[k], visits[k]) && (visits[k].after ==> visits[k].exit.Threw?) {
      assert Settles(Hook(ms[0 + k]), 0 + k, visits[k]);
      SettlesTells(bs[k], k, visits[k]);
    }
    if ms == [] {
      NobodyHears(bs, visits);
    } else {
      WhoAborts(bs, visits, false);
      if !after { OutermostHears(bs, visits, false); }
    }
  }

  lemma NobodyHears(bs: seq<Behaviour>, visits: seq<Visit>)
    requires |visits| <= |bs|
    ensures visits == [] ==> !Heard(bs, visits)
  {
  }

  /** Well-behaved middlewares all run, and nothing fails. */
  lemma {:induction false} AllWell(ms: seq<Behaviour>, i: nat, r: Exit, visits: seq<Visit>, after: bool)
    requires i <= |ms| && Dispatched(ms, i, r, visits, false, after) && forall k | i <= k < |ms| :: Hook(ms[k]).WellBehaved()
    ensures r == Done && !after && |visits| == |ms| - i
    decreases |ms| - i
  {
    if i < |ms| {
      var v, bs := visits[0], Hooks(ms);
      assert Settles(Hook(ms[i + 0]), i + 0, visits[0]) && bs[i..][0] == Hook(ms[i]) && bs[i..][1..] == bs[i + 1..];
      if i + 1 < |ms| {
        forall k | 0 <= k < |visits[1..]| ensures Settles(Hook(ms[i + 1 + k]), i + 1 + k, visits[1..][k]) {
          assert Settles(Hook(ms[i + (k + 1)]), i + (k + 1), visits[k + 1]);
        }
        AllWell(ms, i + 1, v.next, visits[1..], v.mid);
      }
      SettlesTells(Hook(ms[i]), i, v);
    }
  }

  /** `use` lets the operation go on. */
  ghost predicate Passes(ms: seq<Behaviour>, aborted: bool) {
    !aborted && exists visits :: Dispatched(ms, 0, Done, visits, false, false)
  }

  /** `use` can end with `r`, and the signal be aborted then or not. */
  ghost predicate Outcome(ms: seq<Behaviour>, aborted: bool, r: Exit, after: bool) {
    if aborted then r == Threw(Aborted) && after else exists visits :: Dispatched(ms, 0, r, visits, false, after)
  }

  lemma SettlesOneWay(b: Behaviour, index: nat, v: Visit, w: Visit)
    requires Settles(b, index, v) && Settles(b, index, w) && v.next == w.next && v.mid == w.mid
    ensures v.exit == w.exit && v.after == w.after
  {
  }

  /** The middlewares and the signal decide how `use` ends. */
  lemma {:induction false} OneOutcome(ms: seq<Behaviour>, i: nat, r: Exit, visits: seq<Visit>, r': Exit, visits': seq<Visit>,
                                      before: bool, after: bool, after': bool)
    requires i <= |ms| && Dispatched(ms, i, r, visits, before, after) && Dispatched(ms, i, r', visits', before, after')
    ensures r == r' && after == after'
    decreases |ms| - i
  {
    hide Settles;
    if i < |ms| {
      var b, v, w := Hook(ms[i]), visits[0], visits'[0];
      FirstAndRest(ms, i, r, visits, before, after);
      FirstAndRest(ms, i, r', visits', before, after');
      if b.Calls? {
        OneOutcome(ms, i + 1, v.next, visits[1..], w.next, visits'[1..], before || b.abortsBefore, v.mid, w.mid);
      }
      SettlesOneWay(b, i, v, w);
    }
  }

  /** The call of the first middleware, around what is dispatched below it. */
  lemma FirstAndRest(ms: seq<Behaviour>, i: nat, r: Exit, visits: seq<Visit>, before: bool, after: bool)
    requires i < |ms| && Dispatched(ms, i, r, visits, before, after)
    ensures visits != [] && Entered(Hook(ms[i]), visits[0]) && Settles(Hook(ms[i]), i, visits[0]) && r == visits[0].exit && after == visits[0].after
    ensures if Hook(ms[i]).Calls? then Dispatched(ms, i + 1, visits[0].next, visits[1..], before || Hook(ms[i]).abortsBefore, visits[0].mid)
            else visits[0].next == Done && visits[0].mid == (before || Hook(ms[i]).abortsBefore)
  {
    hide Settles;
    var v, bs := visits[0], Hooks(ms);
    assert Settles(Hook(ms[i + 0]), i + 0, visits[0]) && bs[i..][0] == Hook(ms[i]) && bs[i..][1..] == bs[i + 1..];
    if Hook(ms[i]).Calls? {
      forall k | 0 <= k < |visits[1..]| ensures Settles(Hook(ms[i + 1 + k]), i + 1 + k, visits[1..][k]) {
        assert Settles(Hook(ms[i + (k + 1)]), i + (k + 1), visits[k + 1]);
      }
    }
  }

  lemma PassesExactly(ms: seq<Behaviour>, r: Exit, visits: seq<Visit>, after: bool)
    requires Dispatched(ms, 0, r, visits, false, after)
    ensures r.Done? && !after <==> Passes(ms, false)
  {
    hide Dispatched;
    if other :| Dispatched(ms, 0, Done, other, false, false) { OneOutcome(ms, 0, r, visits, Done, other, false, after, false); }
  }

  lemma AbortedStops(ms: seq<Behaviour>)
    ensures !Passes(ms, true)
  {
  }

  /** A guard: it throws without calling `next()`, and those around it neither swallow nor drop what comes back to them. */
  predicate Guarded(ms: seq<Behaviour>, k: nat) {
    && k < |ms| && Hook(ms[k]).Skips? && Hook(ms[k]).ending.Throws?
    && forall j | 0 <= j < k :: Hook(ms[j]).Calls? && Hook(ms[j]).Forwards()
  }

  /** `use` does not let the operation pass a guard. */
  lemma GuardStops(ms: seq<Behaviour>, k: nat, aborted: bool)
    requires Guarded(ms, k)
    ensures !Passes(ms, aborted)
  {
    forall visits ensures !Dispatched(ms, 0, Done, visits, false, false) {
      if Dispatched(ms, 0, Done, visits, false, false) { ThrowsDownTo(ms, 0, k, Done, visits, false, false); }
    }
  }

  lemma {:induction false} ThrowsDownTo(ms: seq<Behaviour>, i: nat, k: nat, r: Exit, visits: seq<Visit>, before: bool, after: bool)
    requires i <= k && Guarded(ms, k) && Dispatched(ms, i, r, visits, before, after)
    ensures r.Threw?
    decreases k - i
  {
    hide Settles;
    FirstAndRest(ms, i, r, visits, before, after);
    if i < k { ThrowsDownTo(ms, i + 1, k, visits[0].next, visits[1..], before || Hook(ms[i]).abortsBefore, visits[0].mid); }
    PassesOnThrow(Hook(ms[i]), i, visits[0]);
  }

  /** What throws itself, or gets a fault from below and forwards it, ends in a fault. */
  lemma PassesOnThrow(b: Behaviour, index: nat, v: Visit)
    requires Settles(b, index, v)
    requires (b.Skips? && b.ending.Throws?) || (b.Calls? && b.Forwards() && v.next.Threw?)
    ensures v.exit.Threw?
  {
  }

  /** Middleware `k` throws `fault` of its own, while those around it only rethrow and those below it, if it starts them, behave well. */
  predicate ThrowsAlone(ms: seq<Behaviour>, k: nat, fault: Fault) {
    && k < |ms| && !fault.Contract? && Hook(ms[k]).ending == Throws(fault) && !Hook(ms[k]).abortsBefore
    && (Hook(ms[k]).Calls? ==> Hook(ms[k]).call.Awaited? && !Hook(ms[k]).again && !Hook(ms[k]).abortsAfter
                               && forall j | k < j < |ms| :: Hook(ms[j]).WellBehaved())
    && forall j | 0 <= j < k :: Hook(ms[j]).Calls? && Hook(ms[j]).call == Awaited(Rethrow) && !Hook(ms[j]).abortsBefore
  }

  /** Such a fault comes out wrapped once, with the middleware that threw it. */
  lemma {:induction false} WrappedOnce(ms: seq<Behaviour>, i: nat, k: nat, fault: Fault, r: Exit, visits: seq<Visit>, after: bool)
    requires i <= k && ThrowsAlone(ms, k, fault) && Dispatched(ms, i, r, visits, false, after)
    ensures r == Threw(Aggregated(k, fault)) && !after
    decreases k - i
  {
    hide Settles;
    var b := Hook(ms[i]);
    FirstAndRest(ms, i, r, visits, false, after);
    if i < k {
      WrappedOnce(ms, i + 1, k, fault, visits[0].next, visits[1..], visits[0].mid);
      RethrowsAsIs(b, i, visits[0]);
    } else {
      if b.Calls? { AllWell(ms, i + 1, visits[0].next, visits[1..], visits[0].mid); }
      WrapsOwn(b, i, visits[0], fault);
    }
  }

  lemma RethrowsAsIs(b: Behaviour, index: nat, v: Visit)
    requires b == Hook(b) && b.Calls? && b.call == Awaited(Rethrow) && !v.mid && v.next.Threw? && !v.next.fault.Contract? && Settles(b, index, v)
    ensures v.exit == v.next && !v.after
  {
  }

  lemma WrapsOwn(b: Behaviour, index: nat, v: Visit, fault: Fault)
    requires b == Hook(b) && !v.mid && v.next.Done? && !fault.Contract? && b.ending == Throws(fault) && Settles(b, index, v)
    requires b.Calls? ==> b.call.Awaited? && !b.again && !b.abortsAfter
    ensures v.exit == Threw(Aggregated(index, fault)) && !v.after
  {
  }

  /** Where every fault is forwarded, `use` lets the operation pass exactly if every middleware behaves well. */
  lemma ForwardingPasses(ms: seq<Behaviour>)
    requires forall k | 0 <= k < |ms| :: Hook(ms[k]).Forwards()
    ensures Passes(ms, false) ==> forall k | 0 <= k < |ms| :: Hook(ms[k]).WellBehaved()
  {
    if visits :| Dispatched(ms, 0, Done, visits, false, false) { PassesWell(ms, 0, Done, visits, false, false); }
  }

  lemma {:induction false} PassesWell(ms: seq<Behaviour>, i: nat, r: Exit, visits: seq<Visit>, before: bool, after: bool)
    requires i <= |ms| && Dispatched(ms, i, r, visits, before, after) && r.Done? && !after && forall k | 0 <= k < |ms| :: Hook(ms[k]).Forwards()
    ensures !before && forall k | i <= k < |ms| :: Hook(ms[k]).WellBehaved()
    decreases |ms| - i
  {
    hide Settles;
    if i < |ms| {
      FirstAndRest(ms, i, r, visits, before, after);
      WellIfDone(Hook(ms[i]), i, visits[0]);
      PassesWell(ms, i + 1, visits[0].next, visits[1..], before || Hook(ms[i]).abortsBefore, visits[0].mid);
    }
  }

  lemma WellIfDone(b: Behaviour, index: nat, v: Visit)
    requires Entered(b, v) && Settles(b, index, v) && b.Forwards() && v.exit.Done? && !v.after && (b.Calls? ==> b.setsDestination)
    ensures b.Calls? && v.next.Done? && !v.mid && !b.again && !b.abortsAfter && b.ending.Returns?
  {
  }

  /** `#use` */
  method RunUse(ms: seq<Behaviour>, aborted: bool) returns (r: Exit, run: UseRun)
    ensures fresh(run)
    ensures aborted ==> r == Threw(Aborted) && run.aborted && run.visits == []
    // Each `use` runs at most once, in list order, without gaps. `run.visits` is what happened at each: the calls are nested, and each is
    // settled by the checks and the catch block after it.
    ensures |run.visits| <= |ms| && run.ran == Range(0, |run.visits|)
    ensures !aborted ==> Nested(Hooks(ms), run.visits, false) && forall k | 0 <= k < |run.visits| :: Settles(Hook(ms[k]), k, run.visits[k])
    ensures Outcome(ms, aborted, r, run.aborted) && (r.Done? && !run.aborted <==> Passes(ms, aborted))
    ensures !aborted && ms != [] ==> run.visits != [] && r == run.visits[0].exit && run.aborted == run.visits[0].after
    ensures !aborted && ms == [] ==> r == Done && !run.aborted
    // Fail-close, exactly: without an abort, it rejects with a contract error iff some middleware broke the contract and
    // neither it nor one above it abandoned its `next()`.
    ensures !run.aborted ==> ((r.Threw? && r.fault.Contract?) <==> Heard(Hooks(ms), run.visits))
    ensures run.aborted && ms != [] ==> r.Threw?
    // So the first middleware that breaks the rules in any case fails the operation, unless it or one above it abandons its `next()`.
    ensures forall k | BreaksAt(Hooks(ms), k) && (forall j | 0 <= j <= k :: !Hook(ms[j]).Abandons()) :: r.Threw? && (run.aborted || r.fault.Contract?)
    // A fault that one middleware throws, and those around it rethrow, names that middleware.
    ensures forall k, fault | !aborted && ThrowsAlone(ms, k, fault) :: r == Threw(Aggregated(k, fault)) && !run.aborted
    ensures !aborted && (forall k | 0 <= k < |ms| :: !Hook(ms[k]).Aborts()) ==> !run.aborted
    ensures !aborted && (forall k | 0 <= k < |ms| :: Hook(ms[k]).WellBehaved()) ==> r.Done? && run.ran == Range(0, |ms|) && !run.aborted
  {
    hide Nested, Settles, Heard, Range, Passes, Dispatched, Hook, ThrowsAlone;
    run := new UseRun(ms, aborted);
    RangeStep(0, 0);
    if aborted {
      AbortedStops(ms);
      return Threw(Aborted), run;
    }
    ghost var calls;
    r, calls := run.Dispatch(0);
    run.visits := calls;
    OutermostCall(ms, r, calls, run.aborted);
    PassesExactly(ms, r, calls, run.aborted);
    forall k | BreaksAt(Hooks(ms), k) && (forall j | 0 <= j <= k :: !Hook(ms[j]).Abandons()) ensures r.Threw? && (run.aborted || r.fault.Contract?) {
      BreaksHeard(Hooks(ms), calls, false, k);
    }
    forall k, fault | ThrowsAlone(ms, k, fault) ensures r == Threw(Aggregated(k, fault)) && !run.aborted {
      WrappedOnce(ms, 0, k, fault, r, calls, run.aborted);
    }
    if forall k | 0 <= k < |ms| :: Hook(ms[k]).WellBehaved() { AllWell(ms, 0, r, calls, run.aborted); }
  }

  /** Where fail-close fails: the last of three middlewares never calls `next()`, the second fails without waiting for it, the first swallows
      that failure, and `use` succeeds. */
  method UnheardBreach() returns (r: Exit, run: UseRun)
    ensures |run.visits| == 3 && Broke(Skips(false, Returns), run.visits[2]) && r == Done && !run.aborted
  {
    var ms := [Calls(false, true, Awaited(Swallow), false, false, Returns),
               Calls(false, true, Detached(false), false, false, Throws(Failed(0))), Skips(false, Returns)];
    r, run := RunUse(ms, false);
    BreaksHeard(Hooks(ms), run.visits, false, 2);
    assert Settles(Hook(ms[1]), 1, run.visits[1]) && Settles(Hook(ms[0]), 0, run.visits[0]);
  }
}
