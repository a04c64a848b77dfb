/** Middlewares nested through `next()` in a list, the first around all others: `use`, and `decode` along the path of a leaf. */
module Onion {
  import opened Middlewares
  import opened ContractCheck

  /** `visits` are the calls of the first of the middlewares `bs`, from the outermost on: a middleware that calls `next()` with its destination
      set starts the next one, and hears what it came to; the innermost call is that of the last middleware, or of one that starts nothing.
      `aborted`: the signal is aborted at the beginning. */
  ghost predicate Nested(bs: seq<Behaviour>, visits: seq<Visit>, aborted: bool) {
    if bs == [] then visits == []
    else if visits == [] || !Entered(bs[0], visits[0]) then false
    else if visits[0].started && |bs| > 1 then
      && Nested(bs[1..], visits[1..], aborted || bs[0].abortsBefore) && |visits| > 1
      && visits[0].next == visits[1].exit && visits[0].mid == visits[1].after
    else
      |visits| == 1 && (visits[0].started ==> visits[0].next == Done) && visits[0].mid == (aborted || bs[0].abortsBefore)
  }

  /** The call of one of them. */
  predicate Entered(b: Behaviour, v: Visit) {
    && (v.started <==> b.Calls? && b.setsDestination)
    && (b.Skips? ==> v.next == Done)
    && (b.Calls? && !b.setsDestination ==> v.next == Threw(Contract(NoDestination)))
    && v.after == (v.mid || (GoesOn(b, v.next) && b.abortsAfter))
  }

  /** Call `k` broke the contract, and neither its middleware nor one around it abandons its `next()`. */
  ghost predicate HeardAt(bs: seq<Behaviour>, visits: seq<Visit>, k: nat)
    requires |visits| <= |bs|
  {
    k < |visits| && Broke(bs[k], visits[k]) && forall j | 0 <= j <= k :: !bs[j].Abandons()
  }

  ghost predicate Heard(bs: seq<Behaviour>, visits: seq<Visit>)
    requires |visits| <= |bs|
  {
    exists k :: HeardAt(bs, visits, k)
  }

  /** A call ends in a contract error exactly when it does not abandon its `next()`, and broke the contract or was told of a breach. */
  ghost predicate Tells(b: Behaviour, v: Visit) {
    !v.after ==> ((v.exit.Threw? && v.exit.fault.Contract?) <==>
                  !b.Abandons() && (Broke(b, v) || (v.started && v.next.Threw? && v.next.fault.Contract?)))
  }

  lemma {:induction false} NestedFits(bs: seq<Behaviour>, visits: seq<Visit>, aborted: bool)
    requires Nested(bs, visits, aborted)
    ensures |visits| <= |bs| && (bs != [] ==> visits != [])
    ensures forall k | 0 <= k < |visits| :: Entered(bs[k], visits[k])
    ensures forall k | 0 <= k < |visits| - 1 :: bs[k].Calls? && bs[k].setsDestination
    ensures |visits| < |bs| ==> !visits[|visits| - 1].started
  {
    if bs != [] && visits[0].started && |bs| > 1 {
      NestedFits(bs[1..], visits[1..], aborted || bs[0].abortsBefore);
      forall k | 0 < k < |visits| ensures Entered(bs[k], visits[k]) && (k < |visits| - 1 ==> bs[k].Calls? && bs[k].setsDestination) {
        assert bs[k] == bs[1..][k - 1] && visits[k] == visits[1..][k - 1];
      }
      assert visits[|visits| - 1] == visits[1..][|visits| - 2];
    }
  }

  /** Where every call tells, the outermost one ends in a contract error exactly when a breach is heard. */
  lemma {:induction false} OutermostHears(bs: seq<Behaviour>, visits: seq<Visit>, aborted: bool)
    requires Nested(bs, visits, aborted) && bs != [] && |visits| <= |bs| && !visits[0].after
    requires forall k | 0 <= k < |visits| :: Tells(bs[k], visits[k])
    ensures (visits[0].exit.Threw? && visits[0].exit.fault.Contract?) <==> Heard(bs, visits)
  {
    assert Tells(bs[0], visits[0]);
    assert HeardAt(bs, visits, 0) <==> Broke(bs[0], visits[0]) && !bs[0].Abandons();
    if visits[0].started && |bs| > 1 {
      var bs', visits' := bs[1..], visits[1..];
      NestedFits(bs', visits', aborted || bs[0].abortsBefore);
      forall k | 0 <= k < |visits'| ensures Tells(bs'[k], visits'[k]) { assert Tells(bs[k + 1], visits[k + 1]); }
      OutermostHears(bs', visits', aborted || bs[0].abortsBefore);
      HeardOutside(bs, visits);
    }
  }

  lemma HeardOutside(bs: seq<Behaviour>, visits: seq<Visit>)
    requires 0 < |visits| <= |bs|
    ensures Heard(bs, visits) <==> !bs[0].Abandons() && (Broke(bs[0], visits[0]) || Heard(bs[1..], visits[1..]))
  {
    var bs', visits' := bs[1..], visits[1..];
    assert HeardAt(bs, visits, 0) <==> Broke(bs[0], visits[0]) && !bs[0].Abandons();
    forall k: nat ensures HeardAt(bs, visits, k + 1) <==> !bs[0].Abandons() && HeardAt(bs', visits', k) {
      if HeardAt(bs, visits, k + 1) {
        forall j | 0 <= j <= k ensures !bs'[j].Abandons() { assert !bs[j + 1].Abandons(); }
      }
      if !bs[0].Abandons() && HeardAt(bs', visits', k) {
        forall j | 0 <= j <= k + 1 ensures !bs[j].Abandons() { if j > 0 { assert !bs'[j - 1].Abandons(); } }
      }
    }
    if Heard(bs, visits) {
      var k: nat :| HeardAt(bs, visits, k);
      if k > 0 { assert HeardAt(bs', visits', k - 1); }
    }
    if Heard(bs', visits') && !bs[0].Abandons() {
      var k: nat :| HeardAt(bs', visits', k);
      assert HeardAt(bs, visits, k + 1);
    }
  }

  /** The first `k` middlewares start the next one, and the one after them breaks the rules in any case. */
  predicate BreaksAt(bs: seq<Behaviour>, k: nat) {
    k < |bs| && bs[k].BreaksAnyway() && forall j | 0 <= j < k :: bs[j].Calls? && bs[j].setsDestination
  }

  lemma BreaksHeard(bs: seq<Behaviour>, visits: seq<Visit>, aborted: bool, k: nat)
    requires Nested(bs, visits, aborted) && BreaksAt(bs, k) && |visits| <= |bs|
    ensures k < |visits| && Broke(bs[k], visits[k])
    ensures (forall j | 0 <= j <= k :: !bs[j].Abandons()) ==> Heard(bs, visits)
  {
    NestedFits(bs, visits, aborted);
    assert k < |visits|;
    if forall j | 0 <= j <= k :: !bs[j].Abandons() { assert HeardAt(bs, visits, k); }
  }

  /** The signal is aborted in the end only if it was at the beginning, or is while one of the middlewares called runs. */
  lemma {:induction false} WhoAborts(bs: seq<Behaviour>, visits: seq<Visit>, aborted: bool)
    requires Nested(bs, visits, aborted) && bs != []
    ensures aborted ==> visits[0].after
    ensures |visits| <= |bs| && (visits[0].after ==> aborted || exists k :: 0 <= k < |visits| && bs[k].Aborts())
  {
    if visits[0].started && |bs| > 1 {
      WhoAborts(bs[1..], visits[1..], aborted || bs[0].abortsBefore);
      forall k | 0 <= k < |visits| - 1 && bs[1..][k].Aborts() ensures bs[k + 1].Aborts() { }
    }
  }

  /** One more middleware around all others. */
  lemma NestOne(b: Behaviour, v: Visit, bs: seq<Behaviour>, visits: seq<Visit>, aborted: bool)
    requires Entered(b, v)
    requires if v.started && bs != [] then
               Nested(bs, visits, aborted || b.abortsBefore) && visits != [] && v.next == visits[0].exit && v.mid == visits[0].after
             else visits == [] && (v.started ==> v.next == Done) && v.mid == (aborted || b.abortsBefore)
    ensures Nested([b] + bs, [v] + visits, aborted)
  {
    assert ([b] + bs)[1..] == bs && ([v] + visits)[1..] == visits;
  }
}
