/** PipelineGraph.decode: a leaf's chain backwards, and LeafResolver.resolve: a leaf's key. */
module Decode {
  import opened Sequences
  import opened PipelineTrie
  import opened Options
  import opened Middlewares
  import opened ContractCheck
  import opened Onion

  /** The nodes on the path of a leaf behave well. */
  ghost predicate WellBehavedAlong(env: Env, path: seq<Mw>) {
    forall i | 0 < i <= |path| :: env.behave(path[..i]).WellBehaved()
  }

  ghost predicate DisciplinedAlong(env: Env, path: seq<Mw>) {
    forall i | 0 < i <= |path| :: env.behave(path[..i]).Disciplined()
  }

  /** Some node on the path swallows a fault of its downstream. */
  ghost predicate SwallowsAt(env: Env, path: seq<Mw>, i: nat) {
    0 < i <= |path| && env.behave(path[..i]).Calls? &&
    (env.behave(path[..i]).call.Detached? || env.behave(path[..i]).call.onError.Swallow?)
  }

  lemma {:induction false} DecodeLastFirst(env: Env, chain: seq<Mw>, data: Data)
    requires chain != []
    ensures DecodeAlong(env, chain, data) == DecodeAlong(env, chain[..|chain| - 1], env.decode(chain[|chain| - 1], data))
  {
    if |chain| > 1 {
      DecodeLastFirst(env, chain[1..], data);
      assert chain[1..][..|chain| - 2] == chain[..|chain| - 1][1..];
    }
  }

  /** The middlewares of the nodes `path[..i]` down to the root, the node nearest the leaf first. */
  function Upwards(env: Env, path: seq<Mw>, i: nat): (r: seq<Behaviour>)
    requires i <= |path|
    ensures |r| == i
  {
    seq(i, j requires 0 <= j < i => env.behave(path[..i - j]))
  }

  /** The call ends as the checks after it have it. */
  ghost predicate Ends(b: Behaviour, v: Visit) {
    exists contract :: Checked(b, v.next, v.mid, v.exit, contract, v.after)
  }

  /** What `run` does on the nodes `path[..i]`: the calls of their middlewares, nested, each with its checks. */
  ghost predicate Decoded(env: Env, path: seq<Mw>, i: nat, r: Exit, visits: seq<Visit>, before: bool, after: bool)
    requires i <= |path|
  {
    && Nested(Upwards(env, path, i), visits, before) && |visits| <= i
    && (forall k | 0 <= k < |visits| :: Ends(env.behave(path[..i - k]), visits[k]))
    && (if i == 0 then r == Done && after == before else visits != [] && r == visits[0].exit && after == visits[0].after)
  }

  /** From node `i` the data came down to the root's side of node `k`: there the downstream failed, or `k` is 0. */
  ghost predicate CameTo(visits: seq<Visit>, i: nat, k: nat) {
    && k <= i && (k > 0 ==> i - k - 1 < |visits| && 0 <= i - k - 1 && visits[i - k - 1].next.Threw?)
    && forall j | 0 <= j < |visits| && (k == 0 || j < i - k - 1) :: visits[j].next.Done?
  }

  lemma CameOn(v: Visit, below: seq<Visit>, i: nat, k: nat)
    requires i > 0
    ensures v.next.Done? && CameTo(below, i - 1, k) ==> CameTo([v] + below, i, k)
    ensures v.next.Threw? && i > 1 ==> CameTo([v] + below, i, i - 1)
  {
  }

  /** What `decode` comes to, by some log of the middlewares called. The decoders from the leaf up to where a dropped fault came from have been
      applied. */
  ghost predicate Outcome(env: Env, path: seq<Mw>, data: Data, before: bool, r: Exit, out: Data, after: bool) {
    exists visits :: Decoded(env, path, |path|, r, visits, before, after) && (r.Done? ==> MadeBy(env, path, data, out, visits))
  }

  ghost predicate MadeBy(env: Env, path: seq<Mw>, data: Data, out: Data, visits: seq<Visit>) {
    exists k | 0 <= k <= |path| :: CameTo(visits, |path|, k) && out == DecodeAlong(env, path[k..], data)
  }

  lemma CameNowhere()
    ensures CameTo([], 0, 0)
  {
  }

  lemma Level(env: Env, path: seq<Mw>, i: nat, v: Visit, below: seq<Visit>, contract: Option<Fault>, before: bool)
    requires 0 < i <= |path|
    requires var b := env.behave(path[..i]);
             && v.started == (b.Calls? && b.setsDestination)
             && (if v.started then Decoded(env, path, i - 1, v.next, below, before || b.abortsBefore, v.mid)
                 else below == [] && v.mid == (before || b.abortsBefore) && v.next == if b.Calls? then Threw(Contract(NoDestination)) else Done)
             && Checked(b, v.next, v.mid, v.exit, contract, v.after)
    ensures Decoded(env, path, i, v.exit, [v] + below, before, v.after)
  {
    hide Checked, Nested;
    var b, bs := env.behave(path[..i]), Upwards(env, path, i - 1);
    ChecksEnter(b, v, contract);
    if v.started { NestedFits(bs, below, before || b.abortsBefore); }
    NestOne(b, v, if v.started then bs else [], below, before);
    if v.started {
      assert Upwards(env, path, i) == [b] + bs;
    } else {
      StartsNothing(b, v, Upwards(env, path, i), before);
    }
    forall k | 0 <= k < |[v] + below| ensures Ends(env.behave(path[..i - k]), ([v] + below)[k]) {
      if k > 0 { assert Ends(env.behave(path[..i - 1 - (k - 1)]), below[k - 1]); }
    }
  }

  lemma StartsNothing(b: Behaviour, v: Visit, bs: seq<Behaviour>, before: bool)
    requires bs != [] && bs[0] == b && Entered(b, v) && !v.started && v.mid == (before || b.abortsBefore)
    ensures Nested(bs, [v] + [], before)
  {
  }

  lemma ChecksEnter(b: Behaviour, v: Visit, contract: Option<Fault>)
    requires v.started == (b.Calls? && b.setsDestination) && Checked(b, v.next, v.mid, v.exit, contract, v.after)
    requires !v.started ==> v.next == if b.Calls? then Threw(Contract(NoDestination)) else Done
    ensures Entered(b, v)
  {
  }

  lemma EndsTells(b: Behaviour, v: Visit)
    requires Entered(b, v) && Ends(b, v)
    ensures b.Disciplined() ==> Tells(b, v)
    ensures v.after ==> v.exit.Threw?
  {
    var contract :| Checked(b, v.next, v.mid, v.exit, contract, v.after);
    if b.Disciplined() && !v.after { BreachPassedOn(b, v.next, v.started, v.mid, v.exit, contract); }
  }

  lemma WellIfDone(b: Behaviour, v: Visit, contract: Option<Fault>)
    requires Checked(b, v.next, v.mid, v.exit, contract, v.after) && v.exit.Done? && b.Forwards()
    requires b.Calls? && !b.setsDestination ==> v.next.Threw?
    ensures b.Calls? && v.next.Done? && b.setsDestination && !v.mid && !b.again && !b.abortsAfter && b.ending.Returns?
  {
  }

  /** What comes out at the leaf. */
  lemma OutermostCall(env: Env, path: seq<Mw>, r: Exit, visits: seq<Visit>, before: bool, after: bool)
    requires Decoded(env, path, |path|, r, visits, before, after)
    ensures var bs := Upwards(env, path, |path|);
            && (after && path != [] ==> r.Threw?)
            && (DisciplinedAlong(env, path) && !after ==> ((r.Threw? && r.fault.Contract?) <==> SomeBroke(bs, visits)))
            && (forall k | BreaksAt(bs, k) :: SomeBroke(bs, visits))
            && (!before && (forall k | 0 <= k < |bs| :: !bs[k].Aborts()) ==> !after)
  {
    hide Ends, Nested, Tells;
    var bs := Upwards(env, path, |path|);
    NestedFits(bs, visits, before);
    forall k | BreaksAt(bs, k) ensures SomeBroke(bs, visits) { BreaksHeard(bs, visits, before, k); }
    if path != [] {
      forall k | 0 <= k < |visits|
        ensures (visits[k].after ==> visits[k].exit.Threw?) && (DisciplinedAlong(env, path) ==> Tells(bs[k], visits[k]) && !bs[k].Abandons())
      {
        EndsTells(bs[k], visits[k]);
      }
      WhoAborts(bs, visits, before);
      if DisciplinedAlong(env, path) && !after {
        OutermostHears(bs, visits, before);
        if SomeBroke(bs, visits) {
          var k: nat :| k < |visits| && Broke(bs[k], visits[k]);
          assert HeardAt(bs, visits, k);
        }
      }
    }
  }

  /** Some call broke the contract. */
  ghost predicate SomeBroke(bs: seq<Behaviour>, visits: seq<Visit>)
    requires |visits| <= |bs|
  {
    exists k :: 0 <= k < |visits| && Broke(bs[k], visits[k])
  }

  /** One call of `decode`. */
  class DecodeRun {
    const env: Env
    var aborted: bool
    /** What happened at the middlewares called, the one nearest the leaf first. */
    ghost var visits: seq<Visit>

    constructor (env: Env, aborted: bool)
      ensures this.env == env && this.aborted == aborted && visits == []
    {
      this.env, this.aborted, visits := env, aborted, [];
    }

    /** `run`: the nodes `path[..i]` down to the root, the node nearest the leaf first. `k` tells how far the data got: the
        decoders of `path[k..i]` made `out`. */
    method Run(path: seq<Mw>, i: nat, data: Data) returns (r: Exit, out: Data, ghost k: nat, ghost calls: seq<Visit>)
      requires i <= |path|
      modifies this`aborted
      ensures Decoded(env, path, i, r, calls, old(aborted), aborted)
      ensures old(aborted) ==> aborted
      ensures WellBehavedAlong(env, path) && !old(aborted) ==> r.Done? && k == 0 && !aborted
      ensures (old(aborted) && i > 0 ==> r.Threw?) && (i == 0 ==> r.Done?)
      ensures r.Done? && (forall j :: !SwallowsAt(env, path, j)) ==> forall j | 0 < j <= i :: env.behave(path[..j]).WellBehaved()
      ensures r.Done? ==> k <= i && CameTo(calls, i, k) && out == DecodeAlong(env, path[k..i], data) && (k == 0 || SwallowsAt(env, path, k + 1))
      decreases i
    {
      hide Decoded, CameTo;
      out, k, calls := data, i, [];
      if i == 0 {
        NoneCalled(env, path, aborted);
        CameNowhere();
        return Done, data, 0, [];
      }
      assert path[i..i] == [];
      var b := env.behave(path[..i]);
      ghost var before := aborted;
      if b.abortsBefore { aborted := true; }
      var decoded := env.decode(path[i - 1], data);
      var next: Exit, hasDownstream := Done, false;
      var downstream := decoded;
      ghost var k' := i - 1;
      if b.Calls? {
        if !b.setsDestination {
          next := Threw(Contract(NoDestination));
        } else {
          next, downstream, k', calls := Run(path, i - 1, decoded);
          hasDownstream := next.Done? && b.call != Detached(false);
        }
      }
      ghost var mid := aborted;
      var contract;
      r, contract, aborted := AwaitChecked(b, next, aborted);
      ghost var v := Visit(next, b.Calls? && b.setsDestination, mid, r, aborted);
      Level(env, path, i, v, calls, contract, before);
      if r.Done? { CameOn(v, calls, i, k'); }
      calls := [v] + calls;
      if r.Done? && !SwallowsAt(env, path, i) { WellIfDone(b, v, contract); }
      if r.Done? {
        k := if hasDownstream then k' else i - 1;
        out := if hasDownstream then downstream else decoded;
        DecodeLastFirst(env, path[k..i], data);
        assert path[k..i][..i - k - 1] == path[k..i - 1] && path[i - 1..i - 1] == [];
      }
    }

    /** `PipelineGraph.decode` */
    method DecodeLeaf(leaf: Leaf, data: Data) returns (r: Exit, out: Data)
      modifies this
      ensures WellBehavedAlong(env, leaf.path) && !old(aborted) ==> r.Done? && !aborted
      ensures r.Done? && (WellBehavedAlong(env, leaf.path) || (forall i :: !SwallowsAt(env, leaf.path, i))) ==>
                out == DecodeAlong(env, leaf.path, data)
      // In general the decoders from the leaf up to where a dropped fault came from have been applied.
      ensures r.Done? ==> MadeBy(env, leaf.path, data, out, visits)
      ensures Outcome(env, leaf.path, data, old(aborted), r, out, aborted)
      // Where no fault is dropped, it succeeds only if every middleware behaves well.
      ensures r.Done? && (forall i :: !SwallowsAt(env, leaf.path, i)) ==> WellBehavedAlong(env, leaf.path) && (old(aborted) ==> leaf.path == [])
      // `visits` is what happened at each middleware: the calls are nested, and each ends with its checks.
      ensures Decoded(env, leaf.path, |leaf.path|, r, visits, old(aborted), aborted)
      // Fail-close, exactly: without an abort, and when all middlewares are disciplined, it fails with a contract error iff some middleware
      // broke the contract.
      ensures DisciplinedAlong(env, leaf.path) && !aborted ==>
                ((r.Threw? && r.fault.Contract?) <==> SomeBroke(Upwards(env, leaf.path, |leaf.path|), visits))
      // So a middleware that is started and breaks the rules in any case fails the operation.
      ensures DisciplinedAlong(env, leaf.path) && (exists k :: BreaksAt(Upwards(env, leaf.path, |leaf.path|), k)) ==>
                r.Threw? && (aborted || r.fault.Contract?)
      ensures !old(aborted) && (forall i | 0 < i <= |leaf.path| :: !env.behave(leaf.path[..i]).Aborts()) ==> !aborted
    {
      hide BreaksAt, Nested, SwallowsAt, DecodeAlong, Ends, Broke, CameTo;
      ghost var k;
      r, out, k, visits := Run(leaf.path, |leaf.path|, data);
      assert leaf.path[0..|leaf.path|] == leaf.path;
      OutermostCall(env, leaf.path, r, visits, old(aborted), aborted);
    }
  }

  lemma NoneCalled(env: Env, path: seq<Mw>, aborted: bool)
    ensures Decoded(env, path, 0, Done, [], aborted, aborted)
  {
  }

  lemma {:induction false} KeyLast(env: Env, chain: seq<Mw>, key: Key)
    requires chain != []
    ensures KeyAlong(env, chain, key) == env.mapKey(chain[|chain| - 1], KeyAlong(env, chain[..|chain| - 1], key))
  {
    if |chain| > 1 {
      KeyLast(env, chain[1..], env.mapKey(chain[0], key));
      assert chain[1..][..|chain| - 2] == chain[..|chain| - 1][1..];
    }
  }

  /** LeafResolver: the mapped keys of the nodes on the way to a leaf, each computed once in an operation. */
  class LeafResolver {
    const env: Env
    const rootKey: Key
    var nodeCache: map<seq<Mw>, Key>
    /** The nodes `mapKey` was called for, in call order. */
    ghost var mapped: seq<seq<Mw>>

    /** Every cached key is the key `encode` gives the node, and `mapKey` ran exactly once for each cached node. */
    ghost predicate Valid()
      reads this
    {
      && (forall q | q in nodeCache :: nodeCache[q] == KeyAlong(env, q, rootKey))
      && (forall q :: q in nodeCache <==> q in mapped) && Distinct(mapped) && forall q | q in mapped :: env.mapKeyFault(q).None?
    }

    constructor (env: Env, rootKey: Key)
      ensures Valid() && this.env == env && this.rootKey == rootKey && mapped == []
    {
      this.env, this.rootKey := env, rootKey;
      nodeCache, mapped := map[], [];
    }

    /** One node of `resolve`: the cached key, or `mapKey` on the key of the node above. */
    method ResolveNode(node: seq<Mw>, above: Key) returns (r: Exit, key: Key)
      requires Valid() && node != [] && above == KeyAlong(env, node[..|node| - 1], rootKey)
      modifies this
      ensures Valid()
      ensures r == if env.mapKeyFault(node).Some? then Threw(env.mapKeyFault(node).value) else Done
      ensures r.Done? ==> key == KeyAlong(env, node, rootKey)
      ensures mapped == old(mapped) + if node in old(mapped) || r.Threw? then [] else [node]
    {
      KeyLast(env, node, rootKey);
      r, key := Done, above;
      assert mapped == old(mapped) + [];
      if node in nodeCache {
        key := nodeCache[node];
      } else if env.mapKeyFault(node).Some? {
        r := Threw(env.mapKeyFault(node).value);
      } else {
        key := env.mapKey(node[|node| - 1], above);
        nodeCache := nodeCache[node := key];
        mapped := mapped + [node];
      }
    }

    /** `resolve` */
    method Resolve(leaf: Leaf) returns (r: Exit, key: Key)
      requires Valid()
      modifies this
      ensures Valid() && old(mapped) <= mapped
      ensures r.Done? ==> key == KeyAlong(env, leaf.path, rootKey)
      ensures r.Done? ==> forall q :: q in mapped <==> q in old(mapped) || OnPath(q, leaf.path)
      // It fails exactly with the fault of the first node that `mapKey` fails on.
      ensures if r.Done? then Maps(env, leaf.path) else MapFails(env, leaf.path, r.fault)
    {
      hide KeyAlong, OnPath, Distinct;
      key := rootKey;
      NothingOnPath(env, leaf.path, rootKey);
      for i := 0 to |leaf.path|
        invariant Valid() && key == KeyAlong(env, leaf.path[..i], rootKey) && old(mapped) <= mapped
        invariant forall q :: q in mapped <==> q in old(mapped) || OnPath(q, leaf.path[..i])
        invariant forall j | 0 < j <= i :: env.mapKeyFault(leaf.path[..j]).None?
      {
        assert leaf.path[..i + 1][..i] == leaf.path[..i];
        OnPathStep(leaf.path, i);
        r, key := ResolveNode(leaf.path[..i + 1], key);
        if r.Threw? { return; }
      }
      r := Done;
      assert leaf.path[..|leaf.path|] == leaf.path;
    }
  }

  /** `mapKey` fails on no node on the way. */
  ghost predicate Maps(env: Env, path: seq<Mw>) {
    forall i | 0 < i <= |path| :: env.mapKeyFault(path[..i]).None?
  }

  /** `fault` is what `mapKey` throws on the first node on the way that it fails on. */
  ghost predicate MapFails(env: Env, path: seq<Mw>, fault: Fault) {
    exists i :: 0 < i <= |path| && env.mapKeyFault(path[..i]) == Some(fault) && forall j | 0 < j < i :: env.mapKeyFault(path[..j]).None?
  }

  /** `q` is a node on the way to a leaf with this path. */
  ghost predicate OnPath(q: seq<Mw>, path: seq<Mw>) {
    q != [] && q <= path
  }

  lemma NothingOnPath(env: Env, path: seq<Mw>, key: Key)
    ensures KeyAlong(env, path[..0], key) == key && forall q :: !OnPath(q, path[..0])
  {
  }

  lemma OnPathStep(path: seq<Mw>, i: nat)
    requires i < |path|
    ensures forall q :: OnPath(q, path[..i + 1]) <==> OnPath(q, path[..i]) || q == path[..i + 1]
  {
    forall q ensures OnPath(q, path[..i + 1]) <==> OnPath(q, path[..i]) || q == path[..i + 1] {
      if q <= path[..i + 1] && |q| <= i { assert q <= path[..i]; }
    }
  }
}
