/** PipelineGraph.encode: one walk over the trie for all destinations. */
module Encode {
  import opened Sequences
  import opened PipelineTrie
  import opened PipelineGraph
  import opened Options
  import opened Middlewares
  import opened ContractCheck
  import opened Walks

  /** `encode` wants every leaf and runs every node. */
  ghost function EveryLeaf(ls: seq<Leaf>): set<Leaf> {
    set l | l in ls
  }

  ghost function EveryNode(ls: seq<Leaf>): iset<seq<Mw>> {
    iset q | OnTrie(q, ls)
  }

  /** What a walk promises about the signal. */
  ghost predicate Guarded(r: Exit, env: Env, ls: seq<Leaf>, before: bool, after: bool) {
    && (before ==> after)
    && (NeverAbortsOn(env, ls) && !before ==> !after)
    && (WellBehavedOn(env, ls) && !before ==> r.Done? && !after)
  }

  /** A walk that succeeds has reached everything: no middleware keeps quiet about a fault, or there is none. */
  ghost predicate Whole(env: Env, ls: seq<Leaf>, before: bool) {
    ForwardsOn(env, ls) || (WellBehavedOn(env, ls) && !before)
  }

  /** The downstream starts unless the destination or its key is missing, and the visits end as the checks after the middleware call have
      it. */
  ghost predicate Ended(env: Env, p: seq<Mw>, v: Visit) {
    && (v.started <==> env.behave(p).Calls? && env.behave(p).setsDestination && env.mapKeyFault(p).None?)
    && exists contract :: Checked(env.behave(p), v.next, v.mid, v.exit, contract, v.after)
  }

  ghost predicate AllEnded(env: Env, visits: VisitLog) {
    forall x | x in visits :: Ended(env, x, visits[x])
  }

  lemma EndedBoth(env: Env, a: VisitLog, b: VisitLog)
    requires AllEnded(env, a) && AllEnded(env, b)
    ensures AllEnded(env, a + b)
  {
  }

  /** What one walk promises. Without a catch block, only disciplined middlewares pass on every contract error. */
  ghost predicate Promised(r: Exit, ts: seq<Target>, ran: seq<seq<Mw>>, visits: VisitLog, env: Env, ls: seq<Leaf>, s: Spot, before: bool, after: bool)
    requires s.from <= |s.p|
  {
    && Sound(ts, ran, env, ls, s, EveryLeaf(ls), EveryNode(ls))
    && Guarded(r, env, ls, before, after) && OnlyWell(r, ran, env, ls) && (before ==> ran == [] && (s.at ==> r.Threw?))
    && Audited(r, ts, ran, visits, env, ls, s, EveryLeaf(ls), EveryNode(ls), iset{}, DisciplinedOn(env, ls), after)
    && AllEnded(env, visits) && AbortTraced(visits, env, before, after)
    && Arrives(r, ts, ran, env, ls, s, EveryLeaf(ls), EveryNode(ls), before, after)
    && (r.Done? && Whole(env, ls, before) ==> Full(ts, ran, ls, s, EveryLeaf(ls), EveryNode(ls)))
  }

  /** A walk over forwarding middlewares succeeds only when all that ran behave well. */
  ghost predicate OnlyWell(r: Exit, ran: seq<seq<Mw>>, env: Env, ls: seq<Leaf>) {
    r.Done? && ForwardsOn(env, ls) ==> forall x | x in ran :: env.behave(x).WellBehaved() && env.mapKeyFault(x).None?
  }

  /** As `Promised`, in a loop over the entries `es` of `s.p` that has done `es[..i]`. */
  ghost predicate Underway(ts: seq<Target>, ran: seq<seq<Mw>>, visits: VisitLog, env: Env, ls: seq<Leaf>, s: Spot, es: seq<Entry>, i: nat,
                           before: bool, after: bool)
    requires s.from <= |s.p| && i <= |es|
  {
    && SoundTo(ts, ran, env, ls, s, EveryLeaf(ls), EveryNode(ls), es, i)
    && Guarded(Done, env, ls, before, after) && OnlyWell(Done, ran, env, ls) && (before ==> ran == [])
    && AuditedTo(ts, ran, visits, env, ls, s, EveryLeaf(ls), EveryNode(ls), es, i, iset{}, DisciplinedOn(env, ls), after) && AllEnded(env, visits)
    && AbortTraced(visits, env, before, after)
    && ArrivesTo(ts, ran, env, ls, s, EveryLeaf(ls), EveryNode(ls), es, i, before, after)
    && (Whole(env, ls, before) ==> FullTo(ts, ran, ls, s, EveryLeaf(ls), EveryNode(ls), es, i))
  }

  lemma Start(env: Env, ls: seq<Leaf>, s: Spot, es: seq<Entry>, now: bool)
    requires s.from <= |s.p|
    ensures Underway([], [], map[], env, ls, s, es, 0, now, now)
  {
    hide AuditedTo, ArrivesTo;
    NoneAudited(env, ls, s, EveryLeaf(ls), EveryNode(ls), es, iset{}, DisciplinedOn(env, ls), now);
    NoneArrived(env, ls, s, EveryLeaf(ls), EveryNode(ls), es, now);
  }

  lemma LeafDone(ts: seq<Target>, ran: seq<seq<Mw>>, visits: VisitLog, env: Env, ls: seq<Leaf>, s: Spot, es: seq<Entry>, i: nat, before: bool, now: bool)
    requires s.from == |s.p| && AreEntries(es, s.p, ls) && i < |es| && es[i].LeafEntry? && !s.at
    requires Underway(ts, ran, visits, env, ls, s, es, i, before, now)
    ensures Underway(ts + [Target(es[i].leaf, s.data, s.key)], ran, visits, env, ls, s, es, i + 1, before, now)
  {
    hide Sound, FullTo, AreEntries, Guarded, Whole, AuditedTo, AllEnded, ArrivesTo, DisciplinedOn, AbortTraced;
    var more := [Target(es[i].leaf, s.data, s.key)];
    assert more[0] in more;
    EntryIsLeaf(es, s.p, ls, i);
    EntryAudited(ts, more, ran, visits, env, ls, s, EveryLeaf(ls), EveryNode(ls), es, i, iset{}, DisciplinedOn(env, ls), now);
    SoundLeaf(ts, ran, env, ls, s, EveryLeaf(ls), EveryNode(ls), es, i);
    LeafArrived(ts, more, ran, env, ls, s, EveryLeaf(ls), EveryNode(ls), es, i, before, now);
    if Whole(env, ls, before) {
      FullLeaf(ts, ran, ls, s, EveryLeaf(ls), EveryNode(ls), es, i, more);
    }
  }

  lemma NodeDone(r: Exit, ts: seq<Target>, ran: seq<seq<Mw>>, more: seq<Target>, moreRan: seq<seq<Mw>>, visits: VisitLog, moreVisits: VisitLog,
                 env: Env, ls: seq<Leaf>, s: Spot, es: seq<Entry>, i: nat, before: bool, now: bool, after: bool)
    requires s.from <= |s.p| && AreEntries(es, s.p, ls) && i < |es| && es[i].NodeEntry? && !s.at && Ascending(ls, ByIndex)
    requires Underway(ts, ran, visits, env, ls, s, es, i, before, now)
    requires Promised(r, more, moreRan, moreVisits, env, ls, s.Below(es[i].node), now, after)
    ensures r.Done? ==> Underway(ts + more, ran + moreRan, visits + moreVisits, env, ls, s, es, i + 1, before, after)
    ensures r.Threw? ==> Promised(r, ts + more, ran + moreRan, visits + moreVisits, env, ls, s, before, after)
  {
    hide Sound, Full, FullTo, AreEntries, WellBehavedOn, NeverAbortsOn, ForwardsOn, DisciplinedOn, Audited, AuditedTo, AllEnded, Arrives, ArrivesTo,
      CleanSoFar, AbortTraced;
    var want, nodes := EveryLeaf(ls), EveryNode(ls);
    SoundNode(ts, ran, more, moreRan, env, ls, s, want, nodes, es, i);
    RanElsewhere(ts, ran, env, ls, s, want, nodes, es, i);
    NodeAudited(r, ts, more, ran, moreRan, visits, moreVisits, env, ls, s, want, nodes, es, i, iset{}, DisciplinedOn(env, ls), DisciplinedOn(env, ls), now, after);
    EndedBoth(env, visits, moreVisits);
    TracedBoth(visits, moreVisits, env, before, now, after);
    NodeArrived(r, ts, ran, more, moreRan, env, ls, s, want, nodes, es, i, before, now, after);
    if r.Threw? {
      FailedOnWay(r, ts, ran, more, moreRan, env, ls, s, want, nodes, es, i, before, now, after);
      EachArrived(r, ts + more, ran + moreRan, env, ls, s, want, nodes, es, i + 1, before, after);
    }
    if Whole(env, ls, before) && r.Done? {
      FullNode(ts, ran, more, moreRan, ls, s, want, nodes, es, i);
    }
  }

  lemma EachDone(ts: seq<Target>, ran: seq<seq<Mw>>, visits: VisitLog, env: Env, ls: seq<Leaf>, s: Spot, es: seq<Entry>, before: bool, after: bool)
    requires s.from <= |s.p| && AreEntries(es, s.p, ls) && !s.at && Ascending(ls, ByIndex)
    requires Underway(ts, ran, visits, env, ls, s, es, |es|, before, after)
    ensures Promised(Done, ts, ran, visits, env, ls, s, before, after)
  {
    hide Sound, Full, AreEntries, Guarded, Audited, AuditedTo, AllEnded, Arrives, ArrivesTo, CleanSoFar, DisciplinedOn, AbortTraced;
    EachAudited(Done, ts, ran, visits, env, ls, s, EveryLeaf(ls), EveryNode(ls), es, |es|, iset{}, DisciplinedOn(env, ls), after);
    EachArrived(Done, ts, ran, env, ls, s, EveryLeaf(ls), EveryNode(ls), es, |es|, before, after);
    if Whole(env, ls, before) {
      FullAll(ts, ran, ls, s, EveryLeaf(ls), EveryNode(ls), es);
    }
  }

  /** What the checks after the middleware of `p` make of the walk over its entries. */
  lemma NodeJudged(b: Behaviour, v: Visit, contract: Option<Fault>, ts: seq<Target>, ran: seq<seq<Mw>>, visits: VisitLog, env: Env, ls: seq<Leaf>,
                   n: Node, p: seq<Mw>, data: Data, key: Key)
    requires IsNode(n, p, ls) && b == env.behave(p) && Begun(b, env.mapKeyFault(p), v) && v.started
    requires Promised(v.next, ts, ran, visits, env, ls, Spot(p, |p|, false, env.encode(n.mw, data), env.mapKey(n.mw, key)), b.abortsBefore, v.mid)
    requires Checked(b, v.next, v.mid, v.exit, contract, v.after)
    ensures Promised(v.exit, ts, [p] + ran, map[p := v] + visits, env, ls, Spot(p, |p| - 1, true, data, key), false, v.after)
  {
    hide Sound, Full, IsNode, Audited, Arrives, Breaches;
    var nodes := EveryNode(ls);
    var data', key' := env.encode(n.mw, data), env.mapKey(n.mw, key);
    NodeOnTrie(n, p, ls);
    SoundRan(ts, ran, env, ls, n, p, data, key, EveryLeaf(ls), nodes);
    if DisciplinedOn(env, ls) && !v.after { BreachPassedOn(b, v.next, v.started, v.mid, v.exit, contract); }
    RanAudited(v, ts, ran, visits, env, ls, p, EveryLeaf(ls), nodes, DisciplinedOn(env, ls), data, key, data', key');
    RanArrived(v.exit, v.next, ts, ran, env, ls, p, EveryLeaf(ls), nodes, true, false, b.abortsBefore, v.mid, v.after, data, key, data', key');
    OneEnded(env, p, v, contract);
    EndedBoth(env, map[p := v], visits);
    TracedRan(v, visits, env, p, v.exit, contract, b.abortsBefore);
    if v.exit.Done? && Whole(env, ls, false) {
      FullRan(ts, ran, env, ls, n, p, data, key, EveryLeaf(ls), nodes);
    }
  }

  lemma OneEnded(env: Env, p: seq<Mw>, v: Visit, contract: Option<Fault>)
    requires v.started <==> env.behave(p).Calls? && env.behave(p).setsDestination && env.mapKeyFault(p).None?
    requires Checked(env.behave(p), v.next, v.mid, v.exit, contract, v.after)
    ensures AllEnded(env, map[p := v])
  {
  }

  /** A middleware that never starts its downstream leaves no target. */
  lemma NodeSkipped(b: Behaviour, v: Visit, contract: Option<Fault>, env: Env, ls: seq<Leaf>, n: Node, p: seq<Mw>, data: Data, key: Key)
    requires IsNode(n, p, ls) && b == env.behave(p) && Begun(b, env.mapKeyFault(p), v) && !v.started
    requires b.Calls? && b.setsDestination ==> env.mapKeyFault(p).Some?
    requires Checked(b, v.next, v.mid, v.exit, contract, v.after)
    ensures Promised(v.exit, [], [p], map[p := v], env, ls, Spot(p, |p| - 1, true, data, key), false, v.after)
  {
    hide Sound, Full, IsNode, Audited, Arrives, Breaches;
    var nodes := EveryNode(ls);
    NodeOnTrie(n, p, ls);
    SoundAlone(env, ls, n, p, data, key, EveryLeaf(ls), nodes);
    if DisciplinedOn(env, ls) && !v.after { BreachPassedOn(b, v.next, v.started, v.mid, v.exit, contract); }
    RanAudited(v, [], [], map[], env, ls, p, EveryLeaf(ls), nodes, DisciplinedOn(env, ls), data, key, data, key);
    RanArrived(v.exit, v.next, [], [], env, ls, p, EveryLeaf(ls), nodes, false, false, v.mid, v.mid, v.after, data, key, data, key);
    OneEnded(env, p, v, contract);
    TracedRan(v, map[], env, p, v.exit, contract, b.abortsBefore);
    assert [p] + [] == [p] && map[p := v] + map[] == map[p := v];
  }

  lemma StaysAborted(r: Exit, ts: seq<Target>, ran: seq<seq<Mw>>, visits: VisitLog, env: Env, ls: seq<Leaf>, s: Spot, before: bool, after: bool)
    requires s.from <= |s.p| && Promised(r, ts, ran, visits, env, ls, s, before, after)
    ensures before ==> after
  {
  }

  lemma NotStarted(env: Env, ls: seq<Leaf>, s: Spot)
    requires s.from <= |s.p| && s.at
    ensures Promised(Threw(Aborted), [], [], map[], env, ls, s, true, true)
  {
    hide Audited;
    NotVisited(Threw(Aborted), env, ls, s, EveryLeaf(ls), EveryNode(ls), iset{}, DisciplinedOn(env, ls), true);
  }

  /** One call of `encode`. */
  class EncodeRun {
    const env: Env
    /** The operation's signal is aborted. */
    var aborted: bool
    var targets: seq<Target>
    /** What happened at each node. */
    ghost var visits: VisitLog
    /** The nodes whose middleware was called, in call order. */
    ghost var ran: seq<seq<Mw>>

    constructor (env: Env, aborted: bool)
      ensures this.env == env && this.aborted == aborted && visits == map[] && targets == [] && ran == []
    {
      this.env, this.aborted := env, aborted;
      targets, visits, ran := [], map[], [];
    }

    /** The loop over entries, at the root and in `next()`. */
    method Each(es: seq<Entry>, p: seq<Mw>, data: Data, key: Key, ghost ls: seq<Leaf>)
      returns (r: Exit, ghost ts: seq<Target>, ghost qs: seq<seq<Mw>>, ghost vs: VisitLog)
      requires AreEntries(es, p, ls) && Ascending(ls, ByIndex)
      modifies this
      ensures targets == old(targets) + ts && ran == old(ran) + qs && visits == old(visits) + vs
      ensures Promised(r, ts, qs, vs, env, ls, Spot(p, |p|, false, data, key), old(aborted), aborted)
      decreases es
    {
      hide Promised, Underway, AreEntries, TargetFor;
      ghost var s := Spot(p, |p|, false, data, key);
      ts, qs, vs := [], [], map[];
      Start(env, ls, s, es, aborted);
      for i := 0 to |es|
        invariant targets == old(targets) + ts && ran == old(ran) + qs && visits == old(visits) + vs
        invariant Underway(ts, qs, vs, env, ls, s, es, i, old(aborted), aborted)
      {
        match es[i] {
          case NodeEntry(n) =>
            assert es decreases to es[i];
            EntryIsNode(es, p, ls, i);
            ghost var now := aborted;
            ghost var more, moreQs, moreVs;
            r, more, moreQs, moreVs := Walk(n, p + [n.mw], data, key, ls);
            NodeDone(r, ts, qs, more, moreQs, vs, moreVs, env, ls, s, es, i, old(aborted), now, aborted);
            ts, qs, vs := ts + more, qs + moreQs, vs + moreVs;
            if r.Threw? { return; }
          case LeafEntry(leaf) =>
            LeafDone(ts, qs, vs, env, ls, s, es, i, old(aborted), aborted);
            targets := targets + [Target(leaf, data, key)];
            ts := ts + [Target(leaf, data, key)];
        }
      }
      r := Done;
      EachDone(ts, qs, vs, env, ls, s, es, old(aborted), aborted);
    }

    /** `next()` of the node at `p`: it refuses to start without a destination, and a failing `mapKey` stops it. */
    method Next(n: Node, p: seq<Mw>, setsDestination: bool, data: Data, parentKey: Key, ghost ls: seq<Leaf>)
      returns (next: Exit, ghost started: bool, ghost ts: seq<Target>, ghost qs: seq<seq<Mw>>, ghost vs: VisitLog)
      requires IsNode(n, p, ls) && Ascending(ls, ByIndex)
      modifies this
      ensures targets == old(targets) + ts && ran == old(ran) + qs && visits == old(visits) + vs
      ensures started == (setsDestination && env.mapKeyFault(p).None?)
      ensures started ==>
                Promised(next, ts, qs, vs, env, ls, Spot(p, |p|, false, env.encode(n.mw, data), env.mapKey(n.mw, parentKey)), old(aborted), aborted)
      ensures !started ==>
                && next == Threw(if setsDestination then env.mapKeyFault(p).GetOr(Aborted) else Contract(NoDestination))
                && ts == [] && qs == [] && vs == map[] && aborted == old(aborted)
      decreases n, 0
    {
      hide Promised, IsNode;
      NodeOnTrie(n, p, ls);
      if !setsDestination {
        return Threw(Contract(NoDestination)), false, [], [], map[];
      }
      if env.mapKeyFault(p).Some? {
        return Threw(env.mapKeyFault(p).value), false, [], [], map[];
      }
      var encoded, nodeKey := env.encode(n.mw, data), env.mapKey(n.mw, parentKey);
      started := true;
      next, ts, qs, vs := Each(n.entries, p, encoded, nodeKey, ls);
    }

    /** `walk`: the node at `p`. */
    method Walk(n: Node, p: seq<Mw>, data: Data, parentKey: Key, ghost ls: seq<Leaf>)
      returns (r: Exit, ghost ts: seq<Target>, ghost qs: seq<seq<Mw>>, ghost vs: VisitLog)
      requires IsNode(n, p, ls) && Ascending(ls, ByIndex)
      modifies this
      ensures targets == old(targets) + ts && ran == old(ran) + qs && visits == old(visits) + vs
      ensures Promised(r, ts, qs, vs, env, ls, Spot(p, |p| - 1, true, data, parentKey), old(aborted), aborted)
      decreases n, 1
    {
      hide Promised, IsNode, Checked;
      NodeOnTrie(n, p, ls);
      if aborted {
        NotStarted(env, ls, Spot(p, |p| - 1, true, data, parentKey));
        return Threw(Aborted), [], [], map[];
      }
      var b := env.behave(p);
      ran, ts, qs, vs := ran + [p], [], [], map[];
      if b.abortsBefore { aborted := true; }
      var next: Exit := Done;
      ghost var started := false;
      if b.Calls? {
        next, started, ts, qs, vs := Next(n, p, b.setsDestination, data, parentKey, ls);
      }
      ghost var mid := aborted;
      var contract;
      r, contract, aborted := AwaitChecked(b, next, aborted);
      ghost var v := Visit(next, started, mid, r, aborted);
      if started {
        StaysAborted(next, ts, qs, vs, env, ls, Spot(p, |p|, false, env.encode(n.mw, data), env.mapKey(n.mw, parentKey)), b.abortsBefore, mid);
        NodeJudged(b, v, contract, ts, qs, vs, env, ls, n, p, data, parentKey);
      } else {
        NodeSkipped(b, v, contract, env, ls, n, p, data, parentKey);
        assert [p] + qs == [p] && map[p := v] + vs == map[p := v];
      }
      Regroup(old(ran), [p], qs);
      qs, vs := [p] + qs, map[p := v] + vs;
      visits := old(visits) + vs;
    }
  }

  /** The sorted targets of a complete walk are what the chains give on their own. */
  lemma WalkIsEachChainAlone(ts: seq<Target>, ran: seq<seq<Mw>>, env: Env, dests: seq<Destination>, data: Data, key: Key, nodes: iset<seq<Mw>>)
    requires Sound(ts, ran, env, LeavesOf(dests), Spot([], 0, false, data, key), EveryLeaf(LeavesOf(dests)), nodes)
    requires Full(ts, ran, LeavesOf(dests), Spot([], 0, false, data, key), EveryLeaf(LeavesOf(dests)), nodes)
    ensures SortBy(ts, ByLeaf) == EachChainAlone(env, dests, data, key)
  {
    var alone := EachChainAlone(env, dests, data, key);
    SoundOrders(ts, ran, env, dests, data, key, EveryLeaf(LeavesOf(dests)), nodes);
    assert Ascending(alone, ByLeaf);
    forall t ensures t in ts <==> t in alone {
      if t in alone {
        var j :| 0 <= j < |alone| && alone[j] == t;
        assert LeavesOf(dests)[j] in LeavesOf(dests) && [] <= LeavesOf(dests)[j].path;
        assert Reaches(ts, LeafOf(dests, j));
        var u :| u in ts && u.leaf == LeafOf(dests, j);
        assert u.leaf.index == j;
      }
    }
    AscendingUnique(SortBy(ts, ByLeaf), alone, ByLeaf);
  }

  /** `ran` holds every node of the trie exactly once. */
  ghost predicate EachNodeOnce(ran: seq<seq<Mw>>, ls: seq<Leaf>) {
    Distinct(ran) && forall q :: q in ran <==> OnTrie(q, ls)
  }

  /** What `encode` comes to, by some log of the nodes that ran. */
  ghost predicate Outcome(env: Env, ls: seq<Leaf>, data: Data, key: Key, aborted: bool, r: Exit, targets: seq<Target>, after: bool) {
    exists ts, ran, visits :: Walked(env, ls, data, key, aborted, r, targets, after, ts, ran, visits)
  }

  ghost predicate Walked(env: Env, ls: seq<Leaf>, data: Data, key: Key, aborted: bool, r: Exit, targets: seq<Target>, after: bool,
                         ts: seq<Target>, ran: seq<seq<Mw>>, visits: VisitLog) {
    targets == SortBy(ts, ByLeaf) && Promised(r, ts, ran, visits, env, ls, Spot([], 0, false, data, key), aborted, after)
  }

  /** `PipelineGraph.encode` */
  method EncodeGraph(g: Graph, ghost dests: seq<Destination>, env: Env, aborted: bool, key: Key, data: Data)
    returns (r: Exit, targets: seq<Target>, run: EncodeRun)
    requires IsGraphOf(g, dests)
    ensures fresh(run) && Outcome(env, g.leaves, data, key, aborted, r, targets, run.aborted)
    // One target per destination in registration order, as if every chain ran on its own, though each node runs once.
    ensures WellBehavedOn(env, g.leaves) && !aborted ==> r == Done && !run.aborted
    ensures r.Done? && (ForwardsOn(env, g.leaves) || (WellBehavedOn(env, g.leaves) && !aborted)) ==>
              targets == EachChainAlone(env, dests, data, key) && EachNodeOnce(run.ran, g.leaves)
    // Where every fault is forwarded, it succeeds only if every middleware behaves well.
    ensures r.Done? && ForwardsOn(env, g.leaves) ==> WellBehavedOn(env, g.leaves) && (aborted ==> forall q :: !OnTrie(q, g.leaves))
    // Whatever the middlewares do: no node runs twice, no leaf is targeted twice, and each target is its chain's.
    ensures Distinct(run.ran) && Ascending(targets, ByLeaf)
    ensures forall t | t in targets :: t.leaf.index < |dests| && t == EachChainAlone(env, dests, data, key)[t.leaf.index]
    // Fail-close, exactly: without an abort, and when all middlewares are disciplined, it fails with a contract error iff some middleware broke
    // the contract.
    ensures DisciplinedOn(env, g.leaves) && !run.aborted ==> ((r.Threw? && r.fault.Contract?) <==> Breakers(env, run.visits) != {})
    // `run.visits` is what happened at the nodes that ran: it fits the middlewares, and from the root down each `next()` came to what the
    // nodes below it came to.
    ensures Logged(run.targets, run.ran, run.visits, env, g.leaves, Spot([], 0, false, data, key), EveryLeaf(g.leaves), EveryNode(g.leaves),
                   run.aborted)
    ensures AllEnded(env, run.visits)
    ensures Below(run.targets, run.visits, [], r, run.aborted, iset{}, EveryLeaf(g.leaves), EveryNode(g.leaves), g.leaves)
    // So a middleware that ran and broke the rules in any case fails the operation, and these run at least.
    ensures DisciplinedOn(env, g.leaves) && (exists q :: q in run.ran && env.behave(q).BreaksAnyway()) ==> run.aborted || (r.Threw? && r.fault.Contract?)
    ensures !aborted ==> forall q | q != [] && OnTrie(q, g.leaves) && Clear(env, g.leaves, q, |q| - 1) :: q in run.ran
    ensures NeverAbortsOn(env, g.leaves) && !aborted ==> !run.aborted
    ensures run.aborted && !aborted ==> SomeAborts(run.ran, env)
    ensures NeverAbortsOn(env, g.leaves) && !aborted && DisciplinedOn(env, g.leaves) && SureBreach(env, g.leaves, EveryNode(g.leaves)) ==>
              r.Threw? && r.fault.Contract?
  {
    hide AreEntries, EachChainAlone, WellBehavedOn, ForwardsOn, DisciplinedOn, NeverAbortsOn, OnTrie, Logged, AllEnded, Below, Breakers, SureBreach, Clear,
      Promised, EveryNode, SomeAborts;
    run := new EncodeRun(env, aborted);
    LeavesAscend(dests);
    ghost var ts, qs, vs;
    r, ts, qs, vs := run.Each(g.entries, [], data, key, g.leaves);
    targets := SortBy(run.targets, ByLeaf);
    assert run.targets == ts && run.ran == qs && run.visits == vs;
    assert Walked(env, g.leaves, data, key, aborted, r, targets, run.aborted, ts, qs, vs);
    RootDone(r, ts, qs, vs, env, dests, g.leaves, data, key, aborted, run.aborted);
    RootAudited(r, ts, qs, vs, env, g.leaves, data, key, aborted, run.aborted);
  }

  /** The walk from the root, in terms of the chains on their own. */
  lemma RootDone(r: Exit, ts: seq<Target>, ran: seq<seq<Mw>>, visits: VisitLog, env: Env, dests: seq<Destination>, ls: seq<Leaf>, data: Data, key: Key,
                 before: bool, after: bool)
    requires ls == LeavesOf(dests) && Promised(r, ts, ran, visits, env, ls, Spot([], 0, false, data, key), before, after)
    ensures Distinct(ran) && Ascending(SortBy(ts, ByLeaf), ByLeaf) && Guarded(r, env, ls, before, after) && AllEnded(env, visits)
    ensures forall t | t in ts :: t.leaf.index < |dests| && t == EachChainAlone(env, dests, data, key)[t.leaf.index]
    ensures r.Done? && Whole(env, ls, before) ==> SortBy(ts, ByLeaf) == EachChainAlone(env, dests, data, key) && EachNodeOnce(ran, ls)
    ensures r.Done? && ForwardsOn(env, ls) ==> WellBehavedOn(env, ls) && (before ==> forall q :: !OnTrie(q, ls))
  {
    hide EachChainAlone, Guarded, Whole, OnlyWell, ForwardsOn, WellBehavedOn, Audited, AllEnded, Arrives, OnTrie, Full, AbortTraced;
    SoundOrders(ts, ran, env, dests, data, key, EveryLeaf(ls), EveryNode(ls));
    if r.Done? && Whole(env, ls, before) {
      WalkIsEachChainAlone(ts, ran, env, dests, data, key, EveryNode(ls));
      AllRan(ts, ran, env, ls, data, key);
    }
    ForwardingWell(r, ran, env, ls, before);
  }

  lemma ForwardingWell(r: Exit, ran: seq<seq<Mw>>, env: Env, ls: seq<Leaf>, before: bool)
    requires OnlyWell(r, ran, env, ls) && (before ==> ran == []) && (r.Done? && Whole(env, ls, before) ==> EachNodeOnce(ran, ls))
    ensures r.Done? && ForwardsOn(env, ls) ==> WellBehavedOn(env, ls) && (before ==> forall q :: !OnTrie(q, ls))
  {
    hide OnTrie;
  }

  lemma RootAudited(r: Exit, ts: seq<Target>, ran: seq<seq<Mw>>, visits: VisitLog, env: Env, ls: seq<Leaf>, data: Data, key: Key, before: bool, after: bool)
    requires Promised(r, ts, ran, visits, env, ls, Spot([], 0, false, data, key), before, after)
    ensures Logged(ts, ran, visits, env, ls, Spot([], 0, false, data, key), EveryLeaf(ls), EveryNode(ls), after)
    ensures Below(ts, visits, [], r, after, iset{}, EveryLeaf(ls), EveryNode(ls), ls)
    ensures DisciplinedOn(env, ls) && !after ==> ((r.Threw? && r.fault.Contract?) <==> Breakers(env, visits) != {})
    ensures (exists q :: q in ran && env.behave(q).BreaksAnyway()) ==> Breakers(env, visits) != {}
    ensures !before ==> forall q | q != [] && OnTrie(q, ls) && Clear(env, ls, q, |q| - 1) :: q in ran
    ensures !before && SureBreach(env, ls, EveryNode(ls)) ==> Breakers(env, visits) != {}
    ensures after && !before ==> SomeAborts(ran, env)
  {
    hide Sound, Full, Guarded, AllEnded, OnTrie, Heard, Below, Logged, Breakers, Clear, SureBreach;
    BreakersBroke(ts, ran, visits, env, ls, Spot([], 0, false, data, key), EveryLeaf(ls), EveryNode(ls), after);
    DisciplinedHears(env, ls, Breakers(env, visits));
    TracedRuns(ts, ran, visits, env, ls, Spot([], 0, false, data, key), EveryLeaf(ls), EveryNode(ls), before, after);
    if !before { SureIsHeard(ran, visits, env, ls, EveryNode(ls)); }
  }

  lemma DisciplinedHears(env: Env, ls: seq<Leaf>, broken: set<seq<Mw>>)
    requires forall x | x in broken :: OnTrie(x, ls)
    ensures Heard(env, 1, broken) ==> broken != {}
    ensures DisciplinedOn(env, ls) && broken != {} ==> Heard(env, 1, broken)
  {
    BreachHeard(env, ls, broken);
  }

  lemma AllRan(ts: seq<Target>, ran: seq<seq<Mw>>, env: Env, ls: seq<Leaf>, data: Data, key: Key)
    requires Sound(ts, ran, env, ls, Spot([], 0, false, data, key), EveryLeaf(ls), EveryNode(ls))
    requires Full(ts, ran, ls, Spot([], 0, false, data, key), EveryLeaf(ls), EveryNode(ls))
    ensures EachNodeOnce(ran, ls)
  {
    forall q ensures q in ran <==> OnTrie(q, ls) {
      assert OnTrie(q, ls) ==> q in EveryNode(ls) && Spot([], 0, false, data, key).Owns(q);
    }
  }
}
