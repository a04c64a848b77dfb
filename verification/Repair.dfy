/** PipelineGraph.repair: writing a decoded value back to the destinations that lack it. */
module Repair {
  import opened Sequences
  import opened PipelineTrie
  import opened PipelineGraph
  import opened Options
  import opened Middlewares
  import opened ContractCheck
  import opened Walks

  /** The leaves a repair may write: targets whose chain allows repair. */
  ghost function Permitted(targets: set<Leaf>): set<Leaf> {
    set l | l in targets && l.canRepair
  }

  ghost predicate TargetUnder(l: Leaf, ls: seq<Leaf>, p: seq<Mw>, targets: set<Leaf>) {
    l in ls && p <= l.path && l in targets
  }

  /** The nodes a repair runs: those that serve a permitted target, and those that several targets share. A node with a single
      target that may not be repaired is passed over without encoding. */
  ghost predicate Needed(q: seq<Mw>, ls: seq<Leaf>, targets: set<Leaf>) {
    || (exists l :: TargetUnder(l, ls, q, targets) && l.canRepair)
    || (exists l, l' :: TargetUnder(l, ls, q, targets) && TargetUnder(l', ls, q, targets) && l != l')
  }

  ghost function NeededNodes(ls: seq<Leaf>, targets: set<Leaf>): iset<seq<Mw>> {
    iset q | Needed(q, ls, targets)
  }

  /** The signal, and the recorded traversal denial. */
  datatype Flags = Flags(aborted: bool, denied: bool)

  datatype Request = Request(env: Env, ls: seq<Leaf>, targets: set<Leaf>, throwOnDenied: bool)

  /** What a walk promises about faults and flags, whatever the middlewares do. */
  ghost predicate Tolerates(r: Exit, q: Request, before: Flags, after: Flags) {
    && (before.aborted ==> after.aborted) && (before.denied ==> after.denied)
    && (!q.throwOnDenied ==> after.denied == before.denied && (after.aborted || (r.Threw? ==> r.fault.Contract?)))
    && (CompliantOn(q.env, q.ls) ==> (r.Threw? ==> !r.fault.Contract?))
    && (NeverAbortsOn(q.env, q.ls) && !before.aborted ==> !after.aborted)
    && (WellBehavedOn(q.env, q.ls) && !before.aborted ==> r.Done? && !after.aborted)
  }

  /** A target that may not be repaired, with all needed nodes above it, from those of the spot on, letting their downstream start. */
  ghost predicate DeniedLeaf(q: Request, s: Spot, visits: VisitLog, l: Leaf) {
    && TargetUnder(l, q.ls, s.p, q.targets) && !l.canRepair
    && forall i | Depth(s) <= i <= |l.path| && Needed(l.path[..i], q.ls, q.targets) :: l.path[..i] in visits && visits[l.path[..i]].started
  }

  /** A middleware that refuses the repair of its only target before its downstream starts. */
  ghost predicate Refused(q: Request, x: seq<Mw>, v: Visit) {
    !v.started && v.exit.Done? && !Shared(x, q.ls, q.targets) && Rejection(q.env.behave(x), v.next) == Some(Denied)
  }

  ghost predicate SomeRefuses(q: Request, visits: VisitLog) {
    exists x :: x in visits && Refused(q, x, visits[x])
  }

  /** What is denied in a walk that goes through everything. */
  ghost predicate Denials(q: Request, s: Spot, visits: VisitLog) {
    (exists l :: DeniedLeaf(q, s, visits, l)) || SomeRefuses(q, visits)
  }

  ghost predicate DenialsTo(q: Request, s: Spot, visits: VisitLog, es: seq<Entry>, i: nat)
    requires i <= |es|
  {
    (exists l, k :: 0 <= k < i && DeniedLeaf(q, s, visits, l) && Covers(es[k], s.p, l)) || SomeRefuses(q, visits)
  }

  /** Several targets share the node. */
  ghost predicate Shared(p: seq<Mw>, ls: seq<Leaf>, targets: set<Leaf>) {
    exists l, l' :: TargetUnder(l, ls, p, targets) && TargetUnder(l', ls, p, targets) && l != l'
  }

  /** What one walk promises. */
  ghost predicate Promised(r: Exit, ts: seq<Target>, ran: seq<seq<Mw>>, visits: VisitLog, q: Request, s: Spot, before: Flags, after: Flags)
    requires s.from <= |s.p|
  {
    && Sound(ts, ran, q.env, q.ls, s, Permitted(q.targets), NeededNodes(q.ls, q.targets))
    && Tolerates(r, q, before, after)
    && Audited(r, ts, ran, visits, q.env, q.ls, s, Permitted(q.targets), NeededNodes(q.ls, q.targets), iset{}, true, after.aborted) && AllEnded(q, visits)
    && AbortTraced(visits, q.env, before.aborted, after.aborted)
    && Arrives(r, ts, ran, q.env, q.ls, s, Permitted(q.targets), NeededNodes(q.ls, q.targets), before.aborted, after.aborted)
    && (WellBehavedOn(q.env, q.ls) && !before.aborted ==>
          Full(ts, ran, q.ls, s, Permitted(q.targets), NeededNodes(q.ls, q.targets)))
    && (r.Done? && q.throwOnDenied && !after.aborted && AllFinish(visits, q.env) ==> (after.denied <==> before.denied || Denials(q, s, visits)))
  }

  /** As `Promised`, in a loop over the entries `es` of `s.p` that has done `es[..i]`. */
  ghost predicate Underway(ts: seq<Target>, ran: seq<seq<Mw>>, visits: VisitLog, q: Request, s: Spot, es: seq<Entry>, i: nat,
                           before: Flags, after: Flags)
    requires s.from <= |s.p| && i <= |es|
  {
    && SoundTo(ts, ran, q.env, q.ls, s, Permitted(q.targets), NeededNodes(q.ls, q.targets), es, i)
    && Tolerates(Done, q, before, after)
    && AuditedTo(ts, ran, visits, q.env, q.ls, s, Permitted(q.targets), NeededNodes(q.ls, q.targets), es, i, iset{}, true, after.aborted) && AllEnded(q, visits)
    && AbortTraced(visits, q.env, before.aborted, after.aborted)
    && ArrivesTo(ts, ran, q.env, q.ls, s, Permitted(q.targets), NeededNodes(q.ls, q.targets), es, i, before.aborted, after.aborted)
    && (WellBehavedOn(q.env, q.ls) && !before.aborted ==>
          FullTo(ts, ran, q.ls, s, Permitted(q.targets), NeededNodes(q.ls, q.targets), es, i))
    && (q.throwOnDenied && !after.aborted && AllFinish(visits, q.env) ==> (after.denied <==> before.denied || DenialsTo(q, s, visits, es, i)))
  }

  lemma Start(q: Request, s: Spot, es: seq<Entry>, now: Flags)
    requires s.from <= |s.p|
    ensures Underway([], [], map[], q, s, es, 0, now, now)
  {
    hide AuditedTo, ArrivesTo;
    NoneAudited(q.env, q.ls, s, Permitted(q.targets), NeededNodes(q.ls, q.targets), es, iset{}, true, now.aborted);
    NoneArrived(q.env, q.ls, s, Permitted(q.targets), NeededNodes(q.ls, q.targets), es, now.aborted);
  }

  lemma Interrupted(ts: seq<Target>, ran: seq<seq<Mw>>, visits: VisitLog, q: Request, s: Spot, es: seq<Entry>, i: nat, before: Flags, after: Flags)
    requires s.from <= |s.p| && i <= |es| && after.aborted && !s.at && AreEntries(es, s.p, q.ls) && Ascending(q.ls, ByIndex)
    requires Underway(ts, ran, visits, q, s, es, i, before, after)
    ensures Promised(Threw(Aborted), ts, ran, visits, q, s, before, after)
  {
    hide Sound, Full, FullTo, Arrives, ArrivesTo, CleanSoFar, AreEntries, Audited, AuditedTo, AllEnded, AbortTraced;
    EachAudited(Threw(Aborted), ts, ran, visits, q.env, q.ls, s, Permitted(q.targets), NeededNodes(q.ls, q.targets), es, i, iset{}, true, after.aborted);
    EachArrived(Threw(Aborted), ts, ran, q.env, q.ls, s, Permitted(q.targets), NeededNodes(q.ls, q.targets), es, i, before.aborted, after.aborted);
  }

  /** A leaf entry: skipped when it is not a target, denied when it may not be repaired, written otherwise. */
  lemma LeafDone(ts: seq<Target>, ran: seq<seq<Mw>>, visits: VisitLog, q: Request, s: Spot, es: seq<Entry>, i: nat,
                 before: Flags, now: Flags, after: Flags, more: seq<Target>)
    requires s.from == |s.p| && AreEntries(es, s.p, q.ls) && i < |es| && es[i].LeafEntry? && !now.aborted && !s.at
    requires Underway(ts, ran, visits, q, s, es, i, before, now)
    requires var l := es[i].leaf;
             && more == (if l in q.targets && l.canRepair then [Target(l, s.data, s.key)] else [])
             && after == now.(denied := now.denied || (l in q.targets && !l.canRepair && q.throwOnDenied))
    ensures Underway(ts + more, ran, visits, q, s, es, i + 1, before, after)
  {
    hide Sound, FullTo, AreEntries, WellBehavedOn, CompliantOn, NeverAbortsOn, AuditedTo, AllEnded, ArrivesTo, AbortTraced;
    var l := es[i].leaf;
    EntryAudited(ts, more, ran, visits, q.env, q.ls, s, Permitted(q.targets), NeededNodes(q.ls, q.targets), es, i, iset{}, true, now.aborted);
    EntryIsLeaf(es, s.p, q.ls, i);
    if l in q.targets && l.canRepair {
      SoundLeaf(ts, ran, q.env, q.ls, s, Permitted(q.targets), NeededNodes(q.ls, q.targets), es, i);
      assert more[0] in more;
    } else {
      assert ts + more == ts;
    }
    LeafArrived(ts, more, ran, q.env, q.ls, s, Permitted(q.targets), NeededNodes(q.ls, q.targets), es, i, before.aborted, now.aborted);
    if WellBehavedOn(q.env, q.ls) && !before.aborted {
      FullLeaf(ts, ran, q.ls, s, Permitted(q.targets), NeededNodes(q.ls, q.targets), es, i, more);
    }
    DeniedAtLeaf(q, s, visits, es, i);
  }

  lemma DeniedAtLeaf(q: Request, s: Spot, visits: VisitLog, es: seq<Entry>, i: nat)
    requires AreEntries(es, s.p, q.ls) && i < |es| && es[i].LeafEntry? && !s.at
    ensures DenialsTo(q, s, visits, es, i + 1) <==> DenialsTo(q, s, visits, es, i) || (es[i].leaf in q.targets && !es[i].leaf.canRepair)
  {
    hide AreEntries, DeniedLeaf, SomeRefuses;
    var leaf := es[i].leaf;
    EntryIsLeaf(es, s.p, q.ls, i);
    DeniedHere(q, s, visits, leaf);
    if leaf in q.targets && !leaf.canRepair { assert Covers(es[i], s.p, leaf); }
    if l, k :| 0 <= k < i && DeniedLeaf(q, s, visits, l) && Covers(es[k], s.p, l) { assert 0 <= k < i + 1; }
    if l, k :| 0 <= k < i + 1 && DeniedLeaf(q, s, visits, l) && Covers(es[k], s.p, l) { assert k == i ==> l == leaf; }
  }

  lemma DeniedHere(q: Request, s: Spot, visits: VisitLog, l: Leaf)
    requires !s.at && l in q.ls && l.path == s.p
    ensures DeniedLeaf(q, s, visits, l) <==> l in q.targets && !l.canRepair
  {
  }

  lemma DeniedAtNode(q: Request, s: Spot, ts: seq<Target>, ran: seq<seq<Mw>>, visits: VisitLog, more: VisitLog, es: seq<Entry>, i: nat)
    requires AreEntries(es, s.p, q.ls) && i < |es| && es[i].NodeEntry? && !s.at
    requires Elsewhere(ts, ran, s.p + [es[i].node.mw]) && (forall x | x in visits :: x in ran)
    requires forall x | x in more :: s.p + [es[i].node.mw] <= x
    ensures visits.Keys !! more.Keys
    ensures DenialsTo(q, s, visits + more, es, i + 1) <==> DenialsTo(q, s, visits, es, i) || Denials(q, s.Below(es[i].node), more)
  {
    hide AreEntries, DeniedLeaf, SomeRefuses;
    var c, both, s' := s.p + [es[i].node.mw], visits + more, s.Below(es[i].node);
    assert visits.Keys !! more.Keys;
    RefusesBoth(q, visits, more);
    if l, k :| 0 <= k < i + 1 && DeniedLeaf(q, s, both, l) && Covers(es[k], s.p, l) {
      if k == i {
        DeniedUnder(q, s, es[i].node, ran, visits, more, l);
      } else {
        CoveredElsewhere(es, s.p, q.ls, l, i, k);
        DeniedBeside(q, s, c, visits, more, l);
      }
    }
    if l, k :| 0 <= k < i && DeniedLeaf(q, s, visits, l) && Covers(es[k], s.p, l) {
      CoveredElsewhere(es, s.p, q.ls, l, i, k);
      DeniedBeside(q, s, c, visits, more, l);
      assert 0 <= k < i + 1 && DeniedLeaf(q, s, both, l);
    }
    if l :| DeniedLeaf(q, s', more, l) {
      DeniedUnder(q, s, es[i].node, ran, visits, more, l);
      assert Covers(es[i], s.p, l) && DeniedLeaf(q, s, both, l);
    }
  }

  lemma CoveredElsewhere(es: seq<Entry>, p: seq<Mw>, ls: seq<Leaf>, l: Leaf, i: nat, k: nat)
    requires AreEntries(es, p, ls) && k < i < |es| && es[i].NodeEntry? && Covers(es[k], p, l)
    ensures !(p + [es[i].node.mw] <= l.path)
  {
    if p + [es[i].node.mw] <= l.path { CoveredOnce(es, p, ls, l, i, k); }
  }

  lemma DeniedUnder(q: Request, s: Spot, n: Node, ran: seq<seq<Mw>>, visits: VisitLog, more: VisitLog, l: Leaf)
    requires !s.at && (forall x | x in ran :: !(s.p + [n.mw] <= x)) && (forall x | x in visits :: x in ran)
    requires forall x | x in more :: s.p + [n.mw] <= x
    ensures DeniedLeaf(q, s.Below(n), more, l) <==> DeniedLeaf(q, s, visits + more, l) && s.p + [n.mw] <= l.path
  {
    hide Needed;
    var c, both := s.p + [n.mw], visits + more;
    if c <= l.path {
      assert s.p <= c <= l.path;
      forall j | Depth(s) <= j <= |l.path| ensures l.path[..j] in both <==> l.path[..j] in more { assert c <= l.path[..j]; }
    }
  }

  lemma DeniedBeside(q: Request, s: Spot, c: seq<Mw>, visits: VisitLog, more: VisitLog, l: Leaf)
    requires (forall x | x in more :: c <= x) && !(c <= l.path)
    ensures DeniedLeaf(q, s, visits + more, l) <==> DeniedLeaf(q, s, visits, l)
  {
    hide Needed;
    forall j | 0 <= j <= |l.path| ensures l.path[..j] !in more { }
  }

  lemma RefusesBoth(q: Request, a: VisitLog, b: VisitLog)
    requires a.Keys !! b.Keys
    ensures SomeRefuses(q, a + b) <==> SomeRefuses(q, a) || SomeRefuses(q, b)
  {
    hide Refused;
    if x :| x in a && Refused(q, x, a[x]) { assert x in a + b && Refused(q, x, (a + b)[x]); }
    if x :| x in b && Refused(q, x, b[x]) { assert x in a + b && Refused(q, x, (a + b)[x]); }
  }

  lemma DeniedInAll(q: Request, s: Spot, visits: VisitLog, es: seq<Entry>)
    requires AreEntries(es, s.p, q.ls)
    ensures DenialsTo(q, s, visits, es, |es|) <==> Denials(q, s, visits)
  {
    hide AreEntries, Needed, Refused;
    if l :| DeniedLeaf(q, s, visits, l) { var k := CoveringEntry(es, s.p, q.ls, l); }
  }

  /** Running the node of `p`, which is needed: it starts its downstream, or refuses, or keeps what is below from being denied. */
  lemma DeniedRan(q: Request, p: seq<Mw>, v: Visit, visits: VisitLog, data: Data, key: Key, data': Data, key': Key)
    requires p != [] && Needed(p, q.ls, q.targets) && p !in visits && (!v.started ==> visits == map[])
    ensures Denials(q, Spot(p, |p| - 1, true, data, key), map[p := v] + visits) <==>
            if v.started then Denials(q, Spot(p, |p|, false, data', key'), visits) else Refused(q, p, v)
  {
    hide Needed, Shared;
    var s, s', all := Spot(p, |p| - 1, true, data, key), Spot(p, |p|, false, data', key'), map[p := v] + visits;
    RefusesBoth(q, map[p := v], visits);
    assert SomeRefuses(q, map[p := v]) <==> Refused(q, p, v) by { assert p in map[p := v]; }
    forall l: Leaf | p <= l.path ensures DeniedLeaf(q, s, all, l) <==> v.started && DeniedLeaf(q, s', visits, l) {
      assert l.path[..|p|] == p;
      forall j | |p| < j <= |l.path| ensures l.path[..j] in all <==> l.path[..j] in visits { assert |l.path[..j]| == j; }
    }
  }

  lemma NodeDone(r: Exit, ts: seq<Target>, ran: seq<seq<Mw>>, more: seq<Target>, moreRan: seq<seq<Mw>>, visits: VisitLog, moreVisits: VisitLog,
                 q: Request, s: Spot, es: seq<Entry>, i: nat, before: Flags, now: Flags, after: Flags)
    requires s.from <= |s.p| && AreEntries(es, s.p, q.ls) && i < |es| && es[i].NodeEntry? && !s.at && Ascending(q.ls, ByIndex)
    requires Underway(ts, ran, visits, q, s, es, i, before, now)
    requires Promised(r, more, moreRan, moreVisits, q, s.Below(es[i].node), now, after)
    ensures r.Done? ==> Underway(ts + more, ran + moreRan, visits + moreVisits, q, s, es, i + 1, before, after)
    ensures r.Threw? ==> Promised(r, ts + more, ran + moreRan, visits + moreVisits, q, s, before, after)
  {
    hide Sound, Full, FullTo, AreEntries, WellBehavedOn, CompliantOn, NeverAbortsOn, Audited, AuditedTo, Arrives, ArrivesTo, CleanSoFar,
      AbortTraced, AllEnded, AllFinish, Denials, DenialsTo, Elsewhere;
    var want, nodes := Permitted(q.targets), NeededNodes(q.ls, q.targets);
    RanElsewhere(ts, ran, q.env, q.ls, s, want, nodes, es, i);
    SoundNode(ts, ran, more, moreRan, q.env, q.ls, s, want, nodes, es, i);
    NodeAudited(r, ts, more, ran, moreRan, visits, moreVisits, q.env, q.ls, s, want, nodes, es, i, iset{}, true, true, now.aborted, after.aborted);
    EndedBoth(q, visits, moreVisits);
    TracedBoth(visits, moreVisits, q.env, before.aborted, now.aborted, after.aborted);
    NodeArrived(r, ts, ran, more, moreRan, q.env, q.ls, s, want, nodes, es, i, before.aborted, now.aborted, after.aborted);
    if r.Threw? {
      FailedOnWay(r, ts, ran, more, moreRan, q.env, q.ls, s, want, nodes, es, i, before.aborted, now.aborted, after.aborted);
      EachArrived(r, ts + more, ran + moreRan, q.env, q.ls, s, want, nodes, es, i + 1, before.aborted, after.aborted);
    }
    if WellBehavedOn(q.env, q.ls) && !before.aborted {
      FullNode(ts, ran, more, moreRan, q.ls, s, want, nodes, es, i);
    }
    AuditedToRan(ts, ran, visits, q.env, q.ls, s, want, nodes, es, i, iset{}, true, now.aborted);
    AuditedOwns(r, more, moreRan, moreVisits, q.env, q.ls, s.Below(es[i].node), want, nodes, iset{}, true, after.aborted);
    DeniedAtNode(q, s, ts, ran, visits, moreVisits, es, i);
    FinishBoth(visits, moreVisits, q.env);
  }

  lemma EachDone(ts: seq<Target>, ran: seq<seq<Mw>>, visits: VisitLog, q: Request, s: Spot, es: seq<Entry>, before: Flags, after: Flags)
    requires s.from <= |s.p| && AreEntries(es, s.p, q.ls) && !s.at && Ascending(q.ls, ByIndex)
    requires Underway(ts, ran, visits, q, s, es, |es|, before, after)
    ensures Promised(Done, ts, ran, visits, q, s, before, after)
  {
    hide Sound, Full, Audited, AuditedTo, AllEnded, Arrives, ArrivesTo, CleanSoFar, AbortTraced;
    EachAudited(Done, ts, ran, visits, q.env, q.ls, s, Permitted(q.targets), NeededNodes(q.ls, q.targets), es, |es|, iset{}, true, after.aborted);
    EachArrived(Done, ts, ran, q.env, q.ls, s, Permitted(q.targets), NeededNodes(q.ls, q.targets), es, |es|, before.aborted, after.aborted);
    if WellBehavedOn(q.env, q.ls) && !before.aborted {
      FullAll(ts, ran, q.ls, s, Permitted(q.targets), NeededNodes(q.ls, q.targets), es);
    }
    DeniedInAll(q, s, visits, es);
  }

  /** A node with one target that may not be repaired: nothing below is written or run, so the data passed on does not matter. */
  lemma PassedOver(r: Exit, ts: seq<Target>, ran: seq<seq<Mw>>, visits: VisitLog, q: Request, p: seq<Mw>, data: Data, key: Key,
                   before: Flags, after: Flags)
    requires p != [] && !Needed(p, q.ls, q.targets)
    requires Promised(r, ts, ran, visits, q, Spot(p, |p|, false, data, key), before, after)
    ensures Promised(r, ts, ran, visits, q, Spot(p, |p| - 1, true, data, key), before, after) && ts == [] && ran == []
  {
    if ts != [] {
      var l := ts[0].leaf;
      assert ts[0] in ts;
      assert TargetUnder(l, q.ls, p, q.targets);
    }
    assert ran == [] || ran[0] in ran;
    NotNeededBelow(p, q.ls, q.targets);
    NothingPermitted(p, q.ls, q.targets);
    DeniedPast(q, p, visits, data, key);
  }

  lemma DeniedPast(q: Request, p: seq<Mw>, visits: VisitLog, data: Data, key: Key)
    requires p != [] && !Needed(p, q.ls, q.targets)
    ensures Denials(q, Spot(p, |p| - 1, true, data, key), visits) <==> Denials(q, Spot(p, |p|, false, data, key), visits)
  {
    hide Needed, Refused;
    var s, s' := Spot(p, |p| - 1, true, data, key), Spot(p, |p|, false, data, key);
    forall l ensures DeniedLeaf(q, s, visits, l) <==> DeniedLeaf(q, s', visits, l) {
      if TargetUnder(l, q.ls, p, q.targets) { assert l.path[..|p|] == p; }
    }
  }

  lemma NothingPermitted(p: seq<Mw>, ls: seq<Leaf>, targets: set<Leaf>)
    requires !Needed(p, ls, targets)
    ensures forall l: Leaf | l in Permitted(targets) && l in ls :: !(p <= l.path)
  {
    forall l: Leaf | l in Permitted(targets) && l in ls ensures !(p <= l.path) { assert TargetUnder(l, ls, p, targets) <==> p <= l.path; }
  }

  lemma NotNeededBelow(p: seq<Mw>, ls: seq<Leaf>, targets: set<Leaf>)
    requires !Needed(p, ls, targets)
    ensures forall x | p <= x :: !Needed(x, ls, targets)
  {
    forall x, l | p <= x && TargetUnder(l, ls, x, targets) ensures TargetUnder(l, ls, p, targets) { assert p <= x <= l.path; }
  }

  /** What comes out of the catch block around a middleware call. */
  predicate Caught(ex: Exit, contract: Option<Fault>, shared: bool, started: bool, throwOnDenied: bool, aborted: bool, r: Exit) {
    if ex.Done? then r.Done?
    else if aborted then r == if shared then ex else Done
    else if contract.Some? then r == Threw(contract.value)
    else if ex.fault.Contract? then r == ex
    else r == if ex.fault.Denied? && throwOnDenied && (started || shared) then ex else Done
  }

  /** The downstream starts when nothing stands against it, and the visits end as the checks and the catch block after the middleware call have it. */
  ghost predicate Ended(q: Request, p: seq<Mw>, v: Visit) {
    && (v.started <==> q.env.behave(p).Opens() && q.env.mapKeyFault(p).None?)
    && exists ex, contract ::
         && Checked(q.env.behave(p), v.next, v.mid, ex, contract, v.after)
         && Caught(ex, contract, Shared(p, q.ls, q.targets), v.started, q.throwOnDenied, v.after, v.exit)
  }

  ghost predicate AllEnded(q: Request, visits: VisitLog) {
    forall x | x in visits :: Ended(q, x, visits[x])
  }

  lemma EndedBoth(q: Request, a: VisitLog, b: VisitLog)
    requires AllEnded(q, a) && AllEnded(q, b)
    ensures AllEnded(q, a + b)
  {
  }

  /** The catch block around a middleware call, for the fault of the block before it. */
  ghost predicate Handled(ex: Exit, contract: Option<Fault>, shared: bool, started: bool, throwOnDenied: bool, r: Exit, before: Flags, after: Flags) {
    && after.aborted == before.aborted && Caught(ex, contract, shared, started, throwOnDenied, before.aborted, r)
    && after.denied == (before.denied || (ex == Threw(Denied) && !before.aborted && contract.None? && throwOnDenied && !started && !shared))
  }

  /** What the checks and the catch block of the middleware of `p` make of the walk over its entries. */
  lemma NodeJudged(b: Behaviour, v: Visit, ex: Exit, contract: Option<Fault>, ts: seq<Target>, ran: seq<seq<Mw>>, visits: VisitLog, q: Request,
                   n: Node, p: seq<Mw>, data: Data, key: Key, before: Flags, mid: Flags, after: Flags)
    requires IsNode(n, p, q.ls) && b == q.env.behave(p) && Begun(b, q.env.mapKeyFault(p), v) && v.started
    requires Needed(p, q.ls, q.targets) && !before.aborted && !b.abortsBefore && v.mid == mid.aborted && v.after == after.aborted
    requires Promised(v.next, ts, ran, visits, q, Spot(p, |p|, false, q.env.encode(n.mw, data), q.env.mapKey(n.mw, key)), before, mid)
    requires Checked(b, v.next, v.mid, ex, contract, v.after)
    requires Handled(ex, contract, Shared(p, q.ls, q.targets), true, q.throwOnDenied, v.exit, mid.(aborted := after.aborted), after)
    ensures Promised(v.exit, ts, [p] + ran, map[p := v] + visits, q, Spot(p, |p| - 1, true, data, key), before, after)
  {
    hide Sound, Full, IsNode, Needed, TargetUnder, Shared, Audited, Arrives, Broke, Begun, AbortTraced, Denials;
    var want, nodes := Permitted(q.targets), NeededNodes(q.ls, q.targets);
    var data', key' := q.env.encode(n.mw, data), q.env.mapKey(n.mw, key);
    NodeOnTrie(n, p, q.ls);
    SoundRan(ts, ran, q.env, q.ls, n, p, data, key, want, nodes);
    OwnTold(b, v, ex, contract, q.env.mapKeyFault(p));
    RanAudited(v, ts, ran, visits, q.env, q.ls, p, want, nodes, true, data, key, data', key');
    RanArrived(v.exit, v.next, ts, ran, q.env, q.ls, p, want, nodes, true, before.aborted, before.aborted, mid.aborted, after.aborted, data, key, data', key');
    NoContract(q, b, v, ex, contract, p);
    OneEnded(q, p, v, ex, contract);
    EndedBoth(q, map[p := v], visits);
    TracedRan(v, visits, q.env, p, ex, contract, false);
    AuditedOwns(v.next, ts, ran, visits, q.env, q.ls, Spot(p, |p|, false, data', key'), want, nodes, iset{}, true, v.mid);
    FinishBoth(map[p := v], visits, q.env);
    DeniedRan(q, p, v, visits, data, key, data', key');
    if WellBehavedOn(q.env, q.ls) {
      FullRan(ts, ran, q.env, q.ls, n, p, data, key, want, nodes);
    }
  }

  lemma OneEnded(q: Request, p: seq<Mw>, v: Visit, ex: Exit, contract: Option<Fault>)
    requires Begun(q.env.behave(p), q.env.mapKeyFault(p), v) && !(v.started && q.env.behave(p).abortsBefore)
    requires Checked(q.env.behave(p), v.next, v.mid, ex, contract, v.after)
    requires Caught(ex, contract, Shared(p, q.ls, q.targets), v.started, q.throwOnDenied, v.after, v.exit)
    ensures AllEnded(q, map[p := v])
  {
  }

  /** A compliant middleware adds no contract error. */
  lemma NoContract(q: Request, b: Behaviour, v: Visit, ex: Exit, contract: Option<Fault>, p: seq<Mw>)
    requires b == q.env.behave(p) && Begun(b, q.env.mapKeyFault(p), v) && Checked(b, v.next, v.mid, ex, contract, v.after)
    ensures CompliantAt(q.env, p) && !(v.started && v.next.Threw? && v.next.fault.Contract?) ==> contract.None? && (ex.Threw? ==> !ex.fault.Contract?)
  {
  }

  /** A middleware that never starts its downstream writes nothing. */
  lemma NodeSkipped(b: Behaviour, v: Visit, ex: Exit, contract: Option<Fault>, q: Request, n: Node, p: seq<Mw>, data: Data, key: Key,
                    before: Flags, after: Flags)
    requires IsNode(n, p, q.ls) && b == q.env.behave(p) && Begun(b, q.env.mapKeyFault(p), v) && !v.started
    requires Needed(p, q.ls, q.targets) && !before.aborted && v.mid == b.abortsBefore && v.after == after.aborted
    requires Checked(b, v.next, v.mid, ex, contract, v.after)
    requires Handled(ex, contract, Shared(p, q.ls, q.targets), false, q.throwOnDenied, v.exit, before.(aborted := after.aborted), after)
    ensures Promised(v.exit, [], [p], map[p := v], q, Spot(p, |p| - 1, true, data, key), before, after)
  {
    hide Sound, Full, IsNode, Needed, TargetUnder, Shared, Audited, Arrives, Broke, Denials;
    var want, nodes := Permitted(q.targets), NeededNodes(q.ls, q.targets);
    NodeOnTrie(n, p, q.ls);
    SoundAlone(q.env, q.ls, n, p, data, key, want, nodes);
    OwnTold(b, v, ex, contract, q.env.mapKeyFault(p));
    RanAudited(v, [], [], map[], q.env, q.ls, p, want, nodes, true, data, key, data, key);
    RanArrived(v.exit, v.next, [], [], q.env, q.ls, p, want, nodes, false, before.aborted, b.abortsBefore, b.abortsBefore, after.aborted, data, key, data, key);
    NoContract(q, b, v, ex, contract, p);
    OneEnded(q, p, v, ex, contract);
    TracedRan(v, map[], q.env, p, ex, contract, b.abortsBefore);
    DeniedRan(q, p, v, map[], data, key, data, key);
    assert [p] + [] == [p] && map[p := v] + map[] == map[p := v];
  }

  /** Nothing below a node without a target is wanted. */
  lemma NothingWanted(q: Request, p: seq<Mw>, data: Data, key: Key, now: Flags)
    requires p != [] && forall l: Leaf :: !TargetUnder(l, q.ls, p, q.targets)
    ensures Promised(Done, [], [], map[], q, Spot(p, |p| - 1, true, data, key), now, now)
  {
    hide Audited;
    NotNeededBelow(p, q.ls, q.targets);
    NotVisited(Done, q.env, q.ls, Spot(p, |p| - 1, true, data, key), Permitted(q.targets), NeededNodes(q.ls, q.targets), iset{}, true, now.aborted);
    forall l | l in q.ls && p <= l.path ensures l !in q.targets { assert !TargetUnder(l, q.ls, p, q.targets); }
  }

  lemma NotStarted(q: Request, s: Spot, now: Flags)
    requires s.from <= |s.p| && now.aborted && s.at
    ensures Promised(Threw(Aborted), [], [], map[], q, s, now, now)
  {
    hide Audited;
    NotVisited(Threw(Aborted), q.env, q.ls, s, Permitted(q.targets), NeededNodes(q.ls, q.targets), iset{}, true, now.aborted);
  }

  /** What `activeLeavesOf` finds tells which of the three kinds of node this is. */
  lemma ActiveLeaves(n: Node, p: seq<Mw>, ls: seq<Leaf>, targets: set<Leaf>, active: seq<Leaf>)
    requires IsNode(n, p, ls) && Ascending(ls, ByIndex)
    requires active == Filter(n.allLeaves, (l: Leaf) => l in targets)
    ensures active == [] ==> forall l: Leaf :: !TargetUnder(l, ls, p, targets)
    ensures active != [] ==> (Needed(p, ls, targets) <==> |active| >= 2 || active[0].canRepair)
    ensures Shared(p, ls, targets) <==> |active| >= 2
  {
    hide IsNode;
    ActiveAscend(n, p, ls, targets, active);
    if |active| >= 2 {
      assert active[0] in active && active[1] in active && ByIndex(active[0]) < ByIndex(active[1]);
    } else if active != [] {
      assert active == [active[0]] && active[0] in active;
    }
  }

  lemma ActiveAscend(n: Node, p: seq<Mw>, ls: seq<Leaf>, targets: set<Leaf>, active: seq<Leaf>)
    requires IsNode(n, p, ls) && Ascending(ls, ByIndex)
    requires active == Filter(n.allLeaves, (l: Leaf) => l in targets)
    ensures Ascending(active, ByIndex) && forall l: Leaf :: TargetUnder(l, ls, p, targets) <==> l in active
  {
    hide AreEntries;
    FilterAscending(ls, (l: Leaf) => p <= l.path, ByIndex);
    FilterAscending(n.allLeaves, (l: Leaf) => l in targets, ByIndex);
  }

  /** How a started write ends. The signal may be aborted before it does. `slot` is what a failed write leaves under its key. */
  datatype WriteEnd = WriteEnd(aborts: bool, fault: Option<Fault>, slot: Option<Data>)

  /** One call of `repair`. */
  class RepairRun {
    const q: Request
    /** The operation's signal is aborted. */
    var aborted: bool
    /** A traversal denial is recorded. */
    var denied: bool
    /** The writes that the walk starts. */
    var started: seq<Target>
    /** Those among them that have been started when the operation waits for its writes, and those that are started only later. */
    var awaited: seq<Target>
    var unawaited: seq<Target>
    /** The awaited writes that are still running, and those that have succeeded. */
    var pending: seq<Target>
    var stored: seq<Target>
    var writeDenials: seq<Leaf>
    /** What happened at each node, and what the walk came to. */
    ghost var visits: VisitLog
    ghost var walked: Exit
    /** The nodes whose middleware was called, in call order. */
    ghost var ran: seq<seq<Mw>>

    constructor (q: Request, aborted: bool)
      ensures this.q == q && Now() == Flags(aborted, false) && visits == map[] && ran == []
      ensures started == [] && awaited == [] && unawaited == [] && pending == [] && stored == [] && writeDenials == []
    {
      this.q, this.aborted := q, aborted;
      denied, started, awaited, unawaited, pending, stored, writeDenials := false, [], [], [], [], [], [];
      visits, ran, walked := map[], [], Done;
    }

    ghost function Now(): Flags
      reads this
    {
      Flags(aborted, denied)
    }

    /** A leaf among the entries: not a target, denied, or written. */
    method LeafEntry(leaf: Leaf, data: Data, key: Key) returns (ghost more: seq<Target>)
      modifies this`denied, this`started
      ensures more == if leaf in q.targets && leaf.canRepair then [Target(leaf, data, key)] else []
      ensures started == old(started) + more
      ensures denied == (old(denied) || (leaf in q.targets && !leaf.canRepair && q.throwOnDenied && !aborted))
    {
      more := [];
      if leaf !in q.targets { return; }
      if !leaf.canRepair {
        if !aborted && q.throwOnDenied { denied := true; }
        return;
      }
      started := started + [Target(leaf, data, key)];
      more := [Target(leaf, data, key)];
    }

    /** The loop over entries: at the root, below a node that is passed over, and in `next()`. */
    method Each(es: seq<Entry>, p: seq<Mw>, data: Data, key: Key)
      returns (r: Exit, ghost ts: seq<Target>, ghost qs: seq<seq<Mw>>, ghost vs: VisitLog)
      requires AreEntries(es, p, q.ls) && Ascending(q.ls, ByIndex)
      modifies this`aborted, this`denied, this`started, this`visits, this`ran
      ensures started == old(started) + ts && ran == old(ran) + qs && visits == old(visits) + vs
      ensures Promised(r, ts, qs, vs, q, Spot(p, |p|, false, data, key), old(Now()), Now())
      decreases es
    {
      hide Promised, Underway, AreEntries, TargetFor;
      ghost var s := Spot(p, |p|, false, data, key);
      ts, qs, vs := [], [], map[];
      Start(q, s, es, Now());
      for i := 0 to |es|
        invariant started == old(started) + ts && ran == old(ran) + qs && visits == old(visits) + vs
        invariant Underway(ts, qs, vs, q, s, es, i, old(Now()), Now())
      {
        if aborted {
          Interrupted(ts, qs, vs, q, s, es, i, old(Now()), Now());
          return Threw(Aborted), ts, qs, vs;
        }
        ghost var now, more := Now(), [];
        match es[i] {
          case NodeEntry(n) =>
            assert es decreases to es[i];
            EntryIsNode(es, p, q.ls, i);
            ghost var moreQs, moreVs;
            r, more, moreQs, moreVs := Walk(n, p + [n.mw], data, key);
            NodeDone(r, ts, qs, more, moreQs, vs, moreVs, q, s, es, i, old(Now()), now, Now());
            ts, qs, vs := ts + more, qs + moreQs, vs + moreVs;
            if r.Threw? { return; }
          case LeafEntry(leaf) =>
            more := LeafEntry(leaf, data, key);
            LeafDone(ts, qs, vs, q, s, es, i, old(Now()), now, Now(), more);
            ts := ts + more;
        }
      }
      r := Done;
      EachDone(ts, qs, vs, q, s, es, old(Now()), Now());
    }

    /** `next()` of the node at `p`. */
    method Next(n: Node, p: seq<Mw>, setsDestination: bool, data: Data, parentKey: Key)
      returns (next: Exit, downstreamStarted: bool, ghost ts: seq<Target>, ghost qs: seq<seq<Mw>>, ghost vs: VisitLog)
      requires IsNode(n, p, q.ls) && Ascending(q.ls, ByIndex)
      modifies this`aborted, this`denied, this`started, this`visits, this`ran
      ensures started == old(started) + ts && ran == old(ran) + qs && visits == old(visits) + vs
      ensures downstreamStarted == (setsDestination && q.env.mapKeyFault(p).None? && !old(aborted))
      ensures downstreamStarted ==>
                Promised(next, ts, qs, vs, q, Spot(p, |p|, false, q.env.encode(n.mw, data), q.env.mapKey(n.mw, parentKey)), old(Now()), Now())
      ensures !downstreamStarted ==>
                && next == Threw(if setsDestination then q.env.mapKeyFault(p).GetOr(Aborted) else Contract(NoDestination))
                && ts == [] && qs == [] && vs == map[] && Now() == old(Now())
      decreases n, 0
    {
      hide Promised, IsNode;
      NodeOnTrie(n, p, q.ls);
      if !setsDestination { return Threw(Contract(NoDestination)), false, [], [], map[]; }
      if q.env.mapKeyFault(p).Some? { return Threw(q.env.mapKeyFault(p).value), false, [], [], map[]; }
      if aborted { return Threw(Aborted), false, [], [], map[]; }
      var encoded, nodeKey := q.env.encode(n.mw, data), q.env.mapKey(n.mw, parentKey);
      downstreamStarted := true;
      next, ts, qs, vs := Each(n.entries, p, encoded, nodeKey);
    }

    method Catch(ex: Exit, contract: Option<Fault>, shared: bool, downstreamStarted: bool) returns (r: Exit)
      modifies this`denied
      ensures Handled(ex, contract, shared, downstreamStarted, q.throwOnDenied, r, old(Now()), Now())
    {
      if ex.Done? { return Done; }
      if aborted { return if shared then ex else Done; }
      var held := Record(contract, ex.fault);
      if held.Some? { return Threw(held.value); }
      if ex.fault.Denied? && q.throwOnDenied {
        if downstreamStarted || shared { return ex; }
        denied := true;
      }
      return Done;
    }

    /** `walk`: the node at `p`. */
    method Walk(n: Node, p: seq<Mw>, data: Data, parentKey: Key)
      returns (r: Exit, ghost ts: seq<Target>, ghost qs: seq<seq<Mw>>, ghost vs: VisitLog)
      requires IsNode(n, p, q.ls) && Ascending(q.ls, ByIndex)
      modifies this`aborted, this`denied, this`started, this`visits, this`ran
      ensures started == old(started) + ts && ran == old(ran) + qs && visits == old(visits) + vs
      ensures Promised(r, ts, qs, vs, q, Spot(p, |p| - 1, true, data, parentKey), old(Now()), Now())
      decreases n, 1
    {
      hide Promised, IsNode, Checked, Handled, Needed, TargetUnder, Shared, AreEntries;
      NodeOnTrie(n, p, q.ls);
      var active := Filter(n.allLeaves, (l: Leaf) => l in q.targets);
      ActiveLeaves(n, p, q.ls, q.targets, active);
      if active == [] {
        NothingWanted(q, p, data, parentKey, Now());
        return Done, [], [], map[];
      }
      if aborted {
        NotStarted(q, Spot(p, |p| - 1, true, data, parentKey), Now());
        return Threw(Aborted), [], [], map[];
      }
      var shared := |active| >= 2;
      ghost var before := Now();
      if !(shared || active[0].canRepair) {
        r, ts, qs, vs := Each(n.entries, p, data, parentKey);
        PassedOver(r, ts, qs, vs, q, p, data, parentKey, before, Now());
        return;
      }
      r, ts, qs, vs := Run(n, p, data, parentKey, shared);
    }

    /** The part of `walk` that runs the middleware. */
    method Run(n: Node, p: seq<Mw>, data: Data, parentKey: Key, shared: bool)
      returns (r: Exit, ghost ts: seq<Target>, ghost qs: seq<seq<Mw>>, ghost vs: VisitLog)
      requires IsNode(n, p, q.ls) && Ascending(q.ls, ByIndex) && !aborted && Needed(p, q.ls, q.targets) && shared == Shared(p, q.ls, q.targets)
      modifies this`aborted, this`denied, this`started, this`visits, this`ran
      ensures started == old(started) + ts && ran == old(ran) + qs && visits == old(visits) + vs
      ensures Promised(r, ts, qs, vs, q, Spot(p, |p| - 1, true, data, parentKey), old(Now()), Now())
      decreases n, 1, 0
    {
      hide Promised, IsNode, Checked, Handled, Needed, Shared;
      ghost var before := Now();
      var b := q.env.behave(p);
      ran, ts, qs, vs := ran + [p], [], [], map[];
      aborted := b.abortsBefore;
      var next: Exit, downstreamStarted := Done, false;
      if b.Calls? {
        next, downstreamStarted, ts, qs, vs := Next(n, p, b.setsDestination, data, parentKey);
      }
      ghost var mid := Now();
      var ex, contract;
      ex, contract, aborted := AwaitChecked(b, next, aborted);
      r := Catch(ex, contract, shared, downstreamStarted);
      ghost var v := Visit(next, downstreamStarted, mid.aborted, r, aborted);
      if downstreamStarted {
        NodeJudged(b, v, ex, contract, ts, qs, vs, q, n, p, data, parentKey, before, mid, Now());
      } else {
        NodeSkipped(b, v, ex, contract, q, n, p, data, parentKey, before, Now());
        assert [p] + qs == [p] && map[p := v] + vs == map[p := v];
      }
      Regroup(old(ran), [p], qs);
      qs, vs := [p] + qs, map[p := v] + vs;
      visits := old(visits) + vs;
    }

    /** A started write ends; its own catch block deals with a failure. */
    method Settle(k: nat, ends: Leaf -> WriteEnd)
      requires k < |pending| && Accounted(awaited, pending, stored, ends) && DenialsNoted(awaited, pending, writeDenials, q, ends, aborted)
      modifies this`aborted, this`pending, this`stored, this`writeDenials
      ensures Accounted(awaited, pending, stored, ends) && DenialsNoted(awaited, pending, writeDenials, q, ends, aborted)
      ensures |pending| < old(|pending|)
      ensures old(pending[k]) in awaited && aborted == (old(aborted) || ends(old(pending[k]).leaf).aborts)
      ensures old(writeDenials) <= writeDenials
    {
      hide Accounted, DenialsNoted;
      var task := pending[k];
      var end := ends(task.leaf);
      TaskEnds(awaited, pending, stored, k, ends);
      ghost var before := aborted;
      aborted := aborted || end.aborts;
      DenialSeen(awaited, pending, writeDenials, k, q, ends, before);
      pending := pending[..k] + pending[k + 1..];
      match end.fault {
        case None => stored := stored + [task];
        case Some(fault) =>
          if !aborted && fault.Denied? && q.throwOnDenied {
            writeDenials := writeDenials + [task.leaf];
          }
      }
    }

    /** From the race of the started writes against the first denied one to the `finally` that waits for all of them. Writes end
        in any order. A write that a downstream starts only after this is not waited for. */
    method AwaitWrites(walked: Exit, ends: Leaf -> WriteEnd, outlives: Leaf -> bool) returns (r: Exit, named: Option<Leaf>)
      requires stored == [] && writeDenials == []
      modifies this`aborted, this`awaited, this`unawaited, this`pending, this`stored, this`writeDenials
      ensures awaited == InTime(started, q.env, outlives) && unawaited == TooLate(started, q.env, outlives)
      ensures pending == [] && Accounted(awaited, pending, stored, ends)
      ensures old(aborted) ==> aborted
      ensures Raised(q, walked, old(Now()), awaited, ends, r, aborted)
      ensures !old(aborted) && (forall l :: !ends(l).aborts) ==> !aborted
      ensures walked.Threw? ==> r == walked
      ensures walked.Done? && denied ==> r == Threw(Denied)
      ensures walked.Done? && !denied ==> r == Done || (r == Threw(Denied) && q.throwOnDenied && SomeRefused(awaited, ends))
      ensures walked.Done? && !denied && !aborted ==> (r.Threw? <==> q.throwOnDenied && SomeRefused(awaited, ends))
      // The denial of a write that is raised is that of the first denied one to end.
      ensures named.Some? <==> walked.Done? && !denied && r.Threw?
      ensures named.Some? ==> writeDenials != [] && named.value == writeDenials[0]
      ensures forall l | l in writeDenials :: exists t :: t in awaited && t.leaf == l && ends(l).fault == Some(Denied)
    {
      hide Accounted, DenialsNoted, InTime, TooLate, SomeRefused;
      awaited, unawaited := InTime(started, q.env, outlives), TooLate(started, q.env, outlives);
      pending := awaited;
      NoneEnded(awaited, q, ends, aborted);
      r, named := walked, None;
      if walked.Done? && denied {
        r := Threw(Denied);
      } else if walked.Done? {
        while pending != [] && writeDenials == []
          invariant awaited == InTime(started, q.env, outlives) && unawaited == TooLate(started, q.env, outlives)
          invariant Accounted(awaited, pending, stored, ends) && DenialsNoted(awaited, pending, writeDenials, q, ends, aborted)
          invariant old(aborted) ==> aborted
          invariant !old(aborted) && aborted ==> exists t :: t in awaited && ends(t.leaf).aborts
          decreases |pending|
        {
          var k :| 0 <= k < |pending|;
          Settle(k, ends);
        }
        if writeDenials != [] { r, named := Threw(Denied), Some(writeDenials[0]); }
      }
      ghost var seen := writeDenials;
      while pending != []
        invariant awaited == InTime(started, q.env, outlives) && unawaited == TooLate(started, q.env, outlives)
        invariant Accounted(awaited, pending, stored, ends) && DenialsNoted(awaited, pending, writeDenials, q, ends, aborted)
        invariant old(aborted) ==> aborted
        invariant !old(aborted) && aborted ==> exists t :: t in awaited && ends(t.leaf).aborts
        invariant walked.Done? && !denied && seen == [] ==> pending == [] && writeDenials == []
        invariant seen <= writeDenials
        decreases |pending|
      {
        var k :| 0 <= k < |pending|;
        Settle(k, ends);
      }
      DenialsKnown(awaited, writeDenials, q, ends, aborted);
    }
  }

  /** The write of a leaf can be started after the operation is over only below a middleware that does not wait for its `next()`;
      `outlives` tells whether the downstream is slow enough. */
  predicate StartsLate(env: Env, outlives: Leaf -> bool, t: Target) {
    outlives(t.leaf) && exists i | 0 < i <= |t.leaf.path| :: env.behave(t.leaf.path[..i]).Detaches()
  }

  function InTime(ts: seq<Target>, env: Env, outlives: Leaf -> bool): (r: seq<Target>)
    ensures forall t :: t in r <==> t in ts && !StartsLate(env, outlives, t)
  {
    Filter(ts, t => !StartsLate(env, outlives, t))
  }

  function TooLate(ts: seq<Target>, env: Env, outlives: Leaf -> bool): (r: seq<Target>)
    ensures forall t :: t in r <==> t in ts && StartsLate(env, outlives, t)
  {
    Filter(ts, t => StartsLate(env, outlives, t))
  }

  /** Some awaited write ends with a denial. */
  ghost predicate SomeRefused(started: seq<Target>, ends: Leaf -> WriteEnd) {
    exists t :: t in started && ends(t.leaf).fault == Some(Denied)
  }

  /** Every started write is still running, stored, or failed. */
  ghost predicate Accounted(started: seq<Target>, pending: seq<Target>, stored: seq<Target>, ends: Leaf -> WriteEnd) {
    && multiset(stored) + multiset(pending) <= multiset(started)
    && (forall t | t in stored :: ends(t.leaf).fault.None?)
    && (forall t | t in started && t !in pending && ends(t.leaf).fault.None? :: t in stored)
  }

  ghost predicate DenialsNoted(started: seq<Target>, pending: seq<Target>, writeDenials: seq<Leaf>, q: Request, ends: Leaf -> WriteEnd, aborted: bool) {
    && (writeDenials != [] ==> q.throwOnDenied && SomeRefused(started, ends))
    && (!aborted && q.throwOnDenied && writeDenials == [] ==> forall t | t in started && t !in pending :: ends(t.leaf).fault != Some(Denied))
    && (forall t | t in pending :: t in started)
    && (forall l | l in writeDenials :: exists t :: t in started && t.leaf == l && ends(l).fault == Some(Denied))
  }

  lemma NoneEnded(started: seq<Target>, q: Request, ends: Leaf -> WriteEnd, aborted: bool)
    ensures Accounted(started, started, [], ends) && DenialsNoted(started, started, [], q, ends, aborted)
  {
  }

  lemma DenialsKnown(started: seq<Target>, writeDenials: seq<Leaf>, q: Request, ends: Leaf -> WriteEnd, aborted: bool)
    requires DenialsNoted(started, [], writeDenials, q, ends, aborted)
    ensures writeDenials != [] ==> q.throwOnDenied && SomeRefused(started, ends)
    ensures !aborted && q.throwOnDenied && writeDenials == [] ==> !SomeRefused(started, ends)
    ensures forall l | l in writeDenials :: exists t :: t in started && t.leaf == l && ends(l).fault == Some(Denied)
  {
  }

  lemma TaskEnds(started: seq<Target>, pending: seq<Target>, stored: seq<Target>, k: nat, ends: Leaf -> WriteEnd)
    requires k < |pending| && Accounted(started, pending, stored, ends)
    ensures var t := pending[k];
            Accounted(started, pending[..k] + pending[k + 1..], if ends(t.leaf).fault.None? then stored + [t] else stored, ends)
  {
    var t, rest := pending[k], pending[..k] + pending[k + 1..];
    assert pending == pending[..k] + [t] + pending[k + 1..];
    assert multiset(pending) == multiset(rest) + multiset{t};
    forall x | x in pending && x != t ensures x in rest {
      assert multiset(rest)[x] > 0;
    }
  }

  lemma DenialSeen(started: seq<Target>, pending: seq<Target>, writeDenials: seq<Leaf>, k: nat, q: Request, ends: Leaf -> WriteEnd, aborted: bool)
    requires k < |pending| && DenialsNoted(started, pending, writeDenials, q, ends, aborted)
    ensures var t := pending[k];
            var after := aborted || ends(t.leaf).aborts;
            var seen := !after && ends(t.leaf).fault == Some(Denied) && q.throwOnDenied;
            t in started && DenialsNoted(started, pending[..k] + pending[k + 1..], if seen then writeDenials + [t.leaf] else writeDenials, q, ends, after)
  {
    var t, rest := pending[k], pending[..k] + pending[k + 1..];
    assert t in started;
    forall x | x in pending && x != t ensures x in rest {
      assert pending == pending[..k] + [t] + pending[k + 1..];
    }
    assert forall x | x in rest :: x in pending;
  }

  function AsSet(targets: seq<Leaf>): set<Leaf> {
    set l | l in targets
  }

  /** Some target may not be repaired. */
  ghost predicate SomeDeniable(ls: seq<Leaf>, targets: seq<Leaf>) {
    exists l :: l in ls && l in targets && !l.canRepair
  }

  ghost predicate LeavesApart(ts: seq<Target>) {
    forall i, j | 0 <= i < j < |ts| :: ts[i].leaf != ts[j].leaf
  }

  /** `started` are the targets that allow repair, each once, with what each of their chains gives on its own. */
  ghost predicate RepairsAlone(started: seq<Target>, env: Env, dests: seq<Destination>, targets: seq<Leaf>, data: Data, key: Key) {
    && LeavesApart(started)
    && (forall t :: t in started <==> t in EachChainAlone(env, dests, data, key) && t.leaf in targets && t.leaf.canRepair)
  }

  /** What `repair` comes to, by some log of the nodes that ran: how it ends, the writes it waited for, and those it left behind. */
  ghost predicate Outcome(q: Request, data: Data, key: Key, ends: Leaf -> WriteEnd, outlives: Leaf -> bool, aborted: bool, r: Exit,
                          awaited: seq<Target>, late: seq<Target>, after: bool) {
    if q.targets == {} then r == Done && awaited == [] && late == [] && after == aborted
    else exists walked, ts, ran, visits, flags: Flags ::
           && Promised(walked, ts, ran, visits, q, Spot([], 0, false, data, key), Flags(aborted, false), flags)
           && awaited == InTime(ts, q.env, outlives) && late == TooLate(ts, q.env, outlives)
           && Raised(q, walked, flags, awaited, ends, r, after)
  }

  /** The fault of the walk comes out, or else a denial recorded in the walk, or else that of an awaited write. */
  ghost predicate Raised(q: Request, walked: Exit, flags: Flags, awaited: seq<Target>, ends: Leaf -> WriteEnd, r: Exit, after: bool) {
    && (flags.aborted ==> after) && (after && !flags.aborted ==> exists t :: t in awaited && ends(t.leaf).aborts)
    && (if walked.Threw? then r == walked
        else if flags.denied then r == Threw(Denied)
        else if after then r == Done || (r == Threw(Denied) && q.throwOnDenied && SomeRefused(awaited, ends))
        else r == if q.throwOnDenied && SomeRefused(awaited, ends) then Threw(Denied) else Done)
  }

  lemma InSet(targets: seq<Leaf>)
    ensures forall l :: l in AsSet(targets) <==> l in targets
    ensures targets != [] ==> AsSet(targets) != {}
  {
    assert targets != [] ==> targets[0] in AsSet(targets);
  }

  lemma CameOut(q: Request, data: Data, key: Key, ends: Leaf -> WriteEnd, outlives: Leaf -> bool, aborted: bool, walked: Exit, ts: seq<Target>,
                ran: seq<seq<Mw>>, visits: VisitLog, flags: Flags, r: Exit, awaited: seq<Target>, late: seq<Target>, after: bool)
    requires q.targets != {} && Promised(walked, ts, ran, visits, q, Spot([], 0, false, data, key), Flags(aborted, false), flags)
    requires awaited == InTime(ts, q.env, outlives) && late == TooLate(ts, q.env, outlives)
    requires Raised(q, walked, flags, awaited, ends, r, after)
    ensures Outcome(q, data, key, ends, outlives, aborted, r, awaited, late, after)
  {
  }

  /** `PipelineGraph.repair` */
  method RepairGraph(g: Graph, ghost dests: seq<Destination>, env: Env, aborted: bool, key: Key, data: Data, targets: seq<Leaf>,
                     throwOnDenied: bool, ends: Leaf -> WriteEnd, outlives: Leaf -> bool)
    returns (r: Exit, run: RepairRun)
    requires IsGraphOf(g, dests)
    ensures fresh(run) && (aborted ==> run.aborted)
    ensures Outcome(Request(env, g.leaves, AsSet(targets), throwOnDenied), data, key, ends, outlives, aborted, r, run.awaited, run.unawaited, run.aborted)
    // However it exits, none of the writes it waits for is still running and none is lost. Those it does not wait for are exactly the ones
    // that a downstream nobody waits for starts only afterwards.
    ensures run.pending == [] && Accounted(run.awaited, [], run.stored, ends)
    ensures forall t :: t in run.awaited <==> t in run.started && !StartsLate(env, outlives, t)
    ensures forall t :: t in run.unawaited <==> t in run.started && StartsLate(env, outlives, t)
    ensures NoneDetachesOn(env, g.leaves) ==> run.unawaited == [] && run.awaited == run.started
    ensures LeavesApart(run.awaited) && LeavesApart(run.unawaited)
    // No write goes to a leaf that is not to be repaired, none is started twice, and each has what its chain gives on its own.
    ensures forall t | t in run.started :: t in EachChainAlone(env, dests, data, key) && t.leaf in targets && t.leaf.canRepair
    ensures LeavesApart(run.started)
    ensures Distinct(run.ran) && forall q | q in run.ran :: OnTrie(q, g.leaves) && Needed(q, g.leaves, AsSet(targets))
    // Best effort: without `throwOnDenied` only an abort or a contract error fails it.
    ensures !throwOnDenied ==> r.Done? || run.aborted || r.fault.Contract?
    ensures !throwOnDenied && CompliantOn(env, g.leaves) ==> r.Done? || run.aborted
    // Fail-close, exactly: without an abort, it fails with a contract error iff some middleware broke the contract and neither it nor one
    // above it abandons its `next()`.
    ensures !run.aborted ==> ((r.Threw? && r.fault.Contract?) <==> Heard(env, 1, Breakers(env, run.visits)))
    ensures NoneAbandonsOn(env, g.leaves) && Breakers(env, run.visits) != {} ==> run.aborted || (r.Threw? && r.fault.Contract?)
    // `run.visits` is what happened at the nodes that ran: it fits the middlewares, and from the root down each `next()` came to what the
    // nodes below it came to.
    ensures Logged(run.started, run.ran, run.visits, env, g.leaves, Spot([], 0, false, data, key), Permitted(AsSet(targets)),
                   NeededNodes(g.leaves, AsSet(targets)), run.aborted)
    ensures AllEnded(Request(env, g.leaves, AsSet(targets), throwOnDenied), run.visits)
    ensures Below(run.started, run.visits, [], run.walked, run.aborted, iset{}, Permitted(AsSet(targets)), NeededNodes(g.leaves, AsSet(targets)), g.leaves)
    // Otherwise the fault of the walk comes out, then a denial recorded in the walk, then that of an awaited write.
    ensures run.walked.Threw? ==> r == run.walked
    ensures run.walked.Done? && run.denied ==> r == Threw(Denied)
    ensures run.walked.Done? && !run.denied && !run.aborted ==> r == if throwOnDenied && SomeRefused(run.awaited, ends) then Threw(Denied) else Done
    // A denial is recorded exactly for a target that may not be repaired and that no needed node above keeps the walk from, or by a middleware
    // that refuses the repair of its only target.
    ensures throwOnDenied && !run.aborted && run.walked.Done? && AllFinish(run.visits, env) ==>
              (run.denied <==> Denials(Request(env, g.leaves, AsSet(targets), throwOnDenied), Spot([], 0, false, data, key), run.visits))
    ensures !throwOnDenied ==> !run.denied
    // Best effort, exactly: when nobody breaks the contract, and without `throwOnDenied` and without an abort, the targets written are those that
    // allow repair and have only nodes above them that let their downstream start, whatever fails elsewhere.
    ensures CompliantOn(env, g.leaves) ==> Breakers(env, run.visits) == {}
    ensures !throwOnDenied && !run.aborted && Breakers(env, run.visits) == {} ==>
              forall l: Leaf | l in targets && l in g.leaves && l.canRepair :: Reaches(run.started, l) <==> WayOpen(env, l.path)
    // So a middleware that breaks the rules, where the walk gets to it and nobody above abandons it, fails the operation.
    ensures NeverAbortsOn(env, g.leaves) && !aborted && (forall l :: !ends(l).aborts) ==>
              (SureBreach(env, g.leaves, NeededNodes(g.leaves, AsSet(targets))) ==> r.Threw? && r.fault.Contract?)
    // Well-behaved middlewares: `encode` restricted to the targets that allow repair, and every denial is raised.
    ensures WellBehavedOn(env, g.leaves) && !aborted && (forall l :: !ends(l).aborts) ==>
              && RepairsAlone(run.started, env, dests, targets, data, key)
              && (forall q :: q in run.ran <==> OnTrie(q, g.leaves) && Needed(q, g.leaves, AsSet(targets)))
              && (r == if throwOnDenied && (SomeDeniable(g.leaves, targets) || SomeRefused(run.started, ends)) then Threw(Denied) else Done)
    // What it gets to even when it fails later.
    ensures NeverAbortsOn(env, g.leaves) && !aborted && (forall l :: !ends(l).aborts) ==> !run.aborted
    ensures run.aborted && !aborted && (forall l :: !ends(l).aborts) ==> SomeAborts(run.ran, env)
    ensures Gets(run.started, run.ran, run.visits, env, g.leaves, AsSet(targets), aborted)
  {
    hide AreEntries, EachChainAlone, WellBehavedOn, CompliantOn, NoneAbandonsOn, NoneDetachesOn, NeverAbortsOn, OnTrie, Accounted, SomeRefused,
      Needed, DenialsNoted, Gets, Heard, SureBreach, Below, Logged, AllEnded, Breakers, StartsLate, InTime, TooLate, LeavesApart,
      RepairsAlone, SomeDeniable, NeededNodes, Promised, SomeAborts, Reaches, WayOpen, AllFinish,
      Denials, Outcome, Permitted, AsSet, Raised;
    ghost var s := Spot([], 0, false, data, key);
    var q := Request(env, g.leaves, AsSet(targets), throwOnDenied);
    run := new RepairRun(q, aborted);
    if targets == [] {
      NothingToDo(q, dests, data, key, ends, aborted);
      run.walked := Done;
      return Done, run;
    }
    LeavesAscend(dests);
    InSet(targets);
    ghost var ts, qs, vs;
    r, ts, qs, vs := run.Each(g.entries, [], data, key);
    assert run.started == ts && run.ran == qs && run.visits == vs;
    RootWalked(r, ts, qs, vs, q, dests, targets, data, key, Flags(aborted, false), run.Now());
    run.walked := r;
    ghost var mid := run.Now();
    NoneLate(ts, env, g.leaves, outlives);
    SplitApart(ts, env, outlives);
    var named;
    r, named := run.AwaitWrites(r, ends, outlives);
    assert run.started == ts && run.ran == qs && run.visits == vs;
    CameOut(q, data, key, ends, outlives, aborted, run.walked, ts, qs, vs, mid, r, run.awaited, run.unawaited, run.aborted);
    LoggedLater(run.walked, ts, qs, vs, q, s, mid.aborted, run.aborted);
  }

  lemma LoggedLater(r: Exit, ts: seq<Target>, ran: seq<seq<Mw>>, visits: VisitLog, q: Request, s: Spot, mid: bool, aborted: bool)
    requires mid ==> aborted
    requires Logged(ts, ran, visits, q.env, q.ls, s, Permitted(q.targets), NeededNodes(q.ls, q.targets), mid)
    requires Below(ts, visits, [], r, mid, iset{}, Permitted(q.targets), NeededNodes(q.ls, q.targets), q.ls)
    ensures Logged(ts, ran, visits, q.env, q.ls, s, Permitted(q.targets), NeededNodes(q.ls, q.targets), aborted)
    ensures Below(ts, visits, [], r, aborted, iset{}, Permitted(q.targets), NeededNodes(q.ls, q.targets), q.ls)
  {
    hide Below, OnTrie, Begun;
    BelowLater(ts, visits, [], r, mid, aborted, iset{}, Permitted(q.targets), NeededNodes(q.ls, q.targets), q.ls);
  }

  lemma {:induction false} ApartFiltered(ts: seq<Target>, keep: Target -> bool)
    requires LeavesApart(ts)
    ensures LeavesApart(Filter(ts, keep))
  {
    if ts != [] {
      var init, last := ts[..|ts| - 1], ts[|ts| - 1];
      ApartFiltered(init, keep);
      var r := Filter(init, keep);
      forall i | 0 <= i < |r| ensures r[i].leaf != last.leaf {
        assert r[i] in r;
        assert r[i] in init;
      }
    }
  }

  lemma SplitApart(ts: seq<Target>, env: Env, outlives: Leaf -> bool)
    requires LeavesApart(ts)
    ensures LeavesApart(InTime(ts, env, outlives)) && LeavesApart(TooLate(ts, env, outlives))
  {
    ApartFiltered(ts, t => !StartsLate(env, outlives, t));
    ApartFiltered(ts, t => StartsLate(env, outlives, t));
  }

  /** Whoever waits for `next()` everywhere has all writes waited for. */
  lemma NoneLate(ts: seq<Target>, env: Env, ls: seq<Leaf>, outlives: Leaf -> bool)
    requires forall t | t in ts :: t.leaf in ls
    ensures NoneDetachesOn(env, ls) ==>
              InTime(ts, env, outlives) == ts && TooLate(ts, env, outlives) == []
    ensures WellBehavedOn(env, ls) ==> NoneDetachesOn(env, ls)
  {
    var late := TooLate(ts, env, outlives);
    assert late == [] || late[0] in late;
    if NoneDetachesOn(env, ls) {
      forall t | t in ts ensures !StartsLate(env, outlives, t) {
        forall i | 0 < i <= |t.leaf.path| ensures !env.behave(t.leaf.path[..i]).Detaches() { assert OnTrie(t.leaf.path[..i], ls); }
      }
      FilterAll(ts, t => !StartsLate(env, outlives, t));
    }
  }

  /** The needed nodes and permitted leaves at the end of a clear way are run and written; and a middleware that breaks the rules in
      any case is a breach. */
  ghost predicate Gets(ts: seq<Target>, ran: seq<seq<Mw>>, visits: VisitLog, env: Env, ls: seq<Leaf>, targets: set<Leaf>, aborted: bool) {
    && (forall w | !aborted && w != [] && Clear(env, ls, w, |w| - 1) && Needed(w, ls, targets) && OnTrie(w, ls) :: w in ran)
    && (forall l: Leaf | !aborted && l in targets && l.canRepair && l in ls && Clear(env, ls, l.path, |l.path|) :: Reaches(ts, l))
    && (forall x | x in ran && env.behave(x).BreaksAnyway() :: x in Breakers(env, visits))
  }

  /** What the walk from the root has started, in terms of the chains on their own. */
  lemma RootWalked(r: Exit, ts: seq<Target>, ran: seq<seq<Mw>>, visits: VisitLog, q: Request, dests: seq<Destination>, targets: seq<Leaf>,
                   data: Data, key: Key, before: Flags, after: Flags)
    requires q.ls == LeavesOf(dests) && q.targets == AsSet(targets)
    requires Promised(r, ts, ran, visits, q, Spot([], 0, false, data, key), before, after)
    ensures forall t | t in ts :: t in EachChainAlone(q.env, dests, data, key) && t.leaf in targets && t.leaf.canRepair && t.leaf in q.ls
    ensures LeavesApart(ts)
    ensures Distinct(ran) && forall x | x in ran :: OnTrie(x, q.ls) && Needed(x, q.ls, q.targets)
    ensures after.aborted && !before.aborted ==> SomeAborts(ran, q.env)
    ensures Tolerates(r, q, before, after) && Gets(ts, ran, visits, q.env, q.ls, q.targets, before.aborted)
    ensures Logged(ts, ran, visits, q.env, q.ls, Spot([], 0, false, data, key), Permitted(q.targets), NeededNodes(q.ls, q.targets), after.aborted)
    ensures AllEnded(q, visits)
    ensures Below(ts, visits, [], r, after.aborted, iset{}, Permitted(q.targets), NeededNodes(q.ls, q.targets), q.ls)
    ensures !after.aborted ==> ((r.Threw? && r.fault.Contract?) <==> Heard(q.env, 1, Breakers(q.env, visits)))
    ensures CompliantOn(q.env, q.ls) ==> Breakers(q.env, visits) == {}
    ensures !q.throwOnDenied && !after.aborted && Breakers(q.env, visits) == {} ==>
              forall l: Leaf | l in q.targets && l in q.ls && l.canRepair :: Reaches(ts, l) <==> WayOpen(q.env, l.path)
    ensures r.Done? && q.throwOnDenied && !after.aborted && AllFinish(visits, q.env) ==>
              (after.denied <==> before.denied || Denials(q, Spot([], 0, false, data, key), visits))
    ensures NoneAbandonsOn(q.env, q.ls) && Breakers(q.env, visits) != {} ==> Heard(q.env, 1, Breakers(q.env, visits))
    ensures !before.aborted && SureBreach(q.env, q.ls, NeededNodes(q.ls, q.targets)) ==> Heard(q.env, 1, Breakers(q.env, visits))
    ensures WellBehavedOn(q.env, q.ls) && !before.aborted ==>
              && RepairsAlone(ts, q.env, dests, targets, data, key)
              && (forall x :: x in ran <==> OnTrie(x, q.ls) && Needed(x, q.ls, q.targets))
              && (q.throwOnDenied && !before.denied ==> (after.denied <==> SomeDeniable(q.ls, targets)))
  {
    hide Promised, Needed, OnTrie, WellBehavedOn, CompliantOn, NoneAbandonsOn, Tolerates, Heard, Below, AllEnded, Logged, Breakers, Gets,
      SureBreach, SomeAborts, Reaches, AllFinish, Denials, SomeDeniable, RepairsAlone, EachChainAlone, LeavesApart, WayOpen;
    RootSound(r, ts, ran, visits, q, dests, targets, data, key, before, after);
    RootTold(r, ts, ran, visits, q, data, key, before, after);
    RootGets(r, ts, ran, visits, q, data, key, before, after);
    if !q.throwOnDenied && !after.aborted && Breakers(q.env, visits) == {} { WrittenIfOpen(r, ts, ran, visits, q, data, key); }
    if !before.aborted { SureIsHeard(ran, visits, q.env, q.ls, NeededNodes(q.ls, q.targets)); }
    if WellBehavedOn(q.env, q.ls) && !before.aborted { RootWell(r, ts, ran, visits, q, dests, targets, data, key, before, after); }
  }

  lemma RootSound(r: Exit, ts: seq<Target>, ran: seq<seq<Mw>>, visits: VisitLog, q: Request, dests: seq<Destination>, targets: seq<Leaf>,
                  data: Data, key: Key, before: Flags, after: Flags)
    requires q.ls == LeavesOf(dests) && q.targets == AsSet(targets)
    requires Promised(r, ts, ran, visits, q, Spot([], 0, false, data, key), before, after)
    ensures forall t | t in ts :: t in EachChainAlone(q.env, dests, data, key) && t.leaf in targets && t.leaf.canRepair && t.leaf in q.ls
    ensures LeavesApart(ts) && Tolerates(r, q, before, after) && AllEnded(q, visits)
    ensures Distinct(ran) && forall x | x in ran :: OnTrie(x, q.ls) && Needed(x, q.ls, q.targets)
  {
    hide Needed, OnTrie, Tolerates, AllEnded, Full, Audited, Arrives, AbortTraced, AllFinish, Denials;
    SoundOrders(ts, ran, q.env, dests, data, key, Permitted(q.targets), NeededNodes(q.ls, q.targets));
  }

  /** What the log of the walk says. */
  lemma RootTold(r: Exit, ts: seq<Target>, ran: seq<seq<Mw>>, visits: VisitLog, q: Request, data: Data, key: Key, before: Flags, after: Flags)
    requires Promised(r, ts, ran, visits, q, Spot([], 0, false, data, key), before, after)
    ensures after.aborted && !before.aborted ==> SomeAborts(ran, q.env)
    ensures Logged(ts, ran, visits, q.env, q.ls, Spot([], 0, false, data, key), Permitted(q.targets), NeededNodes(q.ls, q.targets), after.aborted)
    ensures Below(ts, visits, [], r, after.aborted, iset{}, Permitted(q.targets), NeededNodes(q.ls, q.targets), q.ls)
    ensures !after.aborted ==> ((r.Threw? && r.fault.Contract?) <==> Heard(q.env, 1, Breakers(q.env, visits)))
    ensures CompliantOn(q.env, q.ls) ==> Breakers(q.env, visits) == {}
    ensures NoneAbandonsOn(q.env, q.ls) && Breakers(q.env, visits) != {} ==> Heard(q.env, 1, Breakers(q.env, visits))
    ensures forall x | x in ran && q.env.behave(x).BreaksAnyway() :: x in Breakers(q.env, visits)
    ensures r.Done? && q.throwOnDenied && !after.aborted && AllFinish(visits, q.env) ==>
              (after.denied <==> before.denied || Denials(q, Spot([], 0, false, data, key), visits))
  {
    hide Sound, Tolerates, AllEnded, Full, Audited, Arrives, AbortTraced, AllFinish, Denials, SomeAborts, Heard, Breakers, Logged, Below;
    RootAudited(r, ts, ran, visits, q, data, key, after.aborted);
    NoneBreaks(ts, ran, visits, q, data, key, after.aborted);
    TracedRuns(ts, ran, visits, q.env, q.ls, Spot([], 0, false, data, key), Permitted(q.targets), NeededNodes(q.ls, q.targets), before.aborted, after.aborted);
  }

  lemma RootWell(r: Exit, ts: seq<Target>, ran: seq<seq<Mw>>, visits: VisitLog, q: Request, dests: seq<Destination>, targets: seq<Leaf>,
                 data: Data, key: Key, before: Flags, after: Flags)
    requires q.ls == LeavesOf(dests) && q.targets == AsSet(targets)
    requires Promised(r, ts, ran, visits, q, Spot([], 0, false, data, key), before, after) && WellBehavedOn(q.env, q.ls) && !before.aborted
    ensures RepairsAlone(ts, q.env, dests, targets, data, key)
    ensures forall x :: x in ran <==> OnTrie(x, q.ls) && Needed(x, q.ls, q.targets)
    ensures q.throwOnDenied && !before.denied ==> (after.denied <==> SomeDeniable(q.ls, targets))
  {
    hide Sound, AllEnded, Full, Audited, Arrives, AbortTraced, AllFinish, Denials, SomeDeniable, OnTrie, Needed, WellBehavedOn, CompliantOn, NeverAbortsOn,
      RepairsAlone, Logged;
    RootAudited(r, ts, ran, visits, q, data, key, after.aborted);
    WellFinishes(ts, ran, visits, q, data, key);
    FullFromRoot(ts, ran, q, dests, targets, data, key);
    DeniedWhenWell(q, visits, ran, targets, data, key);
  }

  lemma RootAudited(r: Exit, ts: seq<Target>, ran: seq<seq<Mw>>, visits: VisitLog, q: Request, data: Data, key: Key, aborted: bool)
    requires Audited(r, ts, ran, visits, q.env, q.ls, Spot([], 0, false, data, key), Permitted(q.targets), NeededNodes(q.ls, q.targets), iset{}, true, aborted)
    ensures Logged(ts, ran, visits, q.env, q.ls, Spot([], 0, false, data, key), Permitted(q.targets), NeededNodes(q.ls, q.targets), aborted)
    ensures Below(ts, visits, [], r, aborted, iset{}, Permitted(q.targets), NeededNodes(q.ls, q.targets), q.ls)
    ensures !aborted ==> ((r.Threw? && r.fault.Contract?) <==> Heard(q.env, 1, Breakers(q.env, visits)))
    ensures NoneAbandonsOn(q.env, q.ls) && Breakers(q.env, visits) != {} ==> Heard(q.env, 1, Breakers(q.env, visits))
    ensures forall x | x in ran && q.env.behave(x).BreaksAnyway() :: x in Breakers(q.env, visits)
    ensures forall x :: x in visits <==> x in ran
  {
    hide OnTrie, NoneAbandonsOn, Heard, Below, Breakers, VisitOk, TargetOk;
    BreakersBroke(ts, ran, visits, q.env, q.ls, Spot([], 0, false, data, key), Permitted(q.targets), NeededNodes(q.ls, q.targets), aborted);
    BreachHeard(q.env, q.ls, Breakers(q.env, visits));
  }

  lemma NoneBreaks(ts: seq<Target>, ran: seq<seq<Mw>>, visits: VisitLog, q: Request, data: Data, key: Key, aborted: bool)
    requires Logged(ts, ran, visits, q.env, q.ls, Spot([], 0, false, data, key), Permitted(q.targets), NeededNodes(q.ls, q.targets), aborted)
    ensures CompliantOn(q.env, q.ls) ==> Breakers(q.env, visits) == {}
  {
    hide OnTrie, Logged, CompliantAt, Breakers;
    var s, want, nodes := Spot([], 0, false, data, key), Permitted(q.targets), NeededNodes(q.ls, q.targets);
    BreakersBroke(ts, ran, visits, q.env, q.ls, s, want, nodes, aborted);
    CompliantNotBroken(ts, ran, visits, q.env, q.ls, s, want, nodes, aborted);
  }

  /** Without a breach a call throws only what its `next()` threw, so nothing throws and every loop goes through all its entries. */
  lemma WrittenIfOpen(r: Exit, ts: seq<Target>, ran: seq<seq<Mw>>, visits: VisitLog, q: Request, data: Data, key: Key)
    requires !q.throwOnDenied && Breakers(q.env, visits) == {} && AllEnded(q, visits)
    requires Logged(ts, ran, visits, q.env, q.ls, Spot([], 0, false, data, key), Permitted(q.targets), NeededNodes(q.ls, q.targets), false)
    requires Below(ts, visits, [], r, false, iset{}, Permitted(q.targets), NeededNodes(q.ls, q.targets), q.ls)
    ensures r.Done? && AllFinish(visits, q.env)
    ensures forall l: Leaf | l in q.targets && l in q.ls && l.canRepair :: Reaches(ts, l) <==> WayOpen(q.env, l.path)
  {
    hide OnTrie, Begun, Below, Reaches, Ended, Needed, Broke, WayOpen;
    var s, want, nodes := Spot([], 0, false, data, key), Permitted(q.targets), NeededNodes(q.ls, q.targets);
    var height := MaxLength(q.ls);
    forall x | x in visits
      ensures (visits[x].exit.Threw? ==> visits[x].started && visits[x].next.Threw?) && !visits[x].mid
              && (visits[x].started <==> q.env.behave(x).Opens() && q.env.mapKeyFault(x).None?)
    {
      assert VisitOk(visits, x, q.env, q.ls, s, false) && x !in Breakers(q.env, visits);
      NotOwnFault(q, x, visits[x]);
    }
    forall x | x in visits ensures visits[x].started ==> visits[x].next.Done? {
      NobodyThrows(ts, ran, visits, q.env, q.ls, s, want, nodes, x, height);
    }
    if r.Threw? {
      var c := Thrower(ts, visits, [], r, false, iset{}, want, nodes, q.ls);
      assert false;
    }
    forall l: Leaf | l in q.targets && l in q.ls && l.canRepair ensures Reaches(ts, l) <==> WayOpen(q.env, l.path) {
      forall i | 0 < i <= |l.path| ensures l.path[..i] in nodes { NeededAbove(q, l, i); }
      ReachedIfOpen(ts, ran, visits, q.env, q.ls, want, nodes, iset{}, data, key, l);
    }
  }

  /** Where all middlewares behave well, everything is finished. */
  lemma WellFinishes(ts: seq<Target>, ran: seq<seq<Mw>>, visits: VisitLog, q: Request, data: Data, key: Key)
    requires WellBehavedOn(q.env, q.ls) && AllEnded(q, visits)
    requires Logged(ts, ran, visits, q.env, q.ls, Spot([], 0, false, data, key), Permitted(q.targets), NeededNodes(q.ls, q.targets), false)
    ensures AllFinish(visits, q.env) && forall x | x in visits :: visits[x].started
  {
    hide Begun, Below, Ended, Needed;
    var s, want, nodes := Spot([], 0, false, data, key), Permitted(q.targets), NeededNodes(q.ls, q.targets);
    var height := MaxLength(q.ls);
    forall x | x in visits
      ensures (visits[x].exit.Threw? ==> visits[x].started && visits[x].next.Threw?) && !visits[x].mid && visits[x].started
              && q.env.behave(x).Opens() && q.env.mapKeyFault(x).None?
    {
      assert VisitOk(visits, x, q.env, q.ls, s, false);
      WellEnds(q, x, visits[x]);
    }
    forall x | x in visits ensures visits[x].started ==> visits[x].next.Done? {
      NobodyThrows(ts, ran, visits, q.env, q.ls, s, want, nodes, x, height);
    }
  }

  lemma WellEnds(q: Request, x: seq<Mw>, v: Visit)
    requires q.env.behave(x).WellBehaved() && q.env.mapKeyFault(x).None?
    requires Begun(q.env.behave(x), q.env.mapKeyFault(x), v) && !v.after && Ended(q, x, v)
    ensures v.started && !v.mid && (v.exit.Threw? ==> v.next.Threw?)
  {
    hide Shared;
  }

  lemma DeniedWhenWell(q: Request, visits: VisitLog, ran: seq<seq<Mw>>, targets: seq<Leaf>, data: Data, key: Key)
    requires q.targets == AsSet(targets) && (forall x | x in visits :: visits[x].started) && (forall x :: x in visits <==> x in ran)
    requires forall x | OnTrie(x, q.ls) && Needed(x, q.ls, q.targets) :: x in ran
    ensures Denials(q, Spot([], 0, false, data, key), visits) <==> SomeDeniable(q.ls, targets)
  {
    hide Needed;
    var s := Spot([], 0, false, data, key);
    forall l ensures DeniedLeaf(q, s, visits, l) <==> l in q.ls && l in targets && !l.canRepair {
      if l in q.ls && l in targets && !l.canRepair {
        assert TargetUnder(l, q.ls, [], q.targets);
        forall i | 1 <= i <= |l.path| && Needed(l.path[..i], q.ls, q.targets) ensures l.path[..i] in visits && visits[l.path[..i]].started {
          assert l.path[..i] <= l.path;
          assert OnTrie(l.path[..i], q.ls);
        }
      }
    }
  }

  lemma NeededAbove(q: Request, l: Leaf, i: nat)
    requires l in q.targets && l in q.ls && l.canRepair && i <= |l.path|
    ensures Needed(l.path[..i], q.ls, q.targets)
  {
    assert TargetUnder(l, q.ls, l.path[..i], q.targets);
  }

  lemma NotOwnFault(q: Request, x: seq<Mw>, v: Visit)
    requires !q.throwOnDenied && Begun(q.env.behave(x), q.env.mapKeyFault(x), v) && !v.after && Ended(q, x, v) && !Broke(q.env.behave(x), v)
    ensures v.exit.Threw? ==> v.started && v.next.Threw?
    ensures !v.mid && (v.started <==> q.env.behave(x).Opens() && q.env.mapKeyFault(x).None?)
  {
    hide Shared;
    var b := q.env.behave(x);
    var ex, contract :| Checked(b, v.next, v.mid, ex, contract, v.after)
                        && Caught(ex, contract, Shared(x, q.ls, q.targets), v.started, q.throwOnDenied, v.after, v.exit);
    OwnTold(b, v, ex, contract, q.env.mapKeyFault(x));
  }

  lemma RootGets(r: Exit, ts: seq<Target>, ran: seq<seq<Mw>>, visits: VisitLog, q: Request, data: Data, key: Key, before: Flags, after: Flags)
    requires Promised(r, ts, ran, visits, q, Spot([], 0, false, data, key), before, after)
    requires forall x | x in ran && q.env.behave(x).BreaksAnyway() :: x in Breakers(q.env, visits)
    ensures Gets(ts, ran, visits, q.env, q.ls, q.targets, before.aborted)
    ensures !before.aborted ==>
              forall w | w != [] && Clear(q.env, q.ls, w, |w| - 1) && w in NeededNodes(q.ls, q.targets) && OnTrie(w, q.ls) :: w in ran
  {
    hide Needed, OnTrie, Sound, Full, Tolerates, Clear, Audited, Logged, AllEnded, Breakers;
    var s := Spot([], 0, false, data, key);
    forall x | OnTrie(x, q.ls) && Needed(x, q.ls, q.targets) ensures s.Owns(x) && x in NeededNodes(q.ls, q.targets) { OnTrieOwned(s, x, q.ls); }
  }

  lemma FullFromRoot(ts: seq<Target>, ran: seq<seq<Mw>>, q: Request, dests: seq<Destination>, targets: seq<Leaf>, data: Data, key: Key)
    requires q.ls == LeavesOf(dests) && q.targets == AsSet(targets)
    requires Sound(ts, ran, q.env, q.ls, Spot([], 0, false, data, key), Permitted(q.targets), NeededNodes(q.ls, q.targets))
    requires Full(ts, ran, q.ls, Spot([], 0, false, data, key), Permitted(q.targets), NeededNodes(q.ls, q.targets))
    ensures RepairsAlone(ts, q.env, dests, targets, data, key)
    ensures forall x :: x in ran <==> OnTrie(x, q.ls) && Needed(x, q.ls, q.targets)
  {
    hide OnTrie, Needed;
    var s := Spot([], 0, false, data, key);
    SoundOrders(ts, ran, q.env, dests, data, key, Permitted(q.targets), NeededNodes(q.ls, q.targets));
    forall t | t in EachChainAlone(q.env, dests, data, key) && t.leaf in targets && t.leaf.canRepair ensures t in ts {
      var j :| 0 <= j < |dests| && t == EachChainAlone(q.env, dests, data, key)[j];
      assert q.ls[j] in q.ls && t.leaf == q.ls[j] && [] <= t.leaf.path;
      assert Reaches(ts, t.leaf);
    }
    forall x | OnTrie(x, q.ls) && Needed(x, q.ls, q.targets) ensures x in ran {
      assert x in NeededNodes(q.ls, q.targets);
      OnTrieOwned(s, x, q.ls);
    }
  }

  lemma NothingToDo(q: Request, dests: seq<Destination>, data: Data, key: Key, ends: Leaf -> WriteEnd, aborted: bool)
    requires q.targets == AsSet([]) && q.ls == LeavesOf(dests)
    ensures Accounted([], [], [], ends) && !SomeRefused([], ends) && !SomeDeniable(q.ls, [])
    ensures forall outlives :: Outcome(q, data, key, ends, outlives, aborted, Done, [], [], aborted)
    ensures RepairsAlone([], q.env, dests, [], data, key)
    ensures forall x :: !Needed(x, q.ls, q.targets)
    ensures !SureBreach(q.env, q.ls, NeededNodes(q.ls, q.targets)) && Breakers(q.env, map[]) == {} && !Heard(q.env, 1, {})
    ensures Gets([], [], map[], q.env, q.ls, q.targets, aborted) && LeavesApart([])
    ensures Logged([], [], map[], q.env, q.ls, Spot([], 0, false, data, key), Permitted(q.targets), NeededNodes(q.ls, q.targets), aborted)
    ensures (forall l: Leaf | l in q.targets :: false) && !Denials(q, Spot([], 0, false, data, key), map[])
    ensures AllEnded(q, map[]) && Below([], map[], [], Done, aborted, iset{}, Permitted(q.targets), NeededNodes(q.ls, q.targets), q.ls)
  {
    hide EachChainAlone, OnTrie;
    NothingBelow(dests, [], aborted, iset{}, Permitted(q.targets), NeededNodes(q.ls, q.targets), q.ls);
  }

  lemma OnTrieOwned(s: Spot, x: seq<Mw>, ls: seq<Leaf>)
    requires s.p == [] && OnTrie(x, ls)
    ensures s.Owns(x)
  {
  }

  /** Where waiting for all writes fails: for every graph and every leaf that may be repaired and has a node below another on its path, if
      that other node's middleware does not wait for its `next()` and the downstream is slow, `repair` leaves a write behind. */
  method LooseWrite(g: Graph, ghost dests: seq<Destination>, tr: Env, key: Key, data: Data, throwOnDenied: bool, ends: Leaf -> WriteEnd, l: Leaf, k: nat)
    returns (r: Exit, run: RepairRun)
    requires IsGraphOf(g, dests) && l in g.leaves && l.canRepair && 0 < k < |l.path|
    ensures Reaches(run.unawaited, l)
  {
    hide IsGraphOf, EachChainAlone, Accounted, OnTrie, Needed, Heard, SomeRefused, SomeDeniable, RepairsAlone, Clear, Hasty, NeverAbortsOn, NoneAbandonsOn,
      Logged, Below, AllEnded, Breakers, SureBreach, WayOpen, AllFinish, Denials, SomeAborts, LeavesApart;
    var env := Hasty(tr, l.path, k);
    r, run := RepairGraph(g, dests, env, false, key, data, [l], throwOnDenied, ends, _ => true);
    HastyReached(tr, g.leaves, l, k);
    assert l in AsSet([l]);
    var t :| t in run.started && t.leaf == l;
    assert env.behave(l.path[..k]).Detaches();
  }

  /** Where fail-close fails: the node `l.path[..k]` abandons its `next()`, and the breach of the node below is not heard. */
  method UnheardBreach(g: Graph, ghost dests: seq<Destination>, tr: Env, key: Key, data: Data, throwOnDenied: bool, ends: Leaf -> WriteEnd, l: Leaf, k: nat)
    returns (r: Exit, run: RepairRun)
    requires IsGraphOf(g, dests) && l in g.leaves && l.canRepair && 0 < k < |l.path| && forall x :: !ends(x).aborts
    ensures l.path[..k + 1] in Breakers(Abandoned(tr, l.path, k), run.visits) && !run.aborted && !(r.Threw? && r.fault.Contract?)
  {
    hide IsGraphOf, EachChainAlone, Accounted, SomeRefused, SomeDeniable, RepairsAlone, Clear, Heard, HeardAt, OnTrie, Abandoned, CompliantAt, NeverAbortsOn,
      Logged, Below, Breakers, AllEnded, SureBreach, WayOpen, AllFinish, Denials, SomeAborts, LeavesApart;
    var env := Abandoned(tr, l.path, k);
    r, run := RepairGraph(g, dests, env, false, key, data, [l], throwOnDenied, ends, _ => false);
    CompliantNotBroken(run.started, run.ran, run.visits, env, g.leaves, Spot([], 0, false, data, key), Permitted(AsSet([l])),
                       NeededNodes(g.leaves, AsSet([l])), run.aborted);
    AbandonedUnheard(tr, g.leaves, l, k, Breakers(env, run.visits));
    assert l in AsSet([l]) && TargetUnder(l, g.leaves, l.path[..k + 1], AsSet([l]));
  }
}
