/** PipelineGraph.buildEncodeTree: fanning one source stream out to the active destinations. */
module Streams {
  import opened Sequences
  import opened PipelineTrie
  import opened PipelineGraph
  import opened Options
  import opened Middlewares
  import opened ContractCheck
  import opened Walks

  /** A stream can be read from one end only once: by tee, by a pipe, or by the write it is given to. */
  datatype EndState = Live | Assigned | Teed | Piped | Cancelled

  /** One end of a stream; `data` stands for everything that can be read from it. It was made in the loop over the entries of the node
      `made`, or by a middleware called from there. */
  datatype End = End(data: Data, state: EndState, made: seq<Mw>)
  {
    predicate Readable() {
      state.Live? || state.Assigned?
    }
  }

  /** Made in the loop of `p` or in that of the node above. */
  predicate Near(made: seq<Mw>, p: seq<Mw>) {
    made <= p && |p| <= |made| + 1
  }

  datatype StreamTarget = StreamTarget(leaf: Leaf, key: Key, end: nat)

  /** All ends ever made, the set `streams` that the caller can cancel, and the targets so far. */
  datatype Pool = Pool(ends: seq<End>, streams: set<nat>, targets: seq<StreamTarget>)
  {
    predicate IsLive(e: nat) {
      e < |ends| && ends[e].state.Live?
    }

    /** No readable end is forgotten, each target has an end of its own, and ends are made where the trie has nodes. */
    ghost predicate Valid(ls: seq<Leaf>) {
      && (forall j | 0 <= j < |ends| && ends[j].Readable() :: j in streams)
      && (forall i | 0 <= i < |targets| ::
            && targets[i].end < |ends| && ends[targets[i].end].state.Assigned? && Near(ends[targets[i].end].made, targets[i].leaf.path))
      && (forall i, k | 0 <= i < k < |targets| :: targets[i].end != targets[k].end)
      && (forall j | 0 <= j < |ends| :: ends[j].made == [] || OnTrie(ends[j].made, ls))
    }

    ghost predicate TargetsInRange() {
      forall i | 0 <= i < |targets| :: targets[i].end < |ends|
    }

    /** What the targets will read. */
    ghost function Seen(): seq<Target>
      requires TargetsInRange()
    {
      seq(|targets|, i requires 0 <= i < |targets| => Target(targets[i].leaf, ends[targets[i].end].data, targets[i].key))
    }

    /** `tee`, in the loop of `p` */
    function Tee(e: nat, p: seq<Mw>): (r: Pool)
      requires IsLive(e)
    {
      var half := End(ends[e].data, Live, p);
      this.(ends := ends[e := ends[e].(state := Teed)] + [half, half], streams := streams + {|ends|, |ends| + 1})
    }

    /** `pipeThrough` the transform of `m`, called from the loop of `p`; the new end is not yet in `streams`. */
    function Pipe(e: nat, m: Mw, env: Env, p: seq<Mw>): (r: Pool)
      requires IsLive(e)
    {
      this.(ends := ends[e := ends[e].(state := Piped)] + [End(env.encode(m, ends[e].data), Live, p)])
    }

    function Register(e: nat): Pool {
      this.(streams := streams + {e})
    }

    function Assign(e: nat, leaf: Leaf, key: Key): (r: Pool)
      requires IsLive(e)
    {
      this.(ends := ends[e := ends[e].(state := Assigned)], targets := targets + [StreamTarget(leaf, key, e)])
    }

    /** End `j` can be made after the operation is over only below a middleware that does not wait for its `next()`; `outlives` tells
        whether the downstream is slow enough. */
    predicate MadeLate(env: Env, outlives: nat -> bool, j: nat)
      requires j < |ends|
    {
      outlives(j) && exists i | 0 < i <= |ends[j].made| :: env.behave(ends[j].made[..i]).Detaches()
    }

    /** `cancelStreams`, of what is there by then */
    function CancelStreams(env: Env, outlives: nat -> bool): (r: Pool)
      ensures |r.ends| == |ends| && r.targets == targets
      ensures forall j | 0 <= j < |ends| :: r.ends[j].made == ends[j].made
      ensures forall j | 0 <= j < |ends| && (j in streams || !ends[j].Readable()) ::
                r.ends[j].Readable() <==> ends[j].Readable() && MadeLate(env, outlives, j)
    {
      this.(ends := seq(|ends|, j requires 0 <= j < |ends| =>
              if j in streams && ends[j].Readable() && !MadeLate(env, outlives, j) then ends[j].(state := Cancelled) else ends[j]))
    }

    /** Cancelling a stream that is already being read fails and changes nothing. */
    function Cancel(e: nat): (r: Pool) {
      if IsLive(e) then this.(ends := ends[e := ends[e].(state := Cancelled)]) else this
    }
  }

  /** From `a` to `b`: ends are only added, and of the old ones only `e` is used. */
  ghost predicate Grows(a: Pool, b: Pool, e: nat) {
    && |a.ends| <= |b.ends| && a.streams <= b.streams && a.targets <= b.targets
    && (forall j | 0 <= j < |a.ends| ::
          b.ends[j].data == a.ends[j].data && b.ends[j].made == a.ends[j].made && (j != e ==> b.ends[j] == a.ends[j]))
  }

  lemma InRange(pool: Pool, ls: seq<Leaf>)
    requires pool.Valid(ls)
    ensures pool.TargetsInRange()
  {
  }

  lemma GrowsOn(a: Pool, b: Pool, c: Pool, e: nat, f: nat)
    requires Grows(a, b, e) && Grows(b, c, f) && (f == e || f >= |a.ends|)
    ensures Grows(a, c, e)
  {
  }

  /** Of the ends made since `a`, and of `e`, none is left to be read. */
  ghost predicate Spent(a: Pool, b: Pool, e: nat) {
    forall j: nat | b.IsLive(j) :: j < |a.ends| && j != e
  }

  lemma SameEndsSpent(a: Pool, a': Pool, b: Pool, e: nat)
    requires a'.ends == a.ends && Spent(a', b, e)
    ensures Spent(a, b, e)
  {
  }

  lemma PipeSpent(a: Pool, b: Pool, c: Pool, e: nat, m: Mw, env: Env, p: seq<Mw>)
    requires a.IsLive(e) && b == a.Pipe(e, m, env, p) && Grows(b, c, |a.ends|)
    ensures Spent(b, c, |a.ends|) ==> Spent(a, c, e)
    ensures Left(|b.ends|, c) ==> Left(|a.ends|, c)
  {
    if Spent(b, c, |a.ends|) {
      forall j: nat | c.IsLive(j) ensures j < |a.ends| && j != e { assert j < |b.ends|; }
    }
  }

  /** Some end made since there were `n` is left to be read. */
  ghost predicate Left(n: nat, pool: Pool) {
    exists j: nat :: n <= j && pool.IsLive(j)
  }

  lemma CancelSpends(a: Pool, b: Pool, e: nat)
    ensures (forall j: nat | b.IsLive(j) :: j < |a.ends|) ==> Spent(a, b.Cancel(e), e)
    ensures Spent(a, b, e) ==> Spent(a, b.Cancel(e), e)
    ensures forall n: nat | e < n && Left(n, b) :: Left(n, b.Cancel(e))
  {
    forall j: nat | b.Cancel(e).IsLive(j) ensures b.IsLive(j) && j != e { }
    forall n: nat | e < n && Left(n, b) ensures Left(n, b.Cancel(e)) {
      var j: nat :| n <= j && b.IsLive(j);
      assert b.Cancel(e).IsLive(j);
    }
  }

  /** What a middleware does with an end it pipes into and that nobody reads: its downstream does not start, and it keeps quiet about that. */
  ghost predicate Quiet(env: Env, x: seq<Mw>, v: Visit) {
    !v.started && v.exit.Done? && Rejection(env.behave(x), v.next).None?
  }

  ghost predicate SomeQuiet(env: Env, visits: VisitLog) {
    exists x :: x in visits && Quiet(env, x, visits[x])
  }

  /** No fault comes out of a middleware or of the downstream it started, and none keeps quiet about one. */
  ghost predicate Calm(env: Env, visits: VisitLog) {
    forall x | x in visits :: visits[x].exit.Done? && (visits[x].started ==> visits[x].next.Done?) && !Quiet(env, x, visits[x])
  }

  lemma CalmBoth(env: Env, a: VisitLog, b: VisitLog)
    requires a.Keys !! b.Keys
    ensures Calm(env, a + b) ==> Calm(env, a) && Calm(env, b)
    ensures SomeQuiet(env, a + b) ==> SomeQuiet(env, a) || SomeQuiet(env, b)
  {
    hide Quiet;
    forall x | x in a || x in b ensures x in a + b && (x in a ==> (a + b)[x] == a[x]) && (x in b ==> (a + b)[x] == b[x]) {
      assert x in a ==> x !in b;
    }
  }

  lemma NothingCalm(env: Env)
    ensures Calm(env, map[]) && !SomeQuiet(env, map[])
  {
  }

  datatype Request = Request(
    env: Env,
    ls: seq<Leaf>,
    active: set<Leaf>,
    onNodeError: Option<Fault -> bool>,
    // Whether a middleware that never calls `next()` has set its destination by the time it is done.
    pipesAnyway: seq<Mw> -> bool)

  ghost predicate ActiveUnder(l: Leaf, ls: seq<Leaf>, p: seq<Mw>, active: set<Leaf>) {
    l in ls && p <= l.path && l in active
  }

  ghost predicate HasActive(ls: seq<Leaf>, p: seq<Mw>, active: set<Leaf>) {
    exists l :: ActiveUnder(l, ls, p, active)
  }

  /** The nodes with an active leaf at or below them. */
  ghost function ActiveNodes(ls: seq<Leaf>, active: set<Leaf>): iset<seq<Mw>> {
    iset q | HasActive(ls, q, active)
  }

  predicate IsActive(e: Entry, active: set<Leaf>) {
    match e
    case LeafEntry(l) => l in active
    case NodeEntry(n) => exists l | l in n.allLeaves :: l in active
  }

  lemma NodeActive(es: seq<Entry>, p: seq<Mw>, ls: seq<Leaf>, i: nat, active: set<Leaf>)
    requires AreEntries(es, p, ls) && i < |es| && es[i].NodeEntry?
    ensures IsActive(es[i], active) <==> HasActive(ls, p + [es[i].node.mw], active)
  {
    EntryIsNode(es, p, ls, i);
    forall l: Leaf ensures ActiveUnder(l, ls, p + [es[i].node.mw], active) <==> l in es[i].node.allLeaves && l in active { }
  }

  /** `branchEntries` is never empty: every active leaf is below an active entry. */
  lemma SomeBranch(es: seq<Entry>, p: seq<Mw>, ls: seq<Leaf>, active: set<Leaf>)
    requires AreEntries(es, p, ls) && HasActive(ls, p, active)
    ensures Branches(es, active) > 0 && Branches(es[..0], active) == 0
  {
    var l :| ActiveUnder(l, ls, p, active);
    var i :| 0 <= i < |es| && Covers(es[i], p, l);
    if es[i].NodeEntry? {
      assert ActiveUnder(l, ls, p + [es[i].node.mw], active);
      NodeActive(es, p, ls, i, active);
    }
    assert es[i] in es;
  }

  /** The faults that the root leaves to `onNodeError`. */
  ghost function Pardoned(q: Request, strict: bool): iset<Fault> {
    iset fault: Fault | !strict && q.onNodeError.Some? && q.onNodeError.value(fault)
  }

  /** What a walk promises. `strict`: no `onNodeError` stands between it and a contract error. `before` and `after`: the signal is
      aborted. */
  ghost predicate Promised(r: Exit, ts: seq<Target>, ran: seq<seq<Mw>>, visits: VisitLog, q: Request, s: Spot, strict: bool, before: bool, after: bool)
    requires s.from <= |s.p|
  {
    && Sound(ts, ran, q.env, q.ls, s, q.active, ActiveNodes(q.ls, q.active))
    && Guarded(r, q, before, after)
    && Audited(r, ts, ran, visits, q.env, q.ls, s, q.active, ActiveNodes(q.ls, q.active), Pardoned(q, strict), strict, after) && AllEnded(q, visits)
    && AbortTraced(visits, q.env, before, after)
    && Arrives(r, ts, ran, q.env, q.ls, s, q.active, ActiveNodes(q.ls, q.active), before, after)
    && (r.Done? && Whole(q, before) ==> Full(ts, ran, q.ls, s, q.active, ActiveNodes(q.ls, q.active)))
  }

  ghost predicate Guarded(r: Exit, q: Request, before: bool, after: bool) {
    && (before ==> after)
    && (NeverAbortsOn(q.env, q.ls) && !before ==> !after)
    && (WellBehavedOn(q.env, q.ls) && !before ==> r.Done? && !after)
  }

  /** A walk that succeeds has reached everything. */
  ghost predicate Whole(q: Request, before: bool) {
    (q.onNodeError.None? && ForwardsOn(q.env, q.ls)) || (WellBehavedOn(q.env, q.ls) && !before)
  }

  ghost predicate Underway(ts: seq<Target>, ran: seq<seq<Mw>>, visits: VisitLog, q: Request, s: Spot, strict: bool, es: seq<Entry>, i: nat,
                           before: bool, after: bool)
    requires s.from <= |s.p| && i <= |es|
  {
    && SoundTo(ts, ran, q.env, q.ls, s, q.active, ActiveNodes(q.ls, q.active), es, i)
    && Guarded(Done, q, before, after)
    && AuditedTo(ts, ran, visits, q.env, q.ls, s, q.active, ActiveNodes(q.ls, q.active), es, i, Pardoned(q, strict), strict, after) && AllEnded(q, visits)
    && AbortTraced(visits, q.env, before, after)
    && ArrivesTo(ts, ran, q.env, q.ls, s, q.active, ActiveNodes(q.ls, q.active), es, i, before, after)
    && (Whole(q, before) ==> FullTo(ts, ran, q.ls, s, q.active, ActiveNodes(q.ls, q.active), es, i))
  }

  lemma Start(q: Request, s: Spot, strict: bool, es: seq<Entry>, now: bool)
    requires s.from <= |s.p|
    ensures Underway([], [], map[], q, s, strict, es, 0, now, now)
  {
    hide AuditedTo, ArrivesTo;
    NoneAudited(q.env, q.ls, s, q.active, ActiveNodes(q.ls, q.active), es, Pardoned(q, strict), strict, now);
    NoneArrived(q.env, q.ls, s, q.active, ActiveNodes(q.ls, q.active), es, now);
  }

  lemma PassedBy(ts: seq<Target>, ran: seq<seq<Mw>>, visits: VisitLog, q: Request, s: Spot, strict: bool, es: seq<Entry>, i: nat, before: bool, now: bool)
    requires s.from <= |s.p| && AreEntries(es, s.p, q.ls) && i < |es| && !IsActive(es[i], q.active) && !s.at
    requires Underway(ts, ran, visits, q, s, strict, es, i, before, now)
    ensures Underway(ts, ran, visits, q, s, strict, es, i + 1, before, now)
  {
    hide SoundTo, FullTo, Guarded, Whole, AreEntries, AuditedTo, AllEnded, ArrivesTo, AbortTraced;
    if es[i].NodeEntry? {
      NodeActive(es, s.p, q.ls, i, q.active);
      var r := s.p + [es[i].node.mw];
      forall x, l: Leaf | r <= x && ActiveUnder(l, q.ls, x, q.active) ensures ActiveUnder(l, q.ls, r, q.active) { assert r <= x <= l.path; }
      forall l | l in q.active && l in q.ls ensures !Covers(es[i], s.p, l) { assert !ActiveUnder(l, q.ls, r, q.active); }
    }
    Skipped(ts, ran, q.env, q.ls, s, q.active, ActiveNodes(q.ls, q.active), es, i);
    EntryAudited(ts, [], ran, visits, q.env, q.ls, s, q.active, ActiveNodes(q.ls, q.active), es, i, Pardoned(q, strict), strict, now);
    LeafArrived(ts, [], ran, q.env, q.ls, s, q.active, ActiveNodes(q.ls, q.active), es, i, before, now);
    assert ts + [] == ts;
  }

  lemma LeafDone(ts: seq<Target>, ran: seq<seq<Mw>>, visits: VisitLog, q: Request, s: Spot, strict: bool, es: seq<Entry>, i: nat, before: bool, now: bool)
    requires s.from == |s.p| && AreEntries(es, s.p, q.ls) && i < |es| && es[i].LeafEntry? && IsActive(es[i], q.active) && !s.at
    requires Underway(ts, ran, visits, q, s, strict, es, i, before, now)
    ensures Underway(ts + [Target(es[i].leaf, s.data, s.key)], ran, visits, q, s, strict, es, i + 1, before, now)
  {
    hide Sound, FullTo, AreEntries, Guarded, Whole, AuditedTo, AllEnded, ArrivesTo, AbortTraced;
    var more := [Target(es[i].leaf, s.data, s.key)];
    assert more[0] in more;
    EntryAudited(ts, more, ran, visits, q.env, q.ls, s, q.active, ActiveNodes(q.ls, q.active), es, i, Pardoned(q, strict), strict, now);
    SoundLeaf(ts, ran, q.env, q.ls, s, q.active, ActiveNodes(q.ls, q.active), es, i);
    LeafArrived(ts, more, ran, q.env, q.ls, s, q.active, ActiveNodes(q.ls, q.active), es, i, before, now);
    if Whole(q, before) {
      FullLeaf(ts, ran, q.ls, s, q.active, ActiveNodes(q.ls, q.active), es, i, more);
    }
  }

  /** `caught`: at the root, `onNodeError` may take the fault of the walk. */
  lemma NodeDone(r: Exit, caught: bool, ts: seq<Target>, ran: seq<seq<Mw>>, more: seq<Target>, moreRan: seq<seq<Mw>>,
                 visits: VisitLog, moreVisits: VisitLog, q: Request, s: Spot, strict: bool,
                 es: seq<Entry>, i: nat, before: bool, now: bool, after: bool)
    requires s.from <= |s.p| && AreEntries(es, s.p, q.ls) && i < |es| && es[i].NodeEntry? && !s.at && Ascending(q.ls, ByIndex)
    requires Underway(ts, ran, visits, q, s, strict, es, i, before, now)
    requires Promised(r, more, moreRan, moreVisits, q, s.Below(es[i].node), true, now, after)
    requires r.Threw? ==> (caught <==> r.fault in Pardoned(q, strict))
    ensures r.Done? || caught ==> Underway(ts + more, ran + moreRan, visits + moreVisits, q, s, strict, es, i + 1, before, after)
    ensures r.Threw? && !caught ==> Promised(r, ts + more, ran + moreRan, visits + moreVisits, q, s, strict, before, after)
    ensures visits.Keys !! moreVisits.Keys
  {
    hide Sound, Full, FullTo, AreEntries, WellBehavedOn, NeverAbortsOn, ForwardsOn, Audited, AuditedTo, AllEnded, Arrives, ArrivesTo, CleanSoFar,
      AbortTraced;
    AuditedToRan(ts, ran, visits, q.env, q.ls, s, q.active, ActiveNodes(q.ls, q.active), es, i, Pardoned(q, strict), strict, now);
    var nodes := ActiveNodes(q.ls, q.active);
    SoundNode(ts, ran, more, moreRan, q.env, q.ls, s, q.active, nodes, es, i);
    RanElsewhere(ts, ran, q.env, q.ls, s, q.active, nodes, es, i);
    Unpardoned(q);
    AuditedOwns(r, more, moreRan, moreVisits, q.env, q.ls, s.Below(es[i].node), q.active, nodes, iset{}, true, after);
    NodeAudited(r, ts, more, ran, moreRan, visits, moreVisits, q.env, q.ls, s, q.active, nodes, es, i, Pardoned(q, strict), strict, true, now, after);
    EndedBoth(q, visits, moreVisits);
    TracedBoth(visits, moreVisits, q.env, before, now, after);
    NodeArrived(r, ts, ran, more, moreRan, q.env, q.ls, s, q.active, nodes, es, i, before, now, after);
    if r.Threw? {
      FailedOnWay(r, ts, ran, more, moreRan, q.env, q.ls, s, q.active, nodes, es, i, before, now, after);
      EachArrived(r, ts + more, ran + moreRan, q.env, q.ls, s, q.active, nodes, es, i + 1, before, after);
    }
    if Whole(q, before) && r.Done? {
      FullNode(ts, ran, more, moreRan, q.ls, s, q.active, nodes, es, i);
    }
  }

  lemma EachDone(ts: seq<Target>, ran: seq<seq<Mw>>, visits: VisitLog, q: Request, s: Spot, strict: bool, es: seq<Entry>, before: bool, after: bool)
    requires s.from <= |s.p| && AreEntries(es, s.p, q.ls) && !s.at && Ascending(q.ls, ByIndex)
    requires Underway(ts, ran, visits, q, s, strict, es, |es|, before, after)
    ensures Promised(Done, ts, ran, visits, q, s, strict, before, after)
  {
    hide Sound, Full, AreEntries, Guarded, Audited, AuditedTo, AllEnded, Arrives, ArrivesTo, CleanSoFar, AbortTraced;
    EachAudited(Done, ts, ran, visits, q.env, q.ls, s, q.active, ActiveNodes(q.ls, q.active), es, |es|, Pardoned(q, strict), strict, after);
    EachArrived(Done, ts, ran, q.env, q.ls, s, q.active, ActiveNodes(q.ls, q.active), es, |es|, before, after);
    if Whole(q, before) {
      FullAll(ts, ran, q.ls, s, q.active, ActiveNodes(q.ls, q.active), es);
    }
  }

  /** The catch block around `encodeStream`. `child`: the walk does not return null. */
  ghost predicate Handled(b: Behaviour, next: Exit, ex: Exit, contract: Option<Fault>, started: bool, onNodeError: Option<Fault -> bool>, aborted: bool,
                          r: Exit, child: bool) {
    match ex
    case Done => r == Done && child
    case Threw(fault) =>
      if aborted then r == ex
      else if contract.Some? then r == Threw(contract.value)
      else if fault.Contract? then r == ex
      else if started then
        if onNodeError.Some? && !(Settled(b) && next == ex) then r == Done && child else r == ex
      else if onNodeError.Some? && onNodeError.value(fault) then r == Done && !child
      else r == ex
  }

  /** The downstream starts when nothing stands against it, and the visits end as the checks and the catch block after the middleware call have it. */
  ghost predicate Ended(q: Request, p: seq<Mw>, v: Visit) {
    && (v.started <==> q.env.behave(p).Opens() && q.env.mapKeyFault(p).None?)
    && exists ex, contract, child ::
         && Checked(q.env.behave(p), v.next, v.mid, ex, contract, v.after)
         && Handled(q.env.behave(p), v.next, ex, contract, v.started, q.onNodeError, v.after, v.exit, child)
  }

  ghost predicate AllEnded(q: Request, visits: VisitLog) {
    forall x | x in visits :: Ended(q, x, visits[x])
  }

  lemma EndedBoth(q: Request, a: VisitLog, b: VisitLog)
    requires AllEnded(q, a) && AllEnded(q, b)
    ensures AllEnded(q, a + b)
  {
  }

  lemma OneEnded(q: Request, p: seq<Mw>, v: Visit, ex: Exit, contract: Option<Fault>, child: bool)
    requires Begun(q.env.behave(p), q.env.mapKeyFault(p), v) && !(v.started && q.env.behave(p).abortsBefore)
    requires Checked(q.env.behave(p), v.next, v.mid, ex, contract, v.after)
    requires Handled(q.env.behave(p), v.next, ex, contract, v.started, q.onNodeError, v.after, v.exit, child)
    ensures AllEnded(q, map[p := v])
  {
  }

  lemma NodeJudged(b: Behaviour, v: Visit, ex: Exit, contract: Option<Fault>, child: bool, ts: seq<Target>, ran: seq<seq<Mw>>,
                   visits: VisitLog, q: Request, n: Node, p: seq<Mw>, data: Data, key: Key)
    requires IsNode(n, p, q.ls) && b == q.env.behave(p) && Begun(b, q.env.mapKeyFault(p), v) && v.started && HasActive(q.ls, p, q.active)
    requires !b.abortsBefore
    requires Promised(v.next, ts, ran, visits, q, Spot(p, |p|, false, q.env.encode(n.mw, data), q.env.mapKey(n.mw, key)), true, false, v.mid)
    requires Checked(b, v.next, v.mid, ex, contract, v.after)
    requires Handled(b, v.next, ex, contract, true, q.onNodeError, v.after, v.exit, child)
    ensures Promised(v.exit, ts, [p] + ran, map[p := v] + visits, q, Spot(p, |p| - 1, true, data, key), true, false, v.after)
    ensures WellBehavedOn(q.env, q.ls) ==> ex.Done? && v.exit.Done? && child && !v.after
    ensures p !in visits
  {
    hide Sound, Full, IsNode, ActiveUnder, Audited, Arrives, Broke;
    var nodes := ActiveNodes(q.ls, q.active);
    var data', key' := q.env.encode(n.mw, data), q.env.mapKey(n.mw, key);
    NodeOnTrie(n, p, q.ls);
    SoundRan(ts, ran, q.env, q.ls, n, p, data, key, q.active, nodes);
    OwnTold(b, v, ex, contract, q.env.mapKeyFault(p));
    Unpardoned(q);
    AuditedOwns(v.next, ts, ran, visits, q.env, q.ls, Spot(p, |p|, false, data', key'), q.active, nodes, iset{}, true, v.mid);
    RanAudited(v, ts, ran, visits, q.env, q.ls, p, q.active, nodes, true, data, key, data', key');
    RanArrived(v.exit, v.next, ts, ran, q.env, q.ls, p, q.active, nodes, true, false, false, v.mid, v.after, data, key, data', key');
    OneEnded(q, p, v, ex, contract, child);
    EndedBoth(q, map[p := v], visits);
    TracedRan(v, visits, q.env, p, ex, contract, false);
    if v.exit.Done? && Whole(q, false) {
      FullRan(ts, ran, q.env, q.ls, n, p, data, key, q.active, nodes);
    }
  }

  lemma Unpardoned(q: Request)
    ensures Pardoned(q, true) == iset{}
  {
  }

  lemma NodeSkipped(b: Behaviour, v: Visit, ex: Exit, contract: Option<Fault>, child: bool, q: Request, n: Node, p: seq<Mw>, data: Data, key: Key)
    requires IsNode(n, p, q.ls) && b == q.env.behave(p) && Begun(b, q.env.mapKeyFault(p), v) && !v.started && HasActive(q.ls, p, q.active)
    requires Checked(b, v.next, v.mid, ex, contract, v.after)
    requires Handled(b, v.next, ex, contract, false, q.onNodeError, v.after, v.exit, child)
    ensures Promised(v.exit, [], [p], map[p := v], q, Spot(p, |p| - 1, true, data, key), true, false, v.after)
    ensures !WellBehavedOn(q.env, q.ls)
  {
    hide Sound, Full, IsNode, ActiveUnder, Audited, Arrives, Broke;
    var nodes := ActiveNodes(q.ls, q.active);
    NodeOnTrie(n, p, q.ls);
    SoundAlone(q.env, q.ls, n, p, data, key, q.active, nodes);
    OwnTold(b, v, ex, contract, q.env.mapKeyFault(p));
    Unpardoned(q);
    RanAudited(v, [], [], map[], q.env, q.ls, p, q.active, nodes, true, data, key, data, key);
    RanArrived(v.exit, v.next, [], [], q.env, q.ls, p, q.active, nodes, false, false, v.mid, v.mid, v.after, data, key, data, key);
    OneEnded(q, p, v, ex, contract, child);
    TracedRan(v, map[], q.env, p, ex, contract, b.abortsBefore);
    assert [p] + [] == [p] && map[p := v] + map[] == map[p := v];
  }

  lemma NotStarted(q: Request, s: Spot)
    requires s.from <= |s.p| && s.at
    ensures Promised(Threw(Aborted), [], [], map[], q, s, true, true, true)
  {
    hide Audited;
    Unpardoned(q);
    NotVisited(Threw(Aborted), q.env, q.ls, s, q.active, ActiveNodes(q.ls, q.active), iset{}, true, true);
  }

  /** The number of branches among the first entries. */
  function Branches(es: seq<Entry>, active: set<Leaf>): nat {
    |Filter(es, (e: Entry) => IsActive(e, active))|
  }

  lemma {:induction false} BranchesGrow(es: seq<Entry>, i: nat, active: set<Leaf>)
    requires i < |es|
    ensures Branches(es[..i + 1], active) == Branches(es[..i], active) + if IsActive(es[i], active) then 1 else 0
    ensures Branches(es[..i + 1], active) <= Branches(es, active)
    decreases |es|
  {
    var keep := (e: Entry) => IsActive(e, active);
    assert es[..i + 1] == es[..i] + [es[i]];
    FilterAppend(es[..i], es[i], keep);
    var init := es[..|es| - 1];
    assert es == init + [es[|es| - 1]];
    FilterAppend(init, es[|es| - 1], keep);
    if i < |init| {
      BranchesGrow(init, i, active);
      assert init[..i + 1] == es[..i + 1];
    } else {
      assert es[..i + 1] == es;
    }
  }

  /** The branches cut from the end `e` of `a`: those from `k` on are live and read `data`; when nothing failed (`well`), they are the
      only ends made since that are left to be read. */
  ghost predicate Handing(a: Pool, b: Pool, e: nat, branches: seq<nat>, k: nat, p: seq<Mw>, data: Data, well: bool) {
    && Grows(a, b, e) && Distinct(branches)
    && (forall i | 0 <= i < |branches| :: branches[i] == e || branches[i] >= |a.ends|)
    && (forall i | k <= i < |branches| :: b.IsLive(branches[i]) && b.ends[branches[i]].data == data
          && Near(b.ends[branches[i]].made, p))
    && (well ==> forall j: nat | b.IsLive(j) :: (j < |a.ends| && j != e) || exists i :: k <= i < |branches| && branches[i] == j)
  }

  /** The branches are among the first `n` ends, and if a later one is left to be read (`quiet`), it is none of them. */
  ghost predicate Cut(a: Pool, b: Pool, branches: seq<nat>, n: nat, quiet: bool) {
    |a.ends| <= n <= |b.ends| && (forall i | 0 <= i < |branches| :: branches[i] < n) && (quiet ==> Left(n, b))
  }

  lemma FirstCut(a: Pool, b: Pool, e: nat, branches: seq<nat>, p: seq<Mw>, data: Data)
    requires Handing(a, b, e, branches, 0, p, data, true)
    ensures Cut(a, b, branches, |b.ends|, false)
  {
  }

  lemma CutNext(a: Pool, b: Pool, c: Pool, branches: seq<nat>, k: nat, n: nat, was: bool, more: bool, quiet: bool)
    requires k < |branches| && Cut(a, b, branches, n, was) && Grows(b, c, branches[k]) && (more ==> Left(|b.ends|, c)) && (quiet ==> was || more)
    ensures Cut(a, c, branches, n, quiet)
  {
    if quiet && was {
      var j: nat :| n <= j && b.IsLive(j);
      assert c.IsLive(j);
    }
  }

  lemma CutLeft(a: Pool, b: Pool, branches: seq<nat>, n: nat, quiet: bool)
    requires Cut(a, b, branches, n, quiet)
    ensures quiet ==> Left(|a.ends|, b)
  {
  }

  lemma HandFirst(a: Pool, e: nat, p: seq<Mw>)
    requires a.IsLive(e) && Near(a.ends[e].made, p)
    ensures Handing(a, a, e, [] + [e], 0, p, a.ends[e].data, true)
  {
    forall j: nat | a.IsLive(j) ensures (j < |a.ends| && j != e) || exists i :: 0 <= i < |[] + [e]| && ([] + [e])[i] == j {
      assert ([] + [e])[0] == e;
    }
  }

  /** The last branch is cut in two. */
  lemma HandTee(a: Pool, b: Pool, e: nat, branches: seq<nat>, last: nat, p: seq<Mw>, data: Data)
    requires Handing(a, b, e, branches + [last], 0, p, data, true)
    ensures b.IsLive(last) && Handing(a, b.Tee(last, p), e, branches + [|b.ends|] + [|b.ends| + 1], 0, p, data, true)
  {
    var was, now := branches + [last], branches + [|b.ends|] + [|b.ends| + 1];
    assert was[|branches|] == last;
    var c := b.Tee(last, p);
    forall i | 0 <= i < |branches| ensures was[i] == now[i] && now[i] != last && now[i] < |b.ends| { assert was[i] != was[|branches|]; }
    assert now[|branches|] == |b.ends| && now[|branches| + 1] == |b.ends| + 1;
    forall j: nat | c.IsLive(j) ensures (j < |a.ends| && j != e) || exists i :: 0 <= i < |now| && now[i] == j {
      if j < |b.ends| && !(j < |a.ends| && j != e) {
        assert b.IsLive(j) && j != last;
        var i :| 0 <= i < |was| && was[i] == j;
        assert now[i] == j;
      }
    }
  }

  lemma HandLive(a: Pool, b: Pool, e: nat, branches: seq<nat>, k: nat, p: seq<Mw>, data: Data, well: bool)
    requires Handing(a, b, e, branches, k, p, data, well) && k < |branches|
    ensures b.IsLive(branches[k]) && b.ends[branches[k]].data == data && Near(b.ends[branches[k]].made, p)
  {
  }

  /** Branch `k` has been used. */
  lemma HandNext(a: Pool, b: Pool, c: Pool, e: nat, branches: seq<nat>, k: nat, p: seq<Mw>, data: Data, well: bool)
    requires k < |branches| && Handing(a, b, e, branches, k, p, data, well)
    requires Grows(b, c, branches[k]) && (well ==> Spent(b, c, branches[k]))
    ensures Handing(a, c, e, branches, k + 1, p, data, well)
  {
    GrowsOn(a, b, c, e, branches[k]);
    forall j: nat | well && c.IsLive(j) ensures (j < |a.ends| && j != e) || exists i :: k + 1 <= i < |branches| && branches[i] == j {
      assert b.IsLive(j);
      if !(j < |a.ends| && j != e) {
        var i :| k <= i < |branches| && branches[i] == j;
        assert i != k;
      }
    }
  }

  lemma Handed(a: Pool, b: Pool, e: nat, branches: seq<nat>, k: nat, p: seq<Mw>, data: Data, well: bool)
    requires Handing(a, b, e, branches, k, p, data, well)
    ensures Grows(a, b, e) && (well && k == |branches| ==> Spent(a, b, e))
    ensures forall less: bool | less ==> well :: Handing(a, b, e, branches, k, p, data, less)
  {
  }

  lemma TeeKeeps(pool: Pool, e: nat, p: seq<Mw>, ls: seq<Leaf>)
    requires pool.Valid(ls) && pool.IsLive(e) && (p == [] || OnTrie(p, ls))
    ensures pool.Tee(e, p).Valid(ls) && pool.Tee(e, p).TargetsInRange() && pool.Tee(e, p).Seen() == pool.Seen()
  {
  }

  lemma AssignGrows(pool: Pool, e: nat, leaf: Leaf, key: Key, ls: seq<Leaf>)
    requires pool.IsLive(e) && pool.Valid(ls) && Near(pool.ends[e].made, leaf.path)
    ensures var after := pool.Assign(e, leaf, key);
            && Grows(pool, after, e) && Spent(pool, after, e)
            && after.Valid(ls) && after.TargetsInRange() && after.Seen() == pool.Seen() + [Target(leaf, pool.ends[e].data, key)]
  {
  }

  lemma CancelGrows(pool: Pool, e: nat, ls: seq<Leaf>)
    requires pool.Valid(ls)
    ensures var after := pool.Cancel(e);
            Grows(pool, after, e) && after.Valid(ls) && after.TargetsInRange() && after.Seen() == pool.Seen()
  {
  }

  /** What a walk has added to the targets, the nodes run and the visits. */
  datatype Log = Log(seen: seq<Target>, ran: seq<seq<Mw>>, visits: VisitLog)

  ghost predicate Adds(a: Log, b: Log, ts: seq<Target>, qs: seq<seq<Mw>>, vs: VisitLog) {
    b == Log(a.seen + ts, a.ran + qs, a.visits + vs)
  }

  lemma AddsNothing(a: Log)
    ensures Adds(a, a, [], [], map[])
  {
    assert a.seen + [] == a.seen && a.ran + [] == a.ran && a.visits + map[] == a.visits;
  }

  lemma AddsMore(a: Log, b: Log, c: Log, ts: seq<Target>, qs: seq<seq<Mw>>, vs: VisitLog, more: seq<Target>, moreQs: seq<seq<Mw>>, moreVs: VisitLog)
    requires Adds(a, b, ts, qs, vs) && c == Log(b.seen + more, b.ran + moreQs, b.visits + moreVs)
    ensures Adds(a, c, ts + more, qs + moreQs, vs + moreVs)
  {
    Regroup(a.seen, ts, more);
    Regroup(a.ran, qs, moreQs);
    assert a.visits + (vs + moreVs) == a.visits + vs + moreVs;
  }

  lemma AddsLeaf(a: Log, b: Log, c: Log, ts: seq<Target>, qs: seq<seq<Mw>>, vs: VisitLog, t: Target)
    requires Adds(a, b, ts, qs, vs) && c == b.(seen := b.seen + [t])
    ensures Adds(a, c, ts + [t], qs, vs)
  {
    Regroup(a.seen, ts, [t]);
  }

  lemma Added(a: Log, b: Log, ts: seq<Target>, qs: seq<seq<Mw>>, vs: VisitLog)
    requires Adds(a, b, ts, qs, vs)
    ensures b.seen == a.seen + ts && b.ran == a.ran + qs && b.visits == a.visits + vs
  {
  }

  /** One call of `buildEncodeTree`. */
  class StreamRun {
    const q: Request
    var pool: Pool
    var aborted: bool
    /** What happened at each node. */
    ghost var visits: VisitLog
    /** The nodes whose `encodeStream` was called, in call order. */
    ghost var ran: seq<seq<Mw>>

    constructor (q: Request, pool: Pool, aborted: bool)
      ensures this.q == q && this.pool == pool && this.aborted == aborted && visits == map[] && ran == []
    {
      this.q, this.pool, this.aborted := q, pool, aborted;
      visits, ran := map[], [];
    }

    /** One end per branch: tee for all but the last, which takes the rest. */
    method Split(input: nat, n: nat, p: seq<Mw>) returns (branches: seq<nat>)
      requires pool.Valid(q.ls) && pool.IsLive(input) && n > 0 && Near(pool.ends[input].made, p) && (p == [] || OnTrie(p, q.ls))
      modifies this`pool
      ensures pool.Valid(q.ls) && pool.TargetsInRange() && pool.Seen() == old(pool.Seen())
      ensures |branches| == n && Handing(old(pool), pool, input, branches, 0, p, old(pool.ends[input].data), true)
      ensures Cut(old(pool), pool, branches, |pool.ends|, false)
    {
      hide Pool.Valid, Pool.Seen, Handing, Cut;
      branches := [];
      InRange(pool, q.ls);
      var current: nat := input;
      HandFirst(pool, input, p);
      for i := 0 to n
        invariant pool.Valid(q.ls) && pool.TargetsInRange() && pool.Seen() == old(pool.Seen()) && |branches| == i
        invariant i < n ==> Handing(old(pool), pool, input, branches + [current], 0, p, old(pool.ends[input].data), true)
        invariant i == n ==> Handing(old(pool), pool, input, branches, 0, p, old(pool.ends[input].data), true)
      {
        if i < n - 1 {
          var branch := |pool.ends|;
          HandTee(old(pool), pool, input, branches, current, p, old(pool.ends[input].data));
          TeeKeeps(pool, current, p, q.ls);
          pool := pool.Tee(current, p);
          branches := branches + [branch];
          current := branch + 1;
        } else {
          branches := branches + [current];
        }
      }
      FirstCut(old(pool), pool, input, branches, p, old(pool.ends[input].data));
    }

    /** Where the loop over the entries of `s.p` stands when it has done `es[..i]` with the first `k` branches. `pool0`, `log` and `before` are
        from its start; `n` ends were made by the time all branches were cut. */
    ghost predicate Along(pool0: Pool, log: Log, ts: seq<Target>, qs: seq<seq<Mw>>, vs: VisitLog, es: seq<Entry>, i: nat,
                          branches: seq<nat>, k: nat, input: nat, s: Spot, strict: bool, before: bool, n: nat)
      requires s.from <= |s.p| && i <= |es|
      reads this
    {
      && pool.Valid(q.ls) && pool.TargetsInRange() && Adds(log, Log(pool.Seen(), ran, visits), ts, qs, vs)
      && k == Branches(es[..i], q.active) && |branches| == Branches(es, q.active)
      && Handing(pool0, pool, input, branches, k, s.p, s.data, Calm(q.env, vs)) && Cut(pool0, pool, branches, n, SomeQuiet(q.env, vs))
      && Underway(ts, qs, vs, q, s, strict, es, i, before, aborted)
    }

    /** The loop that hands the branches to the entries. At the root a failing node may be left to `onNodeError`. */
    method Each(es: seq<Entry>, p: seq<Mw>, input: nat, ghost data: Data, key: Key, root: bool)
      returns (r: Exit, ghost ts: seq<Target>, ghost qs: seq<seq<Mw>>, ghost vs: VisitLog)
      requires AreEntries(es, p, q.ls) && Ascending(q.ls, ByIndex) && HasActive(q.ls, p, q.active) && (p == [] || OnTrie(p, q.ls))
      requires pool.Valid(q.ls) && pool.IsLive(input) && pool.ends[input].data == data && Near(pool.ends[input].made, p)
      modifies this
      ensures pool.Valid(q.ls) && Grows(old(pool), pool, input) && pool.TargetsInRange()
      ensures pool.Seen() == old(pool.Seen()) + ts && ran == old(ran) + qs && visits == old(visits) + vs
      ensures Promised(r, ts, qs, vs, q, Spot(p, |p|, false, data, key), !root || q.onNodeError.None?, old(aborted), aborted)
      // Where no fault comes up, every stream end is used up; where a middleware keeps quiet about one, the end it piped into is left.
      ensures r.Done? && Calm(q.env, vs) ==> Spent(old(pool), pool, input)
      ensures SomeQuiet(q.env, vs) ==> Left(|old(pool.ends)|, pool)
      decreases es, 1
    {
      hide Promised, Underway, AreEntries, TargetFor, HasActive, WellBehavedOn, Pool.Valid, Pool.Seen, Grows, Handing, IsActive, Branches, Spent, Adds, Cut,
        Left, Calm, SomeQuiet;
      ghost var s, strict := Spot(p, |p|, false, data, key), !root || q.onNodeError.None?;
      ghost var pool0 := pool;
      ts, qs, vs := [], [], map[];
      InRange(pool, q.ls);
      ghost var log, before := Log(pool.Seen(), ran, visits), aborted;
      AddsNothing(log);
      SomeBranch(es, p, q.ls, q.active);
      var branches := Split(input, Branches(es, q.active), p);
      ghost var n := |pool.ends|;
      NothingCalm(q.env);
      var k := 0;
      Start(q, s, strict, es, aborted);
      for i := 0 to |es|
        invariant Along(pool0, log, ts, qs, vs, es, i, branches, k, input, s, strict, before, n)
      {
        BranchesGrow(es, i, q.active);
        if !IsActive(es[i], q.active) {
          PassedBy(ts, qs, vs, q, s, strict, es, i, before, aborted);
        } else if es[i].NodeEntry? {
          var caught;
          r, caught, ts, qs, vs := HandNode(es, i, branches, k, input, p, key, root, pool0, log, ts, qs, vs, s, before, n);
          if r.Threw? && !caught { return; }
          k := k + 1;
        } else {
          HandLeaf(es, i, branches, k, input, p, key, pool0, log, ts, qs, vs, s, strict, before, n);
          ts, k := ts + [Target(es[i].leaf, data, key)], k + 1;
        }
      }
      r := Done;
      assert es[..|es|] == es;
      Handed(pool0, pool, input, branches, k, p, data, Calm(q.env, vs));
      CutLeft(pool0, pool, branches, n, SomeQuiet(q.env, vs));
      Added(log, Log(pool.Seen(), ran, visits), ts, qs, vs);
      EachDone(ts, qs, vs, q, s, strict, es, before, aborted);
    }

    /** A leaf entry of that loop gets its branch. */
    method HandLeaf(es: seq<Entry>, i: nat, branches: seq<nat>, k: nat, ghost input: nat, p: seq<Mw>, key: Key, ghost pool0: Pool, ghost log: Log,
                    ghost ts: seq<Target>, ghost qs: seq<seq<Mw>>, ghost vs: VisitLog, ghost s: Spot, ghost strict: bool, ghost before: bool,
                    ghost n: nat)
      requires i < |es| && AreEntries(es, p, q.ls) && Ascending(q.ls, ByIndex) && es[i].LeafEntry? && IsActive(es[i], q.active)
      requires s.p == p && s.from == |p| && !s.at && s.key == key
      requires Along(pool0, log, ts, qs, vs, es, i, branches, k, input, s, strict, before, n)
      modifies this`pool
      ensures Along(pool0, log, ts + [Target(es[i].leaf, s.data, key)], qs, vs, es, i + 1, branches, k + 1, input, s, strict, before, n)
    {
      hide Promised, Underway, AreEntries, Pool.Valid, Pool.Seen, Grows, Handing, IsActive, Branches, Spent, Adds, Cut, Left, Calm, SomeQuiet;
      var leaf := es[i].leaf;
      BranchesGrow(es, i, q.active);
      HandLive(pool0, pool, input, branches, k, p, s.data, Calm(q.env, vs));
      EntryIsLeaf(es, p, q.ls, i);
      AssignGrows(pool, branches[k], leaf, key, q.ls);
      LeafDone(ts, qs, vs, q, s, strict, es, i, before, aborted);
      ghost var mid, was := pool, Log(pool.Seen(), ran, visits);
      pool := pool.Assign(branches[k], leaf, key);
      HandNext(pool0, mid, pool, input, branches, k, p, s.data, Calm(q.env, vs));
      CutNext(pool0, mid, pool, branches, k, n, SomeQuiet(q.env, vs), false, SomeQuiet(q.env, vs));
      AddsLeaf(log, was, Log(pool.Seen(), ran, visits), ts, qs, vs, Target(leaf, s.data, key));
    }

    /** A node entry of that loop gets its branch. */
    method HandNode(es: seq<Entry>, i: nat, branches: seq<nat>, k: nat, ghost input: nat, p: seq<Mw>, key: Key, root: bool, ghost pool0: Pool, ghost log: Log,
                    ghost ts: seq<Target>, ghost qs: seq<seq<Mw>>, ghost vs: VisitLog, ghost s: Spot, ghost before: bool, ghost n: nat)
      returns (r: Exit, caught: bool, ghost ts': seq<Target>, ghost qs': seq<seq<Mw>>, ghost vs': VisitLog)
      requires i < |es| && AreEntries(es, p, q.ls) && Ascending(q.ls, ByIndex) && es[i].NodeEntry? && IsActive(es[i], q.active)
      requires s.p == p && s.from == |p| && !s.at && s.key == key
      requires Along(pool0, log, ts, qs, vs, es, i, branches, k, input, s, !root || q.onNodeError.None?, before, n)
      modifies this
      ensures r.Done? || caught ==> Along(pool0, log, ts', qs', vs', es, i + 1, branches, k + 1, input, s, !root || q.onNodeError.None?, before, n)
      ensures r.Threw? && !caught ==>
                && (SomeQuiet(q.env, vs') ==> Left(|pool0.ends|, pool)) && pool.Valid(q.ls) && pool.TargetsInRange() && Grows(pool0, pool, input)
                && pool.Seen() == log.seen + ts' && ran == log.ran + qs' && visits == log.visits + vs'
                && Promised(r, ts', qs', vs', q, s, !root || q.onNodeError.None?, before, aborted)
      decreases es, 0
    {
      hide Promised, Underway, AreEntries, HasActive, WellBehavedOn, Pool.Valid, Pool.Seen, Grows, Handing, IsActive, Branches, Spent, Adds, Cut,
        Left, Calm, SomeQuiet;
      var node := es[i].node;
      assert es decreases to es[i];
      BranchesGrow(es, i, q.active);
      HandLive(pool0, pool, input, branches, k, p, s.data, Calm(q.env, vs));
      EntryIsNode(es, p, q.ls, i);
      NodeActive(es, p, q.ls, i, q.active);
      ghost var mid, now, was, strict := pool, aborted, Log(pool.Seen(), ran, visits), !root || q.onNodeError.None?;
      var child;
      ghost var more, moreQs, moreVs;
      r, child, caught, more, moreQs, moreVs := Branch(node, p + [node.mw], branches[k], s.data, key, root);
      NodeDone(r, caught, ts, qs, more, moreQs, vs, moreVs, q, s, strict, es, i, before, now, aborted);
      ts', qs', vs' := ts + more, qs + moreQs, vs + moreVs;
      CalmBoth(q.env, vs, moreVs);
      if r.Done? || caught {
        Handed(pool0, mid, input, branches, k, p, s.data, Calm(q.env, vs));
        HandNext(pool0, mid, pool, input, branches, k, p, s.data, Calm(q.env, vs'));
        Handed(pool0, pool, input, branches, k + 1, p, s.data, Calm(q.env, vs'));
      } else {
        Handed(pool0, mid, input, branches, k, p, s.data, Calm(q.env, vs));
        HandNext(pool0, mid, pool, input, branches, k, p, s.data, false);
        Handed(pool0, pool, input, branches, k + 1, p, s.data, false);
      }
      CutNext(pool0, mid, pool, branches, k, n, SomeQuiet(q.env, vs), SomeQuiet(q.env, moreVs), SomeQuiet(q.env, vs'));
      CutLeft(pool0, pool, branches, n, SomeQuiet(q.env, vs'));
      AddsMore(log, was, Log(pool.Seen(), ran, visits), ts, qs, vs, more, moreQs, moreVs);
      Added(log, Log(pool.Seen(), ran, visits), ts', qs', vs');
    }

    /** One node entry of that loop: its branch is cancelled when nothing came of the walk. */
    method Branch(n: Node, p: seq<Mw>, input: nat, ghost data: Data, key: Key, root: bool)
      returns (r: Exit, child: bool, caught: bool, ghost ts: seq<Target>, ghost qs: seq<seq<Mw>>, ghost vs: VisitLog)
      requires IsNode(n, p, q.ls) && Ascending(q.ls, ByIndex) && HasActive(q.ls, p, q.active)
      requires pool.Valid(q.ls) && pool.IsLive(input) && pool.ends[input].data == data
      modifies this
      ensures pool.Valid(q.ls) && Grows(old(pool), pool, input) && pool.TargetsInRange()
      ensures pool.Seen() == old(pool.Seen()) + ts && ran == old(ran) + qs && visits == old(visits) + vs
      ensures Promised(r, ts, qs, vs, q, Spot(p, |p| - 1, true, data, key), true, old(aborted), aborted)
      ensures if r.Threw? then caught <==> r.fault in Pardoned(q, !root || q.onNodeError.None?) else !caught
      ensures (r.Done? || caught) && Calm(q.env, vs) ==> Spent(old(pool), pool, input)
      ensures SomeQuiet(q.env, vs) ==> Left(|old(pool.ends)|, pool)
      decreases n, 4
    {
      hide Promised, IsNode, HasActive, Pool.Valid, Grows, Spent, Left, Calm, SomeQuiet;
      NodeOnTrie(n, p, q.ls);
      r, child, ts, qs, vs := Walk(n, p, input, data, key);
      caught := r.Threw? && root && q.onNodeError.Some? && q.onNodeError.value(r.fault);
      if caught || (r.Done? && !child) {
        ghost var mid := pool;
        CancelGrows(pool, input, q.ls);
        CancelSpends(old(pool), pool, input);
        pool := pool.Cancel(input);
        GrowsOn(old(pool), mid, pool, input, input);
      }
    }

    /** `next()` of the node at `p`; its destination becomes the end `out`. */
    method Next(n: Node, p: seq<Mw>, setsDestination: bool, out: nat, ghost data: Data, parentKey: Key)
      returns (next: Exit, started: bool, ghost ts: seq<Target>, ghost qs: seq<seq<Mw>>, ghost vs: VisitLog)
      requires IsNode(n, p, q.ls) && Ascending(q.ls, ByIndex) && HasActive(q.ls, p, q.active)
      requires if setsDestination then pool.Register(out).Valid(q.ls) && pool.IsLive(out) && pool.ends[out].data == data && Near(pool.ends[out].made, p)
               else pool.Valid(q.ls)
      requires pool.TargetsInRange()
      modifies this
      ensures pool.Valid(q.ls) && Grows(old(pool), pool, out) && pool.TargetsInRange()
      ensures pool.Seen() == old(pool.Seen()) + ts && ran == old(ran) + qs && visits == old(visits) + vs
      ensures started == (setsDestination && q.env.mapKeyFault(p).None? && !old(aborted))
      ensures started ==> Promised(next, ts, qs, vs, q, Spot(p, |p|, false, data, q.env.mapKey(n.mw, parentKey)), true, old(aborted), aborted)
      ensures !started ==>
                && next == Threw(if setsDestination then q.env.mapKeyFault(p).GetOr(Aborted) else Contract(NoDestination))
                && ts == [] && qs == [] && vs == map[] && aborted == old(aborted)
      ensures !started ==> pool.ends == old(pool.ends)
      ensures started && next.Done? && Calm(q.env, vs) ==> Spent(old(pool), pool, out)
      ensures SomeQuiet(q.env, vs) ==> Left(|old(pool.ends)|, pool)
      decreases n, 0
    {
      hide Promised, IsNode, HasActive, Pool.Valid, Spent, Left, Calm, SomeQuiet;
      NodeOnTrie(n, p, q.ls);
      NothingCalm(q.env);
      if !setsDestination { return Threw(Contract(NoDestination)), false, [], [], map[]; }
      pool := pool.Register(out);
      InRange(pool, q.ls);
      assert pool.Seen() == old(pool.Seen());
      if q.env.mapKeyFault(p).Some? { return Threw(q.env.mapKeyFault(p).value), false, [], [], map[]; }
      if aborted { return Threw(Aborted), false, [], [], map[]; }
      started := true;
      ghost var registered := pool;
      next, ts, qs, vs := Each(n.entries, p, out, data, q.env.mapKey(n.mw, parentKey), false);
      if next.Done? && Calm(q.env, vs) { SameEndsSpent(old(pool), registered, pool, out); }
    }

    /** The catch block. `piped`: the middleware has set its destination, which is the end `out`. */
    method Catch(b: Behaviour, next: Exit, ex: Exit, contract: Option<Fault>, started: bool, piped: bool, out: nat) returns (r: Exit, child: bool)
      requires if piped && ex.Threw? then pool.Register(out).Valid(q.ls) else pool.Valid(q.ls)
      requires pool.TargetsInRange()
      modifies this`pool
      ensures pool.Valid(q.ls) && Grows(old(pool), pool, out) && pool.TargetsInRange() && pool.Seen() == old(pool.Seen())
      ensures Handled(b, next, ex, contract, started, q.onNodeError, aborted, r, child)
      ensures |pool.ends| == |old(pool.ends)| && (ex.Done? || started ==> pool.ends == old(pool.ends))
      // With a fault that `onNodeError` takes, the end that was piped into is cancelled.
      ensures ex.Threw? && r.Done? && !child && piped ==> !pool.IsLive(out)
    {
      r, child := ex, false;
      if ex.Done? { return Done, true; }
      if piped { pool := pool.Register(out); }
      if aborted { return; }
      var held := Record(contract, ex.fault);
      if held.Some? { return Threw(held.value), false; }
      if started {
        if Settled(b) && next == ex { return; }
        if q.onNodeError.Some? { return Done, true; }
        return;
      }
      if q.onNodeError.Some? && q.onNodeError.value(ex.fault) {
        if piped {
          CancelGrows(pool, out, q.ls);
          pool := pool.Cancel(out);
        }
        return Done, false;
      }
    }

    /** `walk`: the node at `p` with its input end. */
    method Walk(n: Node, p: seq<Mw>, input: nat, ghost data: Data, parentKey: Key)
      returns (r: Exit, child: bool, ghost ts: seq<Target>, ghost qs: seq<seq<Mw>>, ghost vs: VisitLog)
      requires IsNode(n, p, q.ls) && Ascending(q.ls, ByIndex) && HasActive(q.ls, p, q.active)
      requires pool.Valid(q.ls) && pool.IsLive(input) && pool.ends[input].data == data
      modifies this
      ensures pool.Valid(q.ls) && Grows(old(pool), pool, input) && pool.TargetsInRange()
      ensures pool.Seen() == old(pool.Seen()) + ts && ran == old(ran) + qs && visits == old(visits) + vs
      ensures Promised(r, ts, qs, vs, q, Spot(p, |p| - 1, true, data, parentKey), true, old(aborted), aborted)
      ensures Calm(q.env, vs) ==> Spent(old(pool), pool.Cancel(input), input) && (r.Done? && child ==> Spent(old(pool), pool, input))
      ensures SomeQuiet(q.env, vs) ==> Left(|old(pool.ends)|, pool)
      decreases n, 3
    {
      hide Promised, IsNode, HasActive, Pool.Valid, Grows, Spent, Left, Calm, SomeQuiet;
      if aborted {
        NodeOnTrie(n, p, q.ls);
        InRange(pool, q.ls);
        NotStarted(q, Spot(p, |p| - 1, true, data, parentKey));
        GrowsNot(pool, input);
        CancelSpends(pool, pool, input);
        NothingCalm(q.env);
        return Threw(Aborted), false, [], [], map[];
      }
      r, child, ts, qs, vs := Run(n, p, input, data, parentKey);
    }

    /** The middleware sets its destination, if it does, and calls `next()`, if it does. */
    method Call(b: Behaviour, n: Node, p: seq<Mw>, input: nat, piped: bool, out: nat, ghost data: Data, parentKey: Key)
      returns (next: Exit, started: bool, ghost ts: seq<Target>, ghost qs: seq<seq<Mw>>, ghost vs: VisitLog)
      requires IsNode(n, p, q.ls) && Ascending(q.ls, ByIndex) && HasActive(q.ls, p, q.active)
      requires pool.Valid(q.ls) && pool.TargetsInRange() && pool.IsLive(input) && pool.ends[input].data == data
      requires out == |pool.ends| && (b.Calls? ==> piped == b.setsDestination) && b == q.env.behave(p)
      modifies this
      ensures Grows(old(pool), pool, input) && pool.TargetsInRange()
      ensures if b.Skips? && piped then pool.Register(out).Valid(q.ls) else pool.Valid(q.ls)
      ensures pool.Seen() == old(pool.Seen()) + ts && ran == old(ran) + qs && visits == old(visits) + vs
      ensures started == (b.Calls? && b.setsDestination && q.env.mapKeyFault(p).None? && !old(aborted))
      ensures started ==>
                Promised(next, ts, qs, vs, q, Spot(p, |p|, false, q.env.encode(n.mw, data), q.env.mapKey(n.mw, parentKey)), true, old(aborted), aborted)
      ensures !started ==> ts == [] && qs == [] && vs == map[] && aborted == old(aborted)
      ensures !started && b.Calls? ==>
                next == Threw(if b.setsDestination then q.env.mapKeyFault(p).GetOr(Aborted) else Contract(NoDestination))
      ensures b.Skips? ==> next == Done
      ensures !started ==> (piped ==> pool.IsLive(out)) && (!piped ==> |pool.ends| == |old(pool.ends)|)
      ensures !started ==> forall j: nat | pool.IsLive(j) :: j < |old(pool.ends)| || (piped && j == out)
      ensures started && next.Done? && Calm(q.env, vs) ==> Spent(old(pool), pool, input)
      ensures SomeQuiet(q.env, vs) ==> Left(|old(pool.ends)|, pool)
      decreases n, 1
    {
      hide Promised, IsNode, HasActive, Pool.Valid, Grows, Pool.Seen, Spent, Left, Calm, SomeQuiet;
      NodeOnTrie(n, p, q.ls);
      next, started, ts, qs, vs := Done, false, [], [], map[];
      NothingCalm(q.env);
      PipeGrows(pool, input, n.mw, q.env, p[..|p| - 1], q.ls);
      ghost var pool0 := pool;
      if piped { pool := pool.Pipe(input, n.mw, q.env, p[..|p| - 1]); }
      ghost var pool1 := pool;
      if b.Calls? {
        next, started, ts, qs, vs := Next(n, p, piped, out, q.env.encode(n.mw, data), parentKey);
        GrowsOn(pool0, pool1, pool, input, out);
        if started { PipeSpent(pool0, pool1, pool, input, n.mw, q.env, p[..|p| - 1]); }
      }
    }

    /** The part of `walk` that runs the middleware. */
    method Run(n: Node, p: seq<Mw>, input: nat, ghost data: Data, parentKey: Key)
      returns (r: Exit, child: bool, ghost ts: seq<Target>, ghost qs: seq<seq<Mw>>, ghost vs: VisitLog)
      requires IsNode(n, p, q.ls) && Ascending(q.ls, ByIndex) && HasActive(q.ls, p, q.active) && !aborted
      requires pool.Valid(q.ls) && pool.IsLive(input) && pool.ends[input].data == data
      modifies this
      ensures pool.Valid(q.ls) && Grows(old(pool), pool, input) && pool.TargetsInRange()
      ensures pool.Seen() == old(pool.Seen()) + ts && ran == old(ran) + qs && visits == old(visits) + vs
      ensures Promised(r, ts, qs, vs, q, Spot(p, |p| - 1, true, data, parentKey), true, old(aborted), aborted)
      ensures Calm(q.env, vs) ==> Spent(old(pool), pool.Cancel(input), input) && (r.Done? && child ==> Spent(old(pool), pool, input))
      ensures SomeQuiet(q.env, vs) ==> Left(|old(pool.ends)|, pool)
      decreases n, 2
    {
      hide Promised, IsNode, Checked, Handled, HasActive, Pool.Valid, Grows, Pool.Seen, Spent, Left, Calm, SomeQuiet, Quiet;
      NodeOnTrie(n, p, q.ls);
      InRange(pool, q.ls);
      ghost var pool0 := pool;
      var b := q.env.behave(p);
      ran, aborted := ran + [p], b.abortsBefore;
      var out, piped := |pool.ends|, if b.Calls? then b.setsDestination else q.pipesAnyway(p);
      var next, started;
      next, started, ts, qs, vs := Call(b, n, p, input, piped, out, data, parentKey);
      ghost var pool1, mid := pool, aborted;
      r, child := Conclude(b, next, n, p, data, parentKey, started, piped, out, ts, qs, vs);
      GrowsOn(pool0, pool1, pool, input, out);
      NodeEnds(pool0, pool1, pool, q.env, p, Visit(next, started, mid, r, aborted), vs, input, piped, child);
      Regroup(old(ran), [p], qs);
      qs, vs := [p] + qs, map[p := Visit(next, started, mid, r, aborted)] + vs;
      visits := old(visits) + vs;
    }

    /** From the end of `encodeStream` on: the checks and the catch block. */
    method Conclude(b: Behaviour, next: Exit, n: Node, p: seq<Mw>, ghost data: Data, ghost parentKey: Key, started: bool, piped: bool, out: nat,
                    ghost ts: seq<Target>, ghost qs: seq<seq<Mw>>, ghost vs: VisitLog)
      returns (r: Exit, child: bool)
      requires IsNode(n, p, q.ls) && Ascending(q.ls, ByIndex) && HasActive(q.ls, p, q.active) && b == q.env.behave(p)
      requires pool.TargetsInRange() && if b.Skips? && piped then pool.Register(out).Valid(q.ls) else pool.Valid(q.ls)
      requires started == (b.Calls? && b.setsDestination && q.env.mapKeyFault(p).None? && !b.abortsBefore)
      requires started ==>
                 Promised(next, ts, qs, vs, q, Spot(p, |p|, false, q.env.encode(n.mw, data), q.env.mapKey(n.mw, parentKey)), true, false, aborted)
      requires !started ==> ts == [] && qs == [] && vs == map[] && aborted == b.abortsBefore
      requires !started && b.Calls? ==>
                 next == Threw(if b.setsDestination then q.env.mapKeyFault(p).GetOr(Aborted) else Contract(NoDestination))
      requires (b.Skips? ==> next == Done) && (b.Calls? ==> piped == b.setsDestination)
      modifies this`pool, this`aborted
      ensures pool.Valid(q.ls) && Grows(old(pool), pool, out) && pool.TargetsInRange() && pool.Seen() == old(pool.Seen())
      ensures |p| > 0 && Promised(r, ts, [p] + qs, map[p := Visit(next, started, old(aborted), r, aborted)] + vs, q,
                                   Spot(p, |p| - 1, true, data, parentKey), true, false, aborted)
      ensures p !in vs && EndsLeft(old(pool), pool, q.env, p, Visit(next, started, old(aborted), r, aborted), piped, out, child)
    {
      hide Promised, IsNode, Checked, Handled, HasActive, Pool.Valid, Grows, Pool.Seen, EndsLeft;
      ghost var pool0 := pool;
      NodeOnTrie(n, p, q.ls);
      ghost var mid := aborted;
      var ex, contract;
      ex, contract, aborted := AwaitChecked(b, next, aborted);
      SkipThrows(b, next, mid, ex, contract, aborted);
      RegisterAgain(pool, out, q.ls);
      r, child := Catch(b, next, ex, contract, started, piped, out);
      ghost var v := Visit(next, started, mid, r, aborted);
      EndsWell(pool0, pool, q, p, v, ex, contract, piped, out, child);
      if started {
        NodeJudged(b, v, ex, contract, child, ts, qs, vs, q, n, p, data, parentKey);
      } else {
        NodeSkipped(b, v, ex, contract, child, q, n, p, data, parentKey);
        assert [p] + qs == [p] && map[p := v] + vs == map[p := v];
      }
    }
  }

  /** What the end of a node leaves of the ends: those made below it, as they are, and the one it piped into only if it kept quiet or failed. */
  ghost predicate EndsLeft(a: Pool, b: Pool, env: Env, p: seq<Mw>, v: Visit, piped: bool, out: nat, child: bool) {
    && |b.ends| == |a.ends| && (forall j | 0 <= j < |a.ends| && j != out :: b.ends[j] == a.ends[j])
    && (v.started || Quiet(env, p, v) ==> b.ends == a.ends) && (Quiet(env, p, v) ==> piped)
    && (v.started && v.exit.Done? ==> child)
    && (!v.started && v.exit.Done? && !Quiet(env, p, v) ==> !child && (piped ==> !b.IsLive(out)))
  }

  lemma EndsWell(a: Pool, b: Pool, q: Request, p: seq<Mw>, v: Visit, ex: Exit, contract: Option<Fault>, piped: bool, out: nat, child: bool)
    requires Checked(q.env.behave(p), v.next, v.mid, ex, contract, v.after)
    requires Handled(q.env.behave(p), v.next, ex, contract, v.started, q.onNodeError, v.after, v.exit, child)
    requires q.env.behave(p).Calls? ==> piped == q.env.behave(p).setsDestination
    requires Grows(a, b, out) && |b.ends| == |a.ends| && (ex.Done? || v.started ==> b.ends == a.ends)
    requires ex.Threw? && v.exit.Done? && !child && piped ==> !b.IsLive(out)
    ensures EndsLeft(a, b, q.env, p, v, piped, out, child)
  {
  }

  lemma NodeEnds(a: Pool, b: Pool, c: Pool, env: Env, p: seq<Mw>, v: Visit, vs: VisitLog, input: nat, piped: bool, child: bool)
    requires a.IsLive(input) && p !in vs && EndsLeft(b, c, env, p, v, piped, |a.ends|, child) && (!v.started ==> vs == map[])
    requires !v.started ==> (piped ==> b.IsLive(|a.ends|)) && (!piped ==> |b.ends| == |a.ends|)
    requires !v.started ==> forall j: nat | b.IsLive(j) :: j < |a.ends| || (piped && j == |a.ends|)
    requires v.started && v.next.Done? && Calm(env, vs) ==> Spent(a, b, input)
    requires SomeQuiet(env, vs) ==> Left(|a.ends|, b)
    ensures Calm(env, map[p := v] + vs) ==> Spent(a, c.Cancel(input), input) && (v.exit.Done? && child ==> Spent(a, c, input))
    ensures SomeQuiet(env, map[p := v] + vs) ==> Left(|a.ends|, c)
  {
    hide Quiet;
    var all := map[p := v] + vs;
    CalmBoth(env, map[p := v], vs);
    CancelSpends(a, c, input);
    assert p in all && all[p] == v && p in map[p := v];
    if Calm(env, all) {
      forall j: nat | c.IsLive(j) ensures j < |a.ends| && (v.started ==> j != input) { assert b.IsLive(j); }
    }
    if SomeQuiet(env, all) {
      if v.started {
        assert !Quiet(env, p, v) by { StartedTells(env, p, v); }
        assert SomeQuiet(env, vs);
        var j: nat :| |a.ends| <= j && b.IsLive(j);
        assert c.IsLive(j);
      } else {
        assert Quiet(env, p, v);
        assert c.IsLive(|a.ends|);
      }
    }
  }

  lemma StartedTells(env: Env, p: seq<Mw>, v: Visit)
    requires v.started
    ensures !Quiet(env, p, v)
  {
  }

  lemma GrowsNot(pool: Pool, e: nat)
    ensures Grows(pool, pool, e)
  {
  }

  lemma PipeGrows(pool: Pool, e: nat, m: Mw, env: Env, p: seq<Mw>, ls: seq<Leaf>)
    requires pool.Valid(ls) && pool.IsLive(e) && (p == [] || OnTrie(p, ls))
    ensures var after := pool.Pipe(e, m, env, p);
            && Grows(pool, after, e) && after.IsLive(|pool.ends|) && after.ends[|pool.ends|].data == env.encode(m, pool.ends[e].data)
            && after.Register(|pool.ends|).Valid(ls) && after.TargetsInRange() && after.Seen() == pool.Seen()
            && after.ends[|pool.ends|].made == p
    ensures Grows(pool, pool, e)
  {
  }

  lemma RegisterAgain(pool: Pool, e: nat, ls: seq<Leaf>)
    ensures pool.Valid(ls) ==> pool.Register(e).Valid(ls)
  {
  }

  lemma SkipThrows(b: Behaviour, next: Exit, aborted: bool, ex: Exit, contract: Option<Fault>, aborted': bool)
    requires Checked(b, next, aborted, ex, contract, aborted')
    ensures b.Skips? ==> ex.Threw?
  {
  }

  /** The end of the source, registered by the caller. */
  function Source(data: Data): (r: Pool)
    ensures r.IsLive(0)
  {
    Pool([End(data, Live, [])], {0}, [])
  }

  const ByLeafOf: StreamTarget -> int := (t: StreamTarget) => t.leaf.index

  /** What target `t` reads. */
  function Reads(pool: Pool, t: StreamTarget): Target
    requires t.end < |pool.ends|
  {
    Target(t.leaf, pool.ends[t.end].data, t.key)
  }

  /** The target of an active leaf, with an end that reads what its chain makes of the source. */
  ghost predicate OneFaithful(t: StreamTarget, pool: Pool, env: Env, dests: seq<Destination>, active: set<Leaf>, data: Data, key: Key) {
    t.leaf in active && t.end < |pool.ends| && pool.ends[t.end].state.Assigned? && Reads(pool, t) in EachChainAlone(env, dests, data, key)
  }

  /** Each target, in registration order, has an end of its own that reads what its chain makes of the source. */
  ghost predicate Faithful(targets: seq<StreamTarget>, pool: Pool, env: Env, dests: seq<Destination>, active: set<Leaf>, data: Data, key: Key) {
    && Ascending(targets, ByLeafOf)
    && (forall t | t in targets :: OneFaithful(t, pool, env, dests, active, data, key))
    && forall i, k | 0 <= i < k < |targets| :: targets[i].end != targets[k].end
  }

  lemma AnyBranch(es: seq<Entry>, p: seq<Mw>, ls: seq<Leaf>, active: set<Leaf>)
    requires AreEntries(es, p, ls)
    ensures Branches(es, active) > 0 <==> HasActive(ls, p, active)
  {
    if HasActive(ls, p, active) {
      SomeBranch(es, p, ls, active);
    }
    var branches := Filter(es, (e: Entry) => IsActive(e, active));
    if branches != [] {
      assert branches[0] in branches;
      var i :| 0 <= i < |es| && es[i] == branches[0];
      match es[i] {
        case LeafEntry(l) =>
          EntryIsLeaf(es, p, ls, i);
          assert ActiveUnder(l, ls, p, active);
        case NodeEntry(n) =>
          NodeActive(es, p, ls, i, active);
          var l :| ActiveUnder(l, ls, p + [n.mw], active);
          assert ActiveUnder(l, ls, p, active);
      }
    }
  }

  lemma NothingActive(q: Request, dests: seq<Destination>, data: Data, key: Key, strict: bool, now: bool)
    requires q.ls == LeavesOf(dests) && !HasActive(q.ls, [], q.active)
    ensures Promised(Done, [], [], map[], q, Spot([], 0, false, data, key), strict, now, now)
  {
    forall x, l: Leaf ensures !ActiveUnder(l, q.ls, x, q.active) { assert !ActiveUnder(l, q.ls, [], q.active); }
    assert forall l: Leaf | l in q.active && l in q.ls :: ActiveUnder(l, q.ls, [], q.active);
    NothingBelow(dests, [], now, Pardoned(q, strict), q.active, ActiveNodes(q.ls, q.active), q.ls);
  }

  /** The nodes with an active leaf, and the active leaves, at the end of a clear way are run and get a target; and a middleware that breaks
      the rules in any case is a breach. */
  ghost predicate Gets(ts: seq<Target>, ran: seq<seq<Mw>>, visits: VisitLog, env: Env, ls: seq<Leaf>, active: set<Leaf>, aborted: bool) {
    && (forall w | !aborted && w != [] && Clear(env, ls, w, |w| - 1) && HasActive(ls, w, active) && OnTrie(w, ls) :: w in ran)
    && (forall l: Leaf | !aborted && l in active && l in ls && Clear(env, ls, l.path, |l.path|) :: Reaches(ts, l))
    && (forall x | x in ran && env.behave(x).BreaksAnyway() :: x in Breakers(env, visits))
  }

  /** The walk from the root, in terms of the chains on their own. */
  lemma RootDone(r: Exit, ts: seq<Target>, ran: seq<seq<Mw>>, visits: VisitLog, q: Request, dests: seq<Destination>, data: Data, key: Key,
                 strict: bool, before: bool, after: bool)
    requires q.ls == LeavesOf(dests) && Promised(r, ts, ran, visits, q, Spot([], 0, false, data, key), strict, before, after)
    ensures forall t | t in ts :: t.leaf.index < |dests| && t == EachChainAlone(q.env, dests, data, key)[t.leaf.index] && t.leaf in q.active
    ensures forall i, j | 0 <= i < j < |ts| :: ts[i].leaf != ts[j].leaf
    ensures Distinct(ran) && forall x | x in ran :: OnTrie(x, q.ls) && HasActive(q.ls, x, q.active)
    ensures after && !before ==> SomeAborts(ran, q.env)
    ensures Guarded(r, q, before, after) && Gets(ts, ran, visits, q.env, q.ls, q.active, before) && AllEnded(q, visits)
    ensures Logged(ts, ran, visits, q.env, q.ls, Spot([], 0, false, data, key), q.active, ActiveNodes(q.ls, q.active), after)
    ensures Below(ts, visits, [], r, after, Pardoned(q, strict), q.active, ActiveNodes(q.ls, q.active), q.ls)
    ensures strict && !after ==> ((r.Threw? && r.fault.Contract?) <==> Heard(q.env, 1, Breakers(q.env, visits)))
    ensures NoneAbandonsOn(q.env, q.ls) && Breakers(q.env, visits) != {} ==> Heard(q.env, 1, Breakers(q.env, visits))
    ensures !before && SureBreach(q.env, q.ls, ActiveNodes(q.ls, q.active)) ==> Heard(q.env, 1, Breakers(q.env, visits))
    ensures r.Done? && Whole(q, before) ==>
              && (forall l | l in q.ls && l in q.active :: Reaches(ts, l))
              && (forall x :: x in ran <==> OnTrie(x, q.ls) && HasActive(q.ls, x, q.active))
    ensures CompliantOn(q.env, q.ls) ==> Breakers(q.env, visits) == {}
    ensures TakesAll(q.onNodeError) && !after && Breakers(q.env, visits) == {} ==>
              r.Done? && forall l: Leaf | l in q.active && l in q.ls :: Reaches(ts, l) <==> WayOpen(q.env, l.path)
    ensures TakesAll(q.onNodeError) && !after && Breakers(q.env, visits) == {} ==>
              && (Calm(q.env, visits) <==> !SomeQuiet(q.env, visits))
              && (SomeQuiet(q.env, visits) <==> exists l, k :: l in q.active && l in q.ls && QuietAt(q.env, l.path, k))
    ensures WellBehavedOn(q.env, q.ls) && !before ==> Calm(q.env, visits)
  {
    hide OnTrie, HasActive, Calm, SomeQuiet, QuietAt, WellBehavedOn, Guarded, Whole, Clear, Heard, NoneAbandonsOn, Full, Audited, Logged, Below, AllEnded,
      Breakers, Pardoned, Arrives, Gets, SureBreach, AbortTraced, SomeAborts, CompliantOn, TakesAll, WayOpen, Reaches;
    var s := Spot([], 0, false, data, key);
    SoundOrders(ts, ran, q.env, dests, data, key, q.active, ActiveNodes(q.ls, q.active));
    RootAudited(r, ts, ran, visits, q, data, key, strict, after);
    NoneBreaks(ts, ran, visits, q, data, key, after);
    TracedRuns(ts, ran, visits, q.env, q.ls, s, q.active, ActiveNodes(q.ls, q.active), before, after);
    RootGets(r, ts, ran, visits, q, data, key, strict, before, after);
    if !before { SureIsHeard(ran, visits, q.env, q.ls, ActiveNodes(q.ls, q.active)); }
    if r.Done? && Whole(q, before) { FullAtRoot(ts, ran, q, data, key); }
    if WellBehavedOn(q.env, q.ls) && !before {
      WellGoesOn(r, q, before, after);
      CalmIfWell(ts, ran, visits, q, data, key);
    }
    if TakesAll(q.onNodeError) && !after && Breakers(q.env, visits) == {} { ReadyIfOpen(r, ts, ran, visits, q, data, key, Pardoned(q, strict)); }
  }

  lemma WellGoesOn(r: Exit, q: Request, before: bool, after: bool)
    requires Guarded(r, q, before, after)
    ensures WellBehavedOn(q.env, q.ls) && !before ==> !after
  {
  }

  /** `onNodeError` accepts every fault but contract errors. */
  ghost predicate TakesAll(onNodeError: Option<Fault -> bool>) {
    onNodeError.Some? && forall fault: Fault :: !fault.Contract? ==> onNodeError.value(fault)
  }

  /** Then, without a breach, a call throws only what its `next()` threw, so nothing throws and every loop goes through all its entries. */
  lemma ReadyIfOpen(r: Exit, ts: seq<Target>, ran: seq<seq<Mw>>, visits: VisitLog, q: Request, data: Data, key: Key, pardoned: iset<Fault>)
    requires TakesAll(q.onNodeError) && Breakers(q.env, visits) == {} && AllEnded(q, visits)
    requires Logged(ts, ran, visits, q.env, q.ls, Spot([], 0, false, data, key), q.active, ActiveNodes(q.ls, q.active), false)
    requires Below(ts, visits, [], r, false, pardoned, q.active, ActiveNodes(q.ls, q.active), q.ls)
    requires forall x | x in ran :: HasActive(q.ls, x, q.active)
    ensures r.Done? && forall l: Leaf | l in q.active && l in q.ls :: Reaches(ts, l) <==> WayOpen(q.env, l.path)
    ensures Calm(q.env, visits) <==> !SomeQuiet(q.env, visits)
    ensures SomeQuiet(q.env, visits) <==> exists l, k :: l in q.active && l in q.ls && QuietAt(q.env, l.path, k)
  {
    hide OnTrie, Begun, Below, Reaches, Ended, HasActive, Broke, WayOpen, TakesAll, Quiet, QuietAt;
    var s, nodes := Spot([], 0, false, data, key), ActiveNodes(q.ls, q.active);
    forall x | x in visits
      ensures (visits[x].exit.Threw? ==> visits[x].started && visits[x].next.Threw?) && !visits[x].mid
              && (visits[x].started <==> q.env.behave(x).Opens() && q.env.mapKeyFault(x).None?)
    {
      assert VisitOk(visits, x, q.env, q.ls, s, false) && x !in Breakers(q.env, visits);
      NotOwnFault(q, x, visits[x]);
    }
    NothingThrows(ts, ran, visits, q, data, key);
    if r.Threw? {
      var c := Thrower(ts, visits, [], r, false, pardoned, q.active, nodes, q.ls);
      assert false;
    }
    forall l: Leaf | l in q.active && l in q.ls ensures Reaches(ts, l) <==> WayOpen(q.env, l.path) {
      forall i | 0 < i <= |l.path| ensures l.path[..i] in nodes { ActiveBelow(l, q.ls, i, q.active); }
      ReachedIfOpen(ts, ran, visits, q.env, q.ls, q.active, nodes, pardoned, data, key, l);
    }
    forall x | x in visits ensures HasActive(q.ls, x, q.active) && (Quiet(q.env, x, visits[x]) <==> KeepsQuiet(q.env, x)) {
      assert VisitOk(visits, x, q.env, q.ls, s, false);
      QuietTold(q, x, visits[x]);
    }
    QuietIfOpen(ts, ran, visits, q, data, key, pardoned);
  }

  /** `mapKey` fails on the node, and its middleware keeps quiet about the fault of its `next()`. */
  predicate KeepsQuiet(env: Env, x: seq<Mw>) {
    && env.behave(x).Calls? && env.behave(x).setsDestination
    && env.mapKeyFault(x).Some? && Rejection(env.behave(x), Threw(env.mapKeyFault(x).value)).None?
  }

  /** All nodes above this one let the walk get to it. */
  predicate QuietAt(env: Env, path: seq<Mw>, k: nat) {
    0 < k <= |path| && WayOpen(env, path[..k - 1]) && KeepsQuiet(env, path[..k])
  }

  lemma QuietTold(q: Request, x: seq<Mw>, v: Visit)
    requires Begun(q.env.behave(x), q.env.mapKeyFault(x), v) && !v.after && Ended(q, x, v) && v.exit.Done? && !v.mid
    ensures Quiet(q.env, x, v) <==> KeepsQuiet(q.env, x)
  {
  }

  lemma QuietIfOpen(ts: seq<Target>, ran: seq<seq<Mw>>, visits: VisitLog, q: Request, data: Data, key: Key, pardoned: iset<Fault>)
    requires Logged(ts, ran, visits, q.env, q.ls, Spot([], 0, false, data, key), q.active, ActiveNodes(q.ls, q.active), false)
    requires Below(ts, visits, [], Done, false, pardoned, q.active, ActiveNodes(q.ls, q.active), q.ls) && AllFinish(visits, q.env)
    requires forall x | x in visits :: HasActive(q.ls, x, q.active) && (Quiet(q.env, x, visits[x]) <==> KeepsQuiet(q.env, x))
    ensures SomeQuiet(q.env, visits) <==> exists l, k :: l in q.active && l in q.ls && QuietAt(q.env, l.path, k)
  {
    hide Below, Quiet, WayOpen, HasActive, Begun, OnTrie;
    var nodes := ActiveNodes(q.ls, q.active);
    if x :| x in visits && Quiet(q.env, x, visits[x]) {
      var l := SomeActive(q.ls, x, q.active);
      assert x != [];
      assert l.path[..|x|] == x;
      forall i | 0 < i <= |x| ensures l.path[..i] in nodes { ActiveBelow(l, q.ls, i, q.active); }
      VisitedIfOpen(ts, ran, visits, q.env, q.ls, q.active, nodes, pardoned, data, key, l, |x|);
      assert QuietAt(q.env, l.path, |x|);
    }
    if l: Leaf, k: nat :| l in q.active && l in q.ls && QuietAt(q.env, l.path, k) {
      forall i | 0 < i <= k ensures l.path[..i] in nodes { ActiveBelow(l, q.ls, i, q.active); }
      VisitedIfOpen(ts, ran, visits, q.env, q.ls, q.active, nodes, pardoned, data, key, l, k);
      assert Quiet(q.env, l.path[..k], visits[l.path[..k]]);
    }
  }

  lemma SomeActive(ls: seq<Leaf>, x: seq<Mw>, active: set<Leaf>) returns (l: Leaf)
    requires HasActive(ls, x, active)
    ensures l in ls && l in active && x <= l.path
  {
    l :| ActiveUnder(l, ls, x, active);
  }

  lemma NothingThrows(ts: seq<Target>, ran: seq<seq<Mw>>, visits: VisitLog, q: Request, data: Data, key: Key)
    requires Logged(ts, ran, visits, q.env, q.ls, Spot([], 0, false, data, key), q.active, ActiveNodes(q.ls, q.active), false)
    requires forall x | x in visits && visits[x].exit.Threw? :: visits[x].started && visits[x].next.Threw?
    ensures forall x | x in visits :: visits[x].exit.Done? && (visits[x].started ==> visits[x].next.Done?)
  {
    hide Logged;
    var height := MaxLength(q.ls);
    forall x | x in visits ensures visits[x].started ==> visits[x].next.Done? {
      NobodyThrows(ts, ran, visits, q.env, q.ls, Spot([], 0, false, data, key), q.active, ActiveNodes(q.ls, q.active), x, height);
    }
  }

  lemma CalmIfWell(ts: seq<Target>, ran: seq<seq<Mw>>, visits: VisitLog, q: Request, data: Data, key: Key)
    requires WellBehavedOn(q.env, q.ls) && AllEnded(q, visits)
    requires Logged(ts, ran, visits, q.env, q.ls, Spot([], 0, false, data, key), q.active, ActiveNodes(q.ls, q.active), false)
    ensures Calm(q.env, visits)
  {
    hide OnTrie, Begun, Below, HasActive, Broke, Ended;
    forall x | x in visits ensures visits[x].started && (visits[x].exit.Threw? ==> visits[x].next.Threw?) {
      assert VisitOk(visits, x, q.env, q.ls, Spot([], 0, false, data, key), false);
      WellEnds(q, x, visits[x]);
    }
    NothingThrows(ts, ran, visits, q, data, key);
  }

  lemma WellEnds(q: Request, x: seq<Mw>, v: Visit)
    requires q.env.behave(x).WellBehaved() && q.env.mapKeyFault(x).None? && Begun(q.env.behave(x), q.env.mapKeyFault(x), v) && !v.after && Ended(q, x, v)
    ensures v.started && (v.exit.Threw? ==> v.next.Threw?)
  {
  }

  lemma NotOwnFault(q: Request, x: seq<Mw>, v: Visit)
    requires TakesAll(q.onNodeError) && Begun(q.env.behave(x), q.env.mapKeyFault(x), v) && !v.after && Ended(q, x, v) && !Broke(q.env.behave(x), v)
    ensures v.exit.Threw? ==> v.started && v.next.Threw?
    ensures !v.mid && (v.started <==> q.env.behave(x).Opens() && q.env.mapKeyFault(x).None?)
  {
    var b := q.env.behave(x);
    var ex, contract, child :| Checked(b, v.next, v.mid, ex, contract, v.after)
                               && Handled(b, v.next, ex, contract, v.started, q.onNodeError, v.after, v.exit, child);
    OwnTold(b, v, ex, contract, q.env.mapKeyFault(x));
  }

  lemma NoneBreaks(ts: seq<Target>, ran: seq<seq<Mw>>, visits: VisitLog, q: Request, data: Data, key: Key, aborted: bool)
    requires Logged(ts, ran, visits, q.env, q.ls, Spot([], 0, false, data, key), q.active, ActiveNodes(q.ls, q.active), aborted)
    ensures CompliantOn(q.env, q.ls) ==> Breakers(q.env, visits) == {}
  {
    hide OnTrie, Logged, CompliantAt, Breakers;
    var s, nodes := Spot([], 0, false, data, key), ActiveNodes(q.ls, q.active);
    BreakersBroke(ts, ran, visits, q.env, q.ls, s, q.active, nodes, aborted);
    CompliantNotBroken(ts, ran, visits, q.env, q.ls, s, q.active, nodes, aborted);
  }

  lemma RootAudited(r: Exit, ts: seq<Target>, ran: seq<seq<Mw>>, visits: VisitLog, q: Request, data: Data, key: Key, strict: bool, aborted: bool)
    requires Audited(r, ts, ran, visits, q.env, q.ls, Spot([], 0, false, data, key), q.active, ActiveNodes(q.ls, q.active), Pardoned(q, strict), strict, aborted)
    ensures Logged(ts, ran, visits, q.env, q.ls, Spot([], 0, false, data, key), q.active, ActiveNodes(q.ls, q.active), aborted)
    ensures Below(ts, visits, [], r, aborted, Pardoned(q, strict), q.active, ActiveNodes(q.ls, q.active), q.ls)
    ensures strict && !aborted ==> ((r.Threw? && r.fault.Contract?) <==> Heard(q.env, 1, Breakers(q.env, visits)))
    ensures NoneAbandonsOn(q.env, q.ls) && Breakers(q.env, visits) != {} ==> Heard(q.env, 1, Breakers(q.env, visits))
    ensures forall x | x in ran && q.env.behave(x).BreaksAnyway() :: x in Breakers(q.env, visits)
  {
    hide OnTrie, NoneAbandonsOn, Heard, Below, Logged, Breakers, Pardoned;
    BreakersBroke(ts, ran, visits, q.env, q.ls, Spot([], 0, false, data, key), q.active, ActiveNodes(q.ls, q.active), aborted);
    BreachHeard(q.env, q.ls, Breakers(q.env, visits));
  }

  lemma RootGets(r: Exit, ts: seq<Target>, ran: seq<seq<Mw>>, visits: VisitLog, q: Request, data: Data, key: Key, strict: bool, before: bool, after: bool)
    requires Promised(r, ts, ran, visits, q, Spot([], 0, false, data, key), strict, before, after)
    requires forall x | x in ran && q.env.behave(x).BreaksAnyway() :: x in Breakers(q.env, visits)
    ensures Gets(ts, ran, visits, q.env, q.ls, q.active, before)
    ensures !before ==> forall w | w != [] && Clear(q.env, q.ls, w, |w| - 1) && w in ActiveNodes(q.ls, q.active) && OnTrie(w, q.ls) :: w in ran
  {
    hide OnTrie, HasActive, Sound, Full, Guarded, Clear, Audited, AllEnded, Breakers;
    var s := Spot([], 0, false, data, key);
    forall x | OnTrie(x, q.ls) && HasActive(q.ls, x, q.active) ensures x in ActiveNodes(q.ls, q.active) && s.Owns(x) { OnTrieNonempty(x, q.ls); }
  }

  lemma FullAtRoot(ts: seq<Target>, ran: seq<seq<Mw>>, q: Request, data: Data, key: Key)
    requires Full(ts, ran, q.ls, Spot([], 0, false, data, key), q.active, ActiveNodes(q.ls, q.active))
    ensures forall l | l in q.ls && l in q.active :: Reaches(ts, l)
    ensures forall x | OnTrie(x, q.ls) && HasActive(q.ls, x, q.active) :: x in ran
  {
    hide OnTrie, HasActive;
    forall x | OnTrie(x, q.ls) && HasActive(q.ls, x, q.active) ensures x in ran {
      OnTrieNonempty(x, q.ls);
      assert x in ActiveNodes(q.ls, q.active);
    }
  }

  lemma OnTrieNonempty(x: seq<Mw>, ls: seq<Leaf>)
    requires OnTrie(x, ls)
    ensures x != []
  {
  }

  /** Before sorting: each target on its own. */
  lemma TargetsSeen(pool: Pool, ts: seq<Target>, env: Env, dests: seq<Destination>, active: set<Leaf>, data: Data, key: Key)
    requires pool.Valid(LeavesOf(dests)) && pool.Seen() == ts
    requires forall t | t in ts :: t.leaf.index < |dests| && t == EachChainAlone(env, dests, data, key)[t.leaf.index] && t.leaf in active
    requires forall i, j | 0 <= i < j < |ts| :: ts[i].leaf != ts[j].leaf
    ensures forall i | 0 <= i < |pool.targets| :: OneFaithful(pool.targets[i], pool, env, dests, active, data, key)
    ensures forall i, j | 0 <= i < j < |pool.targets| :: ByLeafOf(pool.targets[i]) != ByLeafOf(pool.targets[j])
    ensures forall l | Reaches(ts, l) :: exists t :: t in pool.targets && t.leaf == l
  {
    hide EachChainAlone;
    var all := pool.targets;
    forall i | 0 <= i < |all|
      ensures all[i].end < |pool.ends| && ts[i] == Reads(pool, all[i]) && ts[i] in ts && OneFaithful(all[i], pool, env, dests, active, data, key)
    {
      assert ts[i] in ts;
    }
    forall i, j | 0 <= i < j < |all| ensures ByLeafOf(all[i]) != ByLeafOf(all[j]) {
      assert ts[i] in ts && ts[j] in ts && ts[i].leaf != ts[j].leaf;
      assert ts[i] == EachChainAlone(env, dests, data, key)[ts[i].leaf.index];
    }
    forall l | Reaches(ts, l) ensures exists t :: t in all && t.leaf == l {
      var t :| t in ts && t.leaf == l;
      var i :| 0 <= i < |ts| && ts[i] == t;
      assert all[i] in all;
    }
  }

  lemma TargetsFaithful(targets: seq<StreamTarget>, pool: Pool, ts: seq<Target>, env: Env, dests: seq<Destination>, active: set<Leaf>, data: Data, key: Key)
    requires pool.Valid(LeavesOf(dests)) && pool.Seen() == ts && targets == SortBy(pool.targets, ByLeafOf)
    requires forall t | t in ts :: t.leaf.index < |dests| && t == EachChainAlone(env, dests, data, key)[t.leaf.index] && t.leaf in active
    requires forall i, j | 0 <= i < j < |ts| :: ts[i].leaf != ts[j].leaf
    ensures Faithful(targets, pool, env, dests, active, data, key)
    ensures forall l | Reaches(ts, l) :: exists t :: t in targets && t.leaf == l
  {
    hide EachChainAlone, OneFaithful, Reaches;
    var all := pool.targets;
    TargetsSeen(pool, ts, env, dests, active, data, key);
    SortAscending(all, ByLeafOf);
    forall t | t in targets ensures OneFaithful(t, pool, env, dests, active, data, key) {
      assert t in all;
    }
    forall i, k | 0 <= i < k < |targets| ensures targets[i].end != targets[k].end {
      assert targets[i] in all && targets[k] in all;
      var a :| 0 <= a < |all| && all[a] == targets[i];
      var b :| 0 <= b < |all| && all[b] == targets[k];
      assert ByLeafOf(targets[i]) < ByLeafOf(targets[k]);
    }
  }

  lemma OthersKept(a: Pool, b: Pool, e: nat, j: nat)
    requires Grows(a, b, e) && j < |a.ends|
    ensures j < |b.ends| && b.ends[j].data == a.ends[j].data && (j != e ==> b.ends[j] == a.ends[j])
  {
  }

  /** Only ends made late are left, and of those the targets' are. */
  ghost predicate Released(pool: Pool, env: Env, outlives: nat -> bool) {
    && (forall j | 0 <= j < |pool.ends| :: pool.ends[j].Readable() ==> pool.MadeLate(env, outlives, j))
    && (forall t | t in pool.targets ::
          && t.end < |pool.ends| && Near(pool.ends[t.end].made, t.leaf.path)
          && (pool.MadeLate(env, outlives, t.end) ==> pool.ends[t.end].Readable()))
  }

  ghost predicate NoneReadable(pool: Pool) {
    forall j | 0 <= j < |pool.ends| :: !pool.ends[j].Readable()
  }

  /** An end, and not the reader's, can be read and is nobody's to read. */
  ghost predicate SomeUnread(pool: Pool, splitRead: bool, read: nat) {
    exists j: nat :: pool.IsLive(j) && !(splitRead && j == read)
  }

  /** What a failure leaves behind. */
  lemma Cancelled(pool: Pool, env: Env, outlives: nat -> bool, ls: seq<Leaf>)
    requires pool.Valid(ls)
    ensures var r := pool.CancelStreams(env, outlives);
            Released(r, env, outlives) && (NoneDetachesOn(env, ls) ==> NoneReadable(r))
  {
    var r := pool.CancelStreams(env, outlives);
    forall j | 0 <= j < |r.ends| ensures r.MadeLate(env, outlives, j) <==> pool.MadeLate(env, outlives, j) { }
    forall t | t in r.targets
      ensures t.end < |r.ends| && (r.MadeLate(env, outlives, t.end) ==> r.ends[t.end].Readable()) && Near(r.ends[t.end].made, t.leaf.path)
    {
      var i :| 0 <= i < |pool.targets| && pool.targets[i] == t;
    }
    if NoneDetachesOn(env, ls) {
      forall j | 0 <= j < |r.ends| ensures !r.MadeLate(env, outlives, j) { NotLate(pool, env, outlives, ls, j); }
    }
  }

  lemma NotLate(pool: Pool, env: Env, outlives: nat -> bool, ls: seq<Leaf>, j: nat)
    requires pool.Valid(ls) && j < |pool.ends| && NoneDetachesOn(env, ls)
    ensures !pool.MadeLate(env, outlives, j)
  {
    var made := pool.ends[j].made;
    forall i | 0 < i <= |made| ensures !env.behave(made[..i]).Detaches() {
      var l :| l in ls && made <= l.path;
      assert made[..i] <= made <= l.path;
      assert OnTrie(made[..i], ls);
    }
  }

  /** `buildEncodeTree` */
  method BuildEncodeTree(g: Graph, ghost dests: seq<Destination>, env: Env, aborted: bool, key: Key, source: Data, active: set<Leaf>,
                         onNodeError: Option<Fault -> bool>, pipesAnyway: seq<Mw> -> bool, splitRead: bool, outlives: nat -> bool)
    returns (r: Exit, targets: seq<StreamTarget>, read: nat, run: StreamRun)
    requires IsGraphOf(g, dests)
    ensures fresh(run) && run.pool.TargetsInRange()
    // Whatever the middlewares do: at most one `encodeStream` per node, and only where a leaf is active.
    ensures Distinct(run.ran) && forall q | q in run.ran :: OnTrie(q, g.leaves) && HasActive(g.leaves, q, active)
    ensures r.Done? ==> Faithful(targets, run.pool, env, dests, active, source, key) && forall t :: t in targets <==> t in run.pool.targets
    // The reader's side is the source, and the tree leaves it alone.
    ensures r.Done? ==> read < |run.pool.ends| && run.pool.ends[read].data == source && (splitRead ==> run.pool.IsLive(read))
    // A failure leaves no readable end behind, but for those that a downstream nobody waits for makes only afterwards.
    ensures r.Threw? ==> Released(run.pool, env, outlives)
    ensures r.Threw? && NoneDetachesOn(env, g.leaves) ==> NoneReadable(run.pool)
    // A success, when no failure was kept quiet, is complete.
    ensures r.Done? && ((onNodeError.None? && ForwardsOn(env, g.leaves)) || (WellBehavedOn(env, g.leaves) && !aborted)) ==>
              && (forall l | l in g.leaves && l in active :: exists t :: t in targets && t.leaf == l)
              && (forall q :: q in run.ran <==> OnTrie(q, g.leaves) && HasActive(g.leaves, q, active))
    ensures WellBehavedOn(env, g.leaves) && !aborted ==> r.Done? && !run.aborted
    // and no stream end it made is left unread, but for the reader's. In general, none is left where no fault comes up, and one is left where a
    // middleware whose downstream could not start keeps quiet about that.
    ensures WellBehavedOn(env, g.leaves) && !aborted ==> Calm(env, run.visits)
    ensures r.Done? && Calm(env, run.visits) && HasActive(g.leaves, [], active) ==> !SomeUnread(run.pool, splitRead, read)
    ensures r.Done? && SomeQuiet(env, run.visits) ==> SomeUnread(run.pool, splitRead, read)
    // Fail-close, exactly: without an abort and without `onNodeError`, it fails with a contract error iff some middleware broke the contract
    // and neither it nor one above it abandons its `next()`.
    ensures onNodeError.None? && !run.aborted ==> ((r.Threw? && r.fault.Contract?) <==> Heard(env, 1, Breakers(env, run.visits)))
    ensures onNodeError.None? && NoneAbandonsOn(env, g.leaves) && Breakers(env, run.visits) != {} ==> run.aborted || (r.Threw? && r.fault.Contract?)
    // `run.visits` is what happened at the nodes that ran: it fits the middlewares, and from the root down each `next()` came to what the
    // nodes below it came to. At the root `onNodeError` may let faults pass.
    ensures Logged(run.pool.Seen(), run.ran, run.visits, env, g.leaves, Spot([], 0, false, source, key), active, ActiveNodes(g.leaves, active), run.aborted)
    ensures AllEnded(Request(env, g.leaves, active, onNodeError, pipesAnyway), run.visits)
    ensures var pardoned := iset fault: Fault | onNodeError.Some? && onNodeError.value(fault);
            Below(run.pool.Seen(), run.visits, [], r, run.aborted, pardoned, active, ActiveNodes(g.leaves, active), g.leaves)
    // Where `onNodeError` accepts every fault and nobody breaks the contract, a failing node costs only the leaves below it: those that get a
    // target are the active ones that have only nodes above them that let their downstream start.
    ensures CompliantOn(env, g.leaves) ==> Breakers(env, run.visits) == {}
    ensures TakesAll(onNodeError) && !run.aborted && Breakers(env, run.visits) == {} ==>
              r.Done? && forall l: Leaf | l in active && l in g.leaves :: (exists t :: t in targets && t.leaf == l) <==> WayOpen(env, l.path)
    // Then an end it made, not the reader's, is left unread if and only if `mapKey` fails at a node that all above let the walk get to, and the
    // middleware there keeps quiet about it.
    ensures TakesAll(onNodeError) && !run.aborted && Breakers(env, run.visits) == {} && HasActive(g.leaves, [], active) ==>
              (SomeUnread(run.pool, splitRead, read) <==> exists l, k :: l in active && l in g.leaves && QuietAt(env, l.path, k))
    // So a middleware that breaks the rules, where the walk gets to it and nobody above abandons it, fails the operation.
    ensures onNodeError.None? && NeverAbortsOn(env, g.leaves) && !aborted && SureBreach(env, g.leaves, ActiveNodes(g.leaves, active)) ==>
              r.Threw? && r.fault.Contract?
    // What it gets to even when it fails later.
    ensures NeverAbortsOn(env, g.leaves) && !aborted ==> !run.aborted
    ensures run.aborted && !aborted ==> SomeAborts(run.ran, env)
    ensures Gets(run.pool.Seen(), run.ran, run.visits, env, g.leaves, active, aborted)
  {
    hide AreEntries, EachChainAlone, WellBehavedOn, ForwardsOn, NoneAbandonsOn, NoneDetachesOn, NeverAbortsOn, OnTrie, HasActive, Pool.Valid, Grows,
      Promised, Branches, Faithful, Reaches, Heard, SureBreach, Gets, Pool.MadeLate, Pool.Seen, Logged, AllEnded, Below,
      Breakers, ActiveNodes, SomeAborts, Reads, Left, Calm, SomeQuiet, OneFaithful, CompliantOn, TakesAll, WayOpen, QuietAt,
      Pool.CancelStreams, SortBy;
    var q := Request(env, g.leaves, active, onNodeError, pipesAnyway);
    var pool := Source(source);
    var rootInput := 0;
    read := 0;
    SourceValid(source, g.leaves);
    if splitRead {
      TeeKeeps(pool, 0, [], g.leaves);
      pool := pool.Tee(0, []);
      rootInput, read := 1, 2;
    }
    run := new StreamRun(q, pool, aborted);
    InRange(pool, g.leaves);
    ghost var ts, qs, vs := [], [], map[];
    r := Done;
    AnyBranch(g.entries, [], g.leaves, active);
    LeavesAscend(dests);
    if Branches(g.entries, active) > 0 {
      r, ts, qs, vs := run.Each(g.entries, [], rootInput, source, key, true);
    } else {
      GrowsNot(pool, rootInput);
      NothingCalm(env);
      NothingActive(q, dests, source, key, onNodeError.None?, aborted);
    }
    assert run.ran == qs && run.pool.Seen() == ts && run.visits == vs;
    OthersKept(pool, run.pool, rootInput, 0);
    OthersKept(pool, run.pool, rootInput, read);
    targets := SortBy(run.pool.targets, ByLeafOf);
    RootDone(r, ts, qs, vs, q, dests, source, key, onNodeError.None?, aborted, run.aborted);
    RootPardoned(q);
    LeftByOthers(pool, run.pool, vs, env, read, splitRead);
    TargetsFaithful(targets, run.pool, ts, env, dests, active, source, key);
    TargetsReach(targets, run.pool, active, g.leaves);
    if r.Threw? {
      Cancelled(run.pool, env, outlives, g.leaves);
      CancelledSeen(run.pool, env, outlives, g.leaves);
      run.pool := run.pool.CancelStreams(env, outlives);
    }
  }

  lemma LeftByOthers(a: Pool, b: Pool, visits: VisitLog, env: Env, read: nat, splitRead: bool)
    requires read < |a.ends| && (SomeQuiet(env, visits) ==> Left(|a.ends|, b))
    ensures SomeQuiet(env, visits) ==> SomeUnread(b, splitRead, read)
  {
  }

  lemma CancelledSeen(pool: Pool, env: Env, outlives: nat -> bool, ls: seq<Leaf>)
    requires pool.Valid(ls)
    ensures pool.TargetsInRange() && pool.CancelStreams(env, outlives).TargetsInRange() && pool.CancelStreams(env, outlives).Seen() == pool.Seen()
  {
  }

  lemma TargetsReach(targets: seq<StreamTarget>, pool: Pool, active: set<Leaf>, ls: seq<Leaf>)
    requires pool.TargetsInRange() && targets == SortBy(pool.targets, ByLeafOf)
    ensures forall t :: t in targets <==> t in pool.targets
    ensures forall l: Leaf | l in active && l in ls :: Reaches(pool.Seen(), l) <==> exists t :: t in targets && t.leaf == l
  {
    hide Pool.Seen, Reaches;
    forall l: Leaf | l in active && l in ls ensures Reaches(pool.Seen(), l) <==> exists t :: t in targets && t.leaf == l { SeenOf(pool, l); }
  }

  lemma SeenOf(pool: Pool, l: Leaf)
    requires pool.TargetsInRange()
    ensures Reaches(pool.Seen(), l) <==> exists t :: t in pool.targets && t.leaf == l
  {
    var seen := pool.Seen();
    if t :| t in seen && t.leaf == l {
      var i :| 0 <= i < |seen| && seen[i] == t;
      assert pool.targets[i] in pool.targets;
    }
    if t :| t in pool.targets && t.leaf == l {
      var i :| 0 <= i < |pool.targets| && pool.targets[i] == t;
      assert seen[i] in seen;
    }
  }

  lemma RootPardoned(q: Request)
    ensures Pardoned(q, q.onNodeError.None?) == iset fault: Fault | q.onNodeError.Some? && q.onNodeError.value(fault)
  {
  }

  lemma SourceValid(data: Data, ls: seq<Leaf>)
    ensures Source(data).Valid(ls) && Source(data).TargetsInRange() && Source(data).Seen() == []
  {
  }

  /** Where releasing all ends fails: for every graph and every active leaf that has a node below another on its path, if that other node's
      middleware does not wait for its `next()` and the downstream is slow, the failure of `buildEncodeTree` leaves a readable end behind. */
  method LooseEnd(g: Graph, ghost dests: seq<Destination>, tr: Env, key: Key, source: Data, active: set<Leaf>, pipesAnyway: seq<Mw> -> bool,
                  splitRead: bool, l: Leaf, k: nat)
    returns (r: Exit, run: StreamRun)
    requires IsGraphOf(g, dests) && l in g.leaves && l in active && 0 < k < |l.path|
    ensures r.Threw? && exists j | 0 <= j < |run.pool.ends| :: run.pool.ends[j].Readable()
  {
    hide IsGraphOf, OnTrie, Heard, Clear, Hasty, NeverAbortsOn, NoneAbandonsOn, NoneDetachesOn, ForwardsOn, WellBehavedOn, Faithful, Near, CompliantAt,
      Pool.MadeLate, ActiveUnder, Logged, Below, AllEnded, Breakers, HeardAt;
    var env := Hasty(tr, l.path, k);
    var targets, read;
    r, targets, read, run := BuildEncodeTree(g, dests, env, false, key, source, active, None, pipesAnyway, splitRead, _ => true);
    HastyReached(tr, g.leaves, l, k);
    ActiveBelow(l, g.leaves, k, active);
    SeenOf(run.pool, l);
    var t :| t in run.pool.targets && t.leaf == l;
    NearIsLate(run.pool, env, _ => true, t.end, l.path, k);
  }

  /** All nodes are plain but this one: its `mapKey` fails, and its middleware swallows that. */
  function Swallowing(tr: Env, x: seq<Mw>): Env {
    AllPlainBut(tr, x, Calls(false, true, Awaited(Swallow), false, false, Returns), [], Plain).(
    mapKeyFault := (y: seq<Mw>) => if y == x then Some(Failed(0)) else None)
  }

  /** Where a success leaves an end unread: for every graph and every node on the path of an active leaf, if `mapKey` fails there and the
      middleware swallows that, although everything `onNodeError` is asked about is accepted. */
  method QuietEnd(g: Graph, ghost dests: seq<Destination>, tr: Env, key: Key, source: Data, active: set<Leaf>, pipesAnyway: seq<Mw> -> bool,
                  splitRead: bool, l: Leaf, k: nat)
    returns (r: Exit, targets: seq<StreamTarget>, read: nat, run: StreamRun)
    requires IsGraphOf(g, dests) && l in g.leaves && l in active && 0 < k <= |l.path|
    ensures r.Done? && (forall t | t in targets :: t.leaf != l) && SomeUnread(run.pool, splitRead, read)
  {
    hide IsGraphOf, OnTrie, Heard, Clear, NeverAbortsOn, NoneAbandonsOn, NoneDetachesOn, ForwardsOn, WellBehavedOn, Faithful, Near, CompliantOn,
      Pool.MadeLate, HasActive, Logged, Below, AllEnded, Breakers, Calm, SomeQuiet, QuietAt, SureBreach, SomeAborts, Gets, WayOpen;
    var env := Swallowing(tr, l.path[..k]);
    SwallowingTells(tr, g.leaves, l.path, k);
    ActiveBelow(l, g.leaves, 0, active);
    r, targets, read, run := BuildEncodeTree(g, dests, env, false, key, source, active, Some(_ => true), pipesAnyway, splitRead, _ => true);
  }

  lemma SwallowingTells(tr: Env, ls: seq<Leaf>, path: seq<Mw>, k: nat)
    requires 0 < k <= |path|
    ensures var env := Swallowing(tr, path[..k]);
            NeverAbortsOn(env, ls) && CompliantOn(env, ls) && QuietAt(env, path, k) && !WayOpen(env, path)
  {
    var above := path[..k - 1];
    forall i | 0 < i <= |above| ensures above[..i] != path[..k] { assert |above[..i]| == i; }
  }

  lemma ActiveBelow(l: Leaf, ls: seq<Leaf>, k: nat, active: set<Leaf>)
    requires l in ls && l in active && k <= |l.path|
    ensures HasActive(ls, l.path[..k], active)
  {
    assert ActiveUnder(l, ls, l.path[..k], active);
  }

  lemma NearIsLate(pool: Pool, env: Env, outlives: nat -> bool, j: nat, path: seq<Mw>, k: nat)
    requires j < |pool.ends| && Near(pool.ends[j].made, path) && 0 < k < |path| && env.behave(path[..k]).Detaches() && outlives(j)
    ensures pool.MadeLate(env, outlives, j)
  {
    assert pool.ends[j].made[..k] == path[..k];
  }

  /** Where fail-close fails: the node `l.path[..k]` abandons its `next()`, and the breach of the node below is not heard. */
  method UnheardBreach(g: Graph, ghost dests: seq<Destination>, tr: Env, key: Key, source: Data, active: set<Leaf>, pipesAnyway: seq<Mw> -> bool,
                       splitRead: bool, l: Leaf, k: nat)
    returns (r: Exit, run: StreamRun)
    requires IsGraphOf(g, dests) && l in g.leaves && l in active && 0 < k < |l.path|
    ensures l.path[..k + 1] in Breakers(Abandoned(tr, l.path, k), run.visits) && !run.aborted && !(r.Threw? && r.fault.Contract?)
  {
    hide IsGraphOf, OnTrie, Heard, HeardAt, Clear, Abandoned, CompliantAt, NeverAbortsOn, Faithful, Near, Pool.MadeLate, Logged, Below, AllEnded, Breakers;
    var env := Abandoned(tr, l.path, k);
    var targets, read;
    r, targets, read, run := BuildEncodeTree(g, dests, env, false, key, source, active, None, pipesAnyway, splitRead, _ => false);
    CompliantNotBroken(run.pool.Seen(), run.ran, run.visits, env, g.leaves, Spot([], 0, false, source, key), active, ActiveNodes(g.leaves, active), run.aborted);
    AbandonedUnheard(tr, g.leaves, l, k, Breakers(env, run.visits));
    ActiveBelow(l, g.leaves, k + 1, active);
  }
}
