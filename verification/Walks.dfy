/** The common ledger of the walks over the trie (`encode` and `repair`): which leaves were reached with what, and which nodes ran. */
module Walks {
  import opened Sequences
  import opened PipelineTrie
  import opened Options
  import opened Middlewares
  import opened ContractCheck

  datatype Target = Target(leaf: Leaf, data: Data, key: Key)

  /** What leaf `l` gets when `data` and `key` enter its path at position `from`. */
  function TargetFor(env: Env, l: Leaf, from: nat, data: Data, key: Key): Target
    requires from <= |l.path|
  {
    Target(l, EncodeAlong(env, l.path[from..], data), KeyAlong(env, l.path[from..], key))
  }

  /** Where a walk stands: the position `p` in the trie, the position `from` in the paths where `data` and `key` enter, and
      whether the node of `p` itself is still to run. */
  datatype Spot = Spot(p: seq<Mw>, from: nat, at: bool, data: Data, key: Key)
  {
    function Below(n: Node): Spot {
      Spot(p + [n.mw], from, true, data, key)
    }

    ghost predicate Owns(q: seq<Mw>) {
      p <= q && (q == p ==> at)
    }
  }

  ghost predicate Reaches(ts: seq<Target>, l: Leaf) {
    exists t :: t in ts && t.leaf == l
  }

  /** `ts` are targets of wanted leaves at or below `s.p`, no leaf twice, each with what its own chain gives; `ran` are nodes of
      `nodes` there, no node twice. */
  ghost predicate Sound(ts: seq<Target>, ran: seq<seq<Mw>>, env: Env, ls: seq<Leaf>, s: Spot, want: set<Leaf>, nodes: iset<seq<Mw>>)
    requires s.from <= |s.p|
  {
    && (forall t | t in ts ::
          t.leaf in want && t.leaf in ls && s.p <= t.leaf.path && t == TargetFor(env, t.leaf, s.from, s.data, s.key))
    && (forall i, j | 0 <= i < j < |ts| :: ts[i].leaf != ts[j].leaf)
    && Distinct(ran)
    && (forall q | q in ran :: q in nodes && OnTrie(q, ls) && s.Owns(q))
  }

  /** No wanted leaf and none of the `nodes` is missing. */
  ghost predicate Full(ts: seq<Target>, ran: seq<seq<Mw>>, ls: seq<Leaf>, s: Spot, want: set<Leaf>, nodes: iset<seq<Mw>>) {
    && (forall l | l in want && l in ls && s.p <= l.path :: Reaches(ts, l))
    && (forall q | q in nodes && OnTrie(q, ls) && s.Owns(q) :: q in ran)
  }

  /** As `Sound`, in a loop over the entries `es` of `s.p` that has done `es[..i]`. */
  ghost predicate SoundTo(ts: seq<Target>, ran: seq<seq<Mw>>, env: Env, ls: seq<Leaf>, s: Spot, want: set<Leaf>, nodes: iset<seq<Mw>>,
                          es: seq<Entry>, i: nat)
    requires s.from <= |s.p| && i <= |es|
  {
    && Sound(ts, ran, env, ls, s, want, nodes)
    && (forall t | t in ts :: exists k :: 0 <= k < i && Covers(es[k], s.p, t.leaf))
    && (forall q | q in ran :: exists k :: 0 <= k < i && es[k].NodeEntry? && s.p + [es[k].node.mw] <= q)
  }

  ghost predicate FullTo(ts: seq<Target>, ran: seq<seq<Mw>>, ls: seq<Leaf>, s: Spot, want: set<Leaf>, nodes: iset<seq<Mw>>,
                         es: seq<Entry>, i: nat)
    requires i <= |es|
  {
    && (forall l, k | l in want && l in ls && 0 <= k < i && Covers(es[k], s.p, l) && s.p <= l.path :: Reaches(ts, l))
    && (forall q, k | q in nodes && OnTrie(q, ls) && 0 <= k < i && es[k].NodeEntry? && s.p + [es[k].node.mw] <= q :: q in ran)
  }

  lemma EntryIsNode(es: seq<Entry>, p: seq<Mw>, ls: seq<Leaf>, i: nat)
    requires AreEntries(es, p, ls) && i < |es| && es[i].NodeEntry?
    ensures IsNode(es[i].node, p + [es[i].node.mw], ls)
  {
    assert IsEntry(es[i], p, ls);
  }

  lemma EntryIsLeaf(es: seq<Entry>, p: seq<Mw>, ls: seq<Leaf>, i: nat)
    requires AreEntries(es, p, ls) && i < |es| && es[i].LeafEntry?
    ensures es[i].leaf in ls && es[i].leaf.path == p
  {
    assert IsEntry(es[i], p, ls);
  }

  lemma NodesDiffer(es: seq<Entry>, p: seq<Mw>, ls: seq<Leaf>, i: nat, k: nat)
    requires AreEntries(es, p, ls) && i < k < |es| && es[i].NodeEntry? && es[k].NodeEntry?
    ensures es[i].node.mw != es[k].node.mw
  {
    EntryIsNode(es, p, ls, i);
    EntryIsNode(es, p, ls, k);
    assert Order(es[i]) < Order(es[k]);
  }

  /** A leaf entry that is wanted adds its own target. */
  lemma SoundLeaf(ts: seq<Target>, ran: seq<seq<Mw>>, env: Env, ls: seq<Leaf>, s: Spot, want: set<Leaf>, nodes: iset<seq<Mw>>,
                  es: seq<Entry>, i: nat)
    requires s.from == |s.p| && AreEntries(es, s.p, ls) && i < |es| && es[i].LeafEntry? && es[i].leaf in want
    requires SoundTo(ts, ran, env, ls, s, want, nodes, es, i)
    ensures SoundTo(ts + [Target(es[i].leaf, s.data, s.key)], ran, env, ls, s, want, nodes, es, i + 1)
  {
    var l := es[i].leaf;
    EntryIsLeaf(es, s.p, ls, i);
    assert l.path[s.from..] == [];
    assert Target(l, s.data, s.key) == TargetFor(env, l, s.from, s.data, s.key);
    forall t | t in ts ensures t.leaf != l {
      var k :| 0 <= k < i && Covers(es[k], s.p, t.leaf);
      assert k != i;
    }
  }

  lemma FullLeaf(ts: seq<Target>, ran: seq<seq<Mw>>, ls: seq<Leaf>, s: Spot, want: set<Leaf>, nodes: iset<seq<Mw>>,
                 es: seq<Entry>, i: nat, more: seq<Target>)
    requires i < |es| && es[i].LeafEntry? && FullTo(ts, ran, ls, s, want, nodes, es, i)
    requires es[i].leaf in want ==> Reaches(more, es[i].leaf)
    ensures FullTo(ts + more, ran, ls, s, want, nodes, es, i + 1)
  {
    forall l, k | l in want && l in ls && 0 <= k < i + 1 && Covers(es[k], s.p, l) && s.p <= l.path
      ensures Reaches(ts + more, l)
    {
      var t :| t in (if k < i then ts else more) && t.leaf == l;
      assert t in ts + more;
    }
  }

  /** The targets and nodes of an entry not yet walked are new. */
  lemma SoundNode(ts: seq<Target>, ran: seq<seq<Mw>>, more: seq<Target>, moreRan: seq<seq<Mw>>, env: Env, ls: seq<Leaf>, s: Spot,
                  want: set<Leaf>, nodes: iset<seq<Mw>>, es: seq<Entry>, i: nat)
    requires s.from <= |s.p| && AreEntries(es, s.p, ls) && i < |es| && es[i].NodeEntry?
    requires SoundTo(ts, ran, env, ls, s, want, nodes, es, i)
    requires Sound(more, moreRan, env, ls, s.Below(es[i].node), want, nodes)
    ensures SoundTo(ts + more, ran + moreRan, env, ls, s, want, nodes, es, i + 1)
  {
    var q := s.p + [es[i].node.mw];
    forall t, u | t in ts && u in more ensures t.leaf != u.leaf {
      var k :| 0 <= k < i && Covers(es[k], s.p, t.leaf);
      assert Covers(es[i], s.p, u.leaf);
      assert t.leaf == u.leaf ==> k == i by { if t.leaf == u.leaf { CoveredOnce(es, s.p, ls, t.leaf, k, i); } }
    }
    forall a, b | 0 <= a < b < |ts + more| ensures (ts + more)[a].leaf != (ts + more)[b].leaf {
      if a < |ts| <= b { assert ts[a] in ts && more[b - |ts|] in more; }
    }
    forall x, y | x in ran && y in moreRan ensures x != y {
      var k :| 0 <= k < i && es[k].NodeEntry? && s.p + [es[k].node.mw] <= x;
      NodesDiffer(es, s.p, ls, k, i);
      assert x[|s.p|] == (s.p + [es[k].node.mw])[|s.p|] && y[|s.p|] == q[|s.p|];
    }
    forall a, b | 0 <= a < b < |ran + moreRan| ensures (ran + moreRan)[a] != (ran + moreRan)[b] {
      if a < |ran| <= b { assert ran[a] in ran && moreRan[b - |ran|] in moreRan; }
    }
    forall x | x in moreRan ensures s.p <= x && x != s.p { assert s.p <= q <= x; }
    forall t | t in more ensures s.p <= t.leaf.path && Covers(es[i], s.p, t.leaf) { assert s.p <= q <= t.leaf.path; }
  }

  lemma FullNode(ts: seq<Target>, ran: seq<seq<Mw>>, more: seq<Target>, moreRan: seq<seq<Mw>>, ls: seq<Leaf>, s: Spot,
                 want: set<Leaf>, nodes: iset<seq<Mw>>, es: seq<Entry>, i: nat)
    requires i < |es| && es[i].NodeEntry? && FullTo(ts, ran, ls, s, want, nodes, es, i)
    requires Full(more, moreRan, ls, s.Below(es[i].node), want, nodes)
    ensures FullTo(ts + more, ran + moreRan, ls, s, want, nodes, es, i + 1)
  {
    forall l, k | l in want && l in ls && 0 <= k < i + 1 && Covers(es[k], s.p, l) && s.p <= l.path
      ensures Reaches(ts + more, l)
    {
      assert k == i ==> Reaches(more, l);
      var t :| t in (if k < i then ts else more) && t.leaf == l;
      assert t in ts + more;
    }
  }

  /** An entry with nothing wanted below it may be skipped. */
  lemma Skipped(ts: seq<Target>, ran: seq<seq<Mw>>, env: Env, ls: seq<Leaf>, s: Spot, want: set<Leaf>, nodes: iset<seq<Mw>>,
                es: seq<Entry>, i: nat)
    requires s.from <= |s.p| && i < |es|
    requires forall l | l in want && l in ls && s.p <= l.path :: !Covers(es[i], s.p, l)
    requires forall q | q in nodes && OnTrie(q, ls) :: !(es[i].NodeEntry? && s.p + [es[i].node.mw] <= q)
    ensures SoundTo(ts, ran, env, ls, s, want, nodes, es, i) ==> SoundTo(ts, ran, env, ls, s, want, nodes, es, i + 1)
    ensures FullTo(ts, ran, ls, s, want, nodes, es, i) ==> FullTo(ts, ran, ls, s, want, nodes, es, i + 1)
  {
    if SoundTo(ts, ran, env, ls, s, want, nodes, es, i) {
      forall t | t in ts ensures exists k :: 0 <= k < i + 1 && Covers(es[k], s.p, t.leaf) { }
      forall q | q in ran ensures exists k :: 0 <= k < i + 1 && es[k].NodeEntry? && s.p + [es[k].node.mw] <= q { }
    }
  }

  lemma FullAll(ts: seq<Target>, ran: seq<seq<Mw>>, ls: seq<Leaf>, s: Spot, want: set<Leaf>, nodes: iset<seq<Mw>>, es: seq<Entry>)
    requires AreEntries(es, s.p, ls) && !s.at && FullTo(ts, ran, ls, s, want, nodes, es, |es|)
    ensures Full(ts, ran, ls, s, want, nodes)
  {
    forall l | l in want && l in ls && s.p <= l.path ensures Reaches(ts, l) {
      var k :| 0 <= k < |es| && Covers(es[k], s.p, l);
    }
    forall q | q in nodes && OnTrie(q, ls) && s.Owns(q) ensures q in ran {
      var l :| l in ls && q <= l.path;
      var k :| 0 <= k < |es| && Covers(es[k], s.p, l);
      assert IsEntry(es[k], s.p, ls);
      assert s.p + [es[k].node.mw] <= q;
    }
  }

  lemma NodeOnTrie(n: Node, p: seq<Mw>, ls: seq<Leaf>)
    requires IsNode(n, p, ls)
    ensures OnTrie(p, ls) && p != [] && p[|p| - 1] == n.mw && AreEntries(n.entries, p, ls)
  {
    assert n.allLeaves[0] in n.allLeaves;
  }

  /** Running the node of `p` and then its entries is one walk at `p`. */
  lemma SoundRan(ts: seq<Target>, ran: seq<seq<Mw>>, env: Env, ls: seq<Leaf>, n: Node, p: seq<Mw>, data: Data, key: Key,
                 want: set<Leaf>, nodes: iset<seq<Mw>>)
    requires IsNode(n, p, ls) && p in nodes
    requires Sound(ts, ran, env, ls, Spot(p, |p|, false, env.encode(n.mw, data), env.mapKey(n.mw, key)), want, nodes)
    ensures Sound(ts, [p] + ran, env, ls, Spot(p, |p| - 1, true, data, key), want, nodes)
  {
    hide IsNode, OnTrie, EncodeAlong, KeyAlong;
    NodeOnTrie(n, p, ls);
    forall t | t in ts ensures t == TargetFor(env, t.leaf, |p| - 1, data, key) {
      TargetAbove(env, t.leaf, n.mw, p, data, key);
    }
    DistinctFirst(p, ran);
  }

  /** Entering a path one node earlier. */
  lemma TargetAbove(env: Env, l: Leaf, m: Mw, p: seq<Mw>, data: Data, key: Key)
    requires p != [] && p[|p| - 1] == m && p <= l.path
    ensures TargetFor(env, l, |p| - 1, data, key) == TargetFor(env, l, |p|, env.encode(m, data), env.mapKey(m, key))
  {
    var tail := l.path[|p| - 1..];
    assert tail[0] == l.path[|p| - 1] == p[|p| - 1] && tail[1..] == l.path[|p|..];
  }

  /** A node whose middleware never starts its downstream. */
  lemma SoundAlone(env: Env, ls: seq<Leaf>, n: Node, p: seq<Mw>, data: Data, key: Key, want: set<Leaf>, nodes: iset<seq<Mw>>)
    requires IsNode(n, p, ls) && p in nodes
    ensures Sound([], [p], env, ls, Spot(p, |p| - 1, true, data, key), want, nodes)
  {
    NodeOnTrie(n, p, ls);
  }

  lemma FullRan(ts: seq<Target>, ran: seq<seq<Mw>>, env: Env, ls: seq<Leaf>, n: Node, p: seq<Mw>, data: Data, key: Key,
                want: set<Leaf>, nodes: iset<seq<Mw>>)
    requires p != []
    requires Full(ts, ran, ls, Spot(p, |p|, false, env.encode(n.mw, data), env.mapKey(n.mw, key)), want, nodes)
    ensures Full(ts, [p] + ran, ls, Spot(p, |p| - 1, true, data, key), want, nodes)
  {
    assert p in [p] + ran;
  }

  /** The result of encoding each destination's chain on its own, in registration order. */
  function EachChainAlone(env: Env, dests: seq<Destination>, data: Data, key: Key): (r: seq<Target>)
    ensures |r| == |dests|
  {
    seq(|dests|, j requires 0 <= j < |dests| =>
      Target(LeafOf(dests, j), EncodeAlong(env, dests[j].middlewares, data), KeyAlong(env, dests[j].middlewares, key)))
  }

  const ByLeaf: Target -> int := (t: Target) => t.leaf.index

  lemma SoundOrders(ts: seq<Target>, ran: seq<seq<Mw>>, env: Env, dests: seq<Destination>, data: Data, key: Key,
                    want: set<Leaf>, nodes: iset<seq<Mw>>)
    requires Sound(ts, ran, env, LeavesOf(dests), Spot([], 0, false, data, key), want, nodes)
    ensures Ascending(SortBy(ts, ByLeaf), ByLeaf)
    ensures forall t | t in ts :: t.leaf.index < |dests| && t == EachChainAlone(env, dests, data, key)[t.leaf.index]
  {
    forall t | t in ts ensures t.leaf.index < |dests| && t == EachChainAlone(env, dests, data, key)[t.leaf.index] {
      LeafByIndex(dests, t.leaf);
      assert t.leaf.path[0..] == t.leaf.path;
    }
    forall i, j | 0 <= i < j < |ts| ensures ByLeaf(ts[i]) != ByLeaf(ts[j]) {
      assert ts[i] in ts && ts[j] in ts;
      LeafByIndex(dests, ts[i].leaf);
      LeafByIndex(dests, ts[j].leaf);
    }
    SortAscending(ts, ByLeaf);
  }

  /** A breach at node `x` is told to whoever walks down to it from depth `from` on: no node in between, nor `x` itself, abandons its
      `next()`. */
  ghost predicate HeardAt(env: Env, from: nat, x: seq<Mw>) {
    from <= |x| && forall i | from <= i <= |x| :: !env.behave(x[..i]).Abandons()
  }

  ghost predicate Heard(env: Env, from: nat, broken: set<seq<Mw>>) {
    exists x :: x in broken && HeardAt(env, from, x)
  }

  /** The nodes of the spot start at this depth. */
  function Depth(s: Spot): nat {
    |s.p| + if s.at then 0 else 1
  }

  /** What happened at the nodes that ran. */
  type VisitLog = map<seq<Mw>, Visit>

  /** The nodes that broke the contract. */
  ghost function Breakers(env: Env, visits: VisitLog): set<seq<Mw>> {
    set x | x in visits && Broke(env.behave(x), visits[x])
  }

  predicate IsChild(c: seq<Mw>, p: seq<Mw>) {
    |c| == |p| + 1 && p <= c
  }

  /** Some leaf at or below `c` is registered before position `cut`. */
  ghost predicate Passed(ls: seq<Leaf>, c: seq<Mw>, cut: int) {
    exists l :: l in ls && c <= l.path && l.index < cut
  }

  /** `next` is what the loop over the entries of `p` came to. It went through the entries in registration order up to some position. */
  ghost predicate Below(ts: seq<Target>, visits: VisitLog, p: seq<Mw>, next: Exit, aborted: bool, pardoned: iset<Fault>, want: set<Leaf>,
                        nodes: iset<seq<Mw>>, ls: seq<Leaf>) {
    exists cut: nat :: WentTo(ts, visits, p, next, aborted, pardoned, want, nodes, ls, cut)
  }

  /** Before position `cut` every wanted leaf was reached and every node it is about ran, and none after it. None but the one that the loop
      failed with came to a bad end, but for pardoned faults. The loop is done when it went through all; otherwise it threw what the child it
      stopped at threw, or the abort if the signal is aborted. */
  ghost predicate WentTo(ts: seq<Target>, visits: VisitLog, p: seq<Mw>, next: Exit, aborted: bool, pardoned: iset<Fault>, want: set<Leaf>,
                         nodes: iset<seq<Mw>>, ls: seq<Leaf>, cut: nat) {
    && (forall l: Leaf | l in want && l in ls && l.path == p :: Reaches(ts, l) <==> l.index < cut)
    && (forall c | IsChild(c, p) && c in visits ::
          Passed(ls, c, cut) && (visits[c].exit == next || visits[c].exit.Done? || visits[c].exit.fault in pardoned))
    && (forall c | IsChild(c, p) && c in nodes && OnTrie(c, ls) && Passed(ls, c, cut) ::
          c in visits || (aborted && (next == Threw(Aborted) || Aborted in pardoned)))
    && (next.Done? ==> (forall l: Leaf | l in ls && l.path == p :: l.index < cut) && forall c | IsChild(c, p) && OnTrie(c, ls) :: Passed(ls, c, cut))
    && (next.Threw? && !(aborted && next.fault == Aborted) ==> next.fault !in pardoned && exists c :: Stopped(visits, p, next, ls, cut, c))
  }

  /** The loop stopped at the child `c`. */
  ghost predicate Stopped(visits: VisitLog, p: seq<Mw>, next: Exit, ls: seq<Leaf>, cut: nat, c: seq<Mw>) {
    IsChild(c, p) && c in visits && visits[c].exit == next && !Passed(ls, c, cut - 1)
  }

  /** The loop below `x` was started. */
  ghost predicate Rooted(visits: VisitLog, x: seq<Mw>, s: Spot) {
    (x == s.p && !s.at) || (x in visits && visits[x].started)
  }

  ghost predicate VisitOk(visits: VisitLog, x: seq<Mw>, env: Env, ls: seq<Leaf>, s: Spot, aborted: bool)
    requires x in visits
  {
    && OnTrie(x, ls) && s.Owns(x) && Begun(env.behave(x), env.mapKeyFault(x), visits[x]) && (visits[x].after ==> aborted)
    && (x != s.p ==> Rooted(visits, x[..|x| - 1], s))
  }

  ghost predicate TargetOk(visits: VisitLog, t: Target, s: Spot) {
    s.p <= t.leaf.path && Rooted(visits, t.leaf.path, s)
  }

  /** The visits recorded are those of the nodes that ran, and they fit together: nodes are run and leaves reached only by loops that were
      started, and each loop came to what is below it. */
  ghost predicate Logged(ts: seq<Target>, ran: seq<seq<Mw>>, visits: VisitLog, env: Env, ls: seq<Leaf>, s: Spot, want: set<Leaf>,
                         nodes: iset<seq<Mw>>, aborted: bool) {
    && (forall x :: x in visits <==> x in ran)
    && (forall x | x in visits :: VisitOk(visits, x, env, ls, s, aborted))
    && (forall x | x in visits && visits[x].started :: Below(ts, visits, x, visits[x].next, visits[x].mid, iset{}, want, nodes, ls))
    && (forall t | t in ts :: TargetOk(visits, t, s))
  }

  /** What happened, and whether anybody heard of the breaches. `pardoned`: faults that the root of a stream walk lets pass. `fair`: without
      an abort, the walk ends in a contract error exactly when some breach is heard. */
  ghost predicate Audited(r: Exit, ts: seq<Target>, ran: seq<seq<Mw>>, visits: VisitLog, env: Env, ls: seq<Leaf>, s: Spot, want: set<Leaf>,
                          nodes: iset<seq<Mw>>, pardoned: iset<Fault>, fair: bool, aborted: bool) {
    && Logged(ts, ran, visits, env, ls, s, want, nodes, aborted)
    && (if !s.at then Below(ts, visits, s.p, r, aborted, pardoned, want, nodes, ls)
        else if s.p in visits then visits[s.p].exit == r
        else visits == map[] && ts == [] && (r.Done? || (aborted && r == Threw(Aborted))) && (s.p in nodes ==> r.Threw?))
    && (fair && !aborted ==> ((r.Threw? && r.fault.Contract?) <==> Heard(env, Depth(s), Breakers(env, visits))))
  }

  /** Where a loop over the entries `es` of `p` stands that has done `es[..i]`; `next` is what it comes to if it stops there. */
  ghost predicate WentThrough(ts: seq<Target>, visits: VisitLog, p: seq<Mw>, next: Exit, aborted: bool, pardoned: iset<Fault>, want: set<Leaf>,
                              nodes: iset<seq<Mw>>, es: seq<Entry>, i: nat)
    requires i <= |es|
  {
    && (forall k | 0 <= k < |es| && es[k].LeafEntry? && es[k].leaf in want :: Reaches(ts, es[k].leaf) <==> k < i)
    && (forall c | IsChild(c, p) && c in visits ::
          && (visits[c].exit == next || visits[c].exit.Done? || visits[c].exit.fault in pardoned)
          && exists k :: 0 <= k < i && OnWay(es[k], p, c))
    && (forall k | 0 <= k < i && es[k].NodeEntry? && p + [es[k].node.mw] in nodes ::
          p + [es[k].node.mw] in visits || (aborted && (next == Threw(Aborted) || Aborted in pardoned)))
  }

  /** As `Audited`, in a loop over the entries `es` of `s.p` that has done `es[..i]`. */
  ghost predicate AuditedTo(ts: seq<Target>, ran: seq<seq<Mw>>, visits: VisitLog, env: Env, ls: seq<Leaf>, s: Spot, want: set<Leaf>,
                            nodes: iset<seq<Mw>>, es: seq<Entry>, i: nat, pardoned: iset<Fault>, fair: bool, aborted: bool)
    requires i <= |es|
  {
    && Logged(ts, ran, visits, env, ls, s, want, nodes, aborted)
    && WentThrough(ts, visits, s.p, Done, aborted, pardoned, want, nodes, es, i)
    && (fair && !aborted ==> !Heard(env, Depth(s), Breakers(env, visits)))
  }

  /** Positions among the entries and in registration order. */
  lemma CutAt(es: seq<Entry>, p: seq<Mw>, ls: seq<Leaf>, i: nat) returns (cut: nat)
    requires AreEntries(es, p, ls) && Ascending(ls, ByIndex) && i <= |es|
    ensures forall k | 0 <= k < |es| && es[k].LeafEntry? :: es[k].leaf.index < cut <==> k < i
    ensures forall k | 0 <= k < |es| && es[k].NodeEntry? :: Passed(ls, p + [es[k].node.mw], cut) <==> k < i
    ensures i > 0 && es[i - 1].NodeEntry? ==> !Passed(ls, p + [es[i - 1].node.mw], cut - 1)
  {
    hide AreEntries, Passed;
    InOrder(es, p, ls);
    if i > 0 { OrderIsFirst(es, p, ls, i - 1, 0); }
    cut := if i == 0 then 0 else Order(es[i - 1]) + 1;
    forall k | 0 <= k < |es| ensures Order(es[k]) < cut <==> k < i {
      OrderIsFirst(es, p, ls, k, cut);
      if i > 0 && k < i - 1 { assert Order(es[k]) < Order(es[i - 1]); }
      if i > 0 && i - 1 < k { assert Order(es[i - 1]) < Order(es[k]); }
    }
    forall k | 0 <= k < |es| && es[k].NodeEntry? ensures Passed(ls, p + [es[k].node.mw], cut) <==> k < i { OrderIsFirst(es, p, ls, k, cut); }
    if i > 0 && es[i - 1].NodeEntry? { OrderIsFirst(es, p, ls, i - 1, cut - 1); }
  }

  lemma InOrder(es: seq<Entry>, p: seq<Mw>, ls: seq<Leaf>)
    requires AreEntries(es, p, ls)
    ensures Ascending(es, Order)
  {
  }

  lemma OrderIsFirst(es: seq<Entry>, p: seq<Mw>, ls: seq<Leaf>, k: nat, cut: int)
    requires AreEntries(es, p, ls) && Ascending(ls, ByIndex) && k < |es|
    ensures Order(es[k]) >= 0 && (es[k].NodeEntry? ==> (Passed(ls, p + [es[k].node.mw], cut) <==> Order(es[k]) < cut))
  {
    if es[k].NodeEntry? {
      EntryIsNode(es, p, ls, k);
      FirstLeaf(es[k].node, p + [es[k].node.mw], ls);
    }
  }

  lemma FirstLeaf(n: Node, c: seq<Mw>, ls: seq<Leaf>)
    requires IsNode(n, c, ls) && Ascending(ls, ByIndex)
    ensures n.allLeaves != [] && n.allLeaves[0] in ls && c <= n.allLeaves[0].path
    ensures forall l | l in ls && c <= l.path :: n.allLeaves[0].index <= l.index
  {
    var below := n.allLeaves;
    FilterAscending(ls, (l: Leaf) => c <= l.path, ByIndex);
    assert below[0] in below;
    forall l | l in ls && c <= l.path ensures below[0].index <= l.index {
      var j :| 0 <= j < |below| && below[j] == l;
      assert j > 0 ==> ByIndex(below[0]) < ByIndex(below[j]);
    }
  }

  /** The loop is over: after all entries, because the signal is aborted, or because the child of the last entry failed. */
  lemma Concluded(ts: seq<Target>, visits: VisitLog, p: seq<Mw>, next: Exit, aborted: bool, pardoned: iset<Fault>, want: set<Leaf>,
                  nodes: iset<seq<Mw>>, ls: seq<Leaf>, es: seq<Entry>, i: nat)
    requires AreEntries(es, p, ls) && Ascending(ls, ByIndex) && i <= |es|
    requires WentThrough(ts, visits, p, next, aborted, pardoned, want, nodes, es, i)
    requires || (next == Done && i == |es|) || (aborted && next == Threw(Aborted))
             || (next.Threw? && next.fault !in pardoned && i > 0 && es[i - 1].NodeEntry? && p + [es[i - 1].node.mw] in visits
                 && visits[p + [es[i - 1].node.mw]].exit == next)
    ensures Below(ts, visits, p, next, aborted, pardoned, want, nodes, ls)
  {
    hide AreEntries, Passed, OnTrie, Reaches;
    var cut := CutAt(es, p, ls, i);
    forall l: Leaf | l in ls && l.path == p ensures exists k :: 0 <= k < |es| && es[k] == LeafEntry(l) {
      var k := CoveringEntry(es, p, ls, l);
    }
    forall c | IsChild(c, p) && OnTrie(c, ls) ensures exists k :: 0 <= k < |es| && OnWay(es[k], p, c) { var k := EntryOnWay(es, p, ls, c); }
    forall c, k | IsChild(c, p) && 0 <= k < |es| && OnWay(es[k], p, c) ensures c == p + [es[k].node.mw] { }
    if next.Threw? && !(aborted && next.fault == Aborted) { assert Stopped(visits, p, next, ls, cut, p + [es[i - 1].node.mw]); }
    assert WentTo(ts, visits, p, next, aborted, pardoned, want, nodes, ls, cut);
  }

  lemma HeardEither(env: Env, from: nat, a: set<seq<Mw>>, b: set<seq<Mw>>)
    ensures Heard(env, from, a + b) <==> Heard(env, from, a) || Heard(env, from, b)
  {
    if x :| x in a && HeardAt(env, from, x) { assert x in a + b; }
    if x :| x in b && HeardAt(env, from, x) { assert x in a + b; }
  }

  lemma HeardNode(env: Env, p: seq<Mw>, own: set<seq<Mw>>, below: set<seq<Mw>>)
    requires (forall x | x in own :: x == p) && forall x | x in below :: p <= x && x != p
    ensures Heard(env, |p|, own + below) <==> !env.behave(p).Abandons() && (own != {} || Heard(env, |p| + 1, below))
  {
    HeardEither(env, |p|, own, below);
    assert p[..|p|] == p;
    if x :| x in own { assert HeardAt(env, |p|, p) <==> !env.behave(p).Abandons(); }
    forall x | x in below ensures HeardAt(env, |p|, x) <==> !env.behave(p).Abandons() && HeardAt(env, |p| + 1, x) {
      assert x[..|p|] == p;
    }
  }

  lemma NoneAudited(env: Env, ls: seq<Leaf>, s: Spot, want: set<Leaf>, nodes: iset<seq<Mw>>, es: seq<Entry>, pardoned: iset<Fault>, fair: bool,
                    aborted: bool)
    ensures AuditedTo([], [], map[], env, ls, s, want, nodes, es, 0, pardoned, fair, aborted)
  {
  }

  /** A node that is not called: nothing is wanted there, or the signal is aborted. */
  lemma NotVisited(r: Exit, env: Env, ls: seq<Leaf>, s: Spot, want: set<Leaf>, nodes: iset<seq<Mw>>, pardoned: iset<Fault>, fair: bool, aborted: bool)
    requires s.at && ((r == Done && s.p !in nodes) || (aborted && r == Threw(Aborted)))
    ensures Audited(r, [], [], map[], env, ls, s, want, nodes, pardoned, fair, aborted)
  {
  }

  /** A leaf entry, reached exactly if it is wanted, or a node entry that is passed over. */
  lemma EntryAudited(ts: seq<Target>, more: seq<Target>, ran: seq<seq<Mw>>, visits: VisitLog, env: Env, ls: seq<Leaf>, s: Spot, want: set<Leaf>,
                     nodes: iset<seq<Mw>>, es: seq<Entry>, i: nat, pardoned: iset<Fault>, fair: bool, aborted: bool)
    requires AreEntries(es, s.p, ls) && !s.at && i < |es|
    requires AuditedTo(ts, ran, visits, env, ls, s, want, nodes, es, i, pardoned, fair, aborted)
    requires if es[i].NodeEntry? then s.p + [es[i].node.mw] !in nodes && more == []
             else (forall t | t in more :: t.leaf == es[i].leaf) && (es[i].leaf in want ==> more != [])
    ensures AuditedTo(ts + more, ran, visits, env, ls, s, want, nodes, es, i + 1, pardoned, fair, aborted)
  {
    hide Heard, Breakers, AreEntries, Logged, Reaches, WentThrough;
    EntryWent(ts, more, visits, s.p, ls, aborted, pardoned, want, nodes, es, i);
    if es[i].LeafEntry? {
      EntryIsLeaf(es, s.p, ls, i);
      LoggedLeaf(ts, more, ran, visits, env, ls, s, want, nodes, aborted);
    } else {
      assert ts + more == ts;
    }
  }

  lemma EntryWent(ts: seq<Target>, more: seq<Target>, visits: VisitLog, p: seq<Mw>, ls: seq<Leaf>, aborted: bool, pardoned: iset<Fault>,
                  want: set<Leaf>, nodes: iset<seq<Mw>>, es: seq<Entry>, i: nat)
    requires AreEntries(es, p, ls) && i < |es| && WentThrough(ts, visits, p, Done, aborted, pardoned, want, nodes, es, i)
    requires if es[i].NodeEntry? then p + [es[i].node.mw] !in nodes && more == []
             else (forall t | t in more :: t.leaf == es[i].leaf) && (es[i].leaf in want ==> more != [])
    ensures WentThrough(ts + more, visits, p, Done, aborted, pardoned, want, nodes, es, i + 1)
  {
    hide AreEntries, Reaches;
    if es[i].LeafEntry? {
      forall k | 0 <= k < |es| && es[k].LeafEntry? && es[k].leaf in want ensures Reaches(ts + more, es[k].leaf) <==> k < i + 1 {
        if k != i { LeavesDiffer(es, p, ls, i, k); }
        ReachesOne(ts, more, es[i].leaf, es[k].leaf);
      }
    } else {
      assert ts + more == ts;
    }
    forall c | IsChild(c, p) && c in visits ensures exists k :: 0 <= k < i + 1 && OnWay(es[k], p, c) { }
  }

  lemma ReachesOne(ts: seq<Target>, more: seq<Target>, leaf: Leaf, l: Leaf)
    requires forall t | t in more :: t.leaf == leaf
    ensures Reaches(ts + more, l) <==> Reaches(ts, l) || (l == leaf && more != [])
  {
    ReachesEither(ts, more, l);
    assert more != [] ==> more[0] in more;
  }

  lemma LoggedLeaf(ts: seq<Target>, more: seq<Target>, ran: seq<seq<Mw>>, visits: VisitLog, env: Env, ls: seq<Leaf>, s: Spot, want: set<Leaf>,
                   nodes: iset<seq<Mw>>, aborted: bool)
    requires !s.at && Logged(ts, ran, visits, env, ls, s, want, nodes, aborted) && forall t | t in more :: t.leaf.path == s.p
    ensures Logged(ts + more, ran, visits, env, ls, s, want, nodes, aborted)
  {
    hide Below, OnTrie, Begun;
    assert visits + map[] == visits;
    forall x | x in visits && visits[x].started ensures Below(ts + more, visits, x, visits[x].next, visits[x].mid, iset{}, want, nodes, ls) {
      assert VisitOk(visits, x, env, ls, s, aborted);
      BelowElsewhere(ts, more, visits, map[], x, visits[x].next, visits[x].mid, iset{}, want, nodes, ls);
    }
  }

  lemma LeavesDiffer(es: seq<Entry>, p: seq<Mw>, ls: seq<Leaf>, i: nat, k: nat)
    requires AreEntries(es, p, ls) && i < |es| && k < |es| && i != k && es[i].LeafEntry? && es[k].LeafEntry?
    ensures es[i].leaf != es[k].leaf
  {
    assert i < k ==> Order(es[i]) < Order(es[k]);
    assert k < i ==> Order(es[k]) < Order(es[i]);
  }

  lemma ReachesEither(ts: seq<Target>, more: seq<Target>, l: Leaf)
    ensures Reaches(ts + more, l) <==> Reaches(ts, l) || Reaches(more, l)
  {
    if Reaches(ts, l) || Reaches(more, l) { ReachesMore(ts, more, l); }
  }

  lemma BreakersEither(env: Env, a: VisitLog, b: VisitLog)
    requires a.Keys !! b.Keys
    ensures Breakers(env, a + b) == Breakers(env, a) + Breakers(env, b)
  {
  }

  /** Calls and leaves in different parts of the trie do not interfere. */
  lemma BelowElsewhere(ts: seq<Target>, more: seq<Target>, a: VisitLog, b: VisitLog, x: seq<Mw>, next: Exit, aborted: bool, pardoned: iset<Fault>,
                       want: set<Leaf>, nodes: iset<seq<Mw>>, ls: seq<Leaf>)
    requires Below(ts, a, x, next, aborted, pardoned, want, nodes, ls)
    requires (forall c | IsChild(c, x) :: c !in b) && forall t | t in more :: t.leaf.path != x
    ensures Below(ts + more, a + b, x, next, aborted, pardoned, want, nodes, ls) && Below(more + ts, b + a, x, next, aborted, pardoned, want, nodes, ls)
  {
    hide Passed, OnTrie, Reaches;
    var cut: nat :| WentTo(ts, a, x, next, aborted, pardoned, want, nodes, ls, cut);
    forall l: Leaf | l.path == x ensures (Reaches(ts + more, l) <==> Reaches(ts, l)) && (Reaches(more + ts, l) <==> Reaches(ts, l)) {
      ReachesEither(ts, more, l);
      ReachesEither(more, ts, l);
      NotReached(more, l);
    }
    if c :| Stopped(a, x, next, ls, cut, c) {
      assert Stopped(a + b, x, next, ls, cut, c) && Stopped(b + a, x, next, ls, cut, c);
    }
    assert WentTo(ts + more, a + b, x, next, aborted, pardoned, want, nodes, ls, cut);
    assert WentTo(more + ts, b + a, x, next, aborted, pardoned, want, nodes, ls, cut);
  }

  lemma NotReached(ts: seq<Target>, l: Leaf)
    requires forall t | t in ts :: t.leaf.path != l.path
    ensures !Reaches(ts, l)
  {
  }

  lemma LoggedBoth(ts: seq<Target>, moreTs: seq<Target>, ran: seq<seq<Mw>>, moreRan: seq<seq<Mw>>, visits: VisitLog, more: VisitLog, env: Env,
                   ls: seq<Leaf>, s: Spot, n: Node, want: set<Leaf>, nodes: iset<seq<Mw>>, now: bool, after: bool)
    requires !s.at && (now ==> after) && Elsewhere(ts, ran, s.p + [n.mw])
    requires Logged(ts, ran, visits, env, ls, s, want, nodes, now) && Logged(moreTs, moreRan, more, env, ls, s.Below(n), want, nodes, after)
    ensures Logged(ts + moreTs, ran + moreRan, visits + more, env, ls, s, want, nodes, after) && visits.Keys !! more.Keys
  {
    hide Below, VisitOk, TargetOk;
    var q, both := s.p + [n.mw], visits + more;
    OwnedBelow(moreTs, moreRan, more, env, ls, s.Below(n), want, nodes, after);
    forall x | x in both ensures VisitOk(both, x, env, ls, s, after) {
      if x in more { OkAbove(more, both, x, env, ls, s, n, after); } else { OkLonger(visits, both, x, env, ls, s, now, after); }
    }
    forall x | x in both && both[x].started ensures Below(ts + moreTs, both, x, both[x].next, both[x].mid, iset{}, want, nodes, ls) {
      if x in more {
        forall c | IsChild(c, x) ensures c !in visits { assert q <= x <= c; }
        BelowElsewhere(moreTs, ts, more, visits, x, more[x].next, more[x].mid, iset{}, want, nodes, ls);
      } else {
        forall c | IsChild(c, x) ensures c !in more { if c in more { OkChild(visits, c, x, s, q, env, ls, now); } }
        BelowElsewhere(ts, moreTs, visits, more, x, visits[x].next, visits[x].mid, iset{}, want, nodes, ls);
      }
    }
    forall t | t in ts + moreTs ensures TargetOk(both, t, s) {
      if t in moreTs { TargetAboveOk(more, both, t, s, n); } else { TargetLongerOk(visits, both, t, s); }
    }
  }

  lemma OkLonger(visits: VisitLog, longer: VisitLog, x: seq<Mw>, env: Env, ls: seq<Leaf>, s: Spot, now: bool, after: bool)
    requires x in visits && VisitOk(visits, x, env, ls, s, now) && (now ==> after) && forall y | y in visits :: y in longer && longer[y] == visits[y]
    ensures VisitOk(longer, x, env, ls, s, after)
  {
  }

  lemma OkAbove(visits: VisitLog, longer: VisitLog, x: seq<Mw>, env: Env, ls: seq<Leaf>, s: Spot, n: Node, aborted: bool)
    requires !s.at && x in visits && VisitOk(visits, x, env, ls, s.Below(n), aborted) && forall y | y in visits :: y in longer && longer[y] == visits[y]
    ensures VisitOk(longer, x, env, ls, s, aborted)
  {
    var q := s.p + [n.mw];
    assert s.p <= q <= x && q[..|q| - 1] == s.p;
  }

  lemma TargetLongerOk(visits: VisitLog, longer: VisitLog, t: Target, s: Spot)
    requires TargetOk(visits, t, s) && forall y | y in visits :: y in longer && longer[y] == visits[y]
    ensures TargetOk(longer, t, s)
  {
  }

  lemma TargetAboveOk(visits: VisitLog, longer: VisitLog, t: Target, s: Spot, n: Node)
    requires TargetOk(visits, t, s.Below(n)) && forall y | y in visits :: y in longer && longer[y] == visits[y]
    ensures TargetOk(longer, t, s)
  {
    assert s.p <= s.p + [n.mw] <= t.leaf.path;
  }

  /** The nodes of `visits` are not above `q`. */
  lemma OkChild(visits: VisitLog, c: seq<Mw>, x: seq<Mw>, s: Spot, q: seq<Mw>, env: Env, ls: seq<Leaf>, now: bool)
    requires !s.at && x in visits && VisitOk(visits, x, env, ls, s, now) && IsChild(q, s.p)
    ensures IsChild(c, x) && q <= c ==> q <= x
  {
    if IsChild(c, x) && q <= c { ChildOutside(c, x, s.p, q); }
  }

  lemma BelowLater(ts: seq<Target>, visits: VisitLog, p: seq<Mw>, next: Exit, now: bool, later: bool, pardoned: iset<Fault>, want: set<Leaf>,
                   nodes: iset<seq<Mw>>, ls: seq<Leaf>)
    requires (now ==> later) && Below(ts, visits, p, next, now, pardoned, want, nodes, ls)
    ensures Below(ts, visits, p, next, later, pardoned, want, nodes, ls)
  {
    hide Passed, OnTrie, Reaches, Stopped;
    var cut: nat :| WentTo(ts, visits, p, next, now, pardoned, want, nodes, ls, cut);
    assert WentTo(ts, visits, p, next, later, pardoned, want, nodes, ls, cut);
  }

  /** Nothing is wanted, so nothing happens. */
  lemma NothingBelow(dests: seq<Destination>, p: seq<Mw>, aborted: bool, pardoned: iset<Fault>, want: set<Leaf>, nodes: iset<seq<Mw>>, ls: seq<Leaf>)
    requires ls == LeavesOf(dests)
    requires (forall l: Leaf | l in want && l in ls :: !(p <= l.path)) && forall c | p <= c && OnTrie(c, ls) :: c !in nodes
    ensures Below([], map[], p, Done, aborted, pardoned, want, nodes, ls)
  {
    forall c | IsChild(c, p) && OnTrie(c, ls) ensures Passed(ls, c, |dests|) { }
    assert WentTo([], map[], p, Done, aborted, pardoned, want, nodes, ls, |dests|);
  }

  lemma OwnedBelow(ts: seq<Target>, ran: seq<seq<Mw>>, visits: VisitLog, env: Env, ls: seq<Leaf>, s: Spot, want: set<Leaf>, nodes: iset<seq<Mw>>,
                   aborted: bool)
    requires Logged(ts, ran, visits, env, ls, s, want, nodes, aborted)
    ensures (forall x | x in visits :: s.p <= x) && forall t | t in ts :: s.p <= t.leaf.path
  {
    hide OnTrie, Begun, Below;
    forall x | x in visits ensures s.p <= x { assert VisitOk(visits, x, env, ls, s, aborted); }
    forall t | t in ts ensures s.p <= t.leaf.path { assert TargetOk(visits, t, s); }
  }

  /** What ran and what was reached is not at or below `q`. */
  ghost predicate Elsewhere(ts: seq<Target>, ran: seq<seq<Mw>>, q: seq<Mw>) {
    (forall x | x in ran :: !(q <= x)) && forall t | t in ts :: !(q <= t.leaf.path)
  }

  /** A node at or below `q` is a child of a node at or below `q`, or of the node above `q`. */
  lemma ChildOutside(c: seq<Mw>, x: seq<Mw>, p: seq<Mw>, q: seq<Mw>)
    requires IsChild(c, x) && IsChild(q, p) && q <= c
    ensures q <= x || x == p
  {
    if |q| <= |x| { assert q == c[..|q|] == x[..|q|]; } else { assert x == c[..|p|] == p; }
  }

  /** What ran and what was reached so far is elsewhere. */
  lemma RanElsewhere(ts: seq<Target>, ran: seq<seq<Mw>>, env: Env, ls: seq<Leaf>, s: Spot, want: set<Leaf>, nodes: iset<seq<Mw>>, es: seq<Entry>, i: nat)
    requires s.from <= |s.p| && AreEntries(es, s.p, ls) && i < |es| && es[i].NodeEntry? && SoundTo(ts, ran, env, ls, s, want, nodes, es, i)
    ensures Elsewhere(ts, ran, s.p + [es[i].node.mw])
  {
    hide AreEntries;
    var q := s.p + [es[i].node.mw];
    forall x | x in ran ensures !(q <= x) {
      var k :| 0 <= k < i && es[k].NodeEntry? && s.p + [es[k].node.mw] <= x;
      NodesDiffer(es, s.p, ls, k, i);
      assert x[|s.p|] == (s.p + [es[k].node.mw])[|s.p|] && (s.p + [es[i].node.mw])[|s.p|] == es[i].node.mw;
    }
    forall t | t in ts ensures !(q <= t.leaf.path) {
      var k :| 0 <= k < i && Covers(es[k], s.p, t.leaf);
      if q <= t.leaf.path { CoveredOnce(es, s.p, ls, t.leaf, i, k); }
    }
  }

  /** One more node entry in a loop that has gone well so far. */
  lemma NodeAudited(r: Exit, ts: seq<Target>, moreTs: seq<Target>, ran: seq<seq<Mw>>, moreRan: seq<seq<Mw>>, visits: VisitLog, more: VisitLog, env: Env,
                    ls: seq<Leaf>, s: Spot, want: set<Leaf>, nodes: iset<seq<Mw>>, es: seq<Entry>, i: nat, pardoned: iset<Fault>, fair: bool,
                    fairBelow: bool, now: bool, after: bool)
    requires AreEntries(es, s.p, ls) && Ascending(ls, ByIndex)
    requires i < |es| && es[i].NodeEntry? && !s.at && (now ==> after) && (fair ==> fairBelow && forall f :: f !in pardoned)
    requires Elsewhere(ts, ran, s.p + [es[i].node.mw])
    requires AuditedTo(ts, ran, visits, env, ls, s, want, nodes, es, i, pardoned, fair, now)
    requires Audited(r, moreTs, moreRan, more, env, ls, s.Below(es[i].node), want, nodes, iset{}, fairBelow, after)
    ensures r.Done? || r.fault in pardoned ==>
              AuditedTo(ts + moreTs, ran + moreRan, visits + more, env, ls, s, want, nodes, es, i + 1, pardoned, fair, after)
    ensures r.Threw? && r.fault !in pardoned ==>
              Audited(r, ts + moreTs, ran + moreRan, visits + more, env, ls, s, want, nodes, pardoned, fair, after)
  {
    hide Logged, Breakers, Heard, AreEntries, Reaches, Begun, Elsewhere, Ascending, WentThrough, OnTrie;
    LoggedBoth(ts, moreTs, ran, moreRan, visits, more, env, ls, s, es[i].node, want, nodes, now, after);
    BreakersEither(env, visits, more);
    HeardEither(env, Depth(s), Breakers(env, visits), Breakers(env, more));
    WentOn(r, ts, moreTs, moreRan, visits, more, env, ls, s, want, nodes, es, i, pardoned, now, after);
    if r.Threw? && r.fault !in pardoned { Concluded(ts + moreTs, visits + more, s.p, r, after, pardoned, want, nodes, ls, es, i + 1); }
  }

  lemma WentOn(r: Exit, ts: seq<Target>, moreTs: seq<Target>, moreRan: seq<seq<Mw>>, visits: VisitLog, more: VisitLog, env: Env,
               ls: seq<Leaf>, s: Spot, want: set<Leaf>, nodes: iset<seq<Mw>>, es: seq<Entry>, i: nat, pardoned: iset<Fault>, now: bool, after: bool)
    requires AreEntries(es, s.p, ls) && i < |es| && es[i].NodeEntry? && (now ==> after) && visits.Keys !! more.Keys
    requires WentThrough(ts, visits, s.p, Done, now, pardoned, want, nodes, es, i)
    requires Logged(moreTs, moreRan, more, env, ls, s.Below(es[i].node), want, nodes, after)
    requires var q := s.p + [es[i].node.mw];
             if q in more then more[q].exit == r
             else more == map[] && (r.Done? || (after && r == Threw(Aborted))) && (q in nodes ==> r.Threw?)
    ensures r.Done? || r.fault in pardoned ==> WentThrough(ts + moreTs, visits + more, s.p, Done, after, pardoned, want, nodes, es, i + 1)
    ensures r.Threw? ==> WentThrough(ts + moreTs, visits + more, s.p, r, after, pardoned, want, nodes, es, i + 1)
    ensures s.p + [es[i].node.mw] in visits + more || r.Done? || (after && r == Threw(Aborted))
    ensures s.p + [es[i].node.mw] in more ==> (visits + more)[s.p + [es[i].node.mw]].exit == r
  {
    hide AreEntries, Reaches, Logged;
    var q := s.p + [es[i].node.mw];
    OwnedBelow(moreTs, moreRan, more, env, ls, s.Below(es[i].node), want, nodes, after);
    forall k | 0 <= k < |es| && es[k].LeafEntry? ensures Reaches(ts + moreTs, es[k].leaf) <==> Reaches(ts, es[k].leaf) {
      EntryIsLeaf(es, s.p, ls, k);
      ReachesEither(ts, moreTs, es[k].leaf);
      NotReached(moreTs, es[k].leaf);
    }
    forall c | IsChild(c, s.p) && c in visits + more ensures exists k :: 0 <= k < i + 1 && OnWay(es[k], s.p, c) {
      if c in more { assert OnWay(es[i], s.p, c); }
    }
    forall c | IsChild(c, s.p) && c in more ensures c == q { }
  }

  /** The loop is over: all entries are done, or the signal was aborted. */
  lemma EachAudited(r: Exit, ts: seq<Target>, ran: seq<seq<Mw>>, visits: VisitLog, env: Env, ls: seq<Leaf>, s: Spot, want: set<Leaf>,
                    nodes: iset<seq<Mw>>, es: seq<Entry>, i: nat, pardoned: iset<Fault>, fair: bool, aborted: bool)
    requires AreEntries(es, s.p, ls) && Ascending(ls, ByIndex) && !s.at && i <= |es|
    requires AuditedTo(ts, ran, visits, env, ls, s, want, nodes, es, i, pardoned, fair, aborted)
    requires (r == Done && i == |es|) || (aborted && r == Threw(Aborted))
    ensures Audited(r, ts, ran, visits, env, ls, s, want, nodes, pardoned, fair, aborted)
  {
    hide Logged, Breakers, Heard, AreEntries, Ascending, Reaches;
    Concluded(ts, visits, s.p, r, aborted, pardoned, want, nodes, ls, es, i);
  }

  lemma NotOwned(ts: seq<Target>, ran: seq<seq<Mw>>, visits: VisitLog, env: Env, ls: seq<Leaf>, p: seq<Mw>, want: set<Leaf>, nodes: iset<seq<Mw>>,
                 aborted: bool, data: Data, key: Key)
    requires Logged(ts, ran, visits, env, ls, Spot(p, |p|, false, data, key), want, nodes, aborted)
    ensures forall x | x in visits :: p <= x && x != p
  {
    hide OnTrie, Begun, Below;
    forall x | x in visits ensures p <= x && x != p { assert VisitOk(visits, x, env, ls, Spot(p, |p|, false, data, key), aborted); }
  }

  /** Running the node of `p`. */
  lemma RanAudited(visit: Visit, ts: seq<Target>, ran: seq<seq<Mw>>, below: VisitLog, env: Env, ls: seq<Leaf>, p: seq<Mw>, want: set<Leaf>,
                   nodes: iset<seq<Mw>>, fair: bool, data: Data, key: Key, data': Data, key': Key)
    requires p != [] && OnTrie(p, ls) && Begun(env.behave(p), env.mapKeyFault(p), visit)
    requires if visit.started then Audited(visit.next, ts, ran, below, env, ls, Spot(p, |p|, false, data', key'), want, nodes, iset{}, fair, visit.mid)
             else ts == [] && ran == [] && below == map[]
    requires fair && !visit.after ==> ((visit.exit.Threw? && visit.exit.fault.Contract?) <==>
               !env.behave(p).Abandons() && (Broke(env.behave(p), visit) || (visit.started && visit.next.Threw? && visit.next.fault.Contract?)))
    ensures Audited(visit.exit, ts, [p] + ran, map[p := visit] + below, env, ls, Spot(p, |p| - 1, true, data, key), want, nodes, iset{}, fair, visit.after)
  {
    hide Heard, OnTrie, Broke, Begun, Below, Logged;
    var visits := map[p := visit] + below;
    if visit.started { NotOwned(ts, ran, below, env, ls, p, want, nodes, visit.mid, data', key'); }
    var own := Breakers(env, map[p := visit]);
    BreakersEither(env, map[p := visit], below);
    HeardNode(env, p, own, Breakers(env, below));
    assert own != {} <==> Broke(env.behave(p), visit) by { assert Broke(env.behave(p), visit) ==> p in own; }
    BegunAborted(env.behave(p), env.mapKeyFault(p), visit);
    HeardNone(env, |p| + 1);
    LoggedRan(visit, ts, ran, below, env, ls, p, want, nodes, data, key, data', key');
  }

  lemma LoggedRan(visit: Visit, ts: seq<Target>, ran: seq<seq<Mw>>, below: VisitLog, env: Env, ls: seq<Leaf>, p: seq<Mw>, want: set<Leaf>,
                  nodes: iset<seq<Mw>>, data: Data, key: Key, data': Data, key': Key)
    requires p != [] && OnTrie(p, ls) && Begun(env.behave(p), env.mapKeyFault(p), visit) && p !in below
    requires if visit.started then
               && Logged(ts, ran, below, env, ls, Spot(p, |p|, false, data', key'), want, nodes, visit.mid)
               && Below(ts, below, p, visit.next, visit.mid, iset{}, want, nodes, ls)
             else ts == [] && ran == [] && below == map[]
    ensures Logged(ts, [p] + ran, map[p := visit] + below, env, ls, Spot(p, |p| - 1, true, data, key), want, nodes, visit.after)
  {
    hide OnTrie, Begun, Below, VisitOk, TargetOk;
    var visits := map[p := visit] + below;
    var s, s' := Spot(p, |p| - 1, true, data, key), Spot(p, |p|, false, data', key');
    BegunAborted(env.behave(p), env.mapKeyFault(p), visit);
    forall x | x in visits ensures VisitOk(visits, x, env, ls, s, visit.after) {
      if x == p { TopOk(visits, p, env, ls, s, visit.after); } else { OkOutside(below, visits, x, env, ls, s', s, visit.mid, visit.after); }
    }
    if visit.started { OwnedBelow(ts, ran, below, env, ls, s', want, nodes, visit.mid); }
    forall x | x in visits && visits[x].started ensures Below(ts, visits, x, visits[x].next, visits[x].mid, iset{}, want, nodes, ls) {
      forall c | IsChild(c, x) ensures c != p { if x in below { assert |c| > |x| >= |p|; } }
      BelowElsewhere(ts, [], below, map[p := visit], x, visits[x].next, visits[x].mid, iset{}, want, nodes, ls);
      assert [] + ts == ts;
    }
    forall t | t in ts ensures TargetOk(visits, t, s) { TargetOutsideOk(below, visits, t, s', s); }
  }

  lemma TopOk(visits: VisitLog, p: seq<Mw>, env: Env, ls: seq<Leaf>, s: Spot, aborted: bool)
    requires s.p == p && s.at && p in visits && OnTrie(p, ls) && Begun(env.behave(p), env.mapKeyFault(p), visits[p]) && visits[p].after == aborted
    ensures VisitOk(visits, p, env, ls, s, aborted)
  {
  }

  /** From the loop below a node to the node itself. */
  lemma OkOutside(visits: VisitLog, longer: VisitLog, x: seq<Mw>, env: Env, ls: seq<Leaf>, s: Spot, s': Spot, now: bool, after: bool)
    requires s.p == s'.p && !s.at && s'.at && s.p in longer && longer[s.p].started && (now ==> after)
    requires x in visits && VisitOk(visits, x, env, ls, s, now) && forall y | y in visits :: y in longer && longer[y] == visits[y]
    ensures VisitOk(longer, x, env, ls, s', after)
  {
  }

  lemma TargetOutsideOk(visits: VisitLog, longer: VisitLog, t: Target, s: Spot, s': Spot)
    requires s.p == s'.p && !s.at && s'.at && s.p in longer && longer[s.p].started
    requires TargetOk(visits, t, s) && forall y | y in visits :: y in longer && longer[y] == visits[y]
    ensures TargetOk(longer, t, s')
  {
  }

  lemma HeardNone(env: Env, from: nat)
    ensures !Heard(env, from, {}) && Breakers(env, map[]) == {}
  {
  }

  /** The signal is aborted in the end only if it was before, or is while one of the nodes runs. */
  ghost predicate AbortTraced(visits: VisitLog, env: Env, before: bool, after: bool) {
    (before ==> after) && (after && !before ==> exists x :: x in visits && env.behave(x).Aborts())
  }

  lemma TracedBoth(a: VisitLog, b: VisitLog, env: Env, before: bool, now: bool, after: bool)
    requires AbortTraced(a, env, before, now) && AbortTraced(b, env, now, after)
    ensures AbortTraced(a + b, env, before, after)
  {
    if after && !before {
      var x :| (x in a || x in b) && env.behave(x).Aborts();
      assert x in a + b;
    }
  }

  lemma TracedRan(v: Visit, below: VisitLog, env: Env, p: seq<Mw>, ex: Exit, contract: Option<Fault>, before: bool)
    requires Checked(env.behave(p), v.next, v.mid, ex, contract, v.after)
    requires AbortTraced(below, env, before, v.mid) && (before ==> env.behave(p).abortsBefore)
    ensures AbortTraced(map[p := v] + below, env, false, v.after)
  {
    var visits := map[p := v] + below;
    assert p in visits;
    if v.mid && !before {
      var x :| x in below && env.behave(x).Aborts();
      assert x in visits;
    }
  }

  lemma TracedRuns(ts: seq<Target>, ran: seq<seq<Mw>>, visits: VisitLog, env: Env, ls: seq<Leaf>, s: Spot, want: set<Leaf>, nodes: iset<seq<Mw>>,
                   before: bool, after: bool)
    requires Logged(ts, ran, visits, env, ls, s, want, nodes, after) && AbortTraced(visits, env, before, after)
    ensures after && !before ==> SomeAborts(ran, env)
  {
  }

  /** The signal is aborted while one of the nodes runs. */
  ghost predicate SomeAborts(ran: seq<seq<Mw>>, env: Env) {
    exists x :: x in ran && env.behave(x).Aborts()
  }

  lemma BegunAborted(b: Behaviour, fault: Option<Fault>, c: Visit)
    requires Begun(b, fault, c)
    ensures c.mid ==> c.after
  {
  }

  /** What comes out of the catch block, as far as contract errors go. */
  lemma OwnTold(b: Behaviour, visit: Visit, ex: Exit, contract: Option<Fault>, fault: Option<Fault>)
    requires Begun(b, fault, visit) && Checked(b, visit.next, visit.mid, ex, contract, visit.after)
    requires !visit.after ==> ((visit.exit.Threw? && visit.exit.fault.Contract?) <==> contract.Some? || (ex.Threw? && ex.fault.Contract?))
    ensures !visit.after ==> ((visit.exit.Threw? && visit.exit.fault.Contract?) <==>
                             !b.Abandons() && (Broke(b, visit) || (visit.started && visit.next.Threw? && visit.next.fault.Contract?)))
  {
    if !visit.after { BreachComesOut(b, visit.next, visit.started, visit.mid, ex, contract); }
  }

  /** Every node on the path lets its downstream start. */
  predicate WayOpen(env: Env, path: seq<Mw>) {
    forall i | 0 < i <= |path| :: env.behave(path[..i]).Opens() && env.mapKeyFault(path[..i]).None?
  }

  /** If every call that throws only passes on what its `next()` threw, then no `next()` throws: there is nothing at the bottom to begin with. */
  lemma {:induction false} NobodyThrows(ts: seq<Target>, ran: seq<seq<Mw>>, visits: VisitLog, env: Env, ls: seq<Leaf>, s: Spot, want: set<Leaf>,
                                        nodes: iset<seq<Mw>>, x: seq<Mw>, height: nat)
    requires Logged(ts, ran, visits, env, ls, s, want, nodes, false) && forall l | l in ls :: |l.path| <= height
    requires forall y | y in visits && visits[y].exit.Threw? :: visits[y].started && visits[y].next.Threw?
    requires x in visits
    ensures |x| <= height && (visits[x].started ==> visits[x].next.Done?)
    decreases height - |x|
  {
    hide Begun, Passed;
    assert VisitOk(visits, x, env, ls, s, false);
    var l :| l in ls && x <= l.path;
    if visits[x].started && visits[x].next.Threw? {
      var c := Thrower(ts, visits, x, visits[x].next, visits[x].mid, iset{}, want, nodes, ls);
      BegunAborted(env.behave(x), env.mapKeyFault(x), visits[x]);
      NobodyThrows(ts, ran, visits, env, ls, s, want, nodes, c, height);
    }
  }

  lemma Thrower(ts: seq<Target>, visits: VisitLog, p: seq<Mw>, next: Exit, aborted: bool, pardoned: iset<Fault>, want: set<Leaf>,
                nodes: iset<seq<Mw>>, ls: seq<Leaf>) returns (c: seq<Mw>)
    requires Below(ts, visits, p, next, aborted, pardoned, want, nodes, ls) && next.Threw?
    ensures !aborted ==> IsChild(c, p) && c in visits && visits[c].exit == next && next.fault !in pardoned
  {
    hide Passed, OnTrie, Reaches;
    var cut: nat :| WentTo(ts, visits, p, next, aborted, pardoned, want, nodes, ls, cut);
    c := p;
    if !aborted {
      c :| Stopped(visits, p, next, ls, cut, c);
    }
  }

  /** Every node that ran started its downstream unless something stood against it, every loop went through all its entries, and nothing was
      aborted. */
  ghost predicate AllFinish(visits: VisitLog, env: Env) {
    forall x | x in visits ::
      (visits[x].started <==> env.behave(x).Opens() && env.mapKeyFault(x).None?) && (visits[x].started ==> visits[x].next.Done? && !visits[x].mid)
  }

  lemma FinishBoth(a: VisitLog, b: VisitLog, env: Env)
    requires a.Keys !! b.Keys
    ensures AllFinish(a + b, env) <==> AllFinish(a, env) && AllFinish(b, env)
  {
    forall x | x in a + b ensures (x in a ==> x !in b && (a + b)[x] == a[x]) && (x in b ==> (a + b)[x] == b[x]) { }
    if AllFinish(a + b, env) {
      forall x | x in a || x in b ensures x in a + b { }
    }
  }

  lemma AuditedOwns(r: Exit, ts: seq<Target>, ran: seq<seq<Mw>>, visits: VisitLog, env: Env, ls: seq<Leaf>, s: Spot, want: set<Leaf>,
                    nodes: iset<seq<Mw>>, pardoned: iset<Fault>, fair: bool, aborted: bool)
    requires Audited(r, ts, ran, visits, env, ls, s, want, nodes, pardoned, fair, aborted)
    ensures forall x | x in visits :: s.p <= x && (!s.at ==> x != s.p)
  {
    hide OnTrie, Begun, Below, Heard, Breakers;
    forall x | x in visits ensures s.p <= x && (!s.at ==> x != s.p) { assert VisitOk(visits, x, env, ls, s, aborted); }
  }

  lemma AuditedToRan(ts: seq<Target>, ran: seq<seq<Mw>>, visits: VisitLog, env: Env, ls: seq<Leaf>, s: Spot, want: set<Leaf>, nodes: iset<seq<Mw>>,
                     es: seq<Entry>, i: nat, pardoned: iset<Fault>, fair: bool, aborted: bool)
    requires i <= |es| && AuditedTo(ts, ran, visits, env, ls, s, want, nodes, es, i, pardoned, fair, aborted)
    ensures forall x | x in visits :: x in ran
  {
  }

  /** Then a wanted leaf is reached exactly if all nodes on its path let their downstream start, whatever happens elsewhere. */
  lemma ReachedIfOpen(ts: seq<Target>, ran: seq<seq<Mw>>, visits: VisitLog, env: Env, ls: seq<Leaf>, want: set<Leaf>, nodes: iset<seq<Mw>>,
                      pardoned: iset<Fault>, data: Data, key: Key, l: Leaf)
    requires Logged(ts, ran, visits, env, ls, Spot([], 0, false, data, key), want, nodes, false)
    requires Below(ts, visits, [], Done, false, pardoned, want, nodes, ls) && AllFinish(visits, env)
    requires l in want && l in ls && forall i | 0 < i <= |l.path| :: l.path[..i] in nodes
    ensures Reaches(ts, l) <==> WayOpen(env, l.path)
  {
    hide OnTrie, Begun, Below, Reaches;
    var s := Spot([], 0, false, data, key);
    assert l.path[..|l.path|] == l.path;
    if Reaches(ts, l) {
      TargetRooted(ts, ran, visits, env, ls, s, want, nodes, l);
      RootedOpen(ts, ran, visits, env, ls, s, want, nodes, l.path, |l.path|);
    }
    if WayOpen(env, l.path) {
      OpenRooted(ts, ran, visits, env, ls, s, want, nodes, pardoned, l, |l.path|);
      if l.path == [] { FinishedReaches(ts, visits, [], false, pardoned, want, nodes, ls, l); }
      else { FinishedReaches(ts, visits, l.path, false, iset{}, want, nodes, ls, l); }
    }
  }

  /** Likewise a node is visited exactly if all nodes above it let their downstream start. */
  lemma VisitedIfOpen(ts: seq<Target>, ran: seq<seq<Mw>>, visits: VisitLog, env: Env, ls: seq<Leaf>, want: set<Leaf>, nodes: iset<seq<Mw>>,
                      pardoned: iset<Fault>, data: Data, key: Key, l: Leaf, k: nat)
    requires Logged(ts, ran, visits, env, ls, Spot([], 0, false, data, key), want, nodes, false)
    requires Below(ts, visits, [], Done, false, pardoned, want, nodes, ls) && AllFinish(visits, env)
    requires l in ls && 0 < k <= |l.path| && forall i | 0 < i <= k :: l.path[..i] in nodes
    ensures l.path[..k] in visits <==> WayOpen(env, l.path[..k - 1])
  {
    hide Begun, Below, Reaches;
    var s, above, x := Spot([], 0, false, data, key), l.path[..k - 1], l.path[..k];
    forall i | 0 < i < k ensures above[..i] == l.path[..i] { }
    if x in visits {
      assert VisitOk(visits, x, env, ls, s, false) && x[..|x| - 1] == above;
      RootedOpen(ts, ran, visits, env, ls, s, want, nodes, l.path, k - 1);
    }
    if WayOpen(env, above) {
      forall i | 0 < i <= k - 1 ensures env.behave(l.path[..i]).Opens() && env.mapKeyFault(l.path[..i]).None? { assert above[..i] == l.path[..i]; }
      OpenRooted(ts, ran, visits, env, ls, s, want, nodes, pardoned, l, k - 1);
      assert x <= l.path && IsChild(x, above);
      FinishedRuns(ts, visits, above, false, if above == [] then pardoned else iset{}, want, nodes, ls, x);
    }
  }

  lemma TargetRooted(ts: seq<Target>, ran: seq<seq<Mw>>, visits: VisitLog, env: Env, ls: seq<Leaf>, s: Spot, want: set<Leaf>, nodes: iset<seq<Mw>>, l: Leaf)
    requires Logged(ts, ran, visits, env, ls, s, want, nodes, false) && Reaches(ts, l)
    ensures Rooted(visits, l.path, s)
  {
    hide OnTrie, Begun, Below;
    var t :| t in ts && t.leaf == l;
    assert TargetOk(visits, t, s);
  }

  /** A loop was started only if all nodes above it let their downstream start. */
  lemma {:induction false} RootedOpen(ts: seq<Target>, ran: seq<seq<Mw>>, visits: VisitLog, env: Env, ls: seq<Leaf>, s: Spot, want: set<Leaf>,
                                      nodes: iset<seq<Mw>>, path: seq<Mw>, j: nat)
    requires Logged(ts, ran, visits, env, ls, s, want, nodes, false) && AllFinish(visits, env) && s.p == [] && !s.at
    requires j <= |path| && Rooted(visits, path[..j], s)
    ensures forall i | 0 < i <= j :: path[..i] in visits && env.behave(path[..i]).Opens() && env.mapKeyFault(path[..i]).None?
    decreases j
  {
    hide OnTrie, Begun, Below;
    if j > 0 {
      var x := path[..j];
      assert VisitOk(visits, x, env, ls, s, false);
      assert x[..|x| - 1] == path[..j - 1];
      RootedOpen(ts, ran, visits, env, ls, s, want, nodes, path, j - 1);
    }
  }

  lemma {:induction false} OpenRooted(ts: seq<Target>, ran: seq<seq<Mw>>, visits: VisitLog, env: Env, ls: seq<Leaf>, s: Spot, want: set<Leaf>,
                                      nodes: iset<seq<Mw>>, pardoned: iset<Fault>, l: Leaf, j: nat)
    requires Logged(ts, ran, visits, env, ls, s, want, nodes, false) && AllFinish(visits, env) && s.p == [] && !s.at
    requires Below(ts, visits, [], Done, false, pardoned, want, nodes, ls)
    requires l in ls && j <= |l.path| && forall i | 0 < i <= j :: l.path[..i] in nodes && env.behave(l.path[..i]).Opens() && env.mapKeyFault(l.path[..i]).None?
    ensures Rooted(visits, l.path[..j], s)
    decreases j
  {
    hide Begun, Below;
    if j > 0 {
      OpenRooted(ts, ran, visits, env, ls, s, want, nodes, pardoned, l, j - 1);
      var above, c := l.path[..j - 1], l.path[..j];
      assert c <= l.path && IsChild(c, above);
      if above == [] { FinishedRuns(ts, visits, [], false, pardoned, want, nodes, ls, c); } else { FinishedRuns(ts, visits, above, false, iset{}, want, nodes, ls, c); }
    }
  }

  lemma FinishedRuns(ts: seq<Target>, visits: VisitLog, p: seq<Mw>, aborted: bool, pardoned: iset<Fault>, want: set<Leaf>, nodes: iset<seq<Mw>>,
                     ls: seq<Leaf>, c: seq<Mw>)
    requires Below(ts, visits, p, Done, aborted, pardoned, want, nodes, ls) && !aborted && IsChild(c, p) && c in nodes && OnTrie(c, ls)
    ensures c in visits
  {
    hide OnTrie, Reaches, Passed;
    var cut: nat :| WentTo(ts, visits, p, Done, aborted, pardoned, want, nodes, ls, cut);
  }

  lemma FinishedReaches(ts: seq<Target>, visits: VisitLog, p: seq<Mw>, aborted: bool, pardoned: iset<Fault>, want: set<Leaf>, nodes: iset<seq<Mw>>,
                        ls: seq<Leaf>, l: Leaf)
    requires Below(ts, visits, p, Done, aborted, pardoned, want, nodes, ls) && l in want && l in ls && l.path == p
    ensures Reaches(ts, l)
  {
    hide OnTrie, Reaches, Passed;
    var cut: nat :| WentTo(ts, visits, p, Done, aborted, pardoned, want, nodes, ls, cut);
  }

  /** Every node off the way to `w` behaves well. */
  ghost predicate OthersWell(env: Env, ls: seq<Leaf>, w: seq<Mw>) {
    forall x | OnTrie(x, ls) && !(x <= w) :: env.behave(x).WellBehaved() && env.mapKeyFault(x).None?
  }

  /** The first `k` nodes on the way to `w` let their downstream start, whatever else they do, and nothing else goes wrong. */
  ghost predicate Clear(env: Env, ls: seq<Leaf>, w: seq<Mw>, k: nat) {
    && k <= |w| && OthersWell(env, ls, w)
    && forall i | 0 < i <= k :: env.behave(w[..i]).Opens() && env.mapKeyFault(w[..i]).None?
  }

  /** What a walk is sure to get to, even if it fails afterwards: it passes unharmed what is off a clear way, and gets to the node or leaf
      at its end. `before` and `after`: the signal is aborted. */
  ghost predicate Arrives(r: Exit, ts: seq<Target>, ran: seq<seq<Mw>>, env: Env, ls: seq<Leaf>, s: Spot, want: set<Leaf>, nodes: iset<seq<Mw>>,
                          before: bool, after: bool) {
    !before ==>
      && (forall w | OthersWell(env, ls, w) && !(s.p <= w) :: r.Done? && !after)
      && (forall w | w != [] && Clear(env, ls, w, |w| - 1) && w in nodes && OnTrie(w, ls) && s.Owns(w) :: w in ran)
      && (forall l: Leaf | l in want && l in ls && s.p <= l.path && Clear(env, ls, l.path, |l.path|) :: Reaches(ts, l))
  }

  /** As `Arrives`, in a loop over the entries `es` of `s.p` that has done `es[..i]`. */
  ghost predicate ArrivesTo(ts: seq<Target>, ran: seq<seq<Mw>>, env: Env, ls: seq<Leaf>, s: Spot, want: set<Leaf>, nodes: iset<seq<Mw>>,
                            es: seq<Entry>, i: nat, before: bool, after: bool)
    requires i <= |es|
  {
    !before ==>
      && (forall w | OthersWell(env, ls, w) && (forall k | 0 <= k < i :: !OnWay(es[k], s.p, w)) :: !after)
      && (forall w, k | 0 <= k < i && OnWay(es[k], s.p, w) && Clear(env, ls, w, |w| - 1) && w in nodes && OnTrie(w, ls) :: w in ran)
      && (forall l: Leaf, k | 0 <= k < i && Covers(es[k], s.p, l) && l in want && l in ls && Clear(env, ls, l.path, |l.path|) :: Reaches(ts, l))
  }

  predicate OnWay(e: Entry, p: seq<Mw>, w: seq<Mw>) {
    e.NodeEntry? && p + [e.node.mw] <= w
  }

  lemma NoneArrived(env: Env, ls: seq<Leaf>, s: Spot, want: set<Leaf>, nodes: iset<seq<Mw>>, es: seq<Entry>, now: bool)
    ensures ArrivesTo([], [], env, ls, s, want, nodes, es, 0, now, now)
  {
  }

  /** A leaf entry, or one that is passed over because nothing below it is wanted. */
  lemma LeafArrived(ts: seq<Target>, more: seq<Target>, ran: seq<seq<Mw>>, env: Env, ls: seq<Leaf>, s: Spot, want: set<Leaf>, nodes: iset<seq<Mw>>,
                    es: seq<Entry>, i: nat, before: bool, now: bool)
    requires i < |es| && ArrivesTo(ts, ran, env, ls, s, want, nodes, es, i, before, now)
    requires forall l: Leaf | Covers(es[i], s.p, l) && l in want && l in ls :: Reaches(more, l)
    requires es[i].NodeEntry? ==> forall w | OnWay(es[i], s.p, w) && OnTrie(w, ls) :: w !in nodes
    ensures ArrivesTo(ts + more, ran, env, ls, s, want, nodes, es, i + 1, before, now)
  {
    forall l: Leaf | Reaches(ts, l) || Reaches(more, l) ensures Reaches(ts + more, l) {
      var t :| (t in ts || t in more) && t.leaf == l;
      assert t in ts + more;
    }
    forall w | OthersWell(env, ls, w) && forall k | 0 <= k < i + 1 :: !OnWay(es[k], s.p, w)
      ensures forall k | 0 <= k < i :: !OnWay(es[k], s.p, w) { }
  }

  /** The entry on the way to `w` is the only one. */
  lemma OneOnWay(es: seq<Entry>, p: seq<Mw>, ls: seq<Leaf>, w: seq<Mw>, i: nat, k: nat)
    requires AreEntries(es, p, ls) && i < |es| && k < |es| && OnWay(es[i], p, w) && OnWay(es[k], p, w)
    ensures i == k
  {
    if i < k { NodesDiffer(es, p, ls, i, k); } else if k < i { NodesDiffer(es, p, ls, k, i); }
    assert (p + [es[i].node.mw])[|p|] == w[|p|] == (p + [es[k].node.mw])[|p|];
  }

  lemma NodeArrived(r: Exit, ts: seq<Target>, ran: seq<seq<Mw>>, more: seq<Target>, moreRan: seq<seq<Mw>>, env: Env, ls: seq<Leaf>, s: Spot,
                    want: set<Leaf>, nodes: iset<seq<Mw>>, es: seq<Entry>, i: nat, before: bool, now: bool, after: bool)
    requires AreEntries(es, s.p, ls) && i < |es| && es[i].NodeEntry?
    requires ArrivesTo(ts, ran, env, ls, s, want, nodes, es, i, before, now)
    requires Arrives(r, more, moreRan, env, ls, s.Below(es[i].node), want, nodes, now, after)
    ensures ArrivesTo(ts + more, ran + moreRan, env, ls, s, want, nodes, es, i + 1, before, after)
  {
    hide AreEntries, Clear, OthersWell, Reaches, OnTrie;
    if !before {
      forall w | OthersWell(env, ls, w) && forall k | 0 <= k < i + 1 :: !OnWay(es[k], s.p, w) ensures !after {
        assert forall k | 0 <= k < i :: !OnWay(es[k], s.p, w);
        assert !OnWay(es[i], s.p, w);
      }
      forall w, k | 0 <= k < i + 1 && OnWay(es[k], s.p, w) && Clear(env, ls, w, |w| - 1) && w in nodes && OnTrie(w, ls)
        ensures w in ran + moreRan
      {
        if k == i {
          forall j | 0 <= j < i ensures !OnWay(es[j], s.p, w) { if OnWay(es[j], s.p, w) { OneOnWay(es, s.p, ls, w, i, j); } }
          ClearOthers(env, ls, w, |w| - 1);
        }
      }
      forall l: Leaf, k | 0 <= k < i + 1 && Covers(es[k], s.p, l) && l in want && l in ls && Clear(env, ls, l.path, |l.path|)
        ensures Reaches(ts + more, l)
      {
        if k == i {
          forall j | 0 <= j < i ensures !OnWay(es[j], s.p, l.path) { if OnWay(es[j], s.p, l.path) { OneOnWay(es, s.p, ls, l.path, i, j); } }
          ClearOthers(env, ls, l.path, |l.path|);
        }
        ReachesMore(ts, more, l);
      }
    }
  }

  lemma ReachesMore(ts: seq<Target>, more: seq<Target>, l: Leaf)
    requires Reaches(ts, l) || Reaches(more, l)
    ensures Reaches(ts + more, l)
  {
    var t :| (t in ts || t in more) && t.leaf == l;
    assert t in ts + more;
  }

  lemma ClearOthers(env: Env, ls: seq<Leaf>, w: seq<Mw>, k: nat)
    requires Clear(env, ls, w, k)
    ensures OthersWell(env, ls, w)
  {
  }

  /** The loop ends, after all entries or because one of them failed or the signal is aborted: what a clear way leads to has been passed by
      then. */
  lemma EachArrived(r: Exit, ts: seq<Target>, ran: seq<seq<Mw>>, env: Env, ls: seq<Leaf>, s: Spot, want: set<Leaf>, nodes: iset<seq<Mw>>,
                    es: seq<Entry>, i: nat, before: bool, after: bool)
    requires AreEntries(es, s.p, ls) && !s.at && i <= |es|
    requires ArrivesTo(ts, ran, env, ls, s, want, nodes, es, i, before, after)
    requires (i == |es| && r.Done?) || after || !CleanSoFar(env, ls, s, es, i, before)
    ensures Arrives(r, ts, ran, env, ls, s, want, nodes, before, after)
  {
    hide AreEntries, Clear, Reaches;
    if !before {
      forall w | OthersWell(env, ls, w) && !(s.p <= w) ensures r.Done? && !after {
        forall k | 0 <= k < i ensures !OnWay(es[k], s.p, w) { OffSpot(s.p, es[k], w); }
      }
      forall w | w != [] && Clear(env, ls, w, |w| - 1) && w in nodes && OnTrie(w, ls) && s.Owns(w) ensures w in ran {
        ClearOthers(env, ls, w, |w| - 1);
        var k := EntryOnWay(es, s.p, ls, w);
        if k >= i {
          forall j | 0 <= j < i ensures !OnWay(es[j], s.p, w) { if OnWay(es[j], s.p, w) { OneOnWay(es, s.p, ls, w, k, j); } }
        }
      }
      forall l: Leaf | l in want && l in ls && s.p <= l.path && Clear(env, ls, l.path, |l.path|) ensures Reaches(ts, l) {
        ClearOthers(env, ls, l.path, |l.path|);
        var k := CoveringEntry(es, s.p, ls, l);
        if k >= i {
          forall j | 0 <= j < i ensures !OnWay(es[j], s.p, l.path) {
            if OnWay(es[j], s.p, l.path) { CoveredOnce(es, s.p, ls, l, k, j); }
          }
        }
      }
    }
  }

  /** Some clear way has not been met by the first `i` entries. */
  ghost predicate CleanSoFar(env: Env, ls: seq<Leaf>, s: Spot, es: seq<Entry>, i: nat, before: bool)
    requires i <= |es|
  {
    !before && exists w :: OthersWell(env, ls, w) && forall k | 0 <= k < i :: !OnWay(es[k], s.p, w)
  }

  /** A node entry that failed was on every clear way not met before. */
  lemma FailedOnWay(r: Exit, ts: seq<Target>, ran: seq<seq<Mw>>, more: seq<Target>, moreRan: seq<seq<Mw>>, env: Env, ls: seq<Leaf>, s: Spot,
                    want: set<Leaf>, nodes: iset<seq<Mw>>, es: seq<Entry>, i: nat, before: bool, now: bool, after: bool)
    requires i < |es| && es[i].NodeEntry? && r.Threw?
    requires ArrivesTo(ts, ran, env, ls, s, want, nodes, es, i, before, now)
    requires Arrives(r, more, moreRan, env, ls, s.Below(es[i].node), want, nodes, now, after)
    ensures !CleanSoFar(env, ls, s, es, i + 1, before)
  {
    hide OthersWell, Clear, Reaches, OnTrie;
  }

  lemma OffSpot(p: seq<Mw>, e: Entry, w: seq<Mw>)
    ensures OnWay(e, p, w) ==> p <= w
  {
  }

  lemma EntryOnWay(es: seq<Entry>, p: seq<Mw>, ls: seq<Leaf>, w: seq<Mw>) returns (k: nat)
    requires AreEntries(es, p, ls) && OnTrie(w, ls) && p <= w && p != w
    ensures k < |es| && OnWay(es[k], p, w)
  {
    var l :| l in ls && w <= l.path;
    k := CoveringEntry(es, p, ls, l);
    assert IsEntry(es[k], p, ls);
    assert p + [es[k].node.mw] <= w;
  }

  lemma CoveringEntry(es: seq<Entry>, p: seq<Mw>, ls: seq<Leaf>, l: Leaf) returns (k: nat)
    requires AreEntries(es, p, ls) && l in ls && p <= l.path
    ensures k < |es| && Covers(es[k], p, l)
  {
    k :| 0 <= k < |es| && Covers(es[k], p, l);
  }

  /** The node of `p`: it is on the way, and lets its downstream start, or behaves well. */
  lemma RanArrived(r: Exit, next: Exit, ts: seq<Target>, ran: seq<seq<Mw>>, env: Env, ls: seq<Leaf>, p: seq<Mw>, want: set<Leaf>, nodes: iset<seq<Mw>>,
                   started: bool, before: bool, mid: bool, mid': bool, after: bool, data: Data, key: Key, data': Data, key': Key)
    requires OnTrie(p, ls) && p != []
    requires started ==> Arrives(next, ts, ran, env, ls, Spot(p, |p|, false, data', key'), want, nodes, mid, mid')
    requires !before && env.behave(p).Opens() && env.mapKeyFault(p).None? ==> started && !mid
    requires !before && env.behave(p).WellBehaved() && started && next.Done? && !mid' ==> r.Done? && !after
    ensures Arrives(r, ts, [p] + ran, env, ls, Spot(p, |p| - 1, true, data, key), want, nodes, before, after)
  {
    hide Reaches, OnTrie;
    if !before {
      forall w | w != [] && Clear(env, ls, w, |w| - 1) && w in nodes && OnTrie(w, ls) && p <= w ensures w in [p] + ran {
        if w != p { assert w[..|p|] == p; }
      }
      forall l: Leaf | l in want && l in ls && p <= l.path && Clear(env, ls, l.path, |l.path|) ensures Reaches(ts, l) {
        assert l.path[..|p|] == p;
      }
    }
  }

  /** A middleware breaks the rules in any case, a walk over the `nodes` is sure to get to it, and neither it nor one above it abandons its
      `next()`. */
  ghost predicate SureBreach(env: Env, ls: seq<Leaf>, nodes: iset<seq<Mw>>) {
    exists w :: w != [] && w in nodes && OnTrie(w, ls) && Clear(env, ls, w, |w| - 1) && env.behave(w).BreaksAnyway() && HeardAt(env, 1, w)
  }

  lemma SureIsHeard(ran: seq<seq<Mw>>, visits: VisitLog, env: Env, ls: seq<Leaf>, nodes: iset<seq<Mw>>)
    requires forall w | w != [] && Clear(env, ls, w, |w| - 1) && w in nodes && OnTrie(w, ls) :: w in ran
    requires forall x | x in ran && env.behave(x).BreaksAnyway() :: x in Breakers(env, visits)
    ensures SureBreach(env, ls, nodes) ==> Heard(env, 1, Breakers(env, visits))
  {
    hide Clear, OnTrie, HeardAt, Breakers;
  }

  /** Where nobody abandons its `next()`, every breach is heard. */
  lemma BreachHeard(env: Env, ls: seq<Leaf>, broken: set<seq<Mw>>)
    requires forall x | x in broken :: OnTrie(x, ls)
    ensures NoneAbandonsOn(env, ls) && broken != {} ==> Heard(env, 1, broken)
  {
    if NoneAbandonsOn(env, ls) && broken != {} {
      var x :| x in broken;
      var l :| l in ls && x <= l.path;
      forall i | 1 <= i <= |x| ensures !env.behave(x[..i]).Abandons() {
        assert x[..i] <= x <= l.path;
        assert OnTrie(x[..i], ls);
      }
      assert HeardAt(env, 1, x);
    }
  }

  /** A middleware that does not wait for its `next()`, and nothing else out of the ordinary. */
  function Hasty(tr: Env, path: seq<Mw>, k: nat): Env
    requires 0 < k < |path|
  {
    AllPlainBut(tr, path[..k], Calls(false, true, Detached(false), false, false, Returns), [], Plain)
  }

  /** The walk gets to it, and to the leaf below. */
  lemma HastyReached(tr: Env, ls: seq<Leaf>, l: Leaf, k: nat)
    requires l in ls && 0 < k < |l.path|
    ensures var env, p := Hasty(tr, l.path, k), l.path[..k];
            && Clear(env, ls, p, |p| - 1) && OnTrie(p, ls) && Clear(env, ls, l.path, |l.path|)
            && NeverAbortsOn(env, ls) && NoneAbandonsOn(env, ls) && env.behave(p).Detaches() && env.behave(p).BreaksAnyway()
  {
    var p := l.path[..k];
    assert forall i | 0 < i < k :: p[..i] == l.path[..i] && |p[..i]| == i;
  }

  /** A middleware that fails while its `next()` is running, above one that never calls `next()`. */
  function Abandoned(tr: Env, path: seq<Mw>, k: nat): Env
    requires 0 < k < |path|
  {
    AllPlainBut(tr, path[..k], Calls(false, true, Detached(false), false, false, Throws(Failed(0))), path[..k + 1], Skips(false, Returns))
  }

  /** The walk gets to the lower of the two, and nobody hears of its breach. */
  lemma AbandonedUnheard(tr: Env, ls: seq<Leaf>, l: Leaf, k: nat, broken: set<seq<Mw>>)
    requires l in ls && 0 < k < |l.path|
    requires forall x | x in broken :: !CompliantAt(Abandoned(tr, l.path, k), x)
    ensures var env, w := Abandoned(tr, l.path, k), l.path[..k + 1];
            && Clear(env, ls, w, |w| - 1) && OnTrie(w, ls) && NeverAbortsOn(env, ls) && !Heard(env, 1, broken)
            && env.behave(w) == Skips(false, Returns)
  {
    var p, w := l.path[..k], l.path[..k + 1];
    var env := Abandoned(tr, l.path, k);
    assert w[..k] == p;
    forall x | x in broken ensures !HeardAt(env, 1, x) {
      assert x == p || x == w;
      assert x[..k] == p;
    }
  }

  lemma BreakersBroke(ts: seq<Target>, ran: seq<seq<Mw>>, visits: VisitLog, env: Env, ls: seq<Leaf>, s: Spot, want: set<Leaf>, nodes: iset<seq<Mw>>, aborted: bool)
    requires Logged(ts, ran, visits, env, ls, s, want, nodes, aborted)
    ensures forall x | x in ran && env.behave(x).BreaksAnyway() :: x in Breakers(env, visits)
    ensures forall x | x in Breakers(env, visits) :: x in ran && OnTrie(x, ls)
  {
    hide Below, OnTrie, Broke, Begun;
    forall x | x in ran && env.behave(x).BreaksAnyway() ensures x in Breakers(env, visits) {
      BreaksOrNot(env.behave(x), env.mapKeyFault(x), visits[x]);
    }
  }

  lemma CompliantNotBroken(ts: seq<Target>, ran: seq<seq<Mw>>, visits: VisitLog, env: Env, ls: seq<Leaf>, s: Spot, want: set<Leaf>, nodes: iset<seq<Mw>>, aborted: bool)
    requires Logged(ts, ran, visits, env, ls, s, want, nodes, aborted)
    ensures forall x | x in Breakers(env, visits) :: !CompliantAt(env, x)
  {
    hide Below, OnTrie, Broke, Begun;
    forall x | x in Breakers(env, visits) ensures !CompliantAt(env, x) {
      BreaksOrNot(env.behave(x), env.mapKeyFault(x), visits[x]);
    }
  }
}
