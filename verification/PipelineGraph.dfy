/** The compiled pipeline graph and `PipelineGraph.compile` as a whole. */
module PipelineGraph {
  import opened Sequences
  import opened PipelineTrie
  import opened PipelineCompile
  import opened PipelineFinalize

  /** The read-only fields of a compiled graph. */
  datatype Graph = Graph(leaves: seq<Leaf>, entries: seq<Entry>, middlewares: seq<Mw>, leafIndexes: map<Mw, set<nat>>)
  {
    /** `leafIndexesOf` */
    function LeafIndexesOf(m: Mw): set<nat> {
      if m in leafIndexes then leafIndexes[m] else {}
    }
  }

  function Chains(dests: seq<Destination>): seq<seq<Mw>> {
    seq(|dests|, i requires 0 <= i < |dests| => dests[i].middlewares)
  }

  /** `g` is the compiled form of `dests`: its leaves are the destinations in registration order, its entries are the trie of
      their chains, its middlewares are the first occurrences, and each middleware knows the destinations whose chain has it. */
  ghost predicate IsGraphOf(g: Graph, dests: seq<Destination>) {
    && g.leaves == LeavesOf(dests)
    && AreEntries(g.entries, [], g.leaves)
    && g.middlewares == FirstOccurrences(Flatten(Chains(dests)))
    && forall m, i :: i in g.LeafIndexesOf(m) <==> 0 <= i < |dests| && m in dests[i].middlewares
  }

  /** Some leaf at or below `q` has index `x` and the middleware `m` at position `from` of its path or later. */
  ghost predicate Has(ls: seq<Leaf>, q: seq<Mw>, from: nat, m: Mw, x: nat) {
    exists l :: l in ls && q <= l.path && l.index == x && InTail(l.path, from, m)
  }

  predicate InTail(path: seq<Mw>, from: nat, m: Mw) {
    exists i :: from <= i < |path| && path[i] == m
  }

  function Recorded(indexes: map<Mw, set<nat>>, m: Mw): set<nat> {
    if m in indexes then indexes[m] else {}
  }

  lemma TailStep(path: seq<Mw>, from: nat, m: Mw)
    requires from < |path|
    ensures InTail(path, from, m) <==> m == path[from] || InTail(path, from + 1, m)
  {
  }

  /** What a node adds is its own middleware for all its leaves, and what its entries add. */
  lemma NodeAdds(n: Node, q: seq<Mw>, ls: seq<Leaf>, m: Mw, x: nat)
    requires IsNode(n, q, ls)
    ensures Has(ls, q, |q| - 1, m, x) <==>
            (m == n.mw && exists l :: l in n.allLeaves && l.index == x) || Has(ls, q, |q|, m, x)
  {
    forall l | l in ls && q <= l.path
      ensures InTail(l.path, |q| - 1, m) <==> m == n.mw || InTail(l.path, |q|, m)
    {
      TailStep(l.path, |q| - 1, m);
      assert l.path[|q| - 1] == q[|q| - 1];
    }
    if Has(ls, q, |q| - 1, m, x) {
      var l :| l in ls && q <= l.path && l.index == x && InTail(l.path, |q| - 1, m);
      assert l in n.allLeaves;
    }
  }

  /** What the entries of `p` add is what the nodes among them add. */
  lemma EntriesAdd(es: seq<Entry>, p: seq<Mw>, ls: seq<Leaf>, m: Mw, x: nat)
    requires AreEntries(es, p, ls)
    ensures Has(ls, p, |p|, m, x) <==>
            exists k :: 0 <= k < |es| && es[k].NodeEntry? && Has(ls, p + [es[k].node.mw], |p|, m, x)
  {
    if Has(ls, p, |p|, m, x) {
      var l :| l in ls && p <= l.path && l.index == x && InTail(l.path, |p|, m);
      var k :| 0 <= k < |es| && Covers(es[k], p, l);
      assert IsEntry(es[k], p, ls);
    }
    if k :| 0 <= k < |es| && es[k].NodeEntry? && Has(ls, p + [es[k].node.mw], |p|, m, x) {
      var l :| l in ls && p + [es[k].node.mw] <= l.path && l.index == x && InTail(l.path, |p|, m);
      assert p <= p + [es[k].node.mw];
    }
  }

  /** `collectLeafIndexes` */
  method CollectNode(n: Node, ghost q: seq<Mw>, ghost ls: seq<Leaf>, indexes: map<Mw, set<nat>>) returns (r: map<Mw, set<nat>>)
    requires IsNode(n, q, ls)
    ensures forall m, x :: x in Recorded(r, m) <==> x in Recorded(indexes, m) || Has(ls, q, |q| - 1, m, x)
    decreases n, 1
  {
    var own := set l | l in n.allLeaves :: l.index;
    var noted := indexes[n.mw := Recorded(indexes, n.mw) + own];
    r := CollectEntries(n.entries, q, ls, noted);
    hide IsNode, AreEntries, Has;
    forall m, x ensures x in Recorded(r, m) <==> x in Recorded(indexes, m) || Has(ls, q, |q| - 1, m, x) {
      NodeAdds(n, q, ls, m, x);
    }
  }

  method CollectEntries(es: seq<Entry>, ghost p: seq<Mw>, ghost ls: seq<Leaf>, indexes: map<Mw, set<nat>>) returns (r: map<Mw, set<nat>>)
    requires AreEntries(es, p, ls)
    ensures forall m, x :: x in Recorded(r, m) <==> x in Recorded(indexes, m) || Has(ls, p, |p|, m, x)
    decreases es, 0
  {
    r := indexes;
    for i := 0 to |es|
      invariant forall m, x :: x in Recorded(r, m) <==>
        (x in Recorded(indexes, m) || exists k :: 0 <= k < i && es[k].NodeEntry? && Has(ls, p + [es[k].node.mw], |p|, m, x))
    {
      if es[i].NodeEntry? {
        assert IsEntry(es[i], p, ls);
        assert es decreases to es[i];
        r := CollectNode(es[i].node, p + [es[i].node.mw], ls, r);
      }
    }
    forall m, x ensures x in Recorded(r, m) <==> x in Recorded(indexes, m) || Has(ls, p, |p|, m, x) {
      EntriesAdd(es, p, ls, m, x);
    }
  }

  lemma MaxLength(ls: seq<Leaf>) returns (height: nat)
    ensures forall l | l in ls :: |l.path| <= height
  {
    height := 0;
    for i := 0 to |ls|
      invariant forall k | 0 <= k < i :: |ls[k].path| <= height
    {
      if |ls[i].path| > height { height := |ls[i].path|; }
    }
  }

  lemma RegisteredIsReady(ls: seq<Leaf>, root: Level, middlewares: seq<Mw>, nodes: map<seq<Mw>, Level>, height: nat)
    requires Registered(ls, root, middlewares, nodes) && Ascending(ls, ByIndex)
    requires forall l | l in ls :: |l.path| <= height
    ensures Ready(nodes, ls, height) && [] in nodes && nodes[[]] == root && root.leaves == At(ls, [])
  {
    forall q | q in nodes ensures |q| <= height {
      if q != [] {
        var j :| 0 <= j < |Paths(ls)| && q <= Paths(ls)[j];
        assert ls[j] in ls;
      }
    }
  }

  lemma AllUnderRoot(ls: seq<Leaf>)
    ensures Under(ls, []) == ls
  {
    FilterAll(ls, (l: Leaf) => [] <= l.path);
  }

  lemma Done(dests: seq<Destination>, ls: seq<Leaf>)
    requires |ls| == |dests| && forall j | 0 <= j < |dests| :: ls[j] == LeafOf(dests, j)
    ensures ls == LeavesOf(dests) && Paths(ls) == Chains(dests)
  {
    assert ls == LeavesOf(dests);
    assert Paths(ls) == Chains(dests);
  }

  lemma AllIndexes(dests: seq<Destination>, m: Mw, x: nat)
    ensures Has(LeavesOf(dests), [], 0, m, x) <==> x < |dests| && m in dests[x].middlewares
  {
    var ls := LeavesOf(dests);
    if x < |dests| && m in dests[x].middlewares {
      assert ls[x] in ls && [] <= ls[x].path;
      var i :| 0 <= i < |dests[x].middlewares| && dests[x].middlewares[i] == m;
      assert InTail(ls[x].path, 0, m);
    }
  }

  lemma NothingBuilt()
    ensures forall root: Level :: root.leaves == [] && root.children == [] ==> Registered([], root, [], map[[] := root])
  {
    forall root: Level | root.leaves == [] && root.children == [] ensures Registered([], root, [], map[[] := root]) {
      forall p ensures Reached(p, []) <==> p == [] { }
    }
  }

  /** The part of `compile` after its loop: finalize the children of the root and collect the leaf indexes. */
  method Finish(root: Level, ls: seq<Leaf>, middlewares: seq<Mw>, ghost nodes: map<seq<Mw>, Level>, ghost dests: seq<Destination>)
    returns (g: Graph)
    requires Registered(ls, root, middlewares, nodes) && ls == LeavesOf(dests)
    ensures IsGraphOf(g, dests)
  {
    hide Registered, AreEntries, Ready, Has, FirstOccurrences, Flatten, AllowsRepair, IsGraphOf, Children, Filter;
    Done(dests, ls);
    LeavesAscend(dests);
    MiddlewaresOf(ls, root, middlewares, nodes);
    ghost var height := MaxLength(ls);
    RegisteredIsReady(ls, root, middlewares, nodes, height);
    var children := FinalizeChildren(root, [], nodes, ls, height);
    var entries, leaves := SummarizeLevel(root.leaves, children, [], ls);
    AllUnderRoot(ls);
    var indexes := CollectEntries(entries, [], ls, map[]);
    g := Graph(leaves, entries, middlewares, indexes);
    Assembled(g, dests);
  }

  lemma Assembled(g: Graph, dests: seq<Destination>)
    requires g.leaves == LeavesOf(dests) && AreEntries(g.entries, [], g.leaves)
    requires g.middlewares == FirstOccurrences(Flatten(Chains(dests)))
    requires forall m, x :: x in Recorded(g.leafIndexes, m) <==> Has(g.leaves, [], 0, m, x)
    ensures IsGraphOf(g, dests)
  {
    forall m, x: nat ensures Has(g.leaves, [], 0, m, x) <==> x < |dests| && m in dests[x].middlewares { AllIndexes(dests, m, x); }
    assert forall m :: g.LeafIndexesOf(m) == Recorded(g.leafIndexes, m);
  }

  /** `PipelineGraph.compile` */
  method Compile(dests: seq<Destination>) returns (g: Graph)
    ensures IsGraphOf(g, dests)
  {
    hide Registered, IsGraphOf, AllowsRepair;
    var root := new Level();
    NothingBuilt();
    var ls: seq<Leaf>, middlewares: seq<Mw> := [], [];
    ghost var nodes: map<seq<Mw>, Level> := map[[] := root];
    for k := 0 to |dests|
      invariant forall n | n in nodes.Values :: fresh(n)
      invariant |ls| == k && forall j | 0 <= j < k :: ls[j] == LeafOf(dests, j)
      invariant Registered(ls, root, middlewares, nodes)
    {
      ls, middlewares, nodes := Register(root, dests[k], ls, middlewares, nodes);
    }
    Done(dests, ls);
    g := Finish(root, ls, middlewares, nodes, dests);
  }

  lemma MiddlewaresOf(ls: seq<Leaf>, root: Level, middlewares: seq<Mw>, nodes: map<seq<Mw>, Level>)
    requires Registered(ls, root, middlewares, nodes)
    ensures middlewares == FirstOccurrences(Flatten(Paths(ls)))
  {
  }
}
