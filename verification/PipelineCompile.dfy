/** PipelineGraph.compile: from destination chains to the finished trie. */
module PipelineCompile {
  import opened Sequences
  import opened PipelineTrie

  /** A node under construction, or the level at the root. `children` pairs each child with its middleware, in creation order. */
  class Level {
    var leaves: seq<Leaf>
    var children: seq<(Mw, Level)>

    constructor ()
      ensures leaves == [] && children == []
    {
      leaves, children := [], [];
    }
  }

  /** The middlewares that follow `p` in some chain, in the order of their first occurrence. */
  function Nexts(chains: seq<seq<Mw>>, p: seq<Mw>): (r: seq<Mw>)
    ensures Distinct(r)
    ensures forall m :: m in r <==> exists j :: 0 <= j < |chains| && p + [m] <= chains[j]
  {
    if chains == [] then []
    else
      var init, last := chains[..|chains| - 1], chains[|chains| - 1];
      var r := Nexts(init, p);
      assert forall j | 0 <= j < |chains| :: chains[j] == if j < |init| then init[j] else last;
      if p < last && last[|p|] !in r then
        assert p + [last[|p|]] <= last;
        r + [last[|p|]]
      else r
  }

  /** There is a node for `p` (or `p` is the root). */
  ghost predicate Reached(p: seq<Mw>, chains: seq<seq<Mw>>) {
    p == [] || exists j :: 0 <= j < |chains| && p <= chains[j]
  }

  /** One level for each prefix of a chain, and no other. */
  ghost predicate Levels(nodes: map<seq<Mw>, Level>, chains: seq<seq<Mw>>) {
    && (forall p :: p in nodes <==> Reached(p, chains))
    && (forall p, q | p in nodes && q in nodes && nodes[p] == nodes[q] :: p == q)
  }

  /** `kids` are the levels one below `p`, in order of first occurrence. */
  ghost predicate Kids(kids: seq<(Mw, Level)>, p: seq<Mw>, nodes: map<seq<Mw>, Level>, chains: seq<seq<Mw>>) {
    && |kids| == |Nexts(chains, p)|
    && forall i | 0 <= i < |kids| ::
         && kids[i].0 == Nexts(chains, p)[i]
         && p + [kids[i].0] in nodes && kids[i].1 == nodes[p + [kids[i].0]]
  }

  /** The mutable trie of the leaves `ls`, while `chains` are the chains walked so far. */
  ghost predicate Built(nodes: map<seq<Mw>, Level>, chains: seq<seq<Mw>>, ls: seq<Leaf>)
    reads nodes.Values
  {
    Levels(nodes, chains)
    && forall p | p in nodes :: nodes[p].leaves == At(ls, p) && Kids(nodes[p].children, p, nodes, chains)
  }

  method Find(siblings: seq<(Mw, Level)>, mw: Mw) returns (n: Level?)
    ensures n == null ==> forall i | 0 <= i < |siblings| :: siblings[i].0 != mw
    ensures n != null ==> exists i :: 0 <= i < |siblings| && siblings[i] == (mw, n)
  {
    for i := 0 to |siblings|
      invariant forall k | 0 <= k < i :: siblings[k].0 != mw
    {
      if siblings[i].0 == mw { return siblings[i].1; }
    }
    return null;
  }

  lemma NextsMore(chains: seq<seq<Mw>>, q: seq<Mw>, mw: Mw, p: seq<Mw>)
    ensures Nexts(chains + [q + [mw]], p) ==
            if p == q && mw !in Nexts(chains, p) then Nexts(chains, p) + [mw] else Nexts(chains + [q], p)
    ensures p == q ==> Nexts(chains + [q], p) == Nexts(chains, p)
  {
    var longer, shorter := chains + [q + [mw]], chains + [q];
    assert longer[..|chains|] == chains && shorter[..|chains|] == chains;
    if p <= q && |p| < |q| { assert (q + [mw])[|p|] == q[|p|]; }
  }

  lemma ReachedMore(chains: seq<seq<Mw>>, q: seq<Mw>, mw: Mw, p: seq<Mw>)
    ensures Reached(p, chains + [q + [mw]]) <==> Reached(p, chains + [q]) || p == q + [mw]
  {
    var longer, shorter := chains + [q + [mw]], chains + [q];
    assert longer[|chains|] == q + [mw] && shorter[|chains|] == q;
    assert forall j | 0 <= j < |chains| :: longer[j] == chains[j] == shorter[j];
    if p <= q + [mw] && p != q + [mw] { assert p <= q; }
  }

  lemma ChainsUnchanged(nodes: map<seq<Mw>, Level>, chains: seq<seq<Mw>>, q: seq<Mw>, mw: Mw, ls: seq<Leaf>)
    requires Built(nodes, chains + [q], ls) && mw in Nexts(chains, q)
    ensures Built(nodes, chains + [q + [mw]], ls)
  {
    var j :| 0 <= j < |chains| && q + [mw] <= chains[j];
    assert (chains + [q])[j] == chains[j];
    forall p ensures p in nodes <==> Reached(p, chains + [q + [mw]]) {
      ReachedMore(chains, q, mw, p);
    }
    hide Kids, Reached;
    forall p | p in nodes ensures Kids(nodes[p].children, p, nodes, chains + [q + [mw]]) {
      NextsMore(chains, q, mw, p);
      KidsStill(nodes[p].children, p, nodes, nodes, chains + [q], chains + [q + [mw]]);
    }
  }

  lemma NoneAt(ls: seq<Leaf>, r: seq<Mw>)
    ensures (forall l | l in ls :: l.path != r) ==> At(ls, r) == []
  {
    assert At(ls, r) == [] || At(ls, r)[0] in At(ls, r);
  }

  lemma {:induction false} NextsNone(chains: seq<seq<Mw>>, p: seq<Mw>)
    requires forall j | 0 <= j < |chains| :: p <= chains[j] ==> p == chains[j]
    ensures Nexts(chains, p) == []
  {
    if chains != [] { NextsNone(chains[..|chains| - 1], p); }
  }

  lemma NothingBelow(chains: seq<seq<Mw>>, q: seq<Mw>, mw: Mw, ls: seq<Leaf>)
    requires mw !in Nexts(chains, q)
    requires forall l | l in ls :: l.path in chains
    ensures At(ls, q + [mw]) == [] && Nexts(chains + [q + [mw]], q + [mw]) == []
    ensures !Reached(q + [mw], chains + [q])
  {
    var r := q + [mw];
    NoneAt(ls, r);
    NextsNone(chains + [r], r);
  }

  lemma LevelsGrow(nodes: map<seq<Mw>, Level>, node: Level, chains: seq<seq<Mw>>, q: seq<Mw>, mw: Mw, ls: seq<Leaf>)
    requires Levels(nodes, chains + [q]) && node !in nodes.Values
    requires mw !in Nexts(chains, q) && forall l | l in ls :: l.path in chains
    ensures q + [mw] !in nodes && Levels(nodes[q + [mw] := node], chains + [q + [mw]])
    ensures At(ls, q + [mw]) == [] && Nexts(chains + [q + [mw]], q + [mw]) == []
  {
    NothingBelow(chains, q, mw, ls);
    forall p ensures p in nodes[q + [mw] := node] <==> Reached(p, chains + [q + [mw]]) {
      ReachedMore(chains, q, mw, p);
    }
  }

  lemma KidsStill(kids: seq<(Mw, Level)>, p: seq<Mw>, nodes: map<seq<Mw>, Level>, nodes': map<seq<Mw>, Level>,
                  shorter: seq<seq<Mw>>, longer: seq<seq<Mw>>)
    requires Kids(kids, p, nodes, shorter) && Nexts(longer, p) == Nexts(shorter, p)
    requires forall r | r in nodes :: r in nodes' && nodes'[r] == nodes[r]
    ensures Kids(kids, p, nodes', longer)
  {
  }

  lemma KidsPlus(kids: seq<(Mw, Level)>, q: seq<Mw>, mw: Mw, node: Level, nodes: map<seq<Mw>, Level>,
                 shorter: seq<seq<Mw>>, longer: seq<seq<Mw>>)
    requires Kids(kids, q, nodes, shorter) && Nexts(longer, q) == Nexts(shorter, q) + [mw] && q + [mw] !in nodes
    ensures Kids(kids + [(mw, node)], q, nodes[q + [mw] := node], longer)
  {
  }

  /** Before the push, every level already fits the grown trie, except that the one at `q` lacks its new child. */
  lemma Growth(q: seq<Mw>, mw: Mw, node: Level, nodes: map<seq<Mw>, Level>, nodes': map<seq<Mw>, Level>,
               chains: seq<seq<Mw>>, longer: seq<seq<Mw>>, ls: seq<Leaf>)
    requires Built(nodes, chains + [q], ls) && q in nodes
    requires forall l | l in ls :: l.path in chains
    requires mw !in Nexts(chains, q) && node !in nodes.Values
    requires nodes' == nodes[q + [mw] := node] && longer == chains + [q + [mw]]
    ensures q + [mw] !in nodes && Levels(nodes', longer)
    ensures At(ls, q + [mw]) == [] && Kids([], q + [mw], nodes', longer)
    ensures forall p | p in nodes && p != q :: nodes[p] != nodes[q] && Kids(nodes[p].children, p, nodes', longer)
    ensures Kids(nodes[q].children + [(mw, node)], q, nodes', longer)
  {
    LevelsGrow(nodes, node, chains, q, mw, ls);
    assert Kids([], q + [mw], nodes', longer);
    hide Kids, Nexts, At, Reached;
    forall p | p in nodes && p != q ensures Kids(nodes[p].children, p, nodes', longer) {
      NextsMore(chains, q, mw, p);
      KidsStill(nodes[p].children, p, nodes, nodes', chains + [q], longer);
    }
    NextsMore(chains, q, mw, q);
    KidsPlus(nodes[q].children, q, mw, node, nodes, chains + [q], longer);
  }

  /** `siblings.push(node)`: the level at `q` gets a new child. */
  method Attach(ghost q: seq<Mw>, at: Level, mw: Mw, node: Level, ghost nodes: map<seq<Mw>, Level>, ghost chains: seq<seq<Mw>>, ghost ls: seq<Leaf>)
    requires Built(nodes, chains + [q], ls) && q in nodes && nodes[q] == at
    requires forall l | l in ls :: l.path in chains
    requires mw !in Nexts(chains, q) && node !in nodes.Values && node.leaves == [] && node.children == []
    modifies at`children
    ensures Built(nodes[q + [mw] := node], chains + [q + [mw]], ls)
  {
    ghost var nodes', longer := nodes[q + [mw] := node], chains + [q + [mw]];
    Growth(q, mw, node, nodes, nodes', chains, longer, ls);
    hide Kids, Nexts, At, Levels;
    at.children := at.children + [(mw, node)];
    forall p | p in nodes' ensures nodes'[p].leaves == At(ls, p) && Kids(nodes'[p].children, p, nodes', longer) {
      if p in nodes && p != q { assert nodes'[p] == nodes[p] != at; }
    }
  }

  /** One iteration of the inner loop of `compile`: below `q`, find the child for `mw` or create it. */
  method Enter(ghost q: seq<Mw>, at: Level, mw: Mw, ghost nodes: map<seq<Mw>, Level>, ghost chains: seq<seq<Mw>>, ghost ls: seq<Leaf>)
    returns (node: Level, created: bool)
    requires Built(nodes, chains + [q], ls) && q in nodes && nodes[q] == at
    requires forall l | l in ls :: l.path in chains
    modifies at`children
    ensures created == (q + [mw] !in nodes) && (if created then fresh(node) else node == nodes[q + [mw]])
    ensures Built(nodes[q + [mw] := node], chains + [q + [mw]], ls)
  {
    hide Nexts, At, Reached;
    assert Kids(at.children, q, nodes, chains + [q]);
    NextsMore(chains, q, mw, q);
    var found := Find(at.children, mw);
    if found != null {
      node, created := found, false;
      ChainsUnchanged(nodes, chains, q, mw, ls);
      assert nodes[q + [mw] := node] == nodes;
    } else {
      node := new Level();
      created := true;
      NothingBelow(chains, q, mw, ls);
      Attach(q, at, mw, node, nodes, chains, ls);
    }
  }

  lemma ReachedIsMentioned(chains: seq<seq<Mw>>, q: seq<Mw>, mw: Mw)
    requires Reached(q + [mw], chains + [q])
    ensures mw in Flatten(chains)
  {
    var j :| 0 <= j < |chains + [q]| && q + [mw] <= (chains + [q])[j];
    assert mw == chains[j][|q|];
    FlattenMember(chains, mw);
  }

  /** A newly created node's middleware joins the open/close/use list, unless an earlier node has it. */
  method Note(middlewares: seq<Mw>, created: bool, mw: Mw, ghost before: seq<Mw>) returns (middlewares': seq<Mw>)
    requires middlewares == FirstOccurrences(before)
    requires created || mw in before
    ensures middlewares' == FirstOccurrences(before + [mw])
  {
    middlewares' := middlewares;
    FirstOccurrencesAppend(before, mw);
    if created && mw !in middlewares {
      middlewares' := middlewares + [mw];
    }
  }

  lemma RepairMore(q: seq<Mw>, mw: Mw)
    ensures AllowsRepair(q + [mw]) <==> AllowsRepair(q) || mw.name == "AllowRepair"
  {
    if AllowsRepair(q) {
      var k :| 0 <= k < |q| && q[k].name == "AllowRepair";
      assert (q + [mw])[k].name == "AllowRepair";
    }
    if mw.name == "AllowRepair" { assert (q + [mw])[|q|].name == "AllowRepair"; }
  }

  /** What holds when the chain walked so far is `q`. */
  ghost predicate Walking(q: seq<Mw>, root: Level, parent: Level, canRepair: bool, middlewares: seq<Mw>,
                          nodes: map<seq<Mw>, Level>, chains: seq<seq<Mw>>, ls: seq<Leaf>)
    reads nodes.Values
  {
    && Built(nodes, chains + [q], ls) && [] in nodes && nodes[[]] == root && q in nodes && nodes[q] == parent
    && canRepair == AllowsRepair(q) && middlewares == FirstOccurrences(Flatten(chains) + q)
  }

  /** One iteration of the inner loop of `compile`. */
  method Step(ghost q: seq<Mw>, ghost root: Level, parent: Level, mw: Mw, canRepair: bool, middlewares: seq<Mw>,
              ghost nodes: map<seq<Mw>, Level>, ghost chains: seq<seq<Mw>>, ghost ls: seq<Leaf>)
    returns (node: Level, canRepair': bool, middlewares': seq<Mw>, ghost nodes': map<seq<Mw>, Level>)
    requires Walking(q, root, parent, canRepair, middlewares, nodes, chains, ls)
    requires forall l | l in ls :: l.path in chains
    modifies parent`children
    ensures forall n | n in nodes'.Values :: n in nodes.Values || fresh(n)
    ensures Walking(q + [mw], root, node, canRepair', middlewares', nodes', chains, ls)
  {
    hide Built, AllowsRepair, FirstOccurrences, Flatten;
    if q + [mw] in nodes { KnownIsMentioned(nodes, chains, q, mw, ls); }
    var created;
    node, created := Enter(q, parent, mw, nodes, chains, ls);
    middlewares' := Note(middlewares, created, mw, Flatten(chains) + q);
    Associate(Flatten(chains), q, mw);
    RepairMore(q, mw);
    canRepair' := if mw.name == "AllowRepair" then true else canRepair;
    nodes' := nodes[q + [mw] := node];
  }

  /** The inner loop of `compile`: walk one chain down the trie, creating what is missing. */
  method Descend(root: Level, mws: seq<Mw>, middlewares: seq<Mw>,
                 ghost nodes: map<seq<Mw>, Level>, ghost chains: seq<seq<Mw>>, ghost ls: seq<Leaf>)
    returns (parent: Level, canRepair: bool, middlewares': seq<Mw>, ghost nodes': map<seq<Mw>, Level>)
    requires Walking([], root, root, false, middlewares, nodes, chains, ls)
    requires forall l | l in ls :: l.path in chains
    modifies nodes.Values`children
    ensures forall n | n in nodes'.Values :: n in nodes.Values || fresh(n)
    ensures Walking(mws, root, parent, canRepair, middlewares', nodes', chains, ls)
  {
    hide Walking;
    parent, canRepair, middlewares', nodes' := root, false, middlewares, nodes;
    ParentIsNode([], root, parent, canRepair, middlewares', nodes', chains, ls);
    for i := 0 to |mws|
      invariant parent in nodes.Values || fresh(parent)
      invariant forall n | n in nodes'.Values :: n in nodes.Values || fresh(n)
      invariant Walking(mws[..i], root, parent, canRepair, middlewares', nodes', chains, ls)
    {
      parent, canRepair, middlewares', nodes' := Step(mws[..i], root, parent, mws[i], canRepair, middlewares', nodes', chains, ls);
      assert mws[..i + 1] == mws[..i] + [mws[i]];
      ParentIsNode(mws[..i + 1], root, parent, canRepair, middlewares', nodes', chains, ls);
    }
    assert mws[..|mws|] == mws;
  }

  lemma ParentIsNode(q: seq<Mw>, root: Level, parent: Level, canRepair: bool, middlewares: seq<Mw>,
                     nodes: map<seq<Mw>, Level>, chains: seq<seq<Mw>>, ls: seq<Leaf>)
    requires Walking(q, root, parent, canRepair, middlewares, nodes, chains, ls)
    ensures parent in nodes.Values
  {
  }

  lemma KnownIsMentioned(nodes: map<seq<Mw>, Level>, chains: seq<seq<Mw>>, q: seq<Mw>, mw: Mw, ls: seq<Leaf>)
    requires Built(nodes, chains + [q], ls) && q + [mw] in nodes
    ensures mw in Flatten(chains)
  {
    ReachedIsMentioned(chains, q, mw);
  }

  lemma Associate(before: seq<Mw>, q: seq<Mw>, mw: Mw)
    ensures (before + q) + [mw] == before + (q + [mw])
  {
  }

  lemma RootChain(chains: seq<seq<Mw>>, p: seq<Mw>)
    ensures Nexts(chains + [[]], p) == Nexts(chains, p)
    ensures Reached(p, chains + [[]]) <==> Reached(p, chains)
  {
    assert (chains + [[]])[..|chains|] == chains;
    assert forall j | 0 <= j < |chains| :: (chains + [[]])[j] == chains[j];
  }

  lemma BuiltAtRoot(nodes: map<seq<Mw>, Level>, chains: seq<seq<Mw>>, ls: seq<Leaf>)
    ensures Built(nodes, chains + [[]], ls) <==> Built(nodes, chains, ls)
  {
    forall p ensures Nexts(chains + [[]], p) == Nexts(chains, p) && (Reached(p, chains + [[]]) <==> Reached(p, chains)) {
      RootChain(chains, p);
    }
  }

  /** The leaf of the chain just walked joins the level where the chain ends. */
  method Place(parent: Level, leaf: Leaf, ghost nodes: map<seq<Mw>, Level>, ghost chains: seq<seq<Mw>>, ghost ls: seq<Leaf>)
    requires Built(nodes, chains, ls) && leaf.path in nodes && nodes[leaf.path] == parent
    modifies parent`leaves
    ensures Built(nodes, chains, ls + [leaf])
  {
    hide Kids, Reached, Filter;
    assert forall p | p in nodes && p != leaf.path :: nodes[p] != parent;
    forall p ensures At(ls + [leaf], p) == At(ls, p) + if leaf.path == p then [leaf] else [] {
      FilterAppend(ls, leaf, (l: Leaf) => l.path == p);
    }
    parent.leaves := parent.leaves + [leaf];
  }

  function Paths(ls: seq<Leaf>): seq<seq<Mw>> {
    seq(|ls|, i requires 0 <= i < |ls| => ls[i].path)
  }

  /** What holds when the destinations of `ls` are registered. */
  ghost predicate Registered(ls: seq<Leaf>, root: Level, middlewares: seq<Mw>, nodes: map<seq<Mw>, Level>)
    reads nodes.Values
  {
    && Built(nodes, Paths(ls), ls) && [] in nodes && nodes[[]] == root
    && middlewares == FirstOccurrences(Flatten(Paths(ls)))
  }

  /** One iteration of the outer loop of `compile`. */
  method Register(root: Level, dest: Destination, ls: seq<Leaf>, middlewares: seq<Mw>, ghost nodes: map<seq<Mw>, Level>)
    returns (ls': seq<Leaf>, middlewares': seq<Mw>, ghost nodes': map<seq<Mw>, Level>)
    requires Registered(ls, root, middlewares, nodes)
    modifies nodes.Values
    ensures forall n | n in nodes'.Values :: n in nodes.Values || fresh(n)
    ensures ls' == ls + [Leaf(|ls|, dest.storage, AllowsRepair(dest.middlewares), dest.middlewares)]
    ensures Registered(ls', root, middlewares', nodes')
  {
    hide Built, FirstOccurrences, Flatten, AllowsRepair;
    Start(ls, root, middlewares, nodes);
    var parent, canRepair;
    parent, canRepair, middlewares', nodes' := Descend(root, dest.middlewares, middlewares, nodes, Paths(ls), ls);
    var leaf := Leaf(|ls|, dest.storage, canRepair, dest.middlewares);
    Place(parent, leaf, nodes', Paths(ls) + [dest.middlewares], ls);
    ls' := ls + [leaf];
    PathsAppend(ls, leaf);
  }

  lemma Start(ls: seq<Leaf>, root: Level, middlewares: seq<Mw>, nodes: map<seq<Mw>, Level>)
    requires Registered(ls, root, middlewares, nodes)
    ensures Walking([], root, root, false, middlewares, nodes, Paths(ls), ls)
    ensures forall l | l in ls :: l.path in Paths(ls)
  {
    BuiltAtRoot(nodes, Paths(ls), ls);
    assert Flatten(Paths(ls)) + [] == Flatten(Paths(ls));
    forall l | l in ls ensures l.path in Paths(ls) {
      var i :| 0 <= i < |ls| && ls[i] == l;
      assert Paths(ls)[i] == l.path;
    }
  }

  lemma PathsAppend(ls: seq<Leaf>, leaf: Leaf)
    ensures Paths(ls + [leaf]) == Paths(ls) + [leaf.path]
    ensures Flatten(Paths(ls + [leaf])) == Flatten(Paths(ls)) + leaf.path
  {
    assert Paths(ls + [leaf]) == Paths(ls) + [leaf.path];
    assert Paths(ls + [leaf])[..|ls|] == Paths(ls);
  }
}
