/** finalize, summarizeLevel, createEntries and collectLeafIndexes: from the mutable trie to the finished one. */
module PipelineFinalize {
  import opened Sequences
  import opened PipelineTrie
  import opened PipelineCompile

  /** The finished children of `p`: one node for each middleware that follows `p` in some path. */
  ghost predicate Children(children: seq<Node>, p: seq<Mw>, ls: seq<Leaf>) {
    && (forall i | 0 <= i < |children| :: IsNode(children[i], p + [children[i].mw], ls))
    && (forall i, k | 0 <= i < k < |children| :: children[i].mw != children[k].mw)
    && (forall l | l in ls && p < l.path :: exists i :: 0 <= i < |children| && children[i].mw == l.path[|p|])
  }

  lemma ChildLeaves(children: seq<Node>, p: seq<Mw>, ls: seq<Leaf>, i: nat)
    requires Children(children, p, ls) && i < |children|
    ensures children[i].allLeaves == Under(ls, p + [children[i].mw]) && children[i].allLeaves != []
    ensures forall l | l in children[i].allLeaves :: l in ls && p < l.path && l.path[|p|] == children[i].mw
  {
    var q := p + [children[i].mw];
    assert IsNode(children[i], q, ls);
    forall l | l in children[i].allLeaves ensures p < l.path && l.path[|p|] == children[i].mw {
      assert q[|p|] == l.path[|p|] && q[..|p|] == p;
    }
  }

  lemma UnderAscends(ls: seq<Leaf>, p: seq<Mw>)
    requires Ascending(ls, ByIndex)
    ensures Ascending(Under(ls, p), ByIndex)
  {
    FilterAscending(ls, (l: Leaf) => p <= l.path, ByIndex);
  }

  lemma AtAscends(ls: seq<Leaf>, p: seq<Mw>)
    requires Ascending(ls, ByIndex)
    ensures Ascending(At(ls, p), ByIndex)
  {
    FilterAscending(ls, (l: Leaf) => l.path == p, ByIndex);
  }

  lemma AscendingDistinct(xs: seq<Leaf>)
    requires Ascending(xs, ByIndex)
    ensures Distinct(xs)
  {
    assert forall i, j | 0 <= i < j < |xs| :: ByIndex(xs[i]) < ByIndex(xs[j]);
  }

  lemma SameIndexSameLeaf(ls: seq<Leaf>, a: Leaf, b: Leaf)
    requires Ascending(ls, ByIndex) && a in ls && b in ls && a.index == b.index
    ensures a == b
  {
    var i :| 0 <= i < |ls| && ls[i] == a;
    var j :| 0 <= j < |ls| && ls[j] == b;
    assert i < j ==> ByIndex(ls[i]) < ByIndex(ls[j]);
    assert j < i ==> ByIndex(ls[j]) < ByIndex(ls[i]);
  }

  /** Sorting any duplicate-free listing of the leaves below `p` gives them in registration order. */
  lemma SortedUnder(xs: seq<Leaf>, p: seq<Mw>, ls: seq<Leaf>)
    requires Ascending(ls, ByIndex) && Distinct(xs)
    requires forall l :: l in xs <==> l in ls && p <= l.path
    ensures SortBy(xs, ByIndex) == Under(ls, p)
  {
    forall i, j | 0 <= i < j < |xs| ensures ByIndex(xs[i]) != ByIndex(xs[j]) {
      assert xs[i] in xs && xs[j] in xs;
      if xs[i].index == xs[j].index { SameIndexSameLeaf(ls, xs[i], xs[j]); }
    }
    SortAscending(xs, ByIndex);
    UnderAscends(ls, p);
    AscendingUnique(SortBy(xs, ByIndex), Under(ls, p), ByIndex);
  }

  function LeafEntries(leaves: seq<Leaf>): (r: seq<Entry>)
    ensures |r| == |leaves|
  {
    seq(|leaves|, i requires 0 <= i < |leaves| => LeafEntry(leaves[i]))
  }

  function NodeEntries(children: seq<Node>): (r: seq<Entry>)
    ensures |r| == |children|
  {
    seq(|children|, i requires 0 <= i < |children| => NodeEntry(children[i]))
  }

  /** `createEntries`. */
  function CreateEntries(leaves: seq<Leaf>, children: seq<Node>): seq<Entry> {
    SortBy(LeafEntries(leaves) + NodeEntries(children), Order)
  }

  lemma RawFirst(p: seq<Mw>, ls: seq<Leaf>, children: seq<Node>, i: nat) returns (first: Leaf)
    requires Children(children, p, ls) && i < |At(ls, p)| + |children|
    ensures var raw := LeafEntries(At(ls, p)) + NodeEntries(children); Order(raw[i]) == first.index && first in ls
    ensures i < |At(ls, p)| ==> first == At(ls, p)[i] && first.path == p
    ensures i >= |At(ls, p)| ==> p < first.path && first.path[|p|] == children[i - |At(ls, p)|].mw
  {
    var leaves := At(ls, p);
    if i < |leaves| {
      first := leaves[i];
      assert first in leaves;
    } else {
      var child := children[i - |leaves|];
      ChildLeaves(children, p, ls, i - |leaves|);
      first := child.allLeaves[0];
      assert first in child.allLeaves;
    }
  }

  lemma OrdersDiffer(p: seq<Mw>, ls: seq<Leaf>, children: seq<Node>, i: nat, k: nat)
    requires Ascending(ls, ByIndex) && Children(children, p, ls)
    requires i < k < |At(ls, p)| + |children|
    ensures var raw := LeafEntries(At(ls, p)) + NodeEntries(children); Order(raw[i]) != Order(raw[k])
  {
    hide At, IsNode, LeafEntries, NodeEntries, Order;
    AtAscends(ls, p);
    var a := RawFirst(p, ls, children, i);
    var b := RawFirst(p, ls, children, k);
    if k < |At(ls, p)| {
      assert ByIndex(a) < ByIndex(b);
    } else if a.index == b.index {
      SameIndexSameLeaf(ls, a, b);
    }
  }

  lemma EntriesCreated(p: seq<Mw>, ls: seq<Leaf>, children: seq<Node>)
    requires Ascending(ls, ByIndex) && Children(children, p, ls)
    ensures AreEntries(CreateEntries(At(ls, p), children), p, ls)
  {
    var leaves := At(ls, p);
    var raw := LeafEntries(leaves) + NodeEntries(children);
    var es := CreateEntries(leaves, children);
    forall i, k | 0 <= i < k < |raw| ensures Order(raw[i]) != Order(raw[k]) { OrdersDiffer(p, ls, children, i, k); }
    SortAscending(raw, Order);
    forall i | 0 <= i < |raw| ensures IsEntry(raw[i], p, ls) {
      assert i < |leaves| ==> leaves[i] in leaves;
      assert i >= |leaves| ==> IsNode(children[i - |leaves|], p + [children[i - |leaves|].mw], ls);
    }
    forall i | 0 <= i < |es| ensures IsEntry(es[i], p, ls) {
      assert es[i] in es;
      assert es[i] in raw;
    }
    forall l | l in ls && p <= l.path ensures exists i :: 0 <= i < |es| && Covers(es[i], p, l) {
      var e := EntryOf(p, ls, children, l);
      assert e in es;
      var i :| 0 <= i < |es| && es[i] == e;
    }
  }

  lemma EntryOf(p: seq<Mw>, ls: seq<Leaf>, children: seq<Node>, l: Leaf) returns (e: Entry)
    requires Children(children, p, ls) && l in ls && p <= l.path
    ensures e in LeafEntries(At(ls, p)) + NodeEntries(children) && Covers(e, p, l)
  {
    var leaves := At(ls, p);
    if l.path == p {
      var i :| 0 <= i < |leaves| && leaves[i] == l;
      e := LeafEntries(leaves)[i];
    } else {
      var i :| 0 <= i < |children| && children[i].mw == l.path[|p|];
      e := NodeEntries(children)[i];
      assert p + [children[i].mw] == l.path[..|p| + 1];
    }
  }

  lemma PassThrough(child: Node, p: seq<Mw>, ls: seq<Leaf>)
    requires Ascending(ls, ByIndex) && At(ls, p) == [] && Children([child], p, ls)
    ensures CreateEntries([], [child]) == [NodeEntry(child)] && child.allLeaves == Under(ls, p)
  {
    assert LeafEntries([]) + NodeEntries([child]) == [NodeEntry(child)];
    ChildLeaves([child], p, ls, 0);
    UnderAscends(ls, p);
    UnderAscends(ls, p + [child.mw]);
    forall l | l in Under(ls, p) ensures l in child.allLeaves {
      var e := EntryOf(p, ls, [child], l);
    }
    AscendingUnique(child.allLeaves, Under(ls, p), ByIndex);
  }

  lemma OneChildMore(listed: seq<Leaf>, children: seq<Node>, i: nat, p: seq<Mw>, ls: seq<Leaf>)
    requires Ascending(ls, ByIndex) && Children(children, p, ls) && i < |children| && Distinct(listed)
    requires forall l | l in listed :: l.path == p || exists k :: 0 <= k < i && l in children[k].allLeaves
    ensures Distinct(listed + children[i].allLeaves)
  {
    ChildLeaves(children, p, ls, i);
    UnderAscends(ls, p + [children[i].mw]);
    AscendingDistinct(children[i].allLeaves);
    forall l | l in listed ensures l !in children[i].allLeaves {
      if l.path != p {
        var k :| 0 <= k < i && l in children[k].allLeaves;
        ChildLeaves(children, p, ls, k);
      }
    }
    DistinctAppend(listed, children[i].allLeaves);
  }

  lemma ChildrenListed(children: seq<Node>, p: seq<Mw>, ls: seq<Leaf>, l: Leaf)
    requires Children(children, p, ls)
    ensures l in ls && p < l.path <==> exists k :: 0 <= k < |children| && l in children[k].allLeaves
  {
    if k :| 0 <= k < |children| && l in children[k].allLeaves {
      ChildLeaves(children, p, ls, k);
    }
    if l in ls && p < l.path {
      var k :| 0 <= k < |children| && children[k].mw == l.path[|p|];
      ChildLeaves(children, p, ls, k);
      assert p + [children[k].mw] == l.path[..|p| + 1];
    }
  }

  /** `summarizeLevel`: the entries and all leaves of one level. */
  method SummarizeLevel(leaves: seq<Leaf>, children: seq<Node>, ghost p: seq<Mw>, ghost ls: seq<Leaf>)
    returns (entries: seq<Entry>, allLeaves: seq<Leaf>)
    requires Ascending(ls, ByIndex) && leaves == At(ls, p) && Children(children, p, ls)
    ensures AreEntries(entries, p, ls) && allLeaves == Under(ls, p)
  {
    hide Children, AreEntries, CreateEntries, SortBy, Filter;
    EntriesCreated(p, ls, children);
    if |leaves| == 0 && |children| == 1 {
      assert children == [children[0]];
      PassThrough(children[0], p, ls);
      return [NodeEntry(children[0])], children[0].allLeaves;
    }
    allLeaves := leaves;
    AtAscends(ls, p);
    AscendingDistinct(leaves);
    for i := 0 to |children|
      invariant Distinct(allLeaves)
      invariant forall l :: l in allLeaves <==> l in leaves || exists k :: 0 <= k < i && l in children[k].allLeaves
    {
      OneChildMore(allLeaves, children, i, p, ls);
      allLeaves := allLeaves + children[i].allLeaves;
    }
    forall l ensures l in allLeaves <==> l in ls && p <= l.path { ChildrenListed(children, p, ls, l); }
    SortedUnder(allLeaves, p, ls);
    entries, allLeaves := CreateEntries(leaves, children), SortBy(allLeaves, ByIndex);
  }

  /** The mutable trie of the leaves `ls`, ready for `finalize`; no path is longer than `height`. */
  ghost predicate Ready(nodes: map<seq<Mw>, Level>, ls: seq<Leaf>, height: nat)
    reads nodes.Values
  {
    && Built(nodes, Paths(ls), ls) && Ascending(ls, ByIndex)
    && forall q | q in nodes :: |q| <= height
  }

  lemma LevelOf(nodes: map<seq<Mw>, Level>, ls: seq<Leaf>, height: nat, p: seq<Mw>)
    requires Ready(nodes, ls, height) && p in nodes
    ensures |p| <= height && nodes[p].leaves == At(ls, p) && Kids(nodes[p].children, p, nodes, Paths(ls))
  {
  }

  lemma KidOf(kids: seq<(Mw, Level)>, p: seq<Mw>, nodes: map<seq<Mw>, Level>, ls: seq<Leaf>, i: nat)
    requires Kids(kids, p, nodes, Paths(ls)) && i < |kids|
    ensures p + [kids[i].0] in nodes && kids[i].1 == nodes[p + [kids[i].0]]
  {
  }

  /** Every middleware that follows `p` in some path is the middleware of one kid. */
  lemma KidsComplete(kids: seq<(Mw, Level)>, p: seq<Mw>, nodes: map<seq<Mw>, Level>, ls: seq<Leaf>)
    requires Kids(kids, p, nodes, Paths(ls))
    ensures forall i, k | 0 <= i < k < |kids| :: kids[i].0 != kids[k].0
    ensures forall l | l in ls && p < l.path :: exists i :: 0 <= i < |kids| && kids[i].0 == l.path[|p|]
  {
    var nexts := Nexts(Paths(ls), p);
    forall i, k | 0 <= i < k < |kids| ensures kids[i].0 != kids[k].0 {
      assert nexts[i] != nexts[k];
    }
    forall l | l in ls && p < l.path ensures exists i :: 0 <= i < |kids| && kids[i].0 == l.path[|p|] {
      var j :| 0 <= j < |ls| && ls[j] == l;
      assert p + [l.path[|p|]] <= Paths(ls)[j];
      assert l.path[|p|] in nexts;
      var i :| 0 <= i < |nexts| && nexts[i] == l.path[|p|];
      assert kids[i].0 == l.path[|p|];
    }
  }

  lemma UnderNode(nodes: map<seq<Mw>, Level>, ls: seq<Leaf>, p: seq<Mw>)
    requires Levels(nodes, Paths(ls)) && p in nodes && p != []
    ensures Under(ls, p) != []
  {
    var j :| 0 <= j < |Paths(ls)| && p <= Paths(ls)[j];
    assert ls[j] in Under(ls, p);
  }

  /** `finalize`: the finished node for `p`. */
  method Finalize(level: Level, mw: Mw, ghost p: seq<Mw>, ghost nodes: map<seq<Mw>, Level>, ghost ls: seq<Leaf>, ghost height: nat)
    returns (n: Node)
    requires Ready(nodes, ls, height) && p + [mw] in nodes && nodes[p + [mw]] == level
    ensures IsNode(n, p + [mw], ls) && n.mw == mw
    decreases height - |p|, 0
  {
    hide Ready, Children, Kids, Filter;
    ghost var q := p + [mw];
    LevelOf(nodes, ls, height, q);
    var children := FinalizeChildren(level, q, nodes, ls, height);
    ReadyFacts(nodes, ls, height);
    var entries, allLeaves := SummarizeLevel(level.leaves, children, q, ls);
    UnderNode(nodes, ls, q);
    n := Node(mw, entries, allLeaves);
  }

  lemma ReadyFacts(nodes: map<seq<Mw>, Level>, ls: seq<Leaf>, height: nat)
    requires Ready(nodes, ls, height)
    ensures Levels(nodes, Paths(ls)) && Ascending(ls, ByIndex)
  {
  }

  /** The loop of `finalize` over the children of `p`. */
  method FinalizeChildren(level: Level, ghost p: seq<Mw>, ghost nodes: map<seq<Mw>, Level>, ghost ls: seq<Leaf>, ghost height: nat)
    returns (children: seq<Node>)
    requires Ready(nodes, ls, height) && p in nodes && nodes[p] == level
    ensures Children(children, p, ls)
    decreases height - |p|, 1
  {
    hide Ready, Kids, IsNode;
    LevelOf(nodes, ls, height, p);
    KidsComplete(level.children, p, nodes, ls);
    children := [];
    for i := 0 to |level.children|
      invariant |children| == i
      invariant forall k | 0 <= k < i :: children[k].mw == level.children[k].0 && IsNode(children[k], p + [children[k].mw], ls)
    {
      var (mw, kid) := level.children[i];
      KidOf(level.children, p, nodes, ls, i);
      LevelOf(nodes, ls, height, p + [mw]);
      var child := Finalize(kid, mw, p, nodes, ls, height);
      children := children + [child];
    }
  }
}
