/** The finished pipeline trie: leaves, nodes and entries, and what makes a trie the trie of a list of leaves. */
module PipelineTrie {
  import opened Sequences

  /** A middleware wrapper. Wrappers are shared by instance, so equal values stand for the same instance. */
  datatype Mw = Mw(id: nat, name: string)

  datatype Destination = Destination(storage: string, middlewares: seq<Mw>)

  /** `path` lists the middlewares of the leaf's nodes from just below the root. A node is identified by the part of a path
      that leads to it: the node of `path[i]` is `path[..i + 1]`. */
  datatype Leaf = Leaf(index: nat, name: string, canRepair: bool, path: seq<Mw>)

  datatype Entry = LeafEntry(leaf: Leaf) | NodeEntry(node: Node)

  /** A node after `finalize`. */
  datatype Node = Node(mw: Mw, entries: seq<Entry>, allLeaves: seq<Leaf>)

  predicate AllowsRepair(chain: seq<Mw>) {
    exists i :: 0 <= i < |chain| && chain[i].name == "AllowRepair"
  }

  /** Leaf `j` of the destinations. */
  function LeafOf(dests: seq<Destination>, j: nat): Leaf
    requires j < |dests|
  {
    Leaf(j, dests[j].storage, AllowsRepair(dests[j].middlewares), dests[j].middlewares)
  }

  function LeavesOf(dests: seq<Destination>): (r: seq<Leaf>)
    ensures |r| == |dests|
  {
    seq(|dests|, j requires 0 <= j < |dests| => LeafOf(dests, j))
  }

  const ByIndex: Leaf -> int := (l: Leaf) => l.index

  /** The leaves that end exactly at `p`. */
  function At(ls: seq<Leaf>, p: seq<Mw>): (r: seq<Leaf>)
    ensures forall l :: l in r <==> l in ls && l.path == p
  {
    Filter(ls, (l: Leaf) => l.path == p)
  }

  /** The leaves at or below `p`. */
  function Under(ls: seq<Leaf>, p: seq<Mw>): (r: seq<Leaf>)
    ensures forall l :: l in r <==> l in ls && p <= l.path
  {
    Filter(ls, (l: Leaf) => p <= l.path)
  }

  /** Registration order: a leaf's own index, or the index of the first leaf below a node. */
  function Order(e: Entry): int {
    match e
    case LeafEntry(l) => l.index
    case NodeEntry(n) => if n.allLeaves == [] then -1 else n.allLeaves[0].index
  }

  predicate Covers(e: Entry, p: seq<Mw>, l: Leaf) {
    match e
    case LeafEntry(l') => l == l'
    case NodeEntry(n) => p + [n.mw] <= l.path
  }

  /** `n` is the node for `p` in the trie of `ls`. */
  ghost predicate IsNode(n: Node, p: seq<Mw>, ls: seq<Leaf>)
    decreases n
  {
    && p != [] && p[|p| - 1] == n.mw
    && n.allLeaves == Under(ls, p) && n.allLeaves != []
    && AreEntries(n.entries, p, ls)
  }

  ghost predicate IsEntry(e: Entry, p: seq<Mw>, ls: seq<Leaf>)
    decreases e
  {
    match e
    case LeafEntry(l) => l in ls && l.path == p
    case NodeEntry(n) => IsNode(n, p + [n.mw], ls)
  }

  /** `es` lists what hangs directly below `p`: the leaves ending there and the nodes one below, each once, in registration order. */
  ghost predicate AreEntries(es: seq<Entry>, p: seq<Mw>, ls: seq<Leaf>)
    decreases es
  {
    && (forall i | 0 <= i < |es| :: IsEntry(es[i], p, ls))
    && (forall l | l in ls && p <= l.path :: exists i :: 0 <= i < |es| && Covers(es[i], p, l))
    && Ascending(es, Order)
  }

  /** A leaf below `p` is covered by only one entry. */
  lemma CoveredOnce(es: seq<Entry>, p: seq<Mw>, ls: seq<Leaf>, l: Leaf, i: nat, k: nat)
    requires AreEntries(es, p, ls) && i < |es| && k < |es|
    requires Covers(es[i], p, l) && Covers(es[k], p, l)
    ensures i == k
  {
    match (es[i], es[k])
    case (NodeEntry(a), NodeEntry(b)) =>
      assert IsEntry(es[i], p, ls) && IsEntry(es[k], p, ls);
      assert (p + [a.mw])[|p|] == l.path[|p|] == (p + [b.mw])[|p|];
      assert IsNode(a, p + [a.mw], ls) && IsNode(b, p + [b.mw], ls);
      assert a.allLeaves == b.allLeaves;
      assert Order(es[i]) == Order(es[k]);
    case _ =>
  }

  lemma LeavesAscend(dests: seq<Destination>)
    ensures Ascending(LeavesOf(dests), ByIndex)
  {
  }

  lemma LeafByIndex(dests: seq<Destination>, l: Leaf)
    ensures l in LeavesOf(dests) <==> l.index < |dests| && l == LeafOf(dests, l.index)
  {
    var ls := LeavesOf(dests);
    if l.index < |dests| { assert ls[l.index] == LeafOf(dests, l.index); }
  }
}
