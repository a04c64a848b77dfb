/** The shape of a finished trie: its nodes are the distinct prefixes of the chains, and every leaf is listed where it belongs. */
module TrieShape {
  import opened Sequences
  import opened PipelineTrie
  import opened Middlewares
  import opened Walks

  /** The positions of the nodes below the first `i` entries of `p`, in the order in which they are met. */
  function Positions(es: seq<Entry>, p: seq<Mw>, i: nat): seq<seq<Mw>>
    requires i <= |es|
    decreases es, i
  {
    if i == 0 then []
    else
      Positions(es, p, i - 1) +
      match es[i - 1]
      case LeafEntry(_) => []
      case NodeEntry(n) =>
        assert es decreases to es[i - 1];
        [p + [n.mw]] + Positions(n.entries, p + [n.mw], |n.entries|)
  }

  /** `q` lies below one of the first `i` entries. */
  ghost predicate Reached(q: seq<Mw>, es: seq<Entry>, p: seq<Mw>, i: nat)
    requires i <= |es|
  {
    exists k :: 0 <= k < i && es[k].NodeEntry? && p + [es[k].node.mw] <= q
  }

  /** `qs` lists, each once, the positions of the trie below the first `i` entries of `p`. */
  ghost predicate Lists(qs: seq<seq<Mw>>, es: seq<Entry>, p: seq<Mw>, ls: seq<Leaf>, i: nat)
    requires i <= |es|
  {
    Distinct(qs) && forall q :: q in qs <==> OnTrie(q, ls) && Reached(q, es, p, i)
  }

  lemma {:induction false} PositionsReached(es: seq<Entry>, p: seq<Mw>, ls: seq<Leaf>, i: nat)
    requires AreEntries(es, p, ls) && i <= |es|
    ensures Lists(Positions(es, p, i), es, p, ls, i)
    decreases es, i
  {
    hide AreEntries, Lists, IsNode;
    if i == 0 {
      NothingReached(es, p, ls);
    } else {
      PositionsReached(es, p, ls, i - 1);
      match es[i - 1]
      case LeafEntry(_) =>
        assert Positions(es, p, i) == Positions(es, p, i - 1) + [] == Positions(es, p, i - 1);
        LeafReached(Positions(es, p, i), es, p, ls, i - 1);
      case NodeEntry(n) =>
        assert es decreases to es[i - 1];
        EntryIsNode(es, p, ls, i - 1);
        NodeOnTrie(n, p + [n.mw], ls);
        PositionsReached(n.entries, p + [n.mw], ls, |n.entries|);
        OneNodeMore(Positions(es, p, i - 1), Positions(n.entries, p + [n.mw], |n.entries|), es, p, ls, i - 1);
    }
  }

  lemma NothingReached(es: seq<Entry>, p: seq<Mw>, ls: seq<Leaf>)
    ensures Lists([], es, p, ls, 0)
  {
  }

  lemma LeafReached(qs: seq<seq<Mw>>, es: seq<Entry>, p: seq<Mw>, ls: seq<Leaf>, i: nat)
    requires i < |es| && es[i].LeafEntry? && Lists(qs, es, p, ls, i)
    ensures Lists(qs, es, p, ls, i + 1)
  {
    forall q ensures Reached(q, es, p, i + 1) <==> Reached(q, es, p, i) { }
  }

  /** Where a position lies tells which entry it is below. */
  lemma OneNodeMore(before: seq<seq<Mw>>, below: seq<seq<Mw>>, es: seq<Entry>, p: seq<Mw>, ls: seq<Leaf>, i: nat)
    requires AreEntries(es, p, ls) && i < |es| && es[i].NodeEntry?
    requires Lists(below, es[i].node.entries, p + [es[i].node.mw], ls, |es[i].node.entries|) && Lists(before, es, p, ls, i)
    ensures Lists(before + ([p + [es[i].node.mw]] + below), es, p, ls, i + 1)
  {
    hide AreEntries, OnTrie, Distinct, Reached, IsNode;
    var n := es[i].node;
    var r := p + [n.mw];
    EntryIsNode(es, p, ls, i);
    forall q ensures q in [r] + below <==> OnTrie(q, ls) && r <= q {
      BelowNode(n, r, ls, q);
    }
    forall q ensures Reached(q, es, p, i + 1) <==> Reached(q, es, p, i) || r <= q { ReachedOne(q, es, p, i); }
    forall q | q in before ensures !(r <= q) {
      NotBelowOther(es, p, ls, i, q);
    }
    forall q | q in below ensures q != r { ReachedBelow(q, n.entries, r, |n.entries|); }
    DistinctFirst(r, below);
    DistinctAppend(before, [r] + below);
  }

  lemma ReachedOne(q: seq<Mw>, es: seq<Entry>, p: seq<Mw>, i: nat)
    requires i < |es| && es[i].NodeEntry?
    ensures Reached(q, es, p, i + 1) <==> Reached(q, es, p, i) || p + [es[i].node.mw] <= q
  {
  }

  lemma ReachedBelow(q: seq<Mw>, es: seq<Entry>, p: seq<Mw>, i: nat)
    requires i <= |es| && Reached(q, es, p, i)
    ensures q != p
  {
  }

  lemma NotBelowOther(es: seq<Entry>, p: seq<Mw>, ls: seq<Leaf>, i: nat, q: seq<Mw>)
    requires AreEntries(es, p, ls) && i < |es| && es[i].NodeEntry? && Reached(q, es, p, i)
    ensures !(p + [es[i].node.mw] <= q)
  {
    hide AreEntries;
    var k :| 0 <= k < i && es[k].NodeEntry? && p + [es[k].node.mw] <= q;
    NodesDiffer(es, p, ls, k, i);
    assert q[|p|] == (p + [es[k].node.mw])[|p|] && (p + [es[i].node.mw])[|p|] == es[i].node.mw;
  }

  lemma BelowNode(n: Node, r: seq<Mw>, ls: seq<Leaf>, q: seq<Mw>)
    requires IsNode(n, r, ls)
    ensures OnTrie(q, ls) && r <= q <==> OnTrie(q, ls) && (q == r || Reached(q, n.entries, r, |n.entries|))
    ensures OnTrie(r, ls)
  {
    NodeOnTrie(n, r, ls);
    if OnTrie(q, ls) && r <= q && q != r {
      var l :| l in ls && q <= l.path;
      var k :| 0 <= k < |n.entries| && Covers(n.entries[k], r, l);
      assert IsEntry(n.entries[k], r, ls);
      assert r + [n.entries[k].node.mw] <= q;
    }
  }

  /** The nodes of the trie are, each once, the non-empty prefixes of the chains. */
  lemma NodesArePrefixes(es: seq<Entry>, ls: seq<Leaf>)
    requires AreEntries(es, [], ls)
    ensures Distinct(Positions(es, [], |es|))
    ensures forall q :: q in Positions(es, [], |es|) <==> q != [] && exists l :: l in ls && q <= l.path
  {
    PositionsReached(es, [], ls, |es|);
    forall q | OnTrie(q, ls) ensures Reached(q, es, [], |es|) {
      var l :| l in ls && q <= l.path;
      var k :| 0 <= k < |es| && Covers(es[k], [], l);
      assert IsEntry(es[k], [], ls);
      assert [] + [es[k].node.mw] <= q;
    }
  }

  /** The leaves an entry stands for. */
  function LeavesOfEntry(e: Entry): seq<Leaf> {
    match e
    case LeafEntry(l) => [l]
    case NodeEntry(n) => n.allLeaves
  }

  /** `allLeaves` is in registration order, and each of its leaves belongs to exactly one of the node's entries. */
  lemma AllLeavesPartitioned(n: Node, p: seq<Mw>, ls: seq<Leaf>, l: Leaf)
    requires IsNode(n, p, ls) && Ascending(ls, ByIndex)
    ensures Ascending(n.allLeaves, ByIndex)
    ensures l in n.allLeaves <==> exists i :: 0 <= i < |n.entries| && l in LeavesOfEntry(n.entries[i])
    ensures forall i, k | 0 <= i < |n.entries| && 0 <= k < |n.entries| && l in LeavesOfEntry(n.entries[i]) && l in LeavesOfEntry(n.entries[k]) :: i == k
  {
    FilterAscending(ls, (l: Leaf) => p <= l.path, ByIndex);
    forall i | 0 <= i < |n.entries|
      ensures l in LeavesOfEntry(n.entries[i]) <==> l in ls && Covers(n.entries[i], p, l)
      ensures l in LeavesOfEntry(n.entries[i]) ==> p <= l.path
    {
      assert IsEntry(n.entries[i], p, ls);
      if n.entries[i].NodeEntry? { assert IsNode(n.entries[i].node, p + [n.entries[i].node.mw], ls); }
    }
    forall i, k | 0 <= i < |n.entries| && 0 <= k < |n.entries| && l in LeavesOfEntry(n.entries[i]) && l in LeavesOfEntry(n.entries[k]) ensures i == k {
      CoveredOnce(n.entries, p, ls, l, i, k);
    }
    if l in n.allLeaves {
      var i :| 0 <= i < |n.entries| && Covers(n.entries[i], p, l);
      assert l in LeavesOfEntry(n.entries[i]);
    }
  }
}
