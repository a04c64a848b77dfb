/** UniKvsBranch and UniKvsBuilder: programs of `use`, `persist` and `fork`, and the destinations they describe. */
module Builder {
  import opened Sequences
  import opened PipelineTrie
  import opened PipelineGraph

  /** One call on a branch or a builder. `Fork` holds the calls made so far on the forked branch. */
  datatype Step = Use(middleware: Mw) | Persist(storage: string) | Fork(branch: seq<Step>)

  /** The tree a program describes, walked from the root: each storage with the middlewares on the way to it, in call order. */
  function Paths(above: seq<Mw>, program: seq<Step>): seq<Destination>
    decreases program
  {
    if program == [] then []
    else
      match program[0]
      case Use(m) => Paths(above + [m], program[1..])
      case Persist(s) => [Destination(s, above)] + Paths(above, program[1..])
      case Fork(branch) =>
        assert program decreases to program[0];
        Paths(above, branch) + Paths(above, program[1..])
  }

  /** The middlewares of the program's own chain. */
  function Chain(program: seq<Step>): seq<Mw> {
    if program == [] then [] else (if program[0].Use? then [program[0].middleware] else []) + Chain(program[1..])
  }

  function Prefixed(prefix: seq<Mw>, ds: seq<Destination>): (r: seq<Destination>)
    ensures |r| == |ds|
  {
    seq(|ds|, i requires 0 <= i < |ds| => Destination(ds[i].storage, prefix + ds[i].middlewares))
  }

  function Suffixed(ds: seq<Destination>, suffix: seq<Mw>): (r: seq<Destination>)
    ensures |r| == |ds|
  {
    seq(|ds|, i requires 0 <= i < |ds| => Destination(ds[i].storage, ds[i].middlewares + suffix))
  }

  lemma PrefixedAppend(prefix: seq<Mw>, a: seq<Destination>, b: seq<Destination>)
    ensures Prefixed(prefix, a + b) == Prefixed(prefix, a) + Prefixed(prefix, b)
  {
  }

  lemma PrefixedTwice(above: seq<Mw>, prefix: seq<Mw>, ds: seq<Destination>)
    ensures Prefixed(above, Prefixed(prefix, ds)) == Prefixed(above + prefix, ds)
  {
    forall i | 0 <= i < |ds| ensures above + (prefix + ds[i].middlewares) == above + prefix + ds[i].middlewares { }
  }

  /** A branch does not depend on where it is forked: its paths below `above` are its own paths with `above` put in front. */
  lemma {:induction false} PathsBelow(above: seq<Mw>, program: seq<Step>)
    ensures Paths(above, program) == Prefixed(above, Paths([], program))
    decreases program
  {
    if program != [] {
      var rest := program[1..];
      PathsBelow(above, rest);
      match program[0]
      case Use(m) =>
        PathsBelow(above + [m], rest);
        PathsBelow([] + [m], rest);
        PrefixedTwice(above, [m], Paths([], rest));
        assert [] + [m] == [m];
      case Persist(s) =>
        PrefixedAppend(above, [Destination(s, [])], Paths([], rest));
        assert above + [] == above;
      case Fork(branch) =>
        assert program decreases to program[0];
        PathsBelow(above, branch);
        PrefixedAppend(above, Paths([], branch), Paths([], rest));
    }
  }

  function Uses(ms: seq<Mw>): seq<Step> {
    if ms == [] then [] else [Step.Use(ms[0])] + Uses(ms[1..])
  }

  /** A chain is in the order of the calls, and that of a fork goes on where it was forked. */
  lemma {:induction false} InCallOrder(above: seq<Mw>, ms: seq<Mw>, last: Step)
    ensures Paths(above, Uses(ms) + [last]) == Paths(above + ms, [last])
    ensures last.Persist? ==> Paths(above, Uses(ms) + [last]) == [Destination(last.storage, above + ms)]
    ensures last.Fork? ==> Paths(above, Uses(ms) + [last]) == Paths(above + ms, last.branch)
    decreases |ms|
  {
    var program := Uses(ms) + [last];
    if ms == [] {
      assert program == [last] && above + ms == above;
      assert [last][1..] == [] && [last][0] == last;
      if last.Fork? { assert [last] decreases to [last][0]; }
    } else {
      assert program[0] == Step.Use(ms[0]) && program[1..] == Uses(ms[1..]) + [last];
      InCallOrder(above + [ms[0]], ms[1..], last);
      assert above + [ms[0]] + ms[1..] == above + ms;
    }
  }

  /** The first call, and the rest below it. */
  lemma FirstCall(above: seq<Mw>, program: seq<Step>)
    requires program != []
    ensures var below := if program[0].Use? then above + [program[0].middleware] else above;
            Paths(above, program) == Paths(above, [program[0]]) + Paths(below, program[1..])
  {
    var first := [program[0]];
    assert first[1..] == [] && first[0] == program[0];
    if program[0].Fork? {
      assert program decreases to program[0];
      assert first decreases to first[0];
    }
  }

  lemma {:induction false} ChainGrows(program: seq<Step>, step: Step)
    ensures Chain(program + [step]) == Chain(program) + if step.Use? then [step.middleware] else []
  {
    var all := program + [step];
    if program == [] {
      assert all == [step] && all[1..] == [];
    } else {
      assert all[0] == program[0] && all[1..] == program[1..] + [step];
      ChainGrows(program[1..], step);
    }
  }

  /** One more call adds to the end of the paths, and changes none of the earlier ones. */
  lemma {:induction false} PathsGrow(above: seq<Mw>, program: seq<Step>, step: Step)
    ensures Paths(above, program + [step]) == Paths(above, program) + Paths(above + Chain(program), [step])
    decreases program
  {
    hide Paths;
    var all := program + [step];
    if program == [] {
      assert all == [step] && above + Chain(program) == above;
      NoCalls(above);
    } else {
      var rest, first := program[1..], [program[0]];
      assert all[0] == program[0] && all[1..] == rest + [step];
      var own := if program[0].Use? then [program[0].middleware] else [];
      var below := if program[0].Use? then above + own else above;
      FirstCall(above, program);
      FirstCall(above, all);
      PathsGrow(below, rest, step);
      Regroup(above, own, Chain(rest));
      assert below == above + own;
      Regroup(Paths(above, first), Paths(below, rest), Paths(below + Chain(rest), [step]));
    }
  }

  lemma NoCalls(above: seq<Mw>)
    ensures Paths(above, []) == []
  {
  }

  /** What one more call adds to the destinations. */
  function Added(chain: seq<Mw>, step: Step): seq<Destination> {
    match step
    case Use(_) => []
    case Persist(s) => [Destination(s, chain)]
    case Fork(branch) => Prefixed(chain, Paths([], branch))
  }

  lemma OneMoreCall(program: seq<Step>, step: Step)
    ensures Chain(program + [step]) == Chain(program) + if step.Use? then [step.middleware] else []
    ensures Paths([], program + [step]) == Paths([], program) + Added(Chain(program), step)
  {
    ChainGrows(program, step);
    PathsGrow([], program, step);
    assert [] + Chain(program) == Chain(program);
    assert [step][1..] == [] && [step][0] == step;
    if step.Fork? { PathsBelow(Chain(program), step.branch); }
  }

  /** An array of middlewares, which may be known in several places. */
  class MwArray {
    var items: seq<Mw>

    constructor (items: seq<Mw>)
      ensures this.items == items
    {
      this.items := items;
    }

    method Push(m: Mw)
      modifies this
      ensures items == old(items) + [m]
    {
      items := items + [m];
    }
  }

  /** A destination refers to its array of middlewares. */
  datatype Registered = Registered(storage: string, middlewares: MwArray)

  ghost function Arrays(ds: seq<Registered>): set<MwArray> {
    set d | d in ds :: d.middlewares
  }

  /** What the destinations are at the moment. */
  function Current(ds: seq<Registered>): (r: seq<Destination>)
    reads Arrays(ds)
    ensures |r| == |ds|
    ensures forall i | 0 <= i < |ds| :: r[i] == Destination(ds[i].storage, ds[i].middlewares.items)
  {
    if ds == [] then []
    else
      var init, last := ds[..|ds| - 1], ds[|ds| - 1];
      assert ds == init + [last];
      Current(init) + [Destination(last.storage, last.middlewares.items)]
  }

  lemma CurrentAppend(ds: seq<Registered>, d: Registered)
    ensures Current(ds + [d]) == Current(ds) + [Destination(d.storage, d.middlewares.items)]
  {
  }

  datatype ForkResult = Forked | InvalidFork

  /** `appendForkDestinations`: the branch's destinations, each with an array of its own that holds a copy of the prefix and of the branch's
      middlewares. */
  method AppendForkDestinations(destinations: seq<Registered>, prefix: MwArray, branch: Branch) returns (r: ForkResult, appended: seq<Registered>)
    ensures r.InvalidFork? <==> branch.destinations == []
    ensures r.InvalidFork? ==> appended == destinations
    ensures r.Forked? ==> destinations <= appended && Current(appended) == Current(destinations) + Prefixed(prefix.items, Current(branch.destinations))
    ensures forall d | d in appended[|destinations|..] :: fresh(d.middlewares)
  {
    hide Current, Prefixed;
    appended := destinations;
    var ds := branch.destinations;
    if ds == [] { return InvalidFork, appended; }
    var prefixSnapshot := prefix.items;
    NoneForked(destinations, prefixSnapshot, ds);
    for i := 0 to |ds|
      invariant |appended| == |destinations| + i && destinations <= appended
      invariant forall d | d in appended[|destinations|..] :: fresh(d.middlewares)
      invariant Current(appended) == Current(destinations) + Prefixed(prefixSnapshot, Current(ds[..i]))
    {
      ghost var a, b, c := Current(appended), Current(destinations), Current(ds[..i]);
      var copy := new MwArray(prefixSnapshot + ds[i].middlewares.items);
      assert Current(appended) == a && Current(destinations) == b && Current(ds[..i]) == c;
      OneForked(destinations, appended, prefixSnapshot, ds, i, copy);
      appended := appended + [Registered(ds[i].storage, copy)];
    }
    assert ds[..|ds|] == ds;
    r := Forked;
  }

  lemma NoneForked(destinations: seq<Registered>, prefix: seq<Mw>, ds: seq<Registered>)
    ensures Current(destinations) == Current(destinations) + Prefixed(prefix, Current(ds[..0]))
  {
  }

  lemma OneForked(destinations: seq<Registered>, appended: seq<Registered>, prefix: seq<Mw>, ds: seq<Registered>, i: nat, copy: MwArray)
    requires i < |ds| && Current(appended) == Current(destinations) + Prefixed(prefix, Current(ds[..i])) && copy.items == prefix + ds[i].middlewares.items
    ensures Current(appended + [Registered(ds[i].storage, copy)]) == Current(destinations) + Prefixed(prefix, Current(ds[..i + 1]))
  {
    hide Current;
    assert ds[..i + 1] == ds[..i] + [ds[i]];
    CurrentAppend(ds[..i], ds[i]);
    CurrentAppend(appended, Registered(ds[i].storage, copy));
    PrefixedAppend(prefix, Current(ds[..i]), [Destination(ds[i].storage, ds[i].middlewares.items)]);
  }

  class Branch {
    const middlewares: MwArray
    var destinations: seq<Registered>
    /** The calls made so far. */
    ghost var program: seq<Step>

    /** The destinations are the paths of the tree that the calls describe; none of them refers to the chain that grows. */
    ghost predicate Valid()
      reads this, middlewares, Arrays(destinations)
    {
      && middlewares.items == Chain(program) && Current(destinations) == Paths([], program)
      && middlewares !in Arrays(destinations)
    }

    constructor ()
      ensures Valid() && program == [] && fresh(middlewares) && destinations == []
    {
      middlewares := new MwArray([]);
      destinations, program := [], [];
    }

    method Use(m: Mw)
      requires Valid()
      modifies middlewares, this`program
      ensures Valid() && program == old(program) + [Step.Use(m)]
      ensures Current(destinations) == old(Current(destinations))
    {
      OneMoreCall(program, Step.Use(m));
      middlewares.Push(m);
      program := program + [Step.Use(m)];
    }

    method Persist(storage: string)
      requires Valid()
      modifies this`destinations, this`program
      ensures Valid() && program == old(program) + [Step.Persist(storage)]
      ensures Current(destinations) == old(Current(destinations)) + [Destination(storage, middlewares.items)]
      ensures forall x | x in Arrays(destinations) :: x in old(Arrays(destinations)) || fresh(x)
    {
      hide Paths, Chain, Current;
      OneMoreCall(program, Step.Persist(storage));
      var copy := new MwArray(middlewares.items);
      CurrentAppend(destinations, Registered(storage, copy));
      destinations := destinations + [Registered(storage, copy)];
      program := program + [Step.Persist(storage)];
    }

    /** The forked branch is another one, and stays as it is. */
    method Fork(branch: Branch) returns (r: ForkResult)
      requires Valid() && branch.Valid() && branch != this
      modifies this`destinations, this`program
      ensures Valid()
      ensures r.InvalidFork? <==> branch.destinations == []
      ensures r.InvalidFork? ==> program == old(program) && destinations == old(destinations)
      ensures r.Forked? ==> program == old(program) + [Step.Fork(branch.program)] && old(destinations) <= destinations
      ensures forall x | x in Arrays(destinations) :: x in old(Arrays(destinations)) || fresh(x)
    {
      hide Paths, Chain, Current, Prefixed;
      ghost var step := Step.Fork(branch.program);
      var added;
      r, added := AppendForkDestinations(destinations, middlewares, branch);
      if r.Forked? {
        OneMoreCall(program, step);
        SplitArrays(destinations, added);
        destinations := added;
        program := program + [step];
      }
    }
  }

  lemma SplitArrays(ds: seq<Registered>, added: seq<Registered>)
    requires ds <= added
    ensures forall x :: x in Arrays(added) <==> x in Arrays(ds) || exists d :: d in added[|ds|..] && d.middlewares == x
  {
    assert added == ds + added[|ds|..];
  }

  /** Calls made on a branch after it was forked do not reach the fork: the forking side keeps the tree the branch had. */
  method UseAfterFork(main: Branch, branch: Branch, m: Mw) returns (r: ForkResult)
    requires main.Valid() && branch.Valid() && main != branch
    requires branch.middlewares != main.middlewares && branch.middlewares !in Arrays(main.destinations) && main.middlewares !in Arrays(branch.destinations)
    modifies main`destinations, main`program, branch.middlewares, branch`program
    ensures main.Valid() && branch.Valid() && branch.program == old(branch.program) + [Step.Use(m)]
    ensures r.Forked? ==> Current(main.destinations) == Paths([], old(main.program) + [Step.Fork(old(branch.program))])
  {
    hide Paths, Chain, Current;
    r := main.Fork(branch);
    branch.Use(m);
  }

  lemma GraphPaths(g: Graph, ds: seq<Destination>)
    requires IsGraphOf(g, ds)
    ensures |g.leaves| == |ds| && forall i | 0 <= i < |ds| :: g.leaves[i].path == ds[i].middlewares
  {
  }

  datatype BuildResult = Built(graph: Graph) | MissingStorage | UnterminatedPipeline

  class UniKvsBuilder {
    const middlewares: MwArray
    var destinations: seq<Registered>
    var hasUnboundMiddlewares: bool
    ghost var program: seq<Step>

    ghost predicate Valid()
      reads this, middlewares, Arrays(destinations)
    {
      && middlewares.items == Chain(program) && Current(destinations) == Paths([], program)
      && middlewares !in Arrays(destinations)
      && hasUnboundMiddlewares == (program != [] && program[|program| - 1].Use?)
    }

    constructor ()
      ensures Valid() && program == [] && fresh(middlewares) && destinations == []
    {
      middlewares := new MwArray([]);
      destinations, hasUnboundMiddlewares, program := [], false, [];
    }

    method Use(m: Mw)
      requires Valid()
      modifies middlewares, this`hasUnboundMiddlewares, this`program
      ensures Valid() && program == old(program) + [Step.Use(m)]
      ensures Current(destinations) == old(Current(destinations))
    {
      OneMoreCall(program, Step.Use(m));
      middlewares.Push(m);
      program := program + [Step.Use(m)];
      hasUnboundMiddlewares := true;
    }

    method Persist(storage: string)
      requires Valid()
      modifies this
      ensures Valid() && program == old(program) + [Step.Persist(storage)]
      ensures Current(destinations) == old(Current(destinations)) + [Destination(storage, middlewares.items)]
      ensures forall x | x in Arrays(destinations) :: x in old(Arrays(destinations)) || fresh(x)
    {
      hide Paths, Chain, Current;
      OneMoreCall(program, Step.Persist(storage));
      var copy := new MwArray(middlewares.items);
      CurrentAppend(destinations, Registered(storage, copy));
      destinations := destinations + [Registered(storage, copy)];
      program := program + [Step.Persist(storage)];
      hasUnboundMiddlewares := false;
    }

    method Fork(branch: Branch) returns (r: ForkResult)
      requires Valid() && branch.Valid()
      modifies this
      ensures Valid()
      ensures r.InvalidFork? <==> branch.destinations == []
      ensures r.InvalidFork? ==> program == old(program) && destinations == old(destinations)
      ensures r.Forked? ==> program == old(program) + [Step.Fork(branch.program)] && old(destinations) <= destinations
      ensures forall x | x in Arrays(destinations) :: x in old(Arrays(destinations)) || fresh(x)
    {
      hide Paths, Chain, Current, Prefixed;
      ghost var step := Step.Fork(branch.program);
      var added;
      r, added := AppendForkDestinations(destinations, middlewares, branch);
      if r.Forked? {
        OneMoreCall(program, step);
        SplitArrays(destinations, added);
        destinations, hasUnboundMiddlewares := added, false;
        program := program + [step];
      }
    }

    predicate IsValid()
      reads this
    {
      destinations != [] && !hasUnboundMiddlewares
    }

    /** The compiled graph of the described tree, with `beforeAll` put before its root and `beforeStorage` before each storage. */
    method Build(beforeAll: seq<Mw>, beforeStorage: seq<Mw>) returns (r: BuildResult)
      requires Valid()
      ensures r.Built? <==> IsValid()
      ensures r.MissingStorage? <==> Paths([], program) == []
      ensures r.Built? ==> IsGraphOf(r.graph, Suffixed(Paths(beforeAll, program), beforeStorage))
      ensures r.Built? ==> |r.graph.leaves| == |Paths([], program)| && forall i | 0 <= i < |r.graph.leaves| ::
                r.graph.leaves[i].path == beforeAll + Paths([], program)[i].middlewares + beforeStorage
    {
      hide IsGraphOf;
      if destinations == [] { return MissingStorage; }
      if hasUnboundMiddlewares { return UnterminatedPipeline; }
      PathsBelow(beforeAll, program);
      var current := Current(destinations);
      var ds := current;
      if beforeAll != [] || beforeStorage != [] {
        ds := seq(|current|, i requires 0 <= i < |current| =>
          Destination(current[i].storage, beforeAll + current[i].middlewares + beforeStorage));
      }
      forall i | 0 <= i < |ds| ensures ds[i] == Suffixed(Prefixed(beforeAll, current), beforeStorage)[i] {
        assert [] + current[i].middlewares + [] == current[i].middlewares;
      }
      assert ds == Suffixed(Paths(beforeAll, program), beforeStorage);
      var graph := Compile(ds);
      GraphPaths(graph, ds);
      r := Built(graph);
    }
  }
}
