/** The UniKvs client: plain `set`, `get`, and `get` with repair, over one storage per destination. */
module Client {
  import opened Sequences
  import opened PipelineTrie
  import opened PipelineGraph
  import opened Options
  import opened Middlewares
  import opened Walks
  import Use
  import Encode
  import opened Decode
  import Repair

  type Store = map<Key, Data>

  /** How the middlewares behave in one operation; their transforms are the same in every operation. */
  datatype Conduct = Conduct(
    use: Mw -> Behaviour,
    encode: seq<Mw> -> Behaviour,
    decode: seq<Mw> -> Behaviour,
    mapKeyFault: seq<Mw> -> Option<Fault>)
  {
    function Encoding(tr: Env): Env {
      tr.(behave := encode, mapKeyFault := mapKeyFault)
    }

    function Decoding(tr: Env): Env {
      tr.(behave := decode, mapKeyFault := mapKeyFault)
    }

    function Repairing(tr: Env, ls: seq<Leaf>, missing: seq<Leaf>, throwOnDenied: bool): Repair.Request {
      Repair.Request(Encoding(tr), ls, Repair.AsSet(missing), throwOnDenied)
    }

    function Hooks(ms: seq<Mw>): (r: seq<Behaviour>)
      ensures |r| == |ms|
    {
      seq(|ms|, i requires 0 <= i < |ms| => use(ms[i]))
    }
  }

  /** How looking into one storage (`exists`, then `read`) ends; the signal may be aborted before it does. */
  datatype Probe = Probe(aborts: bool, fault: Option<Fault>)

  ghost predicate SameTransforms(a: Env, b: Env) {
    a.encode == b.encode && a.decode == b.decode && a.mapKey == b.mapKey
  }

  /** Encoding, decoding and key mapping along a chain depend only on the transforms. */
  lemma {:induction false} TransformsOnly(a: Env, b: Env, chain: seq<Mw>, data: Data)
    requires SameTransforms(a, b)
    ensures EncodeAlong(a, chain, data) == EncodeAlong(b, chain, data)
    ensures DecodeAlong(a, chain, data) == DecodeAlong(b, chain, data)
  {
    if chain != [] {
      TransformsOnly(a, b, chain[1..], a.encode(chain[0], data));
      TransformsOnly(a, b, chain[1..], data);
    }
  }

  lemma {:induction false} MapKeyOnly(a: Env, b: Env, chain: seq<Mw>, key: Key)
    requires SameTransforms(a, b)
    ensures KeyAlong(a, chain, key) == KeyAlong(b, chain, key)
  {
    if chain != [] {
      MapKeyOnly(a, b, chain[1..], a.mapKey(chain[0], key));
    }
  }

  lemma ChainsAlone(a: Env, b: Env, dests: seq<Destination>, data: Data, key: Key)
    requires SameTransforms(a, b)
    ensures EachChainAlone(a, dests, data, key) == EachChainAlone(b, dests, data, key)
  {
    forall j | 0 <= j < |dests|
      ensures EachChainAlone(a, dests, data, key)[j] == EachChainAlone(b, dests, data, key)[j]
    {
      TransformsOnly(a, b, dests[j].middlewares, data);
      MapKeyOnly(a, b, dests[j].middlewares, key);
    }
  }

  function Slot(store: Store, key: Key): Option<Data> {
    if key in store then Some(store[key]) else None
  }

  /** What storage `j` holds for `key`, under the key its chain gives. */
  function SlotOf(stores: seq<Store>, dests: seq<Destination>, tr: Env, key: Key, j: nat): Option<Data>
    requires j < |dests| == |stores|
  {
    Slot(stores[j], KeyAlong(tr, dests[j].middlewares, key))
  }

  /** Every storage holds `value` for `key`, encoded by its own chain. */
  ghost predicate Agreed(stores: seq<Store>, dests: seq<Destination>, tr: Env, key: Key, value: Data) {
    |stores| == |dests| &&
    forall j | 0 <= j < |dests| :: SlotOf(stores, dests, tr, key, j) == Some(EncodeAlong(tr, dests[j].middlewares, value))
  }

  /** Nothing but what the chains make of `key` has changed. */
  ghost predicate OnlyTouches(before: seq<Store>, after: seq<Store>, dests: seq<Destination>, tr: Env, key: Key) {
    |before| == |after| == |dests| &&
    forall j, x | 0 <= j < |dests| && x != KeyAlong(tr, dests[j].middlewares, key) :: Slot(after[j], x) == Slot(before[j], x)
  }

  /** What the storage holds after the write `t` has ended. */
  function Written(store: Store, t: Target, end: Repair.WriteEnd): Store {
    if end.fault.None? then store[t.key := t.data]
    else match end.slot
      case None => store - {t.key}
      case Some(d) => store[t.key := d]
  }

  datatype Lookup = Hit(at: nat, data: Data) | Miss | Stopped(fault: Fault)

  predicate OnePerStore(ts: seq<Target>, n: nat) {
    && (forall t | t in ts :: t.leaf.index < n)
    && forall i, k | 0 <= i < k < |ts| :: ts[i].leaf.index != ts[k].leaf.index
  }

  /** `after` is `before` with the writes `ts` ended. */
  ghost predicate AllWritten(before: seq<Store>, after: seq<Store>, ts: seq<Target>, ends: Leaf -> Repair.WriteEnd) {
    && |after| == |before|
    && (forall t | t in ts && t.leaf.index < |before| :: after[t.leaf.index] == Written(before[t.leaf.index], t, ends(t.leaf)))
    && (forall j | 0 <= j < |before| && (forall t | t in ts :: t.leaf.index != j) :: after[j] == before[j])
  }

  /** How an operation ends once its writes have: with an error that lists those that failed, if any did. */
  ghost function WritesEnd(ts: seq<Target>, ends: Leaf -> Repair.WriteEnd): Exit {
    var failed := Filter(ts, (t: Target) => ends(t.leaf).fault.Some?);
    if failed == [] then Done else Threw(Aggregated(0, Failed(|failed|)))
  }

  lemma WritesEndWell(ts: seq<Target>, ends: Leaf -> Repair.WriteEnd)
    ensures WritesEnd(ts, ends).Done? <==> forall t | t in ts :: ends(t.leaf).fault.None?
  {
    var failed := Filter(ts, (t: Target) => ends(t.leaf).fault.Some?);
    assert failed != [] ==> failed[0] in failed;
  }

  /** What a write comes to: the fault of `encode`, with nothing stored, or the end of the writes to its targets. */
  ghost predicate Stored(before: seq<Store>, after: seq<Store>, env: Env, ls: seq<Leaf>, value: Data, key: Key, ends: Leaf -> Repair.WriteEnd, r: Exit) {
    exists e: Exit, targets: seq<Target>, aborts: bool ::
      && Encode.Outcome(env, ls, value, key, false, e, targets, aborts)
      && if e.Threw? then r == e && after == before else AllWritten(before, after, targets, ends) && r == WritesEnd(targets, ends)
  }

  lemma StoredNothing(stores: seq<Store>, env: Env, ls: seq<Leaf>, value: Data, key: Key, ends: Leaf -> Repair.WriteEnd, r: Exit, targets: seq<Target>,
                      aborts: bool)
    requires r.Threw? && Encode.Outcome(env, ls, value, key, false, r, targets, aborts)
    ensures Stored(stores, stores, env, ls, value, key, ends, r)
  {
  }

  lemma StoredAll(before: seq<Store>, after: seq<Store>, env: Env, ls: seq<Leaf>, value: Data, key: Key, ends: Leaf -> Repair.WriteEnd,
                  targets: seq<Target>, aborts: bool)
    requires Encode.Outcome(env, ls, value, key, false, Done, targets, aborts) && AllWritten(before, after, targets, ends)
    ensures Stored(before, after, env, ls, value, key, ends, WritesEnd(targets, ends))
  {
  }

  lemma OneMore(before: seq<Store>, now: seq<Store>, ts: seq<Target>, i: nat, ends: Leaf -> Repair.WriteEnd)
    requires i < |ts| && OnePerStore(ts, |before|) && AllWritten(before, now, ts[..i], ends)
    ensures ts[i].leaf.index < |now| == |before|
    ensures AllWritten(before, now[ts[i].leaf.index := Written(now[ts[i].leaf.index], ts[i], ends(ts[i].leaf))], ts[..i + 1], ends)
  {
    var j := ts[i].leaf.index;
    assert ts[i] in ts && ts[..i + 1] == ts[..i] + [ts[i]];
    forall t | t in ts[..i] ensures t.leaf.index != j {
      var k :| 0 <= k < i && ts[k] == t;
    }
    assert now[j] == before[j];
    var after := now[j := Written(now[j], ts[i], ends(ts[i].leaf))];
    forall x | 0 <= x < |before| && (forall t | t in ts[..i + 1] :: t.leaf.index != x) ensures after[x] == before[x] {
      assert ts[i] in ts[..i + 1];
      forall t | t in ts[..i] ensures t.leaf.index != x { assert t in ts[..i + 1]; }
    }
  }

  /** Writes of targets made by the chains for `key` touch nothing else. */
  lemma TouchesOnlyKey(before: seq<Store>, after: seq<Store>, ts: seq<Target>, ends: Leaf -> Repair.WriteEnd, dests: seq<Destination>, tr: Env,
                       data: Data, key: Key)
    requires |before| == |dests| && AllWritten(before, after, ts, ends)
    requires forall t | t in ts :: t.leaf.index < |dests| && t == EachChainAlone(tr, dests, data, key)[t.leaf.index]
    ensures OnlyTouches(before, after, dests, tr, key)
  {
    forall j, x | 0 <= j < |dests| && x != KeyAlong(tr, dests[j].middlewares, key) ensures Slot(after[j], x) == Slot(before[j], x) {
      if t :| t in ts && t.leaf.index == j {
        assert t.key == KeyAlong(tr, dests[j].middlewares, key);
      }
    }
  }

  lemma SetAgrees(before: seq<Store>, after: seq<Store>, ends: Leaf -> Repair.WriteEnd, dests: seq<Destination>, tr: Env, data: Data, key: Key)
    requires |before| == |dests| && AllWritten(before, after, EachChainAlone(tr, dests, data, key), ends)
    requires forall t | t in EachChainAlone(tr, dests, data, key) :: ends(t.leaf).fault.None?
    ensures Agreed(after, dests, tr, key, data)
  {
    var ts := EachChainAlone(tr, dests, data, key);
    forall j | 0 <= j < |dests| ensures SlotOf(after, dests, tr, key, j) == Some(EncodeAlong(tr, dests[j].middlewares, data)) {
      assert ts[j] in ts && ts[j].leaf.index == j;
    }
  }

  /** The storage `j` answers, and has the key. */
  ghost predicate Answers(stores: seq<Store>, dests: seq<Destination>, tr: Env, key: Key, probes: nat -> Probe, j: nat)
    requires |stores| == |dests|
  {
    j < |dests| && probes(j).fault.None? && SlotOf(stores, dests, tr, key, j).Some?
  }

  /** `h` is the first destination, in registration order, that answers. */
  ghost predicate IsHit(stores: seq<Store>, dests: seq<Destination>, tr: Env, key: Key, probes: nat -> Probe, h: nat)
    requires |stores| == |dests|
  {
    Answers(stores, dests, tr, key, probes, h) && forall j | 0 <= j < h :: !Answers(stores, dests, tr, key, probes, j)
  }

  /** Whether the signal is aborted once the first `n` storages were looked into. */
  ghost predicate AbortedBy(aborted: bool, probes: nat -> Probe, n: nat) {
    aborted || exists j :: 0 <= j < n && probes(j).aborts
  }

  /** What `get` fails with at destination `j`: `mapKey` fails, or the storage does when the signal is aborted. */
  ghost predicate FailsAt(dests: seq<Destination>, env: Env, probes: nat -> Probe, aborted: bool, j: nat, fault: Fault) {
    j < |dests| &&
    if Maps(env, dests[j].middlewares) then probes(j).fault == Some(fault) && AbortedBy(aborted, probes, j + 1)
    else MapFails(env, dests[j].middlewares, fault)
  }

  /** `get` gets past looking into the first `n` storages. */
  ghost predicate GetsPast(dests: seq<Destination>, env: Env, probes: nat -> Probe, aborted: bool, n: nat) {
    forall j, fault | 0 <= j < n :: !FailsAt(dests, env, probes, aborted, j, fault)
  }

  /** It fails at destination `j`, before any destination answers. */
  ghost predicate StopsAt(stores: seq<Store>, dests: seq<Destination>, tr: Env, env: Env, key: Key, probes: nat -> Probe, aborted: bool, j: nat,
                          fault: Fault)
    requires |stores| == |dests|
  {
    && FailsAt(dests, env, probes, aborted, j, fault) && GetsPast(dests, env, probes, aborted, j)
    && forall i | 0 <= i < j :: !Answers(stores, dests, tr, key, probes, i)
  }

  /** The destinations before `h` that answered without the key. */
  ghost predicate AreMissing(missing: seq<Leaf>, stores: seq<Store>, dests: seq<Destination>, tr: Env, key: Key, probes: nat -> Probe, h: nat)
    requires |stores| == |dests|
  {
    forall l :: l in missing <==>
      l.index < h && l.index < |dests| && l == LeafOf(dests, l.index) && probes(l.index).fault.None? && SlotOf(stores, dests, tr, key, l.index).None?
  }

  /** Decoders undo encoders. */
  ghost predicate RoundTrips(tr: Env) {
    forall m, d :: tr.decode(m, tr.encode(m, d)) == d
  }

  /** Nothing fails in the decoders and key mappings of a read. */
  ghost predicate DecodesWell(c: Conduct) {
    (forall q :: c.decode(q).WellBehaved()) && forall q :: c.mapKeyFault(q).None?
  }

  /** No node on the way to a leaf drops a fault of its downstream. */
  ghost predicate NoneSwallows(env: Env, path: seq<Mw>) {
    forall i :: !SwallowsAt(env, path, i)
  }

  lemma WellAlong(c: Conduct, tr: Env, path: seq<Mw>)
    requires DecodesWell(c)
    ensures WellBehavedAlong(c.Decoding(tr), path)
  {
  }

  datatype State = State(stores: seq<Store>, unawaited: seq<Target>)

  class UniKvs {
    const g: Graph
    const tr: Env
    ghost const dests: seq<Destination>
    /** The storages, one per destination. */
    var stores: seq<Store>
    /** Writes of earlier repairs that nobody waits for; they land at any time. */
    var unawaited: seq<Target>

    ghost predicate Valid()
      reads this
    {
      IsGraphOf(g, dests) && |stores| == |dests| && forall t | t in unawaited :: t.leaf.index < |stores|
    }

    constructor (g: Graph, tr: Env, ghost dests: seq<Destination>)
      requires IsGraphOf(g, dests)
      ensures Valid() && this.g == g && this.tr == tr && this.dests == dests && unawaited == []
    {
      this.g, this.tr, this.dests := g, tr, dests;
      stores := seq(|g.leaves|, _ => map[]);
      unawaited := [];
    }

    ghost function Now(): State
      reads this
    {
      State(stores, unawaited)
    }

    /** One of the writes that nobody waits for ends. */
    method Land(k: nat, end: Repair.WriteEnd)
      requires Valid() && k < |unawaited|
      modifies this
      ensures Valid() && unawaited == old(unawaited[..k]) + old(unawaited[k + 1..])
      ensures var t := old(unawaited[k]); stores == old(stores)[t.leaf.index := Written(old(stores)[t.leaf.index], t, end)]
    {
      hide IsGraphOf, Written;
      var t := unawaited[k];
      stores := stores[t.leaf.index := Written(stores[t.leaf.index], t, end)];
      unawaited := unawaited[..k] + unawaited[k + 1..];
    }

    /** The parallel writes of an operation, each to its own storage. */
    method WriteAll(ts: seq<Target>, ends: Leaf -> Repair.WriteEnd) returns (errors: nat)
      requires OnePerStore(ts, |stores|)
      modifies this`stores
      ensures AllWritten(old(stores), stores, ts, ends)
      ensures WritesEnd(ts, ends) == if errors == 0 then Done else Threw(Aggregated(0, Failed(errors)))
    {
      hide AllWritten, OnePerStore;
      errors := 0;
      ghost var failed := (t: Target) => ends(t.leaf).fault.Some?;
      NoneWritten(stores, ends);
      for i := 0 to |ts|
        invariant AllWritten(old(stores), stores, ts[..i], ends)
        invariant errors == |Filter(ts[..i], failed)|
      {
        OneMore(old(stores), stores, ts, i, ends);
        var j, end := ts[i].leaf.index, ends(ts[i].leaf);
        stores := stores[j := Written(stores[j], ts[i], end)];
        if end.fault.Some? { errors := errors + 1; }
        assert ts[..i + 1] == ts[..i] + [ts[i]];
        FilterAppend(ts[..i], ts[i], failed);
      }
      assert ts[..|ts|] == ts;
    }

    /** The hooks that run before an operation. */
    method BeforeOperation(c: Conduct, aborted: bool) returns (r: Exit)
      ensures r.Threw? ==> StoppedBy(c.Hooks(g.middlewares), aborted, r)
      ensures r.Done? <==> Use.Passes(c.Hooks(g.middlewares), aborted)
      ensures aborted || (exists k :: Use.Guarded(c.Hooks(g.middlewares), k)) ==> r.Threw?
    {
      hide Use.Passes, Use.Hooks, Use.Hook, Use.Guarded, Use.Outcome;
      if k: nat :| Use.Guarded(c.Hooks(g.middlewares), k) { Use.GuardStops(c.Hooks(g.middlewares), k, aborted); }
      var run;
      r, run := Use.RunUse(c.Hooks(g.middlewares), aborted);
      if r.Done? && run.aborted { return Threw(Aborted); }
    }

    /** `set` of a plain value */
    method Set(key: Key, value: Data, c: Conduct, aborted: bool, ends: Leaf -> Repair.WriteEnd) returns (r: Exit)
      requires Valid()
      modifies this`stores
      ensures Valid()
      // However it ends, it touches only what the chains make of the key.
      ensures OnlyTouches(old(stores), stores, dests, tr, key)
      // Hooks that do not let the operation pass stop it before anything is stored, with the fault they end in, and so does whatever fails before
      // the writes.
      ensures !Use.Passes(c.Hooks(g.middlewares), aborted) ==> StoppedBy(c.Hooks(g.middlewares), aborted, r) && stores == old(stores)
      ensures aborted || (exists k :: Use.Guarded(c.Hooks(g.middlewares), k)) ==> r.Threw? && stores == old(stores)
      ensures r.Threw? && (forall l :: ends(l).fault.None?) ==> stores == old(stores)
      // Otherwise `encode` decides: its fault comes out with nothing stored, or its targets are written and each write ends as its storage says.
      ensures Use.Passes(c.Hooks(g.middlewares), aborted) ==> Stored(old(stores), stores, c.Encoding(tr), g.leaves, value, key, ends, r)
      // A success means that every storage has the value, unless some middleware kept quiet about a fault.
      ensures r.Done? && (ForwardsOn(c.Encoding(tr), g.leaves) || WellBehavedOn(c.Encoding(tr), g.leaves)) ==> Agreed(stores, dests, tr, key, value)
      // Where every fault is forwarded, it succeeds exactly if the hooks let it pass, all middlewares behave well and every write succeeds.
      ensures ForwardsOn(c.Encoding(tr), g.leaves) ==>
                (r.Done? <==> Use.Passes(c.Hooks(g.middlewares), aborted) && WellBehavedOn(c.Encoding(tr), g.leaves)
                              && forall j | 0 <= j < |dests| :: ends(LeafOf(dests, j)).fault.None?)
    {
      hide EachChainAlone, AllWritten, Agreed, OnlyTouches, WellBehavedOn, ForwardsOn, DisciplinedOn, IsGraphOf, Use.Passes, Use.Guarded, StoppedBy,
        Encode.Outcome, WritesEnd, Stored, Logged, Below, Encode.AllEnded, Encode.EveryNode, SureBreach, Breakers, SomeAborts, Clear;
      NothingTouched(stores, dests, tr, key);
      r := BeforeOperation(c, aborted);
      if r.Threw? { return; }
      var targets, run;
      r, targets, run := Encode.EncodeGraph(g, dests, c.Encoding(tr), false, key, value);
      if r.Threw? {
        StoredNothing(stores, c.Encoding(tr), g.leaves, value, key, ends, r, targets, run.aborted);
        return;
      }
      ChainsAlone(tr, c.Encoding(tr), dests, value, key);
      TargetsPerStore(targets, |dests|);
      var errors := WriteAll(targets, ends);
      TouchesOnlyKey(old(stores), stores, targets, ends, dests, tr, value, key);
      AloneLeaves(tr, dests, value, key);
      StoredAll(old(stores), stores, c.Encoding(tr), g.leaves, value, key, ends, targets, run.aborted);
      WritesEndWell(targets, ends);
      if errors > 0 { return Threw(Aggregated(0, Failed(errors))); }
      if targets == EachChainAlone(tr, dests, value, key) {
        SetAgrees(old(stores), stores, ends, dests, tr, value, key);
      }
    }

    /** The loop of `get` over the destinations: where the key is found first, and which ones lack it. */
    method Locate(key: Key, c: Conduct, probes: nat -> Probe, aborted: bool) returns (r: Lookup, missing: seq<Leaf>, aborted': bool)
      requires Valid()
      ensures r.Hit? ==>
                && IsHit(stores, dests, tr, key, probes, r.at) && AreMissing(missing, stores, dests, tr, key, probes, r.at)
                && SlotOf(stores, dests, tr, key, r.at) == Some(r.data)
                && GetsPast(dests, c.Decoding(tr), probes, aborted, r.at + 1) && aborted' == AbortedBy(aborted, probes, r.at + 1)
      ensures r.Miss? ==> GetsPast(dests, c.Decoding(tr), probes, aborted, |dests|) && forall j :: !Answers(stores, dests, tr, key, probes, j)
      ensures r.Stopped? ==> exists j :: StopsAt(stores, dests, tr, c.Decoding(tr), key, probes, aborted, j, r.fault)
      ensures (forall q :: c.mapKeyFault(q).None?) && !aborted && (forall j :: !probes(j).aborts) ==> !aborted' && !r.Stopped?
    {
      hide IsGraphOf, AreMissing, Answers, KeyAlong, SlotOf, Maps, MapFails, FailsAt, GetsPast, AbortedBy;
      var resolver := new LeafResolver(c.Decoding(tr), key);
      missing, aborted' := [], aborted;
      NoneMissing(stores, dests, tr, key, probes);
      NonePassed(dests, c.Decoding(tr), probes, aborted);
      if (forall q :: c.mapKeyFault(q).None?) && !aborted && (forall j :: !probes(j).aborts) { NothingStops(dests, c.Decoding(tr), probes, aborted); }
      var leaves := g.leaves;
      GraphLeaves(g, dests);
      for i := 0 to |leaves|
        invariant fresh(resolver) && resolver.Valid() && resolver.env == c.Decoding(tr) && resolver.rootKey == key
        invariant AreMissing(missing, stores, dests, tr, key, probes, i)
        invariant forall j | 0 <= j < i :: !Answers(stores, dests, tr, key, probes, j)
        invariant GetsPast(dests, c.Decoding(tr), probes, aborted, i) && aborted' == AbortedBy(aborted, probes, i)
      {
        var resolved, mapped := resolver.Resolve(leaves[i]);
        OnePassed(dests, c.Decoding(tr), probes, aborted, i);
        if resolved.Threw? {
          assert StopsAt(stores, dests, tr, c.Decoding(tr), key, probes, aborted, i, resolved.fault);
          return Stopped(resolved.fault), missing, aborted';
        }
        MapKeyOnly(tr, c.Decoding(tr), leaves[i].path, key);
        OneProbed(missing, stores, dests, tr, key, probes, i);
        var probe := probes(i);
        aborted' := aborted' || probe.aborts;
        if probe.fault.Some? {
          if aborted' {
            assert StopsAt(stores, dests, tr, c.Decoding(tr), key, probes, aborted, i, probe.fault.value);
            return Stopped(probe.fault.value), missing, aborted';
          }
          assert missing + [] == missing;
        } else if mapped !in stores[i] {
          missing := missing + [leaves[i]];
        } else {
          return Hit(i, stores[i][mapped]), missing, aborted';
        }
      }
      AnswersInRange(stores, dests, tr, key, probes);
      r := Miss;
    }

    /** `get`. With `repair` the value is also written back to the destinations that lack it (`#repairPlain`). */
    method Get(key: Key, repair: bool, throwOnRepairDenied: bool, c: Conduct, aborted: bool, probes: nat -> Probe, ends: Leaf -> Repair.WriteEnd,
               outlives: Leaf -> bool)
      returns (r: Exit, value: Option<Data>, ghost hit: nat)
      requires Valid()
      modifies this`stores, this`unawaited
      ensures Valid()
      ensures OnlyTouches(old(stores), stores, dests, tr, key) && (!repair ==> stores == old(stores))
      // Where every middleware waits for its `next()`, it leaves no write behind.
      ensures !repair || NoneDetachesOn(c.Encoding(tr), g.leaves) ==> unawaited == old(unawaited)
      // Hooks that do not let the operation pass, a key that no destination has, and decoders that fail stop it before anything is written.
      ensures !Use.Passes(c.Hooks(g.middlewares), aborted) ==> StoppedBy(c.Hooks(g.middlewares), aborted, r)
      ensures !Use.Passes(c.Hooks(g.middlewares), aborted) || (forall j :: !Answers(old(stores), dests, tr, key, probes, j)) ==>
                r.Threw? && stores == old(stores) && unawaited == old(unawaited)
      ensures Use.Passes(c.Hooks(g.middlewares), aborted) && (forall q :: c.mapKeyFault(q).None?) && (forall j :: !probes(j).aborts)
              && (forall j :: !Answers(old(stores), dests, tr, key, probes, j)) ==>
                r == Threw(NotFound)
      ensures aborted || (exists k :: Use.Guarded(c.Hooks(g.middlewares), k)) ==> r.Threw? && stores == old(stores) && unawaited == old(unawaited)
      ensures forall h: nat | h < |dests| && IsHit(old(stores), dests, tr, key, probes, h) && NoneSwallows(c.Decoding(tr), dests[h].middlewares)
                              && !WellBehavedAlong(c.Decoding(tr), dests[h].middlewares) ::
                r.Threw? && stores == old(stores) && unawaited == old(unawaited)
      // The value is the decoded content of the first destination that answers.
      ensures r.Done? <==> value.Some?
      ensures r.Done? ==> IsHit(old(stores), dests, tr, key, probes, hit)
      ensures r.Done? && (DecodesWell(c) || NoneSwallows(c.Decoding(tr), dests[hit].middlewares)) ==>
                value == Some(DecodeAlong(tr, dests[hit].middlewares, SlotOf(old(stores), dests, tr, key, hit).value))
      // In general, the first destination that `get` fails at before any answers decides, and otherwise what `decode` and then `repair` come to
      // at the one that answers.
      ensures Use.Passes(c.Hooks(g.middlewares), aborted) ==>
                forall j, fault | StopsAt(old(stores), dests, tr, c.Decoding(tr), key, probes, false, j, fault) ::
                  r == Threw(fault) && stores == old(stores) && unawaited == old(unawaited)
      ensures Use.Passes(c.Hooks(g.middlewares), aborted) ==>
                forall h: nat | IsHit(old(stores), dests, tr, key, probes, h) && GetsPast(dests, c.Decoding(tr), probes, false, h + 1) ::
                  exists missing ::
                    && AreMissing(missing, old(stores), dests, tr, key, probes, h)
                    && Read(old(Now()), Now(), c.Decoding(tr), dests[h].middlewares, SlotOf(old(stores), dests, tr, key, h).value,
                            AbortedBy(false, probes, h + 1), if repair then Some(c.Repairing(tr, g.leaves, missing, throwOnRepairDenied)) else None,
                            key, ends, outlives, r, value)
      // Without failures it succeeds whenever some destination answers. A repair fails it only by an abort, a breach of the contract, or a denial
      // that is asked for.
      ensures Use.Passes(c.Hooks(g.middlewares), aborted) && DecodesWell(c) && (forall j :: !probes(j).aborts)
              && (exists j :: Answers(old(stores), dests, tr, key, probes, j)) ==>
                && (!repair ==> r.Done?)
                && (repair && !throwOnRepairDenied && Tolerated(c.Encoding(tr), g.leaves, ends) ==> r.Done?)
                && (repair && WellBehavedOn(c.Encoding(tr), g.leaves) && (forall l :: !ends(l).aborts) ==>
                      exists h :: IsHit(old(stores), dests, tr, key, probes, h)
                                  && (r.Done? <==> !throwOnRepairDenied || NoneRefused(old(stores), dests, tr, key, probes, ends, h)))
      // Repair: the missing destinations that allow it, and that the middlewares let through, have the value under their own key and encoding.
      ensures repair && r.Done? && NoneDetachesOn(c.Encoding(tr), g.leaves) && (forall l :: !ends(l).aborts && ends(l).fault.None?)
              && (WellBehavedOn(c.Encoding(tr), g.leaves) || (CompliantOn(c.Encoding(tr), g.leaves) && !throwOnRepairDenied)) ==>
                Repaired(old(stores), stores, dests, tr, c.Encoding(tr), key, probes, hit, value.value)
    {
      hide IsGraphOf, AreMissing, Answers, IsHit, KeyAlong, SlotOf, OnlyTouches, WellBehavedOn, NoneDetachesOn, Repaired, NoneSwallows, Use.Passes, Use.Guarded,
        AbortedBy, Decode.Outcome, FailsAt, StoppedBy, GetsPast, Mended, StopsAt, Read, CompliantOn, NeverAbortsOn, NoneRefused, WellBehavedAlong, Decode.Decoded;
      NothingTouched(stores, dests, tr, key);
      hit, value := 0, None;
      r := BeforeOperation(c, aborted);
      if r.Threw? { return; }
      PassedUnaborted(c.Hooks(g.middlewares), aborted);
      var found, missing, stopped := Locate(key, c, probes, aborted);
      match found {
        case Stopped(fault) =>
          ghost var j: nat :| StopsAt(stores, dests, tr, c.Decoding(tr), key, probes, aborted, j, fault);
          StopDecides(stores, dests, tr, c.Decoding(tr), key, probes, aborted, j, fault);
          r := Threw(fault);
        case Miss =>
          PastDecides(stores, dests, tr, c.Decoding(tr), key, probes, aborted, |dests|);
          HitsAnswer(stores, dests, tr, key, probes);
          r := Threw(NotFound);
        case Hit(h, data) =>
          hit := h;
          HitInRange(stores, dests, tr, key, probes, h);
          OnlyHit(stores, dests, tr, key, probes, h);
          PastDecides(stores, dests, tr, c.Decoding(tr), key, probes, aborted, h + 1);
          GraphLeaves(g, dests);
          TransformsOnly(tr, c.Decoding(tr), dests[h].middlewares, data);
          if DecodesWell(c) { WellAlong(c, tr, dests[h].middlewares); }
          ghost var q := if repair then Some(c.Repairing(tr, g.leaves, missing, throwOnRepairDenied)) else None;
          var raw;
          ghost var before := stopped;
          r, raw, stopped := Decoded(h, data, c, stopped);
          ReadWhenDecoded(Now(), c.Decoding(tr), dests[h].middlewares, data, before, q, key, ends, outlives, r, raw, stopped);
          if r.Threw? { return; }
          if repair {
            r := RepairPlain(raw, h, missing, key, c, stopped, throwOnRepairDenied, probes, ends, outlives);
            ReadWhenMended(old(Now()), Now(), c.Decoding(tr), dests[h].middlewares, data, before, q.value, key, ends, outlives, r, raw, stopped);
            if r.Threw? { return; }
          }
          value := Some(raw);
      }
    }

    method Decoded(h: nat, data: Data, c: Conduct, aborted: bool) returns (r: Exit, raw: Data, aborted': bool)
      requires IsGraphOf(g, dests) && h < |dests|
      ensures DecodesWell(c) && !aborted ==> r.Done? && !aborted'
      ensures r.Done? && (DecodesWell(c) || NoneSwallows(c.Decoding(tr), dests[h].middlewares)) ==>
                raw == DecodeAlong(tr, dests[h].middlewares, data)
      ensures r.Done? && NoneSwallows(c.Decoding(tr), dests[h].middlewares) ==> WellBehavedAlong(c.Decoding(tr), dests[h].middlewares)
      ensures Decode.Outcome(c.Decoding(tr), dests[h].middlewares, data, aborted, r, raw, aborted')
    {
      hide WellBehavedAlong, IsGraphOf, Decode.Decoded, Decode.Outcome, Decode.MadeBy;
      GraphLeaves(g, dests);
      TransformsOnly(tr, c.Decoding(tr), dests[h].middlewares, data);
      if DecodesWell(c) { WellAlong(c, tr, dests[h].middlewares); }
      var run := new DecodeRun(c.Decoding(tr), aborted);
      r, raw := run.DecodeLeaf(g.leaves[h], data);
      aborted' := run.aborted;
    }

    /** `#repairPlain` from the decoded value on. */
    method RepairPlain(raw: Data, hit: nat, missing: seq<Leaf>, key: Key, c: Conduct, aborted: bool, throwOnRepairDenied: bool,
                       ghost probes: nat -> Probe, ends: Leaf -> Repair.WriteEnd, outlives: Leaf -> bool)
      returns (r: Exit)
      requires Valid() && hit < |dests| && AreMissing(missing, stores, dests, tr, key, probes, hit)
      modifies this`stores, this`unawaited
      ensures Valid() && OnlyTouches(old(stores), stores, dests, tr, key)
      ensures Mended(old(Now()), Now(), c.Repairing(tr, g.leaves, missing, throwOnRepairDenied), raw, key, ends, outlives,
                     aborted, r)
      ensures NoneDetachesOn(c.Encoding(tr), g.leaves) ==> unawaited == old(unawaited)
      ensures aborted ==> r.Threw?
      ensures !aborted && !throwOnRepairDenied && Tolerated(c.Encoding(tr), g.leaves, ends) ==> r.Done?
      ensures !aborted && WellBehavedOn(c.Encoding(tr), g.leaves) && (forall l :: !ends(l).aborts) ==>
                (r.Done? <==> !throwOnRepairDenied || NoneRefused(old(stores), dests, tr, key, probes, ends, hit))
      ensures r.Done? && NoneDetachesOn(c.Encoding(tr), g.leaves) && (forall l :: !ends(l).aborts && ends(l).fault.None?)
              && (WellBehavedOn(c.Encoding(tr), g.leaves) || (CompliantOn(c.Encoding(tr), g.leaves) && !throwOnRepairDenied)) ==>
                Repaired(old(stores), stores, dests, tr, c.Encoding(tr), key, probes, hit, raw)
    {
      hide IsGraphOf, AreMissing, Answers, KeyAlong, SlotOf, OnlyTouches, WellBehavedOn, NoneDetachesOn, CompliantOn, NeverAbortsOn, Repaired, NoneRefused,
        EachChainAlone, AllWritten, OnePerStore, Repair.Accounted, Repair.Needed, Repair.SomeDeniable, Repair.SomeRefused, Repair.RepairsAlone,
        Repair.LeavesApart, Repair.Gets, Repair.StartsLate, Logged, Below, Repair.AllEnded, Breakers, SureBreach, WayOpen, AllFinish, Repair.Denials,
        SomeAborts, Heard, Reaches, Repair.Outcome, Mended;
      var run;
      r, run := Repair.RepairGraph(g, dests, c.Encoding(tr), aborted, key, raw, missing, throwOnRepairDenied, ends, outlives);
      ghost var e := r;
      GraphLeaves(g, dests);
      ChainsAlone(tr, c.Encoding(tr), dests, raw, key);
      StartedPerStore(run.awaited, dests, tr, raw, key);
      StartedPerStore(run.unawaited, dests, tr, raw, key);
      var errors := WriteAll(run.awaited, ends);
      TouchesOnlyKey(old(stores), stores, run.awaited, ends, dests, tr, raw, key);
      NobodyDetaches(c, tr, g.leaves);
      WellNeverAborts(c.Encoding(tr), g.leaves);
      if !aborted && WellBehavedOn(c.Encoding(tr), g.leaves) && (forall l :: !ends(l).aborts) {
        RefusedWhenWell(old(stores), run.started, missing, c.Encoding(tr), dests, tr, key, probes, hit, raw, ends, g.leaves);
      }
      if r.Done? && run.aborted { r := Threw(Aborted); }
      if r.Done? && NoneDetachesOn(c.Encoding(tr), g.leaves) && (forall l :: !ends(l).aborts && ends(l).fault.None?) {
        if WellBehavedOn(c.Encoding(tr), g.leaves) { AllOpen(run.started, missing, c.Encoding(tr), dests, raw, key, g.leaves); }
        if WellBehavedOn(c.Encoding(tr), g.leaves) || (CompliantOn(c.Encoding(tr), g.leaves) && !throwOnRepairDenied) {
          MissingTargets(missing, old(stores), dests, tr, key, probes, hit, g.leaves);
          RepairedAll(old(stores), stores, run.awaited, missing, c.Encoding(tr), dests, tr, key, probes, hit, raw, ends, g.leaves);
        }
      }
      unawaited := unawaited + run.unawaited;
      assert old(unawaited) + [] == old(unawaited);
      MendedBy(old(Now()), Now(), c.Repairing(tr, g.leaves, missing, throwOnRepairDenied), raw, key, ends, outlives, aborted, e, run.awaited, run.unawaited,
               run.aborted);
    }
  }

  /** What a repair comes to: the awaited writes have ended, those left behind join the earlier ones, and an abort fails it. */
  ghost predicate Mended(before: State, after: State, q: Repair.Request, raw: Data, key: Key, ends: Leaf -> Repair.WriteEnd, outlives: Leaf -> bool,
                         aborted: bool, r: Exit) {
    exists e: Exit, awaited: seq<Target>, late: seq<Target>, aborts: bool ::
      && Repair.Outcome(q, raw, key, ends, outlives, aborted, e, awaited, late, aborts)
      && AllWritten(before.stores, after.stores, awaited, ends) && after.unawaited == before.unawaited + late
      && r == if e.Done? && aborts then Threw(Aborted) else e
  }

  /** What `get` comes to with the data found: the outcome of decoding it, or else of the repair `q`. */
  ghost predicate Read(before: State, after: State, env: Env, path: seq<Mw>, data: Data, aborted: bool, repair: Option<Repair.Request>, key: Key,
                       ends: Leaf -> Repair.WriteEnd, outlives: Leaf -> bool, r: Exit, value: Option<Data>) {
    exists e, raw, aborts ::
      && Decode.Outcome(env, path, data, aborted, e, raw, aborts) && value == (if r.Done? then Some(raw) else None)
      && if e.Threw? || repair.None? then r == e && after == before else Mended(before, after, repair.value, raw, key, ends, outlives, aborts, r)
  }

  lemma MendedBy(before: State, after: State, q: Repair.Request, raw: Data, key: Key, ends: Leaf -> Repair.WriteEnd, outlives: Leaf -> bool, aborted: bool,
                 e: Exit, awaited: seq<Target>, late: seq<Target>, aborts: bool)
    requires Repair.Outcome(q, raw, key, ends, outlives, aborted, e, awaited, late, aborts)
    requires AllWritten(before.stores, after.stores, awaited, ends) && after.unawaited == before.unawaited + late
    ensures Mended(before, after, q, raw, key, ends, outlives, aborted, if e.Done? && aborts then Threw(Aborted) else e)
  {
  }

  lemma ReadWhenDecoded(now: State, env: Env, path: seq<Mw>, data: Data, aborted: bool, repair: Option<Repair.Request>, key: Key,
                        ends: Leaf -> Repair.WriteEnd, outlives: Leaf -> bool, r: Exit, raw: Data, aborts: bool)
    requires Decode.Outcome(env, path, data, aborted, r, raw, aborts)
    ensures r.Threw? || repair.None? ==>
              Read(now, now, env, path, data, aborted, repair, key, ends, outlives, r, if r.Done? then Some(raw) else None)
  {
  }

  lemma ReadWhenMended(before: State, after: State, env: Env, path: seq<Mw>, data: Data, aborted: bool, q: Repair.Request, key: Key,
                       ends: Leaf -> Repair.WriteEnd, outlives: Leaf -> bool, r: Exit, raw: Data, aborts: bool)
    requires Decode.Outcome(env, path, data, aborted, Done, raw, aborts) && Mended(before, after, q, raw, key, ends, outlives, aborts, r)
    ensures Read(before, after, env, path, data, aborted, Some(q), key, ends, outlives, r, if r.Done? then Some(raw) else None)
  {
  }

  lemma OneMapFault(env: Env, path: seq<Mw>, fault: Fault, fault': Fault)
    requires MapFails(env, path, fault) && MapFails(env, path, fault')
    ensures fault == fault'
  {
  }

  /** The destination that stops the lookup decides. */
  lemma StopDecides(stores: seq<Store>, dests: seq<Destination>, tr: Env, env: Env, key: Key, probes: nat -> Probe, aborted: bool, j: nat, fault: Fault)
    requires |stores| == |dests| && StopsAt(stores, dests, tr, env, key, probes, aborted, j, fault)
    ensures forall j', fault' | StopsAt(stores, dests, tr, env, key, probes, aborted, j', fault') :: fault' == fault
    ensures forall h: nat | IsHit(stores, dests, tr, key, probes, h) :: !GetsPast(dests, env, probes, aborted, h + 1)
  {
    hide Answers, Maps, MapFails, AbortedBy;
    forall j': nat, fault' | StopsAt(stores, dests, tr, env, key, probes, aborted, j', fault') ensures fault' == fault {
      if !Maps(env, dests[j].middlewares) {
        OneMapFault(env, dests[j].middlewares, fault, fault');
      }
    }
    forall h: nat | IsHit(stores, dests, tr, key, probes, h) ensures !GetsPast(dests, env, probes, aborted, h + 1) {
      assert j <= h;
    }
  }

  lemma PastDecides(stores: seq<Store>, dests: seq<Destination>, tr: Env, env: Env, key: Key, probes: nat -> Probe, aborted: bool, n: nat)
    requires |stores| == |dests| && GetsPast(dests, env, probes, aborted, n)
    requires n >= |dests| || (n > 0 && Answers(stores, dests, tr, key, probes, n - 1))
    ensures forall j, fault :: !StopsAt(stores, dests, tr, env, key, probes, aborted, j, fault)
  {
  }

  /** A repair under which nobody breaks the contract or aborts. */
  ghost predicate Tolerated(env: Env, ls: seq<Leaf>, ends: Leaf -> Repair.WriteEnd) {
    CompliantOn(env, ls) && NeverAbortsOn(env, ls) && forall l :: !ends(l).aborts
  }

  /** The hooks do not let the operation pass: it throws what they end in, or that it was aborted. */
  ghost predicate StoppedBy(hooks: seq<Behaviour>, aborted: bool, r: Exit) {
    exists e, after :: Use.Outcome(hooks, aborted, e, after) && r.Threw? && r == if e.Done? && after then Threw(Aborted) else e
  }

  lemma PassedUnaborted(ms: seq<Behaviour>, aborted: bool)
    requires Use.Passes(ms, aborted)
    ensures !aborted
  {
  }

  lemma OnlyHit(stores: seq<Store>, dests: seq<Destination>, tr: Env, key: Key, probes: nat -> Probe, h: nat)
    requires |stores| == |dests| && IsHit(stores, dests, tr, key, probes, h)
    ensures Answers(stores, dests, tr, key, probes, h)
    ensures forall h': nat | IsHit(stores, dests, tr, key, probes, h') :: h' == h
  {
    forall h': nat | IsHit(stores, dests, tr, key, probes, h') ensures h' == h { OneHit(stores, dests, tr, key, probes, h, h'); }
  }

  /** The leaves that the chains' targets are for. */
  lemma AloneLeaves(tr: Env, dests: seq<Destination>, data: Data, key: Key)
    ensures forall j | 0 <= j < |dests| :: EachChainAlone(tr, dests, data, key)[j] in EachChainAlone(tr, dests, data, key)
    ensures forall j | 0 <= j < |dests| :: EachChainAlone(tr, dests, data, key)[j].leaf == LeafOf(dests, j)
  {
  }

  lemma NobodyDetaches(c: Conduct, tr: Env, ls: seq<Leaf>)
    ensures WellBehavedOn(c.Encoding(tr), ls) ==> NoneDetachesOn(c.Encoding(tr), ls)
  {
  }

  /** The destinations that lacked the key, allow repair, and have only nodes above them that let their downstream start, now have `value` for
      it; the others are as before. */
  ghost predicate Repaired(before: seq<Store>, after: seq<Store>, dests: seq<Destination>, tr: Env, env: Env, key: Key, probes: nat -> Probe, hit: nat,
                           value: Data) {
    |before| == |after| == |dests| &&
    forall j | 0 <= j < |dests| ::
      SlotOf(after, dests, tr, key, j) ==
      if IsMissing(before, dests, tr, key, probes, hit, j) && LeafOf(dests, j).canRepair && WayOpen(env, dests[j].middlewares)
      then Some(EncodeAlong(tr, dests[j].middlewares, value))
      else SlotOf(before, dests, tr, key, j)
  }

  /** Destination `j` answered, before the one that was hit, that it lacks the key. */
  predicate IsMissing(stores: seq<Store>, dests: seq<Destination>, tr: Env, key: Key, probes: nat -> Probe, hit: nat, j: nat)
    requires j < |dests| == |stores|
  {
    j < hit && probes(j).fault.None? && SlotOf(stores, dests, tr, key, j).None?
  }

  /** Every missing destination allows repair, and no storage refuses it. */
  ghost predicate NoneRefused(stores: seq<Store>, dests: seq<Destination>, tr: Env, key: Key, probes: nat -> Probe, ends: Leaf -> Repair.WriteEnd, hit: nat)
    requires |stores| == |dests|
  {
    forall j | 0 <= j < |dests| && IsMissing(stores, dests, tr, key, probes, hit, j) ::
      LeafOf(dests, j).canRepair && ends(LeafOf(dests, j)).fault != Some(Denied)
  }

  lemma MissingTargets(missing: seq<Leaf>, stores: seq<Store>, dests: seq<Destination>, tr: Env, key: Key, probes: nat -> Probe, hit: nat, ls: seq<Leaf>)
    requires |stores| == |dests| && hit <= |dests| && ls == LeavesOf(dests) && AreMissing(missing, stores, dests, tr, key, probes, hit)
    ensures forall l | l in missing :: l in ls && l.index < |dests| && l == LeafOf(dests, l.index)
    ensures forall j | 0 <= j < |dests| :: LeafOf(dests, j) in missing <==> IsMissing(stores, dests, tr, key, probes, hit, j)
  {
    forall l | l in missing ensures l in ls && l.index < |dests| && l == LeafOf(dests, l.index) { assert ls[l.index] == l; }
  }

  lemma WellNeverAborts(env: Env, ls: seq<Leaf>)
    ensures WellBehavedOn(env, ls) ==> NeverAbortsOn(env, ls)
  {
  }

  /** With well-behaved middlewares, a denial comes from a target or a storage. */
  lemma RefusedWhenWell(stores: seq<Store>, started: seq<Target>, missing: seq<Leaf>, env: Env, dests: seq<Destination>, tr: Env, key: Key,
                        probes: nat -> Probe, hit: nat, value: Data, ends: Leaf -> Repair.WriteEnd, ls: seq<Leaf>)
    requires |stores| == |dests| && hit <= |dests| && ls == LeavesOf(dests) && AreMissing(missing, stores, dests, tr, key, probes, hit)
    requires Repair.RepairsAlone(started, env, dests, missing, value, key)
    ensures Repair.SomeDeniable(ls, missing) || Repair.SomeRefused(started, ends) <==> !NoneRefused(stores, dests, tr, key, probes, ends, hit)
  {
    hide KeyAlong, SlotOf, AreMissing;
    MissingTargets(missing, stores, dests, tr, key, probes, hit, ls);
    var alone := EachChainAlone(env, dests, value, key);
    if t :| t in started && ends(t.leaf).fault == Some(Denied) { assert t.leaf in missing; }
    if !NoneRefused(stores, dests, tr, key, probes, ends, hit) {
      var j :| 0 <= j < |dests| && IsMissing(stores, dests, tr, key, probes, hit, j)
               && !(LeafOf(dests, j).canRepair && ends(LeafOf(dests, j)).fault != Some(Denied));
      assert alone[j] in alone && alone[j].leaf == LeafOf(dests, j) && LeafOf(dests, j) in missing;
      if LeafOf(dests, j).canRepair { assert alone[j] in started; }
    }
  }

  lemma AllOpen(started: seq<Target>, missing: seq<Leaf>, env: Env, dests: seq<Destination>, value: Data, key: Key, ls: seq<Leaf>)
    requires WellBehavedOn(env, ls) && ls == LeavesOf(dests) && Repair.RepairsAlone(started, env, dests, missing, value, key)
    ensures forall l: Leaf | l in missing && l in ls && l.canRepair :: Reaches(started, l) <==> WayOpen(env, l.path)
  {
    var alone := EachChainAlone(env, dests, value, key);
    forall l: Leaf | l in missing && l in ls && l.canRepair ensures Reaches(started, l) && WayOpen(env, l.path) {
      var j :| 0 <= j < |ls| && ls[j] == l;
      assert alone[j] in alone && alone[j].leaf == l && alone[j] in started;
      forall i | 0 < i <= |l.path| ensures env.behave(l.path[..i]).Opens() && env.mapKeyFault(l.path[..i]).None? { assert OnTrie(l.path[..i], ls); }
    }
  }

  lemma RepairedAll(before: seq<Store>, after: seq<Store>, started: seq<Target>, missing: seq<Leaf>, env: Env, dests: seq<Destination>, tr: Env,
                    key: Key, probes: nat -> Probe, hit: nat, value: Data, ends: Leaf -> Repair.WriteEnd, ls: seq<Leaf>)
    requires |before| == |dests| && hit < |dests| && SameTransforms(tr, env) && ls == LeavesOf(dests)
    requires AllWritten(before, after, started, ends) && forall l :: ends(l).fault.None?
    requires AreMissing(missing, before, dests, tr, key, probes, hit)
    requires forall t | t in started :: t in EachChainAlone(env, dests, value, key) && t.leaf in missing && t.leaf.canRepair
    requires forall l: Leaf | l in missing && l in ls && l.canRepair :: Reaches(started, l) <==> WayOpen(env, l.path)
    ensures Repaired(before, after, dests, tr, env, key, probes, hit, value)
  {
    hide KeyAlong, SlotOf, AreMissing, WayOpen;
    var alone := EachChainAlone(tr, dests, value, key);
    ChainsAlone(tr, env, dests, value, key);
    MissingTargets(missing, before, dests, tr, key, probes, hit, ls);
    forall j | 0 <= j < |dests|
      ensures SlotOf(after, dests, tr, key, j) ==
              if IsMissing(before, dests, tr, key, probes, hit, j) && LeafOf(dests, j).canRepair && WayOpen(env, dests[j].middlewares)
              then Some(EncodeAlong(tr, dests[j].middlewares, value))
              else SlotOf(before, dests, tr, key, j)
    {
      var l := LeafOf(dests, j);
      assert alone[j].leaf == l && alone[j] in alone;
      StartedFor(started, alone, l, dests, tr, key, value, j);
      OneSlot(before, after, started, alone, ends, dests, tr, key, value, j);
    }
  }

  lemma StartedFor(started: seq<Target>, alone: seq<Target>, l: Leaf, dests: seq<Destination>, tr: Env, key: Key, value: Data, j: nat)
    requires j < |dests| && l == LeafOf(dests, j) && alone == EachChainAlone(tr, dests, value, key) && forall t | t in started :: t in alone
    ensures alone[j] in started <==> Reaches(started, l)
  {
    if t :| t in started && t.leaf == l {
      var i :| 0 <= i < |alone| && alone[i] == t;
    }
  }

  /** The slot of destination `j` holds its target if it is among the writes. */
  lemma OneSlot(before: seq<Store>, after: seq<Store>, started: seq<Target>, alone: seq<Target>, ends: Leaf -> Repair.WriteEnd, dests: seq<Destination>,
                tr: Env, key: Key, value: Data, j: nat)
    requires |before| == |dests| && j < |dests| && alone == EachChainAlone(tr, dests, value, key)
    requires AllWritten(before, after, started, ends) && forall l :: ends(l).fault.None?
    requires forall t | t in started :: t in alone
    ensures |after| == |dests|
    ensures SlotOf(after, dests, tr, key, j) ==
            if alone[j] in started then Some(EncodeAlong(tr, dests[j].middlewares, value)) else SlotOf(before, dests, tr, key, j)
  {
    forall t | t in started && t.leaf.index == j ensures t == alone[j] {
      var i :| 0 <= i < |alone| && alone[i] == t;
    }
  }

  lemma StartedPerStore(started: seq<Target>, dests: seq<Destination>, tr: Env, data: Data, key: Key)
    requires forall t | t in started :: t in EachChainAlone(tr, dests, data, key)
    requires Repair.LeavesApart(started)
    ensures OnePerStore(started, |dests|)
    ensures forall t | t in started :: t.leaf.index < |dests| && t == EachChainAlone(tr, dests, data, key)[t.leaf.index]
  {
    var alone := EachChainAlone(tr, dests, data, key);
    forall t | t in started ensures t.leaf.index < |dests| && t == alone[t.leaf.index] {
      var i :| 0 <= i < |alone| && alone[i] == t;
    }
    forall i, k | 0 <= i < k < |started| ensures started[i].leaf.index != started[k].leaf.index {
      assert started[i] in started && started[k] in started;
    }
  }

  lemma HitInRange(stores: seq<Store>, dests: seq<Destination>, tr: Env, key: Key, probes: nat -> Probe, h: nat)
    requires |stores| == |dests| && IsHit(stores, dests, tr, key, probes, h)
    ensures h < |dests|
  {
  }

  lemma GraphLeaves(g: Graph, dests: seq<Destination>)
    requires IsGraphOf(g, dests)
    ensures g.leaves == LeavesOf(dests)
  {
  }

  lemma NonePassed(dests: seq<Destination>, env: Env, probes: nat -> Probe, aborted: bool)
    ensures GetsPast(dests, env, probes, aborted, 0) && AbortedBy(aborted, probes, 0) == aborted
  {
  }

  lemma NothingStops(dests: seq<Destination>, env: Env, probes: nat -> Probe, aborted: bool)
    requires (forall q :: env.mapKeyFault(q).None?) && !aborted && forall j :: !probes(j).aborts
    ensures forall j, fault :: !FailsAt(dests, env, probes, aborted, j, fault)
    ensures forall n :: !AbortedBy(aborted, probes, n)
  {
  }

  lemma OnePassed(dests: seq<Destination>, env: Env, probes: nat -> Probe, aborted: bool, j: nat)
    requires j < |dests| && GetsPast(dests, env, probes, aborted, j)
    ensures AbortedBy(aborted, probes, j + 1) == (AbortedBy(aborted, probes, j) || probes(j).aborts)
    ensures forall fault | MapFails(env, dests[j].middlewares, fault) :: FailsAt(dests, env, probes, aborted, j, fault)
    ensures Maps(env, dests[j].middlewares) && AbortedBy(aborted, probes, j + 1) && probes(j).fault.Some? ==>
              FailsAt(dests, env, probes, aborted, j, probes(j).fault.value)
    ensures Maps(env, dests[j].middlewares) && !(AbortedBy(aborted, probes, j + 1) && probes(j).fault.Some?) ==>
              GetsPast(dests, env, probes, aborted, j + 1)
  {
  }

  lemma NoneMissing(stores: seq<Store>, dests: seq<Destination>, tr: Env, key: Key, probes: nat -> Probe)
    requires |stores| == |dests|
    ensures AreMissing([], stores, dests, tr, key, probes, 0)
  {
  }

  lemma AnswersInRange(stores: seq<Store>, dests: seq<Destination>, tr: Env, key: Key, probes: nat -> Probe)
    requires |stores| == |dests|
    ensures forall j: nat :: Answers(stores, dests, tr, key, probes, j) ==> j < |dests|
  {
  }

  /** What looking into one more storage tells. */
  lemma OneProbed(missing: seq<Leaf>, stores: seq<Store>, dests: seq<Destination>, tr: Env, key: Key, probes: nat -> Probe, i: nat)
    requires i < |stores| == |dests| && AreMissing(missing, stores, dests, tr, key, probes, i)
    ensures SlotOf(stores, dests, tr, key, i) == Slot(stores[i], KeyAlong(tr, dests[i].middlewares, key))
    ensures Answers(stores, dests, tr, key, probes, i) <==> probes(i).fault.None? && SlotOf(stores, dests, tr, key, i).Some?
    ensures AreMissing(missing + (if probes(i).fault.None? && SlotOf(stores, dests, tr, key, i).None? then [LeafOf(dests, i)] else []),
                       stores, dests, tr, key, probes, i + 1)
  {
  }

  lemma NoneWritten(stores: seq<Store>, ends: Leaf -> Repair.WriteEnd)
    ensures AllWritten(stores, stores, [], ends)
  {
  }

  lemma NothingTouched(stores: seq<Store>, dests: seq<Destination>, tr: Env, key: Key)
    requires |stores| == |dests|
    ensures OnlyTouches(stores, stores, dests, tr, key)
  {
  }

  lemma TargetsPerStore(targets: seq<Target>, n: nat)
    requires Ascending(targets, ByLeaf) && forall t | t in targets :: t.leaf.index < n
    ensures OnePerStore(targets, n)
  {
    forall i, k | 0 <= i < k < |targets| ensures targets[i].leaf.index != targets[k].leaf.index {
      assert ByLeaf(targets[i]) < ByLeaf(targets[k]);
    }
  }

  /** The mapped keys of two keys differ in every destination. */
  ghost predicate KeptApart(dests: seq<Destination>, tr: Env, key: Key, other: Key) {
    forall j | 0 <= j < |dests| :: KeyAlong(tr, dests[j].middlewares, key) != KeyAlong(tr, dests[j].middlewares, other)
  }

  /** Whichever destination answers, what it holds decodes to the agreed value. */
  lemma ReadsBack(stores: seq<Store>, dests: seq<Destination>, tr: Env, key: Key, value: Data, probes: nat -> Probe, h: nat)
    requires RoundTrips(tr) && Agreed(stores, dests, tr, key, value) && IsHit(stores, dests, tr, key, probes, h)
    ensures DecodeAlong(tr, dests[h].middlewares, SlotOf(stores, dests, tr, key, h).value) == value
  {
    ChainRoundTrip(tr, dests[h].middlewares, value);
  }

  /** What a repair wrote decodes, by its own chain, to the value the repairing `get` returned. */
  lemma RepairedReadsBack(before: seq<Store>, after: seq<Store>, dests: seq<Destination>, tr: Env, env: Env, key: Key, probes: nat -> Probe, hit: nat, value: Data,
                          j: nat)
    requires RoundTrips(tr) && |before| == |dests| && Repaired(before, after, dests, tr, env, key, probes, hit, value)
    requires j < |dests| && IsMissing(before, dests, tr, key, probes, hit, j) && LeafOf(dests, j).canRepair && WayOpen(env, dests[j].middlewares)
    ensures SlotOf(after, dests, tr, key, j).Some?
    ensures DecodeAlong(tr, dests[j].middlewares, SlotOf(after, dests, tr, key, j).value) == value
  {
    ChainRoundTrip(tr, dests[j].middlewares, value);
  }

  /** An operation on `key` changes nothing a read of `other` depends on. */
  lemma OthersUntouched(before: seq<Store>, after: seq<Store>, dests: seq<Destination>, tr: Env, key: Key, other: Key, probes: nat -> Probe, h: nat)
    requires OnlyTouches(before, after, dests, tr, key) && KeptApart(dests, tr, key, other)
    ensures forall j | 0 <= j < |dests| :: SlotOf(after, dests, tr, other, j) == SlotOf(before, dests, tr, other, j)
    ensures IsHit(after, dests, tr, other, probes, h) <==> IsHit(before, dests, tr, other, probes, h)
  {
    hide KeyAlong, Slot;
    assert KeptApart(dests, tr, key, other);
    forall j | 0 <= j < |dests| ensures SlotOf(after, dests, tr, other, j) == SlotOf(before, dests, tr, other, j) {
      assert KeyAlong(tr, dests[j].middlewares, key) != KeyAlong(tr, dests[j].middlewares, other);
    }
    forall j: nat ensures Answers(after, dests, tr, other, probes, j) <==> Answers(before, dests, tr, other, probes, j) { }
  }

  lemma OneHit(stores: seq<Store>, dests: seq<Destination>, tr: Env, key: Key, probes: nat -> Probe, h: nat, h': nat)
    requires |stores| == |dests| && IsHit(stores, dests, tr, key, probes, h) && IsHit(stores, dests, tr, key, probes, h')
    ensures h == h'
  {
  }

  /** Read after write: after a successful `set`, a successful `get` returns the value that was set, with or without repair
      (unless a write that an earlier repair left behind lands in between). */
  method SetThenGet(db: UniKvs, key: Key, value: Data, c: Conduct, c': Conduct, aborted: bool, aborted': bool, repair: bool, throwOnRepairDenied: bool,
                    probes: nat -> Probe, ends: Leaf -> Repair.WriteEnd, ends': Leaf -> Repair.WriteEnd, outlives: Leaf -> bool)
    returns (stored: Exit, got: Exit, read: Option<Data>)
    requires db.Valid() && RoundTrips(db.tr)
    modifies db`stores, db`unawaited
    ensures db.Valid()
    ensures stored.Done? && got.Done?
            && (ForwardsOn(c.Encoding(db.tr), db.g.leaves) || WellBehavedOn(c.Encoding(db.tr), db.g.leaves))
            && (DecodesWell(c') || forall path :: NoneSwallows(c'.Decoding(db.tr), path)) ==>
              read == Some(value)
  {
    hide Agreed, OnlyTouches, ForwardsOn, WellBehavedOn, Use.Passes, Encode.Outcome, Decode.Decoded, AllWritten, NoneRefused,
      IsGraphOf, RoundTrips, IsHit, SlotOf, Repaired, NoneSwallows, DecodesWell, Use.Guarded;
    stored := db.Set(key, value, c, aborted, ends);
    ghost var stores := db.stores;
    ghost var hit;
    got, read, hit := db.Get(key, repair, throwOnRepairDenied, c', aborted', probes, ends', outlives);
    if Agreed(stores, db.dests, db.tr, key, value) && got.Done? {
      HitInRange(stores, db.dests, db.tr, key, probes, hit);
      ReadsBack(stores, db.dests, db.tr, key, value, probes, hit);
    }
  }

  /** A `set` of one key, successful or not, does not change what `get` of another returns: a value, another one, or none. */
  method SetBetweenGets(db: UniKvs, key: Key, value: Data, other: Key, c: Conduct, c': Conduct, aborted: bool, probes: nat -> Probe,
                        ends: Leaf -> Repair.WriteEnd)
    returns (first: Exit, before: Option<Data>, second: Exit, after: Option<Data>)
    requires db.Valid() && DecodesWell(c')
    modifies db`stores, db`unawaited
    ensures db.Valid()
    ensures KeptApart(db.dests, db.tr, key, other) && (forall j :: !probes(j).aborts) ==> (first.Done? <==> second.Done?) && after == before
  {
    hide KeptApart, OnlyTouches, IsGraphOf, IsHit, SlotOf, Repaired, NoneSwallows, DecodesWell, Agreed, ForwardsOn, WellBehavedOn, Use.Passes,
      Encode.Outcome, Decode.Decoded, AllWritten, NoneRefused,
      NoneDetachesOn;
    ghost var h, h';
    first, before, h := db.Get(other, false, false, c', false, probes, ends, _ => false);
    ghost var stores := db.stores;
    var stored := db.Set(key, value, c, aborted, ends);
    ghost var stores' := db.stores;
    second, after, h' := db.Get(other, false, false, c', false, probes, ends, _ => false);
    if KeptApart(db.dests, db.tr, key, other) && forall j :: !probes(j).aborts {
      OthersUntouched(stores, stores', db.dests, db.tr, key, other, probes, h);
      OthersUntouched(stores, stores', db.dests, db.tr, key, other, probes, h');
      if first.Done? { HitInRange(stores, db.dests, db.tr, other, probes, h); HitAnswers(stores', db.dests, db.tr, other, probes, h); }
      if second.Done? { HitInRange(stores, db.dests, db.tr, other, probes, h'); HitAnswers(stores, db.dests, db.tr, other, probes, h'); }
      if first.Done? && second.Done? { OneHit(stores, db.dests, db.tr, other, probes, h, h'); }
    }
  }

  lemma HitsAnswer(stores: seq<Store>, dests: seq<Destination>, tr: Env, key: Key, probes: nat -> Probe)
    requires |stores| == |dests|
    ensures forall h: nat | IsHit(stores, dests, tr, key, probes, h) :: Answers(stores, dests, tr, key, probes, h)
  {
  }

  lemma HitAnswers(stores: seq<Store>, dests: seq<Destination>, tr: Env, key: Key, probes: nat -> Probe, h: nat)
    requires |stores| == |dests| && IsHit(stores, dests, tr, key, probes, h)
    ensures Answers(stores, dests, tr, key, probes, h)
  {
  }
}
