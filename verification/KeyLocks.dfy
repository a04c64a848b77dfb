/** The locks of keyed operations: a shared lock on the instance, then the locks of the keys, in the order the client takes them. */
module KeyLocks {
  import opened Sequences

  /** `<` on strings: by the first code unit that differs, a prefix first. */
  predicate KeyLess(a: string, b: string) {
    b != "" && (a == "" || a[0] < b[0] || (a[0] == b[0] && KeyLess(a[1..], b[1..])))
  }

  lemma {:induction false} OneWay(a: string, b: string)
    ensures (KeyLess(a, b) || KeyLess(b, a)) <==> a != b
    ensures !(KeyLess(a, b) && KeyLess(b, a))
  {
    if a != "" && b != "" {
      OneWay(a[1..], b[1..]);
      assert a == [a[0]] + a[1..] && b == [b[0]] + b[1..];
    }
  }

  lemma {:induction false} KeyLessTransitive(a: string, b: string, c: string)
    requires KeyLess(a, b) && KeyLess(b, c)
    ensures KeyLess(a, c)
  {
    if a != "" && a[0] == b[0] == c[0] {
      KeyLessTransitive(a[1..], b[1..], c[1..]);
    }
  }

  datatype LockId = Instance | Key(key: string)

  datatype Lock = Lock(id: LockId, exclusive: bool)

  /** `copy` and `move` are transfers. `Open` locks the whole instance. */
  datatype Op =
    | Open
    | Set(key: string)
    | Get(key: string, repair: bool)
    | Has(key: string)
    | Delete(key: string)
    | Transfer(key: string, destinationKey: string)

  /** The locks an operation takes, in its order. */
  function LocksOf(op: Op): seq<Lock> {
    match op
    case Open => [Lock(Instance, true)]
    case Set(k) => [Lock(Instance, false), Lock(Key(k), true)]
    case Get(k, repair) => [Lock(Instance, false), Lock(Key(k), repair)]
    case Has(k) => [Lock(Instance, false), Lock(Key(k), false)]
    case Delete(k) => [Lock(Instance, false), Lock(Key(k), true)]
    case Transfer(k, d) =>
      if k == d then [Lock(Instance, false), Lock(Key(k), true)]
      else
        var first := if KeyLess(k, d) then k else d;
        var second := if KeyLess(k, d) then d else k;
        [Lock(Instance, false), Lock(Key(first), true), Lock(Key(second), true)]
  }

  /** The operation may change what is stored under the key. */
  predicate Writes(op: Op, k: string) {
    match op
    case Open => false
    case Set(key) => key == k
    case Get(key, repair) => key == k && repair
    case Has(_) => false
    case Delete(key) => key == k
    case Transfer(key, destinationKey) => key == k || destinationKey == k
  }

  /** The operation looks at what is stored under the key and leaves it alone. */
  predicate OnlyReads(op: Op, k: string) {
    (op.Get? && op.key == k && !op.repair) || (op.Has? && op.key == k)
  }

  /** They must not be at work together. */
  ghost predicate Conflict(a: Op, b: Op) {
    a.Open? || b.Open? || exists k :: (Writes(a, k) && (Writes(b, k) || OnlyReads(b, k))) || (Writes(b, k) && OnlyReads(a, k))
  }

  /** The lock is among those of the operation. */
  predicate Takes(op: Op, id: LockId) {
    exists k | 0 <= k < |LocksOf(op)| :: LocksOf(op)[k].id == id
  }

  /** An operation locks the instance and exactly the keys it touches, exclusively exactly where it writes; the whole instance for `open`. */
  lemma LocksFit(op: Op, k: string)
    ensures Takes(op, Instance) && (Exclusive(op, Instance) <==> op.Open?)
    ensures Takes(op, Key(k)) <==> Writes(op, k) || OnlyReads(op, k)
    ensures Exclusive(op, Key(k)) <==> Writes(op, k)
  {
    var locks := LocksOf(op);
    assert locks[0].id == Instance;
    assert |locks| > 1 ==> locks[1].id.Key?;
    assert |locks| > 2 ==> locks[2].id.Key?;
    if op.Transfer? { OneWay(op.key, op.destinationKey); }
  }

  predicate Before(a: LockId, b: LockId) {
    b.Key? && (a.Instance? || KeyLess(a.key, b.key))
  }

  lemma BeforeTransitive(a: LockId, b: LockId, c: LockId)
    requires Before(a, b) && Before(b, c)
    ensures Before(a, c)
  {
    if a.Key? { KeyLessTransitive(a.key, b.key, c.key); }
  }

  lemma BeforeIrreflexive(a: LockId)
    ensures !Before(a, a)
  {
    if a.Key? { OneWay(a.key, a.key); }
  }

  /** Every operation takes its locks in one global order. */
  lemma LocksAscend(op: Op, i: nat, j: nat)
    requires i < j < |LocksOf(op)|
    ensures Before(LocksOf(op)[i].id, LocksOf(op)[j].id)
  {
    if op.Transfer? { OneWay(op.key, op.destinationKey); }
  }

  /** How far an operation is: it holds its first `got` locks and may be waiting for the next, or it releases the first `left`. */
  datatype Progress = Acquiring(op: Op, got: nat, waiting: bool) | Releasing(op: Op, left: nat)
  {
    predicate Valid() {
      match this
      case Acquiring(op, got, waiting) => got <= |LocksOf(op)| && (waiting ==> got < |LocksOf(op)|)
      case Releasing(op, left) => left <= |LocksOf(op)|
    }

    predicate Finished() {
      Releasing? && left == 0
    }

    /** The number of locks held. */
    function Held(): nat {
      if Acquiring? then got else left
    }

    predicate Holds(id: LockId) {
      exists k | 0 <= k < |LocksOf(op)| :: k < Held() && LocksOf(op)[k].id == id
    }

    predicate WaitsFor(id: LockId)
      requires Valid()
    {
      Acquiring? && waiting && LocksOf(op)[got].id == id
    }
  }

  predicate Exclusive(op: Op, id: LockId) {
    exists k | 0 <= k < |LocksOf(op)| :: LocksOf(op)[k].id == id && LocksOf(op)[k].exclusive
  }

  /** Each lock is a first-in-first-out queue of the operations that hold it or wait for it. */
  datatype State = State(ops: seq<Progress>, queue: LockId -> seq<nat>)

  predicate Precedes(q: seq<nat>, j: nat, i: nat) {
    exists a, b | 0 <= a < b < |q| :: q[a] == j && q[b] == i
  }

  /** Nobody stands before `i`, or everybody before it and itself only share. */
  ghost predicate Granted(s: State, id: LockId, i: nat)
    requires i < |s.ops|
  {
    forall j: nat | Precedes(s.queue(id), j, i) && j < |s.ops| :: !Exclusive(s.ops[j].op, id) && !Exclusive(s.ops[i].op, id)
  }

  datatype Step =
    | Arrive(newOp: Op)
    // The operation asks for its next lock, gets it, has done its work, or gives a lock back.
    | Request(i: nat)
    | Grant(i: nat)
    | Work(i: nat)
    | Release(i: nat)
    // The operation's signal is aborted, or it fails.
    | Abort(i: nat)

  ghost predicate Enabled(s: State, step: Step) {
    if step.Arrive? then true
    else
      && step.i < |s.ops| && s.ops[step.i].Valid()
      && var p := s.ops[step.i];
         match step
         case Request(_) => p.Acquiring? && !p.waiting && p.got < |LocksOf(p.op)|
         case Grant(_) => p.Acquiring? && p.waiting && Granted(s, LocksOf(p.op)[p.got].id, step.i)
         case Work(_) => p.Acquiring? && p.got == |LocksOf(p.op)|
         case Release(_) => p.Releasing? && p.left > 0
         case Abort(_) => p.Acquiring?
  }

  function Update(f: LockId -> seq<nat>, id: LockId, q: seq<nat>): LockId -> seq<nat> {
    x => if x == id then q else f(x)
  }

  function Without(q: seq<nat>, i: nat): seq<nat> {
    Filter(q, x => x != i)
  }

  ghost function After(s: State, step: Step): State
    requires Enabled(s, step)
  {
    match step
    case Arrive(op) => s.(ops := s.ops + [Acquiring(op, 0, false)])
    case Request(i) =>
      var p := s.ops[i];
      var id := LocksOf(p.op)[p.got].id;
      State(s.ops[i := p.(waiting := true)], Update(s.queue, id, s.queue(id) + [i]))
    case Grant(i) =>
      var p := s.ops[i];
      s.(ops := s.ops[i := Acquiring(p.op, p.got + 1, false)])
    case Work(i) => s.(ops := s.ops[i := Releasing(s.ops[i].op, s.ops[i].got)])
    case Release(i) =>
      var p := s.ops[i];
      var id := LocksOf(p.op)[p.left - 1].id;
      State(s.ops[i := p.(left := p.left - 1)], Update(s.queue, id, Without(s.queue(id), i)))
    case Abort(i) =>
      var p := s.ops[i];
      var ops := s.ops[i := Releasing(p.op, p.got)];
      if p.waiting then
        var id := LocksOf(p.op)[p.got].id;
        State(ops, Update(s.queue, id, Without(s.queue(id), i)))
      else s.(ops := ops)
  }

  /** Every queue holds exactly the operations that hold or wait for its lock, and whoever holds a lock was granted it. */
  ghost predicate Invariant(s: State) {
    && (forall p | p in s.ops :: p.Valid())
    && (forall id :: QueueOk(s, id))
  }

  ghost predicate QueueOk(s: State, id: LockId)
    requires forall p | p in s.ops :: p.Valid()
  {
    var q := s.queue(id);
    && Distinct(q)
    && (forall i: nat :: i in q <==> i < |s.ops| && (s.ops[i].Holds(id) || s.ops[i].WaitsFor(id)))
    && (forall i | 0 <= i < |s.ops| && s.ops[i].Holds(id) :: Granted(s, id, i))
  }

  /** The lock an operation stands at: the one it asks for, waits for, or gives back next. */
  function At(p: Progress): LockId
    requires p.Valid() && (if p.Acquiring? then p.got < |LocksOf(p.op)| else p.left > 0)
  {
    LocksOf(p.op)[if p.Acquiring? then p.got else p.left - 1].id
  }

  /** An operation takes no lock twice. */
  lemma HeldAtStands(p: Progress, id: LockId)
    requires p.Valid() && (if p.Acquiring? then p.got < |LocksOf(p.op)| else p.left > 0)
    ensures p.Acquiring? ==> !p.Holds(At(p)) && (Acquiring(p.op, p.got + 1, false).Holds(id) <==> p.Holds(id) || id == At(p))
    ensures p.Releasing? ==> p.Holds(At(p)) && (p.(left := p.left - 1).Holds(id) <==> p.Holds(id) && id != At(p))
  {
    var at := if p.Acquiring? then p.got else p.left - 1;
    forall k | 0 <= k < |LocksOf(p.op)| && k != at ensures LocksOf(p.op)[k].id != LocksOf(p.op)[at].id {
      if k < at { LocksAscend(p.op, k, at); } else { LocksAscend(p.op, at, k); }
      BeforeIrreflexive(LocksOf(p.op)[at].id);
    }
  }

  lemma PrecedesWithout(q: seq<nat>, x: nat, j: nat, i: nat)
    requires Precedes(Without(q, x), j, i)
    ensures Precedes(q, j, i) && i != x && j != x
    decreases |q|
  {
    var keep := (y: nat) => y != x;
    var init, last := q[..|q| - 1], q[|q| - 1];
    assert q == init + [last];
    FilterAppend(init, last, keep);
    var w := Without(q, x);
    var a, b :| 0 <= a < b < |w| && w[a] == j && w[b] == i;
    assert w[a] in w && w[b] in w;
    if b < |Without(init, x)| {
      PrecedesWithout(init, x, j, i);
      var a', b' :| 0 <= a' < b' < |init| && init[a'] == j && init[b'] == i;
      assert q[a'] == j && q[b'] == i;
    } else {
      assert j in Without(init, x);
      assert j in init;
      var a' :| 0 <= a' < |init| && init[a'] == j;
      assert q[a'] == j && q[|q| - 1] == i;
    }
  }

  lemma {:induction false} DistinctWithout(q: seq<nat>, x: nat)
    requires Distinct(q)
    ensures Distinct(Without(q, x)) && forall y :: y in Without(q, x) <==> y in q && y != x
  {
    if q != [] {
      var init, last := q[..|q| - 1], q[|q| - 1];
      assert q == init + [last];
      FilterAppend(init, last, (y: nat) => y != x);
      DistinctWithout(init, x);
    }
  }

  lemma PrecedesAppend(q: seq<nat>, x: nat, j: nat, i: nat)
    requires x !in q && i in q && Precedes(q + [x], j, i)
    ensures Precedes(q, j, i)
  {
    var a, b :| 0 <= a < b < |q + [x]| && (q + [x])[a] == j && (q + [x])[b] == i;
    assert b < |q|;
    assert q[a] == j && q[b] == i;
  }

  /** Operation `i` joins the queue of `id`. */
  lemma Joins(s: State, s': State, i: nat, id: LockId)
    requires i < |s.ops| == |s'.ops| && (forall p | p in s.ops :: p.Valid()) && (forall p | p in s'.ops :: p.Valid())
    requires s'.ops == s.ops[i := s'.ops[i]] && s'.ops[i].op == s.ops[i].op
    requires s'.queue(id) == s.queue(id) + [i] && QueueOk(s, id)
    requires !s.ops[i].Holds(id) && !s.ops[i].WaitsFor(id) && s'.ops[i].WaitsFor(id) && !s'.ops[i].Holds(id)
    ensures QueueOk(s', id)
  {
    hide Progress.Holds, Progress.WaitsFor, Exclusive, Precedes;
    forall k | 0 <= k < |s'.ops| && s'.ops[k].Holds(id) ensures Granted(s', id, k) {
      assert k != i && s.ops[k].Holds(id);
      forall j: nat | Precedes(s'.queue(id), j, k) && j < |s'.ops|
        ensures !Exclusive(s'.ops[j].op, id) && !Exclusive(s'.ops[k].op, id)
      {
        PrecedesAppend(s.queue(id), i, j, k);
      }
    }
  }

  /** Operation `i` leaves the queue of `id`. */
  lemma Leaves(s: State, s': State, i: nat, id: LockId)
    requires i < |s.ops| == |s'.ops| && (forall p | p in s.ops :: p.Valid()) && (forall p | p in s'.ops :: p.Valid())
    requires s'.ops == s.ops[i := s'.ops[i]] && s'.ops[i].op == s.ops[i].op
    requires s'.queue(id) == Without(s.queue(id), i) && QueueOk(s, id)
    requires !s'.ops[i].WaitsFor(id) && !s'.ops[i].Holds(id)
    ensures QueueOk(s', id)
  {
    hide Progress.Holds, Progress.WaitsFor, Exclusive, Precedes;
    DistinctWithout(s.queue(id), i);
    forall k | 0 <= k < |s'.ops| && s'.ops[k].Holds(id) ensures Granted(s', id, k) {
      assert k != i && s.ops[k].Holds(id);
      forall j: nat | Precedes(s'.queue(id), j, k) && j < |s'.ops|
        ensures !Exclusive(s'.ops[j].op, id) && !Exclusive(s'.ops[k].op, id)
      {
        PrecedesWithout(s.queue(id), i, j, k);
      }
    }
  }

  /** Operation `i` keeps its place in the queue of `id`, or stays out of it; it may have been granted the lock. */
  lemma Stays(s: State, s': State, i: nat, id: LockId)
    requires i < |s.ops| == |s'.ops| && (forall p | p in s.ops :: p.Valid()) && (forall p | p in s'.ops :: p.Valid())
    requires s'.ops == s.ops[i := s'.ops[i]] && s'.ops[i].op == s.ops[i].op
    requires s'.queue(id) == s.queue(id) && QueueOk(s, id)
    requires s'.ops[i].WaitsFor(id) || s'.ops[i].Holds(id) <==> s.ops[i].WaitsFor(id) || s.ops[i].Holds(id)
    requires s'.ops[i].Holds(id) ==> s.ops[i].Holds(id) || Granted(s, id, i)
    ensures QueueOk(s', id)
  {
    hide Progress.Holds, Progress.WaitsFor, Exclusive, Precedes;
    forall k | 0 <= k < |s'.ops| && s'.ops[k].Holds(id) ensures Granted(s', id, k) {
      assert Granted(s, id, k);
    }
  }

  lemma StepKeeps(s: State, step: Step)
    requires Invariant(s) && Enabled(s, step)
    ensures Invariant(After(s, step))
  {
    hide Progress.Holds, Progress.WaitsFor, Exclusive, Precedes, Granted, QueueOk, LocksOf;
    var s' := After(s, step);
    if step.Arrive? {
      Arrives(s, step.newOp);
      return;
    }
    var i := step.i;
    var p := s.ops[i];
    forall x | x in s'.ops ensures x.Valid() { }
    forall id ensures QueueOk(s', id) {
      OpMoves(s, step, id);
      match step
      case Request(_) => if id == At(p) { Joins(s, s', i, id); } else { Stays(s, s', i, id); }
      case Grant(_) => Stays(s, s', i, id);
      case Work(_) => Stays(s, s', i, id);
      case Release(_) => if id == At(p) { Leaves(s, s', i, id); } else { Stays(s, s', i, id); }
      case Abort(_) => if p.waiting && id == At(p) { Leaves(s, s', i, id); } else { Stays(s, s', i, id); }
    }
  }

  /** What a step means for the operation's claim on a lock. */
  lemma OpMoves(s: State, step: Step, id: LockId)
    requires Invariant(s) && Enabled(s, step) && !step.Arrive?
    ensures After(s, step).ops[step.i].Valid()
    ensures var p, p' := s.ops[step.i], After(s, step).ops[step.i];
            match step
            case Request(_) => (p'.Holds(id) <==> p.Holds(id)) && !p.WaitsFor(id) && (p'.WaitsFor(id) <==> id == At(p)) && !p.Holds(At(p))
            case Grant(_) => (p'.Holds(id) <==> p.Holds(id) || id == At(p)) && (p.WaitsFor(id) <==> id == At(p)) && !p'.WaitsFor(id)
            case Work(_) => (p'.Holds(id) <==> p.Holds(id)) && !p.WaitsFor(id) && !p'.WaitsFor(id)
            case Release(_) => (p'.Holds(id) <==> p.Holds(id) && id != At(p)) && !p.WaitsFor(id) && !p'.WaitsFor(id)
            case Abort(_) => (p'.Holds(id) <==> p.Holds(id)) && !p'.WaitsFor(id)
                             && (p.waiting ==> !p.Holds(At(p))) && (p.WaitsFor(id) <==> p.waiting && id == At(p))
  {
    var p := s.ops[step.i];
    if (p.Acquiring? && p.got < |LocksOf(p.op)|) || (p.Releasing? && p.left > 0) { HeldAtStands(p, id); }
  }

  lemma Arrives(s: State, op: Op)
    requires Invariant(s)
    ensures Invariant(After(s, Arrive(op)))
  {
    hide Exclusive, Precedes, LocksOf;
    var s' := After(s, Arrive(op));
    var n := |s.ops|;
    forall id ensures QueueOk(s', id) {
      assert QueueOk(s, id);
      assert !s'.ops[n].Holds(id) && !s'.ops[n].WaitsFor(id);
      forall k | 0 <= k < |s'.ops| && s'.ops[k].Holds(id) ensures Granted(s', id, k) {
        forall j: nat | Precedes(s'.queue(id), j, k) && j < |s'.ops| ensures !Exclusive(s'.ops[j].op, id) && !Exclusive(s'.ops[k].op, id) {
          PrecedesIn(s.queue(id), j, k);
        }
      }
    }
  }

  lemma PrecedesIn(q: seq<nat>, j: nat, i: nat)
    requires Precedes(q, j, i)
    ensures j in q && i in q
  {
  }

  /** Two operations hold the same lock only to share it. */
  lemma MutualExclusion(s: State, id: LockId, i: nat, j: nat)
    requires Invariant(s) && i < |s.ops| && j < |s.ops| && i != j
    requires s.ops[i].Holds(id) && s.ops[j].Holds(id)
    ensures !Exclusive(s.ops[i].op, id) && !Exclusive(s.ops[j].op, id)
  {
    hide Progress.Holds, Progress.WaitsFor, Exclusive;
    var q := s.queue(id);
    assert QueueOk(s, id);
    assert i in q && j in q;
    var a :| 0 <= a < |q| && q[a] == i;
    var b :| 0 <= b < |q| && q[b] == j;
    assert Precedes(q, i, j) || Precedes(q, j, i) by {
      if a < b { assert q[a] == i && q[b] == j; } else { assert q[b] == j && q[a] == i; }
    }
    assert Granted(s, id, i) && Granted(s, id, j);
  }

  /** Whoever stands first in a queue may have the lock. */
  lemma FirstInLine(s: State, id: LockId)
    requires Invariant(s) && s.queue(id) != []
    ensures var i := s.queue(id)[0];
            i < |s.ops| && Granted(s, id, i) && (s.ops[i].Holds(id) || s.ops[i].WaitsFor(id))
  {
    hide Progress.Holds, Progress.WaitsFor, Exclusive;
    assert QueueOk(s, id);
    assert s.queue(id)[0] in s.queue(id);
  }

  predicate Progresses(step: Step) {
    !step.Arrive? && !step.Abort?
  }

  /** The operations waiting for a lock behind `id` in the global order. */
  ghost function WaitingBehind(s: State, id: LockId): set<nat>
    requires forall p | p in s.ops :: p.Valid()
  {
    set i: nat | i < |s.ops| && s.ops[i].Acquiring? && s.ops[i].waiting && Before(id, At(s.ops[i]))
  }

  /** From a waiting operation to one that can move: whoever is first in line for its lock can, or waits for a later lock. */
  lemma {:induction false} SomebodyMoves(s: State, i: nat) returns (step: Step)
    requires Invariant(s) && i < |s.ops| && s.ops[i].Acquiring? && s.ops[i].waiting
    ensures Enabled(s, step) && Progresses(step)
    decreases |WaitingBehind(s, At(s.ops[i]))|
  {
    hide LocksOf, Granted, Exclusive;
    var id := At(s.ops[i]);
    assert s.ops[i].WaitsFor(id);
    assert QueueOk(s, id);
    assert i in s.queue(id);
    FirstInLine(s, id);
    var j := s.queue(id)[0];
    var p := s.ops[j];
    if p.WaitsFor(id) {
      step := Grant(j);
    } else if p.Releasing? {
      step := Release(j);
    } else if !p.waiting {
      step := if p.got < |LocksOf(p.op)| then Request(j) else Work(j);
    } else {
      var k :| 0 <= k < |LocksOf(p.op)| && k < p.Held() && LocksOf(p.op)[k].id == id;
      LocksAscend(p.op, k, p.got);
      Closer(s, id, j);
      step := SomebodyMoves(s, j);
    }
  }

  lemma Closer(s: State, id: LockId, j: nat)
    requires (forall p | p in s.ops :: p.Valid()) && j < |s.ops| && s.ops[j].Acquiring? && s.ops[j].waiting && Before(id, At(s.ops[j]))
    ensures |WaitingBehind(s, At(s.ops[j]))| < |WaitingBehind(s, id)|
  {
    hide LocksOf;
    var later := At(s.ops[j]);
    BeforeIrreflexive(later);
    forall x | x in WaitingBehind(s, later) ensures x in WaitingBehind(s, id) {
      BeforeTransitive(id, later, At(s.ops[x]));
    }
    assert j in WaitingBehind(s, id) && j !in WaitingBehind(s, later);
    Smaller(WaitingBehind(s, later), WaitingBehind(s, id), j);
  }

  lemma Smaller(a: set<nat>, b: set<nat>, x: nat)
    requires a <= b && x in b && x !in a
    ensures |a| < |b|
  {
    assert a <= b - {x};
    Subset(a, b - {x});
  }

  lemma {:induction false} Subset(a: set<nat>, b: set<nat>)
    requires a <= b
    ensures |a| <= |b|
  {
    if x :| x in a {
      Subset(a - {x}, b - {x});
    }
  }

  /** No deadlock: as long as some operation is unfinished, some operation can take its next step. */
  lemma NoDeadlock(s: State, i: nat) returns (step: Step)
    requires Invariant(s) && i < |s.ops| && !s.ops[i].Finished()
    ensures Enabled(s, step) && Progresses(step)
  {
    var p := s.ops[i];
    if p.Releasing? {
      step := Release(i);
    } else if p.waiting {
      step := SomebodyMoves(s, i);
    } else {
      step := if p.got < |LocksOf(p.op)| then Request(i) else Work(i);
    }
  }

  /** A bound on the steps an operation still takes. */
  function Remaining(p: Progress): nat
    requires p.Valid()
  {
    match p
    case Acquiring(op, got, waiting) => |LocksOf(op)| + 1 + 3 * (|LocksOf(op)| - got) + if waiting then 0 else 1
    case Releasing(_, left) => left
  }

  function RemainingOf(ops: seq<Progress>): nat
    requires forall p | p in ops :: p.Valid()
  {
    if ops == [] then 0 else Remaining(ops[0]) + RemainingOf(ops[1..])
  }

  lemma {:induction false} OneLess(ops: seq<Progress>, i: nat, p: Progress)
    requires (forall x | x in ops :: x.Valid()) && i < |ops| && p.Valid() && Remaining(p) < Remaining(ops[i])
    ensures RemainingOf(ops[i := p]) < RemainingOf(ops)
  {
    if i > 0 {
      assert ops[i := p][1..] == ops[1..][i - 1 := p];
      OneLess(ops[1..], i - 1, p);
    } else {
      assert ops[0 := p][1..] == ops[1..];
    }
  }

  /** Every step of an operation already there, an abort included, brings the end nearer. */
  lemma StepsRunOut(s: State, step: Step)
    requires Invariant(s) && Enabled(s, step) && !step.Arrive?
    ensures Invariant(After(s, step))
    ensures RemainingOf(After(s, step).ops) < RemainingOf(s.ops)
  {
    hide QueueOk, LocksOf, Granted;
    StepKeeps(s, step);
    OneLess(s.ops, step.i, After(s, step).ops[step.i]);
  }

  ghost predicate Reaches(s: State, steps: seq<Step>, s': State)
    decreases |steps|
  {
    if steps == [] then s == s' else Enabled(s, steps[0]) && Reaches(After(s, steps[0]), steps[1..], s')
  }

  lemma {:induction false} EveryRun(s: State, steps: seq<Step>, s': State)
    requires Invariant(s) && Reaches(s, steps, s')
    ensures Invariant(s')
    ensures (forall st | st in steps :: !st.Arrive?) ==> |steps| + RemainingOf(s'.ops) <= RemainingOf(s.ops)
    decreases |steps|
  {
    hide Invariant;
    if steps != [] {
      StepKeeps(s, steps[0]);
      EveryRun(After(s, steps[0]), steps[1..], s');
      if forall st | st in steps :: !st.Arrive? {
        assert steps[0] in steps && forall st | st in steps[1..] :: st in steps;
        StepsRunOut(s, steps[0]);
      }
    }
  }

  /** The start: no operations, and empty queues. */
  const Idle: State := State([], _ => [])

  lemma IdleOk()
    ensures Invariant(Idle)
  {
  }

  /** From every reachable state the operations can all be brought to their end without any abort; and they reach it however they
      are scheduled, since by `EveryRun` only so many steps are left and by `NoDeadlock` one of them is always possible. */
  lemma {:induction false} EverybodyFinishes(s: State) returns (steps: seq<Step>, s': State)
    requires Invariant(s)
    ensures Reaches(s, steps, s') && (forall st | st in steps :: Progresses(st))
    ensures forall p | p in s'.ops :: p.Finished()
    decreases RemainingOf(s.ops)
  {
    if i :| 0 <= i < |s.ops| && !s.ops[i].Finished() {
      var step := NoDeadlock(s, i);
      StepsRunOut(s, step);
      steps, s' := EverybodyFinishes(After(s, step));
      steps := [step] + steps;
    } else {
      steps, s' := [], s;
    }
  }

  /** In every state that can be reached from the start, two holders of a lock share it. */
  lemma ReachableExclusion(steps: seq<Step>, s: State, id: LockId, i: nat, j: nat)
    requires Reaches(Idle, steps, s) && i < |s.ops| && j < |s.ops| && i != j && s.ops[i].Holds(id) && s.ops[j].Holds(id)
    ensures !Exclusive(s.ops[i].op, id) && !Exclusive(s.ops[j].op, id)
  {
    hide Invariant, Exclusive, Progress.Holds;
    IdleOk();
    EveryRun(Idle, steps, s);
    MutualExclusion(s, id, i, j);
  }

  /** In every state that can be reached from the start, two operations that hold all their locks are not in conflict: nobody is at work beside
      `open`, and nobody beside an operation that writes a key looks at the key or writes it. */
  lemma ReachableNoConflict(steps: seq<Step>, s: State, i: nat, j: nat)
    requires Reaches(Idle, steps, s) && i < |s.ops| && j < |s.ops| && i != j
    requires s.ops[i].Held() == |LocksOf(s.ops[i].op)| && s.ops[j].Held() == |LocksOf(s.ops[j].op)|
    ensures !Conflict(s.ops[i].op, s.ops[j].op)
  {
    hide Writes, OnlyReads, Takes, Exclusive, LocksOf, Reaches;
    var a, b := s.ops[i], s.ops[j];
    forall id | Takes(a.op, id) && Takes(b.op, id) ensures !Exclusive(a.op, id) && !Exclusive(b.op, id) {
      TakesHolds(a, id);
      TakesHolds(b, id);
      ReachableExclusion(steps, s, id, i, j);
    }
    LocksFit(a.op, "");
    LocksFit(b.op, "");
    if k :| (Writes(a.op, k) && (Writes(b.op, k) || OnlyReads(b.op, k))) || (Writes(b.op, k) && OnlyReads(a.op, k)) {
      LocksFit(a.op, k);
      LocksFit(b.op, k);
    }
  }

  lemma TakesHolds(p: Progress, id: LockId)
    requires p.Held() == |LocksOf(p.op)| && Takes(p.op, id)
    ensures p.Holds(id)
  {
  }

  /** In every state that can be reached from the start, as long as some operation is unfinished some operation can take its next step. */
  lemma ReachableNotStuck(steps: seq<Step>, s: State, i: nat) returns (step: Step)
    requires Reaches(Idle, steps, s) && i < |s.ops| && !s.ops[i].Finished()
    ensures Enabled(s, step) && Progresses(step)
  {
    IdleOk();
    EveryRun(Idle, steps, s);
    step := NoDeadlock(s, i);
  }

  /** However the operations of a reachable state are scheduled from there on, aborts included: the run lasts at most `RemainingOf` steps, and
      when no operation can go on all of them have finished. */
  lemma EveryRunFinishes(steps: seq<Step>, s: State, more: seq<Step>, s': State)
    requires Reaches(Idle, steps, s) && Reaches(s, more, s') && forall st | st in more :: !st.Arrive?
    requires forall st: Step :: Enabled(s', st) ==> !Progresses(st)
    ensures (forall p | p in s.ops :: p.Valid()) && |more| <= RemainingOf(s.ops)
    ensures forall p | p in s'.ops :: p.Finished()
  {
    hide QueueOk;
    IdleOk();
    EveryRun(Idle, steps, s);
    EveryRun(s, more, s');
    forall i | 0 <= i < |s'.ops| ensures s'.ops[i].Finished() {
      if !s'.ops[i].Finished() { var step := NoDeadlock(s', i); }
    }
  }
}
