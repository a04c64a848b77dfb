/** PluginLifecycle: a plugin shared by several users, opened by the first and closed by the last. */
module PluginLifecycle {

  /** The plugin together with what its lifecycle object knows. A plugin may lack `open` or `close`. */
  datatype Plugin = Plugin(hasOpen: bool, hasClose: bool, isOpen: bool, references: nat, closeFailed: bool)
  {
    /** Only plugins that can be opened and closed are counted. */
    predicate Counted() {
      hasOpen && hasClose
    }

    /** Owned: somebody holds it, or a failed close still has to be made good. */
    predicate Owned() {
      references > 0 || closeFailed
    }
  }

  /** How a call of the plugin's own `close` ends; a failed one may or may not leave the plugin open. A failed `open` leaves it
      closed. */
  datatype CloseEnd = Closes | Fails(staysOpen: bool)

  /** After the lifecycle's `open`, when the plugin's `open` would end as `opens` says. */
  function AfterOpen(p: Plugin, opens: bool): Plugin {
    if !p.hasOpen || (p.isOpen && (!p.hasClose || !p.Owned())) || (!p.isOpen && !opens) then p
    else p.(isOpen := true, references := if p.hasClose then p.references + 1 else p.references, closeFailed := p.closeFailed && !p.hasClose)
  }

  predicate OpenRejects(p: Plugin, opens: bool) {
    p.hasOpen && !p.isOpen && !opens
  }

  /** Whether `close` gets as far as the plugin's own `close`. */
  predicate ClosesReally(p: Plugin) {
    p.hasClose && p.Owned() && p.references <= 1 && p.isOpen
  }

  function AfterRealClose(p: Plugin, end: CloseEnd): Plugin {
    p.(isOpen := end.Fails? && end.staysOpen, closeFailed := end.Fails?)
  }

  /** After the lifecycle's `close`: it gives up one reference, and the last one closes. */
  function AfterClose(p: Plugin, end: CloseEnd): Plugin {
    if !p.hasClose || !p.Owned() then p
    else
      var released := p.(references := if p.references > 0 then p.references - 1 else 0);
      if ClosesReally(p) then AfterRealClose(released, end)
      else if released.references > 0 then released
      else released.(closeFailed := false)
  }

  predicate RetriesReally(p: Plugin) {
    p.hasClose && p.closeFailed && p.references == 0 && p.isOpen
  }

  /** After `retryClose`. */
  function AfterRetry(p: Plugin, end: CloseEnd): Plugin {
    if RetriesReally(p) then AfterRealClose(p, end)
    else if p.hasClose && p.closeFailed && p.references == 0 then p.(closeFailed := false)
    else p
  }

  class Lifecycle {
    /** The plugin. */
    const hasOpen: bool
    const hasClose: bool
    var isOpen: bool
    /** The bookkeeping about it. */
    var references: nat
    var closeFailed: bool

    ghost function State(): Plugin
      reads this
    {
      Plugin(hasOpen, hasClose, isOpen, references, closeFailed)
    }

    constructor (hasOpen: bool, hasClose: bool, isOpen: bool)
      ensures State() == Plugin(hasOpen, hasClose, isOpen, 0, false)
    {
      this.hasOpen, this.hasClose, this.isOpen := hasOpen, hasClose, isOpen;
      references, closeFailed := 0, false;
    }

    method Open(opens: bool) returns (rejects: bool)
      modifies this
      ensures State() == AfterOpen(old(State()), opens)
      ensures rejects == OpenRejects(old(State()), opens)
    {
      if !hasOpen { return false; }
      if !hasClose {
        if isOpen { return false; }
        if !opens { return true; }
        isOpen := true;
        return false;
      }
      if isOpen && references == 0 && !closeFailed { return false; }
      if references > 0 || closeFailed {
        if isOpen {
          references, closeFailed := references + 1, false;
          return false;
        }
        if !opens { return true; }
        isOpen := true;
        references, closeFailed := references + 1, false;
        return false;
      }
      if !opens { return true; }
      isOpen := true;
      references := references + 1;
      return false;
    }

    method Close(end: CloseEnd) returns (rejects: bool)
      modifies this
      ensures State() == AfterClose(old(State()), end)
      ensures rejects == (ClosesReally(old(State())) && end.Fails?)
    {
      if !hasClose { return false; }
      if references == 0 && !closeFailed { return false; }
      if references > 0 { references := references - 1; }
      if references > 0 { return false; }
      if !isOpen {
        closeFailed := false;
        return false;
      }
      rejects := CloseReal(end);
    }

    method RetryClose(end: CloseEnd) returns (rejects: bool)
      modifies this
      ensures State() == AfterRetry(old(State()), end)
      ensures rejects == (RetriesReally(old(State())) && end.Fails?)
    {
      if !hasClose { return false; }
      if !closeFailed || references > 0 { return false; }
      if !isOpen {
        closeFailed := false;
        return false;
      }
      rejects := CloseReal(end);
    }

    method CloseReal(end: CloseEnd) returns (rejects: bool)
      modifies this
      ensures State() == AfterRealClose(old(State()), end) && rejects == end.Fails?
    {
      match end
      case Closes => isOpen, closeFailed, rejects := false, false, false;
      case Fails(staysOpen) => isOpen, closeFailed, rejects := staysOpen, true, true;
    }
  }
}

/** Several clients that share plugins, with every interleaving of their calls of `open` and `close`. */
module SharedPlugins {
  import opened PluginLifecycle

  /** One place where a client uses a plugin. A plugin used in two places of one client is held twice. */
  datatype User = User(client: nat, place: nat)

  datatype Setup = Setup(users: set<User>, plugin: User -> nat)

  datatype Slot = Out | OpenFailed | Held | RetryDue

  datatype Phase = Closed | Opening | Open | RollingBack | Closing

  datatype State = State(plugins: nat -> Plugin, slot: User -> Slot, phase: nat -> Phase)

  /** A call of one client; the calls on the plugins are atomic, because each plugin's wrapper holds its lock over the call. */
  datatype Step =
    | BeginOpen(client: nat)
    | OpenSlot(user: User, opens: bool)
    | EndOpen(client: nat, aborted: bool)
    | BeginClose(client: nat)
    | CloseSlot(user: User, end: CloseEnd)
    | RetrySlot(user: User, end: CloseEnd)
    | EndClose(client: nat)

  function Update<K(==), V>(f: K -> V, k: K, v: V): K -> V {
    x => if x == k then v else f(x)
  }

  /** All places of the client satisfy `ok`. */
  ghost predicate AllSlots(su: Setup, s: State, client: nat, ok: Slot -> bool) {
    forall u | u in su.users && u.client == client :: ok(s.slot(u))
  }

  ghost predicate Enabled(su: Setup, s: State, step: Step) {
    match step
    case BeginOpen(c) => s.phase(c).Closed?
    case OpenSlot(u, _) => u in su.users && s.phase(u.client).Opening? && s.slot(u).Out?
    case EndOpen(c, _) => s.phase(c).Opening? && AllSlots(su, s, c, (x: Slot) => x.Held? || x.OpenFailed?)
    case BeginClose(c) => s.phase(c).Open?
    case CloseSlot(u, _) => u in su.users && (s.phase(u.client).RollingBack? || s.phase(u.client).Closing?) && s.slot(u).Held?
    case RetrySlot(u, _) => u in su.users && (s.phase(u.client).RollingBack? || s.phase(u.client).Closing?) && s.slot(u).RetryDue?
    // After a failed `close` the retry may be left out.
    case EndClose(c) => (s.phase(c).RollingBack? || s.phase(c).Closing?) && AllSlots(su, s, c, (x: Slot) => !x.Held?)
  }

  ghost function After(su: Setup, s: State, step: Step): State {
    match step
    case BeginOpen(c) => s.(phase := Update<nat, Phase>(s.phase, c, Opening))
    case OpenSlot(u, opens) =>
      var p := s.plugins(su.plugin(u));
      s.(plugins := Update<nat, Plugin>(s.plugins, su.plugin(u), AfterOpen(p, opens)),
         slot := Update<User, Slot>(s.slot, u, if OpenRejects(p, opens) then OpenFailed else Held))
    case EndOpen(c, aborted) =>
      s.(phase := Update<nat, Phase>(s.phase, c, if !aborted && AllSlots(su, s, c, (x: Slot) => x.Held?) then Open else RollingBack))
    case BeginClose(c) => s.(phase := Update<nat, Phase>(s.phase, c, Closing))
    case CloseSlot(u, end) =>
      var p := s.plugins(su.plugin(u));
      s.(plugins := Update<nat, Plugin>(s.plugins, su.plugin(u), AfterClose(p, end)),
         slot := Update<User, Slot>(s.slot, u, if ClosesReally(p) && end.Fails? then RetryDue else Out))
    case RetrySlot(u, end) =>
      s.(plugins := Update<nat, Plugin>(s.plugins, su.plugin(u), AfterRetry(s.plugins(su.plugin(u)), end)), slot := Update<User, Slot>(s.slot, u, Out))
    case EndClose(c) =>
      s.(phase := Update<nat, Phase>(s.phase, c, Closed), slot := (u: User) => if u.client == c then Out else s.slot(u))
  }

  /** Nobody has used anything yet, and nobody outside has opened a counted plugin. */
  ghost predicate Initial(su: Setup, s: State) {
    && (forall u | u in su.users :: s.slot(u).Out?)
    && (forall c :: s.phase(c).Closed?)
    && (forall i :: s.plugins(i).references == 0 && !s.plugins(i).closeFailed && (s.plugins(i).Counted() ==> !s.plugins(i).isOpen))
  }

  ghost function Holders(su: Setup, s: State, i: nat): set<User> {
    set u | u in su.users && su.plugin(u) == i && s.slot(u).Held?
  }

  ghost predicate PluginOk(p: Plugin, holders: set<User>) {
    if p.Counted() then
      && p.references == |holders|
      && (p.closeFailed ==> p.references == 0)
      && (p.references > 0 ==> p.isOpen)
      && (p.isOpen ==> p.Owned())
    else p.references == 0 && !p.closeFailed
  }

  /** The reference count is the number of holders, a held plugin is open, and a plugin open without a holder is one whose close failed.
      A client holds nothing while it is closed, and everything while it is open. */
  ghost predicate Invariant(su: Setup, s: State) {
    && (forall i :: PluginOk(s.plugins(i), Holders(su, s, i)))
    && (forall u | u in su.users && s.phase(u.client).Closed? :: s.slot(u).Out?)
    && (forall u | u in su.users && s.phase(u.client).Open? :: s.slot(u).Held?)
  }

  /** Everybody else's slots are the same. */
  lemma SlotMoves(su: Setup, s: State, s': State, u: User)
    requires u in su.users && s'.slot == Update<User, Slot>(s.slot, u, s'.slot(u))
    ensures forall i | i != su.plugin(u) :: Holders(su, s', i) == Holders(su, s, i)
    ensures var now, was := Holders(su, s', su.plugin(u)), Holders(su, s, su.plugin(u));
            && (s'.slot(u).Held? && !s.slot(u).Held? ==> |now| == |was| + 1)
            && (!s'.slot(u).Held? && s.slot(u).Held? ==> |now| == |was| - 1)
            && (s'.slot(u).Held? == s.slot(u).Held? ==> now == was)
  {
    var i := su.plugin(u);
    if s'.slot(u).Held? && !s.slot(u).Held? {
      assert Holders(su, s', i) == Holders(su, s, i) + {u};
    } else if !s'.slot(u).Held? && s.slot(u).Held? {
      assert Holders(su, s', i) == Holders(su, s, i) - {u};
    } else {
      assert Holders(su, s', i) == Holders(su, s, i);
    }
  }

  /** Every step of every client keeps the invariant. */
  lemma StepKeeps(su: Setup, s: State, step: Step)
    requires Invariant(su, s) && Enabled(su, s, step)
    ensures Invariant(su, After(su, s, step))
  {
    var s' := After(su, s, step);
    match step
    case OpenSlot(u, _) => SlotMoves(su, s, s', u);
    case CloseSlot(u, _) => SlotMoves(su, s, s', u);
    case RetrySlot(u, _) => SlotMoves(su, s, s', u);
    case _ =>
      forall i ensures Holders(su, s', i) == Holders(su, s, i) { }
  }

  lemma InitialOk(su: Setup, s: State)
    requires Initial(su, s)
    ensures Invariant(su, s)
  {
    forall i ensures PluginOk(s.plugins(i), Holders(su, s, i)) {
      assert Holders(su, s, i) == {};
    }
  }

  /** The state after the calls `steps`, whoever made them and in whatever order. */
  ghost predicate Reaches(su: Setup, s: State, steps: seq<Step>, s': State)
    decreases |steps|
  {
    if steps == [] then s == s' else Enabled(su, s, steps[0]) && Reaches(su, After(su, s, steps[0]), steps[1..], s')
  }

  /** The invariant holds after every interleaving. */
  lemma {:induction false} EveryRun(su: Setup, s: State, steps: seq<Step>, s': State)
    requires Invariant(su, s) && Reaches(su, s, steps, s')
    ensures Invariant(su, s')
    decreases |steps|
  {
    if steps != [] {
      StepKeeps(su, s, steps[0]);
      EveryRun(su, After(su, s, steps[0]), steps[1..], s');
    }
  }

  lemma FromStart(su: Setup, s: State, steps: seq<Step>, s': State)
    requires Initial(su, s) && Reaches(su, s, steps, s')
    ensures Invariant(su, s')
  {
    InitialOk(su, s);
    EveryRun(su, s, steps, s');
  }

  /** The plugin's own `close` runs only when nobody holds it any more, in `close` as in `retryClose`. */
  lemma ClosedByTheLast(su: Setup, s: State, u: User, end: CloseEnd)
    requires Invariant(su, s) && s.plugins(su.plugin(u)).Counted()
    ensures Enabled(su, s, CloseSlot(u, end)) ==>
              (ClosesReally(s.plugins(su.plugin(u))) <==> Holders(su, After(su, s, CloseSlot(u, end)), su.plugin(u)) == {})
    ensures Enabled(su, s, RetrySlot(u, end)) && RetriesReally(s.plugins(su.plugin(u))) ==> Holders(su, s, su.plugin(u)) == {}
  {
    var p := s.plugins(su.plugin(u));
    assert PluginOk(p, Holders(su, s, su.plugin(u)));
    if Enabled(su, s, CloseSlot(u, end)) {
      var s' := After(su, s, CloseSlot(u, end));
      SlotMoves(su, s, s', u);
      assert u in Holders(su, s, su.plugin(u));
    }
  }

  /** Whoever took the plugin over after a failed close loses nothing to the retry, and finds it open. */
  lemma RetrySparesNewHolder(su: Setup, s: State, u: User, end: CloseEnd, holder: User)
    requires Invariant(su, s) && Enabled(su, s, RetrySlot(u, end)) && s.plugins(su.plugin(u)).Counted()
    requires holder in Holders(su, s, su.plugin(u))
    ensures After(su, s, RetrySlot(u, end)).plugins(su.plugin(u)) == s.plugins(su.plugin(u))
    ensures s.plugins(su.plugin(u)).isOpen
    ensures holder in Holders(su, After(su, s, RetrySlot(u, end)), su.plugin(u))
  {
    assert PluginOk(s.plugins(su.plugin(u)), Holders(su, s, su.plugin(u)));
    assert Holders(su, s, su.plugin(u)) != {};
  }

  /** A plugin that is held is open; so all plugins of an open client are. */
  lemma HeldIsOpen(su: Setup, s: State, u: User)
    requires Invariant(su, s) && u in su.users && s.plugins(su.plugin(u)).Counted()
    requires s.slot(u).Held? || s.phase(u.client).Open?
    ensures s.plugins(su.plugin(u)).isOpen
  {
    assert PluginOk(s.plugins(su.plugin(u)), Holders(su, s, su.plugin(u)));
    assert u in Holders(su, s, su.plugin(u));
  }

  /** Before a client opens and after its open has failed and been rolled back, every count is the number of the other clients'
      holders: the failed open has given everything back. */
  lemma ClosedClientHoldsNothing(su: Setup, s: State, c: nat, i: nat)
    requires Invariant(su, s) && s.phase(c).Closed? && s.plugins(i).Counted()
    ensures s.plugins(i).references == |set u | u in Holders(su, s, i) && u.client != c|
  {
    assert PluginOk(s.plugins(i), Holders(su, s, i));
    assert Holders(su, s, i) == set u | u in Holders(su, s, i) && u.client != c;
  }

  /** What giving up a place does to its plugin: one reference less, and nothing else while there are other holders; the last holder's close
      leaves the plugin closed, or marked as failed in the state in which the failure left it, and only then there is something to retry. */
  lemma ClosesItsPlugin(su: Setup, s: State, u: User, end: CloseEnd)
    requires Invariant(su, s) && Enabled(su, s, CloseSlot(u, end)) && s.plugins(su.plugin(u)).Counted()
    ensures var p, s' := s.plugins(su.plugin(u)), After(su, s, CloseSlot(u, end));
            var p', last := s'.plugins(su.plugin(u)), Holders(su, s, su.plugin(u)) == {u};
            && p'.references == p.references - 1 && p'.Counted()
            && (!last ==> p'.isOpen && !p'.closeFailed)
            && (last && end.Closes? ==> !p'.isOpen && !p'.closeFailed)
            && (last && end.Fails? ==> p'.isOpen == end.staysOpen && p'.closeFailed)
            && (s'.slot(u) == if last && end.Fails? then RetryDue else Out)
  {
    var i := su.plugin(u);
    assert PluginOk(s.plugins(i), Holders(su, s, i));
    assert u in Holders(su, s, i);
    if s.plugins(i).references == 1 {
      assert Holders(su, s, i) == {u} by {
        var rest := Holders(su, s, i) - {u};
        assert |rest| == 0;
      }
    }
  }

  /** What a retry does to its plugin: a failed close that nobody has taken over is made good, or fails once more; anything else stays as
      it is. */
  lemma RetriesItsPlugin(su: Setup, s: State, u: User, end: CloseEnd)
    requires Invariant(su, s) && Enabled(su, s, RetrySlot(u, end)) && s.plugins(su.plugin(u)).Counted()
    ensures var p, p' := s.plugins(su.plugin(u)), After(su, s, RetrySlot(u, end)).plugins(su.plugin(u));
            && (!p.closeFailed ==> p' == p)
            && (p.closeFailed ==> p'.references == 0)
            && (p.closeFailed && (end.Closes? || !p.isOpen) ==> !p'.isOpen && !p'.closeFailed)
            && (p.closeFailed && end.Fails? && p.isOpen ==> p'.isOpen == end.staysOpen && p'.closeFailed)
  {
    assert PluginOk(s.plugins(su.plugin(u)), Holders(su, s, su.plugin(u)));
  }

  /** What opening a place does to its plugin: it is open and held once more, or nothing has changed because its own `open` failed. A plugin
      that cannot be closed is only opened. */
  lemma OpensItsPlugin(su: Setup, s: State, u: User, opens: bool)
    requires Invariant(su, s) && Enabled(su, s, OpenSlot(u, opens)) && s.plugins(su.plugin(u)).hasOpen
    ensures var p, s' := s.plugins(su.plugin(u)), After(su, s, OpenSlot(u, opens));
            var p' := s'.plugins(su.plugin(u));
            if !p.isOpen && !opens then p' == p && s'.slot(u) == OpenFailed
            else p'.isOpen && !p'.closeFailed && p'.references == (if p.hasClose then p.references + 1 else 0) && s'.slot(u) == Held
  {
    assert PluginOk(s.plugins(su.plugin(u)), Holders(su, s, su.plugin(u)));
  }

  /** The open of a client succeeds exactly when all its plugins were opened and nobody aborted; otherwise it rolls back. */
  lemma OpenOrRollBack(su: Setup, s: State, c: nat, aborted: bool)
    requires Enabled(su, s, EndOpen(c, aborted))
    ensures var s' := After(su, s, EndOpen(c, aborted));
            if !aborted && forall u | u in su.users && u.client == c :: s.slot(u).Held? then s'.phase(c).Open? else s'.phase(c).RollingBack?
  {
  }

  predicate ClosesWell(step: Step) {
    match step
    case CloseSlot(_, end) => end.Closes?
    case RetrySlot(_, end) => end.Closes?
    case _ => true
  }

  /** As long as no plugin's own `close` fails, none is marked. */
  lemma {:induction false} NoneMarked(su: Setup, s: State, steps: seq<Step>, s': State)
    requires Invariant(su, s) && Reaches(su, s, steps, s') && forall step | step in steps :: ClosesWell(step)
    requires forall i :: !s.plugins(i).closeFailed
    ensures forall i :: !s'.plugins(i).closeFailed
    decreases |steps|
  {
    if steps != [] {
      StepKeeps(su, s, steps[0]);
      assert steps[0] in steps;
      NoneMarked(su, After(su, s, steps[0]), steps[1..], s');
    }
  }

  /** After any run in which no plugin's own `close` fails, whoever opened and closed what and in whatever order, no plugin is open once
      all clients are closed. */
  lemma AllClosedAgain(su: Setup, s: State, steps: seq<Step>, s': State, i: nat)
    requires Initial(su, s) && Reaches(su, s, steps, s') && forall step | step in steps :: ClosesWell(step)
    requires (forall c :: s'.phase(c).Closed?) && s'.plugins(i).Counted()
    ensures !s'.plugins(i).isOpen && s'.plugins(i).references == 0
  {
    InitialOk(su, s);
    NoneMarked(su, s, steps, s');
    EveryRun(su, s, steps, s');
    NothingLeftOpen(su, s', i);
    ClosedClientsHoldNothing(su, s', i);
  }

  lemma ClosedClientsHoldNothing(su: Setup, s: State, i: nat)
    requires Invariant(su, s) && (forall c :: s.phase(c).Closed?) && s.plugins(i).Counted()
    ensures s.plugins(i).references == 0
  {
    assert PluginOk(s.plugins(i), Holders(su, s, i));
    assert Holders(su, s, i) == {};
  }

  /** When every client is closed, only a failed close keeps a plugin open. */
  lemma NothingLeftOpen(su: Setup, s: State, i: nat)
    requires Invariant(su, s) && (forall c :: s.phase(c).Closed?) && s.plugins(i).Counted()
    ensures s.plugins(i).isOpen ==> s.plugins(i).closeFailed
  {
    assert PluginOk(s.plugins(i), Holders(su, s, i));
    assert Holders(su, s, i) == {};
  }

  /** A plugin's own `open` is called only while it is closed and unheld. */
  lemma OpenedByTheFirst(su: Setup, s: State, u: User, opens: bool)
    requires Invariant(su, s) && Enabled(su, s, OpenSlot(u, opens)) && s.plugins(su.plugin(u)).Counted()
    ensures !s.plugins(su.plugin(u)).isOpen ==> Holders(su, s, su.plugin(u)) == {}
    ensures Holders(su, s, su.plugin(u)) == {} && !s.plugins(su.plugin(u)).closeFailed ==> !s.plugins(su.plugin(u)).isOpen
    ensures !OpenRejects(s.plugins(su.plugin(u)), opens) ==>
              After(su, s, OpenSlot(u, opens)).plugins(su.plugin(u)).references == s.plugins(su.plugin(u)).references + 1
  {
    assert PluginOk(s.plugins(su.plugin(u)), Holders(su, s, su.plugin(u)));
  }
}
