/** The Redis storage for Bun: `open` and `close` around connections that are still being made. */
module RedisSessions {
  import opened Options

  /** How far `#connect` of a session is. */
  datatype Phase = Importing | Connecting | Published | Failed
  {
    predicate Settled() {
      Published? || Failed?
    }
  }

  /** `client` is the client that the session still answers for. */
  datatype Session = Session(phase: Phase, client: Option<nat>, cancelled: bool)

  /** A call of `open`: it shares the promise of a session, and has settled or not. */
  datatype Call = Waiting(session: nat) | Resolved(session: nat) | Rejected(session: nat)

  /** Clients are numbered in the order in which they were made; `closes` counts the calls of their `close`. */
  datatype State = State(con: Option<nat>, opening: Option<nat>, sessions: seq<Session>, closes: seq<nat>, calls: seq<Call>)

  const Start := State(None, None, [], [], [])

  /** What runs between two awaits. */
  datatype Step =
    | Open
    | Close
    // In `#connect`: the import of the client class is done, or fails; the connection is made, or fails.
    | ImportDone(s: nat)
    | ImportFails(s: nat)
    | ConnectDone(s: nat)
    | ConnectFails(s: nat)
    // The `finally` of the `open` that started the session.
    | Finally(s: nat)
    // A call of `open` sees the outcome of its session.
    | Settle(call: nat)

  predicate Enabled(st: State, step: Step) {
    match step
    case Open => true
    case Close => true
    case ImportDone(s) => s < |st.sessions| && st.sessions[s].phase.Importing?
    case ImportFails(s) => s < |st.sessions| && st.sessions[s].phase.Importing?
    case ConnectDone(s) => s < |st.sessions| && st.sessions[s].phase.Connecting?
    case ConnectFails(s) => s < |st.sessions| && st.sessions[s].phase.Connecting?
    case Finally(s) => s < |st.sessions| && st.sessions[s].phase.Settled()
    case Settle(k) =>
      k < |st.calls| && st.calls[k].Waiting? && st.calls[k].session < |st.sessions| && st.sessions[st.calls[k].session].phase.Settled()
  }

  function CloseOne(closes: seq<nat>, c: Option<nat>): seq<nat> {
    if c.Some? && c.value < |closes| then closes[c.value := closes[c.value] + 1] else closes
  }

  /** `#releaseSessionClient`, at the end of a session's phase `phase`. */
  function Release(st: State, s: nat, phase: Phase, cancelled: bool): State
    requires s < |st.sessions|
  {
    st.(sessions := st.sessions[s := Session(phase, None, cancelled)], closes := CloseOne(st.closes, st.sessions[s].client))
  }

  function After(st: State, step: Step): State
    requires Enabled(st, step)
  {
    match step
    case Open =>
      if st.opening.Some? then st.(calls := st.calls + [Waiting(st.opening.value)])
      else
        State(None, Some(|st.sessions|), st.sessions + [Session(Importing, None, false)], CloseOne(st.closes, st.con),
              st.calls + [Waiting(|st.sessions|)])
    case Close =>
      if st.opening.Some? then
        if st.opening.value < |st.sessions| then
          Release(st.(opening := None), st.opening.value, st.sessions[st.opening.value].phase, true)
        else st.(opening := None)
      // With nothing open, `close` fails and changes nothing.
      else st.(con := None, closes := CloseOne(st.closes, st.con))
    case ImportDone(s) =>
      if st.sessions[s].cancelled then st.(sessions := st.sessions[s := st.sessions[s].(phase := Failed)])
      else st.(sessions := st.sessions[s := Session(Connecting, Some(|st.closes|), false)], closes := st.closes + [0])
    case ImportFails(s) => st.(sessions := st.sessions[s := st.sessions[s].(phase := Failed)])
    case ConnectDone(s) =>
      if st.sessions[s].cancelled then Release(st, s, Failed, true)
      else
        st.(con := st.sessions[s].client, opening := if st.opening == Some(s) then None else st.opening,
            sessions := st.sessions[s := Session(Published, None, false)])
    case ConnectFails(s) => Release(st, s, Failed, st.sessions[s].cancelled)
    case Finally(s) => st.(opening := if st.opening == Some(s) then None else st.opening)
    case Settle(k) =>
      var s := st.calls[k].session;
      st.(calls := st.calls[k := if st.sessions[s].phase.Published? then Resolved(s) else Rejected(s)])
  }

  /** The client of the session being opened. */
  function PendingClient(st: State): Option<nat> {
    if st.opening.Some? && st.opening.value < |st.sessions| then st.sessions[st.opening.value].client else None
  }

  /** Somebody still answers for the client. */
  predicate Live(st: State, c: nat) {
    st.con == Some(c) || PendingClient(st) == Some(c)
  }

  /** The clients that nobody answers for any more have been closed, once, and no others; nothing is published while a session is
      pending. */
  ghost predicate Invariant(st: State) {
    && (forall c | 0 <= c < |st.closes| :: ClientOk(st, c))
    && (st.con.Some? ==> st.con.value < |st.closes|)
    && OpeningOk(st)
    && (forall s | 0 <= s < |st.sessions| :: SessionOk(st, s))
    && (forall k | 0 <= k < |st.calls| :: CallOk(st, k))
  }

  ghost predicate ClientOk(st: State, c: nat)
    requires c < |st.closes|
  {
    st.closes[c] == if Live(st, c) then 0 else 1
  }

  ghost predicate OpeningOk(st: State) {
    (st.opening.Some? ==> st.opening.value < |st.sessions| && st.con.None? && !st.sessions[st.opening.value].cancelled
                             && !st.sessions[st.opening.value].phase.Published?)
  }

  /** A session holds a client exactly while it connects uncancelled; only the pending one goes on uncancelled; none publishes after
      it was cancelled. */
  ghost predicate SessionOk(st: State, s: nat)
    requires s < |st.sessions|
  {
    var x := st.sessions[s];
    && (x.client.Some? <==> x.phase.Connecting? && !x.cancelled)
    && (x.client.Some? ==> x.client.value < |st.closes|)
    && (!x.phase.Settled() && !x.cancelled ==> st.opening == Some(s))
    && (x.cancelled ==> !x.phase.Published?)
  }

  /** A call of `open` that has resolved shares a session that was published. */
  ghost predicate CallOk(st: State, k: nat)
    requires k < |st.calls|
  {
    && st.calls[k].session < |st.sessions|
    && (st.calls[k].Resolved? ==> st.sessions[st.calls[k].session].phase.Published?)
    && (st.calls[k].Rejected? ==> st.sessions[st.calls[k].session].phase.Failed?)
  }

  lemma StepKeeps(st: State, step: Step)
    requires Invariant(st) && Enabled(st, step)
    ensures Invariant(After(st, step))
  {
    hide ClientOk, SessionOk, CallOk, After;
    OpeningKeeps(st, step);
    var st' := After(st, step);
    forall c | 0 <= c < |st'.closes| ensures ClientOk(st', c) { ClientKeeps(st, step, c); }
    forall s | 0 <= s < |st'.sessions| ensures SessionOk(st', s) { SessionKeeps(st, step, s); }
    forall k | 0 <= k < |st'.calls| ensures CallOk(st', k) { CallKeeps(st, step, k); }
  }

  lemma Facts(st: State, step: Step)
    requires Invariant(st) && Enabled(st, step)
    ensures !step.Open? && !step.Close? && !step.Settle? ==> SessionOk(st, step.s)
    ensures st.opening.Some? ==> SessionOk(st, st.opening.value)
  {
  }

  lemma OpeningKeeps(st: State, step: Step)
    requires Invariant(st) && Enabled(st, step)
    ensures OpeningOk(After(st, step))
    ensures After(st, step).con.Some? ==> After(st, step).con.value < |After(st, step).closes|
  {
    Facts(st, step);
  }

  lemma ClientKeeps(st: State, step: Step, c: nat)
    requires Invariant(st) && Enabled(st, step) && c < |After(st, step).closes|
    ensures ClientOk(After(st, step), c)
  {
    hide CallOk;
    Facts(st, step);
    if c < |st.closes| { assert ClientOk(st, c); }
  }

  lemma SessionKeeps(st: State, step: Step, s: nat)
    requires Invariant(st) && Enabled(st, step) && s < |After(st, step).sessions|
    ensures SessionOk(After(st, step), s)
  {
    hide CallOk, ClientOk;
    Facts(st, step);
    if s < |st.sessions| { assert SessionOk(st, s); }
  }

  lemma CallKeeps(st: State, step: Step, k: nat)
    requires Invariant(st) && Enabled(st, step) && k < |After(st, step).calls|
    ensures CallOk(After(st, step), k)
  {
    hide ClientOk;
    Facts(st, step);
    if k < |st.calls| { assert CallOk(st, k); }
  }

  ghost predicate Reaches(st: State, steps: seq<Step>, st': State)
    decreases |steps|
  {
    if steps == [] then st == st' else Enabled(st, steps[0]) && Reaches(After(st, steps[0]), steps[1..], st')
  }

  /** The invariant holds after every interleaving. */
  lemma {:induction false} EveryRun(st: State, steps: seq<Step>, st': State)
    requires Invariant(st) && Reaches(st, steps, st')
    ensures Invariant(st')
    decreases |steps|
  {
    hide Invariant;
    if steps != [] {
      StepKeeps(st, steps[0]);
      EveryRun(After(st, steps[0]), steps[1..], st');
    }
  }

  lemma StartOk()
    ensures Invariant(Start)
  {
  }

  predicate HeldBy(st: State, c: nat, s: nat) {
    s < |st.sessions| && st.sessions[s].client == Some(c)
  }

  /** Every client ever made is in exactly one place: with exactly one session, which is uncancelled and still connecting; published;
      or closed, exactly once. */
  lemma OnePlace(st: State, steps: seq<Step>, c: nat)
    requires Reaches(Start, steps, st) && c < |st.closes|
    ensures st.closes[c] <= 1
    ensures st.closes[c] == 1 <==> st.con != Some(c) && forall s: nat :: !HeldBy(st, c, s)
    ensures forall s: nat | HeldBy(st, c, s) :: st.con.None? && st.opening == Some(s) && !st.sessions[s].cancelled && st.sessions[s].phase.Connecting?
  {
    StartOk();
    EveryRun(Start, steps, st);
    forall s: nat | HeldBy(st, c, s)
      ensures st.con.None? && st.opening == Some(s) && !st.sessions[s].cancelled && st.sessions[s].phase.Connecting?
    {
      assert SessionOk(st, s);
    }
    assert ClientOk(st, c);
    if PendingClient(st) == Some(c) { assert HeldBy(st, c, st.opening.value); }
  }

  /** While a session is pending nothing is published, and once it is published nothing is pending. */
  lemma NothingPublishedWhilePending(st: State, steps: seq<Step>, s: nat)
    requires Reaches(Start, steps, st) && s < |st.sessions| && !st.sessions[s].phase.Settled() && !st.sessions[s].cancelled
    ensures st.con.None? && st.opening == Some(s)
    ensures Enabled(st, ConnectDone(s)) ==>
              After(st, ConnectDone(s)).con == st.sessions[s].client && After(st, ConnectDone(s)).con.Some? && After(st, ConnectDone(s)).opening.None?
  {
    StartOk();
    EveryRun(Start, steps, st);
    assert SessionOk(st, s);
  }

  /** A cancelled session stays cancelled and never publishes, whatever follows; so no call of `open` that shares it resolves. */
  lemma {:induction false} CancelledNeverPublishes(st: State, steps: seq<Step>, st': State, s: nat)
    requires Invariant(st) && Reaches(st, steps, st') && s < |st.sessions| && st.sessions[s].cancelled
    ensures Invariant(st') && s < |st'.sessions| && st'.sessions[s].cancelled && !st'.sessions[s].phase.Published?
    ensures forall k | 0 <= k < |st'.calls| && st'.calls[k].session == s :: !st'.calls[k].Resolved?
    decreases |steps|
  {
    if steps == [] {
      assert SessionOk(st, s);
      forall k | 0 <= k < |st.calls| && st.calls[k].session == s ensures !st.calls[k].Resolved? { assert CallOk(st, k); }
    } else {
      StepKeeps(st, steps[0]);
      StaysCancelled(st, steps[0], s);
      CancelledNeverPublishes(After(st, steps[0]), steps[1..], st', s);
    }
  }

  lemma StaysCancelled(st: State, step: Step, s: nat)
    requires Invariant(st) && Enabled(st, step) && s < |st.sessions| && st.sessions[s].cancelled
    ensures s < |After(st, step).sessions| && After(st, step).sessions[s].cancelled
  {
    assert SessionOk(st, s);
  }

  /** A call of `open` resolves only after the session it shares was published. */
  lemma ResolvedWasPublished(st: State, steps: seq<Step>, k: nat)
    requires Reaches(Start, steps, st) && k < |st.calls| && st.calls[k].Resolved?
    ensures st.calls[k].session < |st.sessions| && st.sessions[st.calls[k].session].phase.Published?
    ensures !st.sessions[st.calls[k].session].cancelled
  {
    StartOk();
    EveryRun(Start, steps, st);
    assert CallOk(st, k);
    assert SessionOk(st, st.calls[k].session);
  }

  /** After `close`, whatever was going on, nothing is open or being opened, every client ever made has been closed once, and the session that
      was pending is cancelled. A `close` with nothing to close changes nothing. */
  lemma CloseClosesAll(st: State, steps: seq<Step>)
    requires Reaches(Start, steps, st)
    ensures var st' := After(st, Close);
            && st'.con.None? && st'.opening.None? && |st'.closes| == |st.closes|
            && (forall c | 0 <= c < |st'.closes| :: st'.closes[c] == 1)
            && (st.opening.Some? ==> st.opening.value < |st'.sessions| && st'.sessions[st.opening.value].cancelled)
            && (st.opening.None? && st.con.None? ==> st' == st)
  {
    StartOk();
    EveryRun(Start, steps, st);
    StepKeeps(st, Close);
    var st' := After(st, Close);
    forall c | 0 <= c < |st'.closes| ensures st'.closes[c] == 1 { assert ClientOk(st', c); }
  }

  /** `open` while a session is pending only waits for it; otherwise it closes what was open and starts a session of its own. */
  lemma OpenSharesOrStarts(st: State, steps: seq<Step>)
    requires Reaches(Start, steps, st)
    ensures var st' := After(st, Open);
            && (st.opening.Some? ==> st' == st.(calls := st.calls + [Waiting(st.opening.value)]))
            && (st.opening.None? ==>
                  && st'.con.None? && st'.opening == Some(|st.sessions|) && st'.sessions == st.sessions + [Session(Importing, None, false)]
                  && st'.calls == st.calls + [Waiting(|st.sessions|)] && (forall c | 0 <= c < |st'.closes| :: st'.closes[c] == 1))
  {
    StartOk();
    EveryRun(Start, steps, st);
    StepKeeps(st, Open);
    var st' := After(st, Open);
    if st.opening.None? {
      forall c | 0 <= c < |st'.closes| ensures st'.closes[c] == 1 { assert ClientOk(st', c); }
    }
  }

  /** An `open` that starts a session and is left alone: the connection made for it is published, all clients before it are closed, and the call resolves.
      When the import or the connection fails, nothing is left behind and the call rejects. */
  lemma OpenRunsItsCourse(st: State, steps: seq<Step>, st': State, imports: bool, connects: bool)
    requires Reaches(Start, steps, st) && st.opening.None?
    requires var s, k := |st.sessions|, |st.calls|;
             var course := if !imports then [ImportFails(s)] else if connects then [ImportDone(s), ConnectDone(s)] else [ImportDone(s), ConnectFails(s)];
             Reaches(After(st, Open), course + [Finally(s), Settle(k)], st')
    ensures st'.opening.None? && |st'.calls| == |st.calls| + 1 && |st'.closes| == |st.closes| + if imports then 1 else 0
    ensures forall c | 0 <= c < |st.closes| :: st'.closes[c] == 1
    ensures if imports && connects then st'.con == Some(|st.closes|) && st'.closes[|st.closes|] == 0 && st'.calls[|st.calls|] == Resolved(|st.sessions|)
            else st'.con.None? && (imports ==> st'.closes[|st.closes|] == 1) && st'.calls[|st.calls|] == Rejected(|st.sessions|)
  {
    hide After, Reaches;
    OpenSharesOrStarts(st, steps);
    CourseEnds(After(st, Open), |st.sessions|, |st.calls|, st', imports, connects);
    OpenMakesNone(st);
  }

  lemma OpenMakesNone(st: State)
    ensures |After(st, Open).closes| == |st.closes|
  {
  }

  lemma FirstStep(st: State, first: Step, rest: seq<Step>, st': State)
    requires Reaches(st, [first] + rest, st')
    ensures Enabled(st, first) && Reaches(After(st, first), rest, st')
  {
    assert ([first] + rest)[1..] == rest;
  }

  lemma CourseEnds(st: State, s: nat, k: nat, st': State, imports: bool, connects: bool)
    requires s < |st.sessions| && st.sessions[s] == Session(Importing, None, false) && st.opening == Some(s) && st.con.None?
    requires k < |st.calls| && st.calls[k] == Waiting(s)
    requires var course := if !imports then [ImportFails(s)] else if connects then [ImportDone(s), ConnectDone(s)] else [ImportDone(s), ConnectFails(s)];
             Reaches(st, course + [Finally(s), Settle(k)], st')
    ensures st'.opening.None? && |st'.calls| == |st.calls| && |st'.closes| == |st.closes| + if imports then 1 else 0
    ensures forall c | 0 <= c < |st.closes| :: st'.closes[c] == st.closes[c]
    ensures if imports && connects then st'.con == Some(|st.closes|) && st'.closes[|st.closes|] == 0 && st'.calls[k] == Resolved(s)
            else st'.con.None? && (imports ==> st'.closes[|st.closes|] == 1) && st'.calls[k] == Rejected(s)
  {
    hide Reaches;
    var end := [Finally(s), Settle(k)];
    if imports {
      var second := if connects then ConnectDone(s) else ConnectFails(s);
      assert [ImportDone(s), second] + end == [ImportDone(s)] + ([second] + end);
      FirstStep(st, ImportDone(s), [second] + end, st');
      FirstStep(After(st, ImportDone(s)), second, end, st');
      SettledEnds(After(After(st, ImportDone(s)), second), s, k, st');
    } else {
      FirstStep(st, ImportFails(s), end, st');
      SettledEnds(After(st, ImportFails(s)), s, k, st');
    }
  }

  /** The end of the `open` that started the session: it is no longer pending, and the call settles as the session did. */
  lemma SettledEnds(st: State, s: nat, k: nat, st': State)
    requires s < |st.sessions| && st.sessions[s].phase.Settled() && (st.opening.Some? ==> st.opening == Some(s))
    requires k < |st.calls| && st.calls[k] == Waiting(s) && Reaches(st, [Finally(s), Settle(k)], st')
    ensures st' == st.(opening := None, calls := st.calls[k := if st.sessions[s].phase.Published? then Resolved(s) else Rejected(s)])
  {
    hide Reaches;
    assert [Finally(s), Settle(k)] == [Finally(s)] + [Settle(k)] && [Settle(k)] == [Settle(k)] + [];
    FirstStep(st, Finally(s), [Settle(k)], st');
    FirstStep(After(st, Finally(s)), Settle(k), [], st');
    NoStep(After(After(st, Finally(s)), Settle(k)), st');
  }

  lemma NoStep(st: State, st': State)
    requires Reaches(st, [], st')
    ensures st == st'
  {
  }

  /** When nothing is open or being opened, every client ever made has been closed: none leaks. */
  lemma NothingLeaks(st: State, steps: seq<Step>)
    requires Reaches(Start, steps, st) && st.con.None? && st.opening.None?
    ensures forall c | 0 <= c < |st.closes| :: st.closes[c] == 1
  {
    StartOk();
    EveryRun(Start, steps, st);
    forall c | 0 <= c < |st.closes| ensures st.closes[c] == 1 { assert ClientOk(st, c); }
  }
}
