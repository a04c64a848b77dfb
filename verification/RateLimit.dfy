/** The token bucket of RateLimit, over reals. */
module TokenBucket {

  datatype Config = Config(tokensPerInterval: real, intervalMs: real, maxTokens: real)
  {
    /** What the constructor makes sure of. */
    predicate Valid() {
      tokensPerInterval > 0.0 && intervalMs > 0.0 && maxTokens >= 1.0
    }
  }

  /** The tokens that come in during `ms` milliseconds. */
  function Gain(c: Config, ms: real): real
    requires c.Valid()
  {
    (ms * c.tokensPerInterval) / c.intervalMs
  }

  /** The milliseconds it takes for `tokens` to come in. */
  function Cost(c: Config, tokens: real): real
    requires c.Valid()
  {
    (tokens * c.intervalMs) / c.tokensPerInterval
  }

  lemma DivideUp(x: real, y: real, d: real)
    requires d > 0.0
    ensures x <= y <==> x / d <= y / d
    ensures x < y <==> x / d < y / d
  {
    assert x / d * d == x && y / d * d == y;
    if x / d <= y / d { assert (y / d - x / d) * d >= 0.0; }
    if x / d > y / d { assert (x / d - y / d) * d > 0.0; }
  }

  lemma TimesUp(x: real, y: real, k: real)
    requires k > 0.0
    ensures x <= y <==> x * k <= y * k
    ensures x < y <==> x * k < y * k
  {
    if x < y { assert (y - x) * k > 0.0; }
    if y < x { assert (x - y) * k > 0.0; }
  }

  lemma GainGrows(c: Config, x: real, y: real)
    requires c.Valid()
    ensures x <= y <==> Gain(c, x) <= Gain(c, y)
    ensures x < y <==> Gain(c, x) < Gain(c, y)
    ensures Gain(c, 0.0) == 0.0 && Cost(c, 0.0) == 0.0
  {
    TimesUp(x, y, c.tokensPerInterval);
    DivideUp(x * c.tokensPerInterval, y * c.tokensPerInterval, c.intervalMs);
  }

  lemma CostGrows(c: Config, x: real, y: real)
    requires c.Valid()
    ensures x < y <==> Cost(c, x) < Cost(c, y)
  {
    TimesUp(x, y, c.intervalMs);
    DivideUp(x * c.intervalMs, y * c.intervalMs, c.tokensPerInterval);
  }

  lemma GainAdds(c: Config, x: real, y: real)
    requires c.Valid()
    ensures Gain(c, x) + Gain(c, y) == Gain(c, x + y)
  {
    assert (x + y) * c.tokensPerInterval == x * c.tokensPerInterval + y * c.tokensPerInterval;
    DivideSum(x * c.tokensPerInterval, y * c.tokensPerInterval, c.intervalMs);
  }

  lemma DivideSum(x: real, y: real, d: real)
    requires d > 0.0
    ensures x / d + y / d == (x + y) / d
  {
  }

  /** In the time that `tokens` cost, `tokens` come in. */
  lemma GainOfCost(c: Config, tokens: real)
    requires c.Valid()
    ensures Gain(c, Cost(c, tokens)) == tokens
  {
    var t, i, k := tokens, c.intervalMs, c.tokensPerInterval;
    assert (t * i) / k * k == t * i;
    assert (t * i) / i == t;
  }

  lemma CostIs(c: Config, tokens: real)
    requires c.Valid()
    ensures Cost(c, tokens) == tokens * c.intervalMs / c.tokensPerInterval
  {
  }

  lemma GainIs(c: Config, ms: real)
    requires c.Valid()
    ensures Gain(c, ms) == ms * c.tokensPerInterval / c.intervalMs
  {
  }

  /** `intervalMs` milliseconds bring `tokensPerInterval` tokens, and any other time its share of them. */
  lemma RateIsExact(c: Config, ms: real)
    requires c.Valid()
    ensures Gain(c, c.intervalMs) == c.tokensPerInterval && Cost(c, c.tokensPerInterval) == c.intervalMs
    ensures Gain(c, ms) * c.intervalMs == ms * c.tokensPerInterval
  {
    var i, k := c.intervalMs, c.tokensPerInterval;
    assert (i * k) / i == k && (k * i) / k == i;
    assert (ms * k) / i * i == ms * k;
  }

  datatype Bucket = Bucket(tokens: real, lastRefill: real)
  {
    predicate Within(c: Config) {
      0.0 <= tokens <= c.maxTokens
    }
  }

  function Min(a: real, b: real): real {
    if a <= b then a else b
  }

  function Max(a: real, b: real): real {
    if a >= b then a else b
  }

  /** The clock has been seen at `now`. Time never runs backwards for the bucket: an earlier `now` changes nothing. */
  function Refilled(c: Config, b: Bucket, now: real): Bucket
    requires c.Valid()
  {
    if now <= b.lastRefill then b else Bucket(Min(c.maxTokens, b.tokens + Gain(c, now - b.lastRefill)), now)
  }

  function Ceil(x: real): (r: int)
    ensures x <= r as real < x + 1.0
  {
    if x == x.Floor as real then x.Floor else x.Floor + 1
  }

  /** The whole milliseconds until there is a token again. */
  function RetryAfter(c: Config, b: Bucket): (r: nat)
    requires c.Valid()
  {
    var ms := Ceil(Cost(c, 1.0 - b.tokens));
    if ms < 0 then 0 else ms
  }

  lemma RefilledWithin(c: Config, b: Bucket, now: real)
    requires c.Valid() && b.Within(c)
    ensures Refilled(c, b, now).Within(c)
    ensures Refilled(c, b, now).lastRefill == Max(b.lastRefill, now)
    ensures b.tokens <= Refilled(c, b, now).tokens <= b.tokens + Gain(c, Refilled(c, b, now).lastRefill - b.lastRefill)
  {
    hide Gain, Cost;
    GainGrows(c, 0.0, now - b.lastRefill);
  }

  /** Refilling in two steps comes to the same as refilling once; and a clock that stands still gives nothing. */
  lemma RefillAgain(c: Config, b: Bucket, now: real, later: real)
    requires c.Valid() && b.Within(c) && (now <= later || now <= b.lastRefill)
    ensures Refilled(c, Refilled(c, b, now), later) == Refilled(c, b, later)
    ensures Refilled(c, b, b.lastRefill) == b
  {
    hide Gain, Cost;
    if now > b.lastRefill {
      GainAdds(c, now - b.lastRefill, later - now);
      GainGrows(c, 0.0, later - now);
    }
  }

  /** A whole interval later there are `tokensPerInterval` tokens more, up to `maxTokens`. */
  lemma IntervalRefills(c: Config, b: Bucket)
    requires c.Valid() && b.Within(c)
    ensures Refilled(c, b, b.lastRefill + c.intervalMs).tokens ==
            if b.tokens + c.tokensPerInterval <= c.maxTokens then b.tokens + c.tokensPerInterval else c.maxTokens
  {
    RateIsExact(c, c.intervalMs);
  }

  /** Once the clock has moved on by `RetryAfter`, there is a token. */
  lemma RetrySuffices(c: Config, b: Bucket, now: real)
    requires c.Valid() && b.Within(c) && now >= b.lastRefill + RetryAfter(c, b) as real
    ensures Refilled(c, b, now).tokens >= 1.0
  {
    hide Gain, Cost;
    GainGrows(c, 0.0, 0.0);
    CostGrows(c, 0.0, 1.0 - b.tokens);
    GainGrows(c, Cost(c, 1.0 - b.tokens), now - b.lastRefill);
    GainOfCost(c, 1.0 - b.tokens);
  }

  /** When the time that the missing part costs has passed, that part has come in. */
  lemma EnoughAfter(c: Config, b: Bucket, ms: real)
    requires c.Valid()
    ensures ms >= Cost(c, 1.0 - b.tokens) <==> b.tokens * c.intervalMs + ms * c.tokensPerInterval >= c.intervalMs
  {
    var i, k, d := c.intervalMs, c.tokensPerInterval, 1.0 - b.tokens;
    DivideUp(d * i, ms * k, k);
    assert (ms * k) / k == ms;
    assert d * i == i - b.tokens * i;
  }

  lemma RetryIsFirst(c: Config, b: Bucket)
    requires c.Valid() && b.Within(c)
    ensures var ms := RetryAfter(c, b);
            && b.tokens * c.intervalMs + ms as real * c.tokensPerInterval >= c.intervalMs
            && (ms > 0 ==> b.tokens * c.intervalMs + (ms as real - 1.0) * c.tokensPerInterval < c.intervalMs)
  {
    hide Cost;
    var ms := RetryAfter(c, b);
    EnoughAfter(c, b, ms as real);
    if ms > 0 {
      EnoughAfter(c, b, ms as real - 1.0);
    }
  }

  /** A millisecond less than that would be too early. */
  lemma RetryIsTight(c: Config, b: Bucket, now: real)
    requires c.Valid() && b.Within(c) && b.tokens < 1.0 && now <= b.lastRefill + RetryAfter(c, b) as real - 1.0
    ensures Refilled(c, b, now).tokens < 1.0
  {
    hide Gain, Cost;
    GainGrows(c, 0.0, 0.0);
    CostGrows(c, 0.0, 1.0 - b.tokens);
    GainGrows(c, now - b.lastRefill, Cost(c, 1.0 - b.tokens));
    GainOfCost(c, 1.0 - b.tokens);
  }

  /** One look at the bucket with the clock at `now`: `use` takes a token if there is one, `availableTokens` only looks. */
  datatype Event = Take(now: real) | Look(now: real)

  predicate Grants(c: Config, b: Bucket, e: Event)
    requires c.Valid()
  {
    e.Take? && Refilled(c, b, e.now).tokens >= 1.0
  }

  function After(c: Config, b: Bucket, e: Event): Bucket
    requires c.Valid()
  {
    var r := Refilled(c, b, e.now);
    if Grants(c, b, e) then r.(tokens := r.tokens - 1.0) else r
  }

  function AfterAll(c: Config, b: Bucket, es: seq<Event>): Bucket
    requires c.Valid()
    decreases |es|
  {
    if es == [] then b else AfterAll(c, After(c, b, es[0]), es[1..])
  }

  function Granted(c: Config, b: Bucket, es: seq<Event>): nat
    requires c.Valid()
    decreases |es|
  {
    if es == [] then 0 else (if Grants(c, b, es[0]) then 1 else 0) + Granted(c, After(c, b, es[0]), es[1..])
  }

  /** Whatever the clock does, tokens are neither overspent nor conjured up: grants are paid for by what was there and by time. */
  lemma {:induction false} Conserved(c: Config, b: Bucket, es: seq<Event>)
    requires c.Valid() && b.Within(c)
    ensures AfterAll(c, b, es).Within(c) && AfterAll(c, b, es).lastRefill >= b.lastRefill
    ensures Granted(c, b, es) as real + AfterAll(c, b, es).tokens <= b.tokens + Gain(c, AfterAll(c, b, es).lastRefill - b.lastRefill)
    decreases |es|
  {
    hide Gain, Refilled;
    if es == [] {
      GainGrows(c, 0.0, 0.0);
    } else {
      var next := After(c, b, es[0]);
      RefilledWithin(c, b, es[0].now);
      Conserved(c, next, es[1..]);
      GainAdds(c, next.lastRefill - b.lastRefill, AfterAll(c, b, es).lastRefill - next.lastRefill);
    }
  }

  /** In any stretch of a run during which the highest clock reading stays within `d` milliseconds, at most `maxTokens` plus `d`
      milliseconds' worth of tokens are granted. */
  lemma WindowBound(c: Config, b: Bucket, es: seq<Event>, t: real, d: real)
    requires c.Valid() && b.Within(c) && d >= 0.0
    requires es != [] ==> Max(b.lastRefill, es[0].now) >= t && AfterAll(c, b, es).lastRefill <= t + d
    ensures Granted(c, b, es) as real <= c.maxTokens + d * c.tokensPerInterval / c.intervalMs
  {
    hide Gain;
    GainGrows(c, 0.0, d);
    GainIs(c, d);
    if es != [] {
      var filled := Refilled(c, b, es[0].now);
      RefilledWithin(c, b, es[0].now);
      assert Refilled(c, filled, es[0].now) == filled;
      assert After(c, filled, es[0]) == After(c, b, es[0]);
      Conserved(c, filled, es);
      GainGrows(c, AfterAll(c, b, es).lastRefill - filled.lastRefill, d);
    }
  }

  /** An empty bucket asks for at least a millisecond. */
  lemma RetryPositive(c: Config, b: Bucket)
    requires c.Valid() && b.tokens < 1.0
    ensures RetryAfter(c, b) >= 1
  {
    GainGrows(c, 0.0, 0.0);
    CostGrows(c, 0.0, 1.0 - b.tokens);
  }

  /** The time until the bucket can be expected to have a token, in whole milliseconds. */
  function Wait(c: Config, b: Bucket, now: real): nat
    requires c.Valid()
  {
    Ceil(Max(0.0, b.lastRefill + RetryAfter(c, b) as real - now))
  }

  /** Each sleep shortens that time. */
  lemma WaitShrinks(c: Config, b: Bucket, now: real, later: real)
    requires c.Valid() && b.Within(c)
    requires var r := Refilled(c, b, now); r.tokens < 1.0 && later >= now + RetryAfter(c, r) as real
    ensures Wait(c, Refilled(c, b, now), later) < Wait(c, b, now)
  {
    hide Gain, Cost;
    var r := Refilled(c, b, now);
    RetryPositive(c, r);
    if now >= b.lastRefill + RetryAfter(c, b) as real { RetrySuffices(c, b, now); }
  }

  datatype Acquired = Token | Exceeded(retryAfterMs: nat) | Aborted

  /** The bucket of one RateLimit middleware, with the `wait` strategy or the `throw` strategy. */
  class RateLimit {
    const config: Config
    const waits: bool
    var tokens: real
    var lastRefill: real

    ghost predicate Valid()
      reads this
    {
      config.Valid() && State().Within(config)
    }

    function State(): Bucket
      reads this
    {
      Bucket(tokens, lastRefill)
    }

    /** `capacity` is `maxTokens`, `burst` or `tokensPerInterval`, whichever is given first. */
    constructor (tokensPerInterval: real, intervalMs: real, capacity: real, waits: bool, now: real)
      requires tokensPerInterval > 0.0 && intervalMs > 0.0
      ensures Valid() && State() == Bucket(config.maxTokens, now) && this.waits == waits
      ensures config == Config(tokensPerInterval, intervalMs, Max(1.0, capacity))
    {
      config := Config(tokensPerInterval, intervalMs, Max(1.0, capacity));
      this.waits := waits;
      tokens, lastRefill := Max(1.0, capacity), now;
    }

    method Refill(now: real)
      requires Valid()
      modifies this
      ensures Valid() && State() == Refilled(config, old(State()), now)
      ensures now > old(lastRefill) ==> tokens == Min(config.maxTokens, old(tokens) + (now - old(lastRefill)) * config.tokensPerInterval / config.intervalMs)
    {
      RefilledWithin(config, State(), now);
      var elapsed := now - lastRefill;
      if elapsed <= 0.0 { return; }
      tokens := Min(config.maxTokens, tokens + (elapsed * config.tokensPerInterval) / config.intervalMs);
      lastRefill := now;
    }

    method RetryAfterMs() returns (ms: nat)
      requires Valid()
      ensures ms == RetryAfter(config, State())
      // The first whole millisecond by which a token has come in.
      ensures tokens * config.intervalMs + ms as real * config.tokensPerInterval >= config.intervalMs
      ensures ms > 0 ==> tokens * config.intervalMs + (ms as real - 1.0) * config.tokensPerInterval < config.intervalMs
    {
      hide Cost;
      var deficit := 1.0 - tokens;
      CostIs(config, deficit);
      var c := Ceil((deficit * config.intervalMs) / config.tokensPerInterval);
      ms := if c < 0 then 0 else c;
      RetryIsFirst(config, State());
    }

    /** The loop of `#acquire`. The clock stands at `start`; the `i`-th sleep takes `extra(i)` longer than asked; `aborts(i)` tells
        whether the signal is aborted before the `i`-th look, or during the sleep before it. */
    method Acquire(start: real, extra: nat -> real, aborts: nat -> bool) returns (r: Acquired, sleeps: nat, end: real)
      requires Valid() && forall i :: extra(i) >= 0.0
      modifies this
      ensures Valid() && lastRefill >= old(lastRefill)
      // It ends with a token unless it is aborted or may not wait: the bucket as it is at the end had one, and has paid for it.
      ensures var b := Refilled(config, old(State()), end);
              && (r.Token? ==> b.tokens >= 1.0 && State() == b.(tokens := b.tokens - 1.0))
              && (r.Exceeded? ==> !waits && sleeps == 0 && b.tokens < 1.0 && State() == b && r.retryAfterMs == RetryAfter(config, b))
      ensures r.Aborted? ==> aborts(sleeps) && exists t: real :: t <= Max(end, old(lastRefill)) && State() == Refilled(config, old(State()), t)
      // A token that is there is given at once, a missing one is reported at once when it may not wait, and else it is waited for.
      ensures if aborts(0) then r.Aborted? && sleeps == 0 && end == start
              else if Refilled(config, old(State()), start).tokens >= 1.0 then r.Token? && sleeps == 0 && end == start
              else if !waits then r.Exceeded? && end == start
              else sleeps > 0 && (r.Token? || r.Aborted?)
      ensures waits && (forall i :: !aborts(i)) ==> r.Token?
      // On a clock that has not gone back, it sleeps at most once, and for the time asked.
      ensures start >= old(lastRefill) ==> sleeps <= 1
      ensures start >= old(lastRefill) && sleeps == 1 ==> end == start + RetryAfter(config, Refilled(config, old(State()), start)) as real + extra(0)
    {
      hide Gain, Cost, Wait, RetryAfter, Refilled;
      sleeps, end := 0, start;
      // When the clock was last read.
      ghost var looked := lastRefill;
      RefillAgain(config, State(), looked, looked);
      while true
        invariant Valid() && lastRefill >= old(lastRefill)
        invariant sleeps > 0 ==> waits
        invariant sleeps == 0 ==> end == start && looked == old(lastRefill)
        invariant sleeps > 0 ==> !aborts(0) && Refilled(config, old(State()), start).tokens < 1.0
        invariant start >= old(lastRefill) && sleeps == 1 ==> end == start + RetryAfter(config, Refilled(config, old(State()), start)) as real + extra(0)
        invariant sleeps > 0 ==> looked <= end
        invariant State() == Refilled(config, old(State()), looked)
        invariant start >= old(lastRefill) ==> sleeps <= 1 && (sleeps == 1 ==> end >= lastRefill + RetryAfter(config, State()) as real)
        decreases Wait(config, State(), end)
      {
        if aborts(sleeps) {
          assert looked <= Max(end, old(lastRefill));
          return Aborted, sleeps, end;
        }
        ghost var before := State();
        if end >= lastRefill + RetryAfter(config, State()) as real { RetrySuffices(config, State(), end); }
        RefilledWithin(config, State(), end);
        RefillAgain(config, old(State()), looked, end);
        Refill(end);
        looked := end;
        if tokens >= 1.0 {
          tokens := tokens - 1.0;
          return Token, sleeps, end;
        }
        if !waits {
          var retry := RetryAfterMs();
          return Exceeded(retry), sleeps, end;
        }
        var ms := RetryAfterMs();
        WaitShrinks(config, before, end, end + ms as real + extra(sleeps));
        end := end + ms as real + extra(sleeps);
        sleeps := sleeps + 1;
      }
    }
  }
}

/** `#enqueue`: the chain of tail promises that lets requests in one after the other. */
module TurnQueue {

  /** A request waits for the tail of the one before it, runs, and has ended; or it is aborted while waiting. */
  datatype Phase = Waiting | Running | Ended | Dropped

  /** `released`: its own tail promise is resolved. */
  datatype Request = Request(phase: Phase, released: bool)

  /** The requests in the order in which they were queued. */
  type Queue = seq<Request>

  datatype Step =
    | Enqueue
    | Start(i: nat)
    | Finish(i: nat)
    // The signal is aborted while the request waits; its turn may have come at the same moment.
    | Abort(i: nat)
    // `releaseAfterPrevious` of an aborted request.
    | PassOn(i: nat)

  predicate PreviousReleased(q: Queue, i: nat)
    requires i < |q|
  {
    i == 0 || q[i - 1].released
  }

  predicate Enabled(q: Queue, step: Step) {
    match step
    case Enqueue => true
    case Start(i) => i < |q| && q[i].phase.Waiting? && PreviousReleased(q, i)
    case Finish(i) => i < |q| && q[i].phase.Running?
    case Abort(i) => i < |q| && q[i].phase.Waiting?
    case PassOn(i) => i < |q| && q[i].phase.Dropped? && !q[i].released && PreviousReleased(q, i)
  }

  function After(q: Queue, step: Step): Queue
    requires Enabled(q, step)
  {
    match step
    case Enqueue => q + [Request(Waiting, false)]
    case Start(i) => q[i := Request(Running, false)]
    case Finish(i) => q[i := Request(Ended, true)]
    case Abort(i) => q[i := Request(Dropped, false)]
    case PassOn(i) => q[i := Request(Dropped, true)]
  }

  predicate Over(r: Request) {
    r.phase.Ended? || r.phase.Dropped?
  }

  /** Tails are released in order, each by a request that is over; whoever has started did so after all earlier tails. */
  ghost predicate Invariant(q: Queue) {
    && (forall i | 0 <= i < |q| && q[i].released :: Over(q[i]))
    && (forall i | 0 <= i < |q| && q[i].phase.Ended? :: q[i].released)
    && (forall i, j | 0 <= i < j < |q| && (q[j].released || q[j].phase.Running?) :: q[i].released)
  }

  lemma StepKeeps(q: Queue, step: Step)
    requires Invariant(q) && Enabled(q, step)
    ensures Invariant(After(q, step))
  {
  }

  ghost predicate Reaches(q: Queue, steps: seq<Step>, q': Queue)
    decreases |steps|
  {
    if steps == [] then q == q' else Enabled(q, steps[0]) && Reaches(After(q, steps[0]), steps[1..], q')
  }

  /** The requests started by `steps`, in order. */
  function Started(steps: seq<Step>): seq<nat> {
    if steps == [] then [] else (if steps[0].Start? then [steps[0].i] else []) + Started(steps[1..])
  }

  predicate InProgress(q: Queue, i: nat) {
    i < |q| && (q[i].phase.Running? || q[i].phase.Ended?)
  }

  /** Exclusive and first in, first out: when a request starts or runs, every earlier request is over, so no two run together and
      nobody is overtaken, aborts or not. */
  lemma Exclusive(q: Queue, i: nat, j: nat)
    requires Invariant(q) && i < j < |q|
    ensures InProgress(q, j) || Enabled(q, Start(j)) ==> Over(q[i])
    ensures !(q[i].phase.Running? && q[j].phase.Running?)
  {
  }

  /** Over a whole run, requests start in the order in which they were queued, none twice. */
  lemma {:induction false} StartedInOrder(q: Queue, steps: seq<Step>, q': Queue)
    requires Invariant(q) && Reaches(q, steps, q')
    ensures Invariant(q')
    ensures forall k | k in Started(steps) :: !InProgress(q, k) && forall j | InProgress(q, j) :: j < k
    ensures forall a, b | 0 <= a < b < |Started(steps)| :: Started(steps)[a] < Started(steps)[b]
    decreases |steps|
  {
    hide Invariant, After, Enabled;
    if steps != [] {
      var next, later := After(q, steps[0]), Started(steps[1..]);
      StepKeeps(q, steps[0]);
      StartedInOrder(next, steps[1..], q');
      StaysInProgress(q, steps[0]);
      if steps[0].Start? {
        var i := steps[0].i;
        StartsLast(q, i);
        assert Started(steps) == [i] + later;
        forall b | 0 <= b < |later| ensures i < later[b] { assert later[b] in later; }
      } else {
        assert Started(steps) == [] + later == later;
      }
    }
  }

  lemma StaysInProgress(q: Queue, step: Step)
    requires Enabled(q, step)
    ensures forall j: nat | InProgress(q, j) :: InProgress(After(q, step), j)
    ensures step.Start? ==> InProgress(After(q, step), step.i) && !InProgress(q, step.i)
  {
  }

  lemma StartsLast(q: Queue, i: nat)
    requires Invariant(q) && Enabled(q, Start(i))
    ensures forall j: nat | InProgress(q, j) :: j < i
  {
    forall j: nat | i < j < |q| ensures !InProgress(q, j) { Exclusive(q, i, j); }
  }

  /** As long as some tail is unreleased, the first of them can move on, without any abort. */
  lemma {:induction false} NotStuck(q: Queue, i: nat) returns (step: Step)
    requires Invariant(q) && i < |q| && !q[i].released
    ensures Enabled(q, step) && !step.Abort? && !step.Enqueue?
  {
    if i > 0 && !q[i - 1].released {
      step := NotStuck(q, i - 1);
    } else {
      step := match q[i].phase case Waiting => Start(i) case Running => Finish(i) case _ => PassOn(i);
    }
  }

  /** A bound on the steps of the requests already there. */
  function Remaining(q: Queue): nat {
    if q == [] then 0
    else (match q[0].phase case Waiting => 2 case Running => 1 case Ended => 0 case Dropped => if q[0].released then 0 else 1) + Remaining(q[1..])
  }

  lemma {:induction false} StepsRunOut(q: Queue, step: Step)
    requires Invariant(q) && Enabled(q, step) && !step.Enqueue?
    ensures Remaining(After(q, step)) < Remaining(q)
  {
    OneLess(q, step.i, After(q, step)[step.i]);
  }

  lemma {:induction false} OneLess(q: Queue, i: nat, r: Request)
    requires i < |q| && Remaining([r]) < Remaining([q[i]])
    ensures Remaining(q[i := r]) < Remaining(q)
  {
    if i > 0 {
      assert q[i := r][1..] == q[1..][i - 1 := r];
      OneLess(q[1..], i - 1, r);
    } else {
      assert q[0 := r][1..] == q[1..];
    }
  }

  /** Without new requests every run is finite, with an explicit bound. */
  lemma {:induction false} EveryRun(q: Queue, steps: seq<Step>, q': Queue)
    requires Invariant(q) && Reaches(q, steps, q') && forall s | s in steps :: !s.Enqueue?
    ensures Invariant(q') && |q'| == |q| && |steps| + Remaining(q') <= Remaining(q)
    decreases |steps|
  {
    hide Invariant;
    if steps != [] {
      assert steps[0] in steps;
      StepKeeps(q, steps[0]);
      StepsRunOut(q, steps[0]);
      assert forall s | s in steps[1..] :: s in steps;
      EveryRun(After(q, steps[0]), steps[1..], q');
    }
  }

  /** However the requests already there are scheduled, aborts included: the run lasts at most `Remaining(q)` steps, and when no further step
      is possible every tail has been released. */
  lemma EveryRunReleasesAll(q: Queue, steps: seq<Step>, q': Queue)
    requires Invariant(q) && Reaches(q, steps, q') && forall s | s in steps :: !s.Enqueue?
    requires forall s: Step :: Enabled(q', s) ==> s.Enqueue?
    ensures |steps| <= Remaining(q) && forall r | r in q' :: r.released
  {
    EveryRun(q, steps, q');
    forall i | 0 <= i < |q'| ensures q'[i].released {
      if !q'[i].released { var step := NotStuck(q', i); }
    }
  }

  /** Every tail is released in the end, if each body that runs ends. */
  lemma {:induction false} EveryTailReleased(q: Queue) returns (steps: seq<Step>, q': Queue)
    requires Invariant(q)
    ensures Reaches(q, steps, q') && |q'| == |q|
    ensures forall s | s in steps :: !s.Abort? && !s.Enqueue?
    ensures forall r | r in q' :: r.released
    decreases Remaining(q)
  {
    if i :| 0 <= i < |q| && !q[i].released {
      var step := NotStuck(q, i);
      StepKeeps(q, step);
      StepsRunOut(q, step);
      steps, q' := EveryTailReleased(After(q, step));
      steps := [step] + steps;
    } else {
      steps, q' := [], q;
    }
  }
}
