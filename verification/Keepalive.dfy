/** The keep-alive pinger: a second source of charges and cooldowns, which takes no token and
    never resets a backoff. */
module KeepAlive {
  import opened Metrics
  import opened Ratelimit
  import opened Statistics
  import opened Upstreams
  import Cooldown

  datatype Answer = TooManyRequests | Answered | Unreachable

  predicate Pings(k: Key, cost: nat, now: nat) {
    k.enabled && !k.InCooldown(now) && k.HasQuotaFor(cost)
  }

  function AfterPing(k: Key, cost: nat, now: nat, answer: Answer): Key {
    if !Pings(k, cost, now) then k else
      match answer
      case TooManyRequests => k.TripCooldown(now).RecordRateLimited()
      case Answered => k.AddCredits(cost)
      case Unreachable => k
  }

  function PingProm(p: Prom, before: Key, cost: nat, now: nat, answer: Answer): Prom {
    if Pings(before, cost, now) && answer.Answered? then
      p.Inc(Keepalive(before.name), 1)
       .Inc(CreditsConsumed(before.name), cost)
       .SetRemaining(before.name, SaturatingSub(before.cap, before.used + cost))
    else p
  }

  function Ping(app: App, k: nat, cost: nat, now: nat, answer: Answer): App
    requires k < |app.keys|
  {
    app.(keys := app.keys[k := AfterPing(app.keys[k], cost, now, answer)],
         prom := PingProm(app.prom, app.keys[k], cost, now, answer))
  }

  /** One round: the first `m` keys have been pinged. */
  function Round(app: App, cost: nat, clock: seq<nat>, answers: seq<Answer>, m: nat): (r: App)
    requires m <= |app.keys| == |clock| == |answers|
    ensures |r.keys| == |app.keys|
  {
    if m == 0 then app else Ping(Round(app, cost, clock, answers, m - 1), m - 1, cost, clock[m - 1], answers[m - 1])
  }

  /** A round treats each key once and on its own: none takes a token or resets a backoff, and a key is
      charged, or put on cooldown and counted as rate-limited, exactly when it was pinged and answered, or refused.
      It is pinged if it is switched on, past its cooldown and has room for the cost. */
  lemma {:induction false} RoundTreatsEachKeyOnce(app: App, cost: nat, clock: seq<nat>, answers: seq<Answer>,
        m: nat, i: nat)
    requires m <= |app.keys| == |clock| == |answers| && i < |app.keys|
    ensures var k, k' := app.keys[i], Round(app, cost, clock, answers, m).keys[i];
            var pinged := i < m && k.enabled && k.cooldownUntil <= clock[i]
                          && (k.used + cost <= k.cap || k.cap == U64_MAX);
            var paid := if pinged && answers[i].Answered? then cost else 0;
            var refused := if pinged && answers[i].TooManyRequests? then 1 else 0;
            && k' == (if i < m then AfterPing(k, cost, clock[i], answers[i]) else k)
            && k' == k.(total := k.total + paid, used := k.used + paid, backoffStep := k.backoffStep + refused,
                        limited := k.limited + refused, hits := k.hits + refused, cooldownUntil := k'.cooldownUntil)
            && k'.cooldownUntil == (if refused == 1 then clock[i] + BackoffWithJitter(k.backoffStep, clock[i])
                                    else k.cooldownUntil)
  {
    if m > 0 {
      RoundTreatsEachKeyOnce(app, cost, clock, answers, m - 1, i);
    }
  }

  /** Pings too are runs of key operations: none resets the backoff, and only a rate limit trips the cooldown, at the
      clock read before the ping. */
  lemma PingsAreKeyOps(k: Key, cost: nat, now: nat, answer: Answer) returns (ops: seq<Cooldown.KeyOp>)
    ensures Cooldown.Run(k, ops) == AfterPing(k, cost, now, answer)
    ensures forall i :: 0 <= i < |ops| ==> !ops[i].Succeed?
    ensures Cooldown.TripTimes(ops) == if Pings(k, cost, now) && answer.TooManyRequests? then [now] else []
  {
    ops := [];
    if Pings(k, cost, now) {
      match answer {
        case TooManyRequests =>
          ops := Cooldown.Then(k, ops, Cooldown.Trip(now));
          ops := Cooldown.Then(k, ops, Cooldown.CountRateLimited);
        case Answered =>
          ops := Cooldown.Then(k, ops, Cooldown.Charge(cost));
        case Unreachable =>
      }
    }
  }

  method PingOne(up: Upstream, recorder: Recorder, cost: nat, now: nat, answer: Answer)
    modifies up, recorder
    ensures up.View() == AfterPing(old(up.View()), cost, now, answer)
    ensures recorder.View() == PingProm(old(recorder.View()), old(up.View()), cost, now, answer)
  {
    if !up.enabled || up.View().InCooldown(now) || !up.View().HasQuotaFor(cost) {
      return;
    }
    match answer {
      case TooManyRequests =>
        up.TripCooldown(now);
        up.RecordRateLimited();
      case Answered =>
        var used := up.AddCredits(cost);
        recorder.Increment(Keepalive(up.name), 1);
        recorder.Increment(CreditsConsumed(up.name), cost);
        recorder.SetRemaining(up.name, SaturatingSub(up.creditCap, used));
      case Unreachable =>
    }
  }

  method PingAll(pool: Pool, stats: Stats, recorder: Recorder, cost: nat, clock: seq<nat>, answers: seq<Answer>)
    requires pool.Valid() && |clock| == |answers| == |pool.upstreams|
    modifies pool.upstreams, recorder
    ensures AppView(pool, stats, recorder)
         == Round(old(AppView(pool, stats, recorder)), cost, clock, answers, |pool.upstreams|)
  {
    for i := 0 to |pool.upstreams|
      invariant AppView(pool, stats, recorder) == Round(old(AppView(pool, stats, recorder)), cost, clock, answers, i)
    {
      ghost var was := pool.View();
      PingOne(pool.upstreams[i], recorder, cost, clock[i], answers[i]);
      assert pool.View() == was[i := AfterPing(was[i], cost, clock[i], answers[i])];
    }
  }
}
