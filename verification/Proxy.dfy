/** Selection and failover for one proxied request. */
module Proxy {
  import Cooldown
  import opened Metrics
  import opened Ratelimit
  import opened Statistics
  import opened Upstreams
  import opened Wrappers

  datatype Request = Request(kind: MethodClass, est: u64, methods: seq<string>)

  /** How one forward ends.  `Dropped`: the client went away and the request's future was dropped mid-forward. */
  datatype Outcome = Serviced | RateLimited | Failed | Dropped

  /** What a request meets: the clock at each attempt and after the last, what drips into the
      buckets before each attempt, and how each key would answer it.  The loop never tries a key
      twice, so one answer per key covers every sequence of outcomes. */
  datatype World = World(clock: seq<nat>, drips: seq<seq<nat>>, answers: seq<Outcome>)

  predicate Covers(world: World, n: nat, retries: nat) {
    |world.clock| == retries + 1 && |world.drips| == retries && |world.answers| == n
  }

  datatype Reply =
    | Served(key: nat)
    | Exhausted(retryAfterSecs: Option<nat>)
    | Abandoned(key: nat)

  /** How a request leaves the application, what it answers, and the keys it was forwarded to in order. */
  datatype Result = Result(app: App, reply: Reply, tried: seq<nat>)

  // ---------------------------------------------------------------------- one attempt

  /** What a forward that ends in `outcome` does to the key it went to. */
  function AfterAttempt(k: Key, outcome: Outcome, now: nat, est: nat): Key {
    match outcome
    case RateLimited => k.TripCooldown(now).RecordRateLimited()
    case Serviced => k.NoteSuccess().RecordOk().AddCredits(est)
    case Failed => k.RecordError()
    case Dropped => k.(inFlight := k.inFlight + 1)
  }

  function AttemptProm(p: Prom, before: Key, outcome: Outcome, req: Request): Prom {
    match outcome
    case RateLimited => p.Inc(RateLimitHits(before.name), 1).Inc(Requests(before.name, WasRateLimited), 1)
    case Serviced =>
      var charged := p.Inc(CreditsConsumed(before.name), req.est)
                      .SetRemaining(before.name, SaturatingSub(before.cap, before.used + req.est));
      charged.(rpc := Tally(charged.rpc, req.methods)).Inc(Requests(before.name, WasOk), 1)
    case Failed => p.Inc(UpstreamErrors(before.name), 1).Inc(Requests(before.name, WasError), 1)
    case Dropped => p
  }

  function Settle(app: App, k: nat, outcome: Outcome, now: nat, req: Request): App
    requires k < |app.keys|
  {
    app.(keys := app.keys[k := AfterAttempt(app.keys[k], outcome, now, req.est)],
         global := if outcome.Serviced? then app.global.(methods := Tally(app.global.methods, req.methods))
                   else app.global,
         prom := AttemptProm(app.prom, app.keys[k], outcome, req))
  }

  /** The application once time has passed and `select` has taken its ticket and its token. */
  function Selected(app: App, kind: MethodClass, drip: seq<nat>, ask: Ask): (r: (App, Option<nat>))
    requires ask.kind == kind
    ensures |r.0.keys| == |app.keys|
    ensures r.1.Some? ==> r.1.value < |app.keys|
  {
    var keys := Drip(app.keys, kind, drip);
    var choice := FirstEligible(keys, ask, app.cursor, 0);
    (app.(keys := Charged(keys, kind, choice), cursor := if keys == [] then app.cursor else app.cursor + 1), choice)
  }

  function CountExhausted(app: App): App {
    app.(global := app.global.(allExhausted := app.global.allExhausted + 1), prom := app.prom.Inc(AllExhausted, 1))
  }

  /** The loop from its attempt number `|skip|` on, having failed on the keys in `skip`. */
  function Serve(app: App, req: Request, world: World, retries: nat, skip: seq<nat>): Result
    requires Covers(world, |app.keys|, retries) && |skip| <= retries
    decreases retries - |skip|
  {
    var now := world.clock[|skip|];
    if |skip| == retries then
      Result(CountExhausted(app), Exhausted(Cooldown.SoonestCooldownSecs(app.keys, now)), skip)
    else
      var (chosen, choice) := Selected(app, req.kind, world.drips[|skip|], Ask(req.kind, req.est, skip, now));
      if choice.None? then
        Result(CountExhausted(chosen), Exhausted(Cooldown.SoonestCooldownSecs(chosen.keys, now)), skip)
      else
        var k := choice.value;
        var settled := Settle(chosen, k, world.answers[k], now, req);
        match world.answers[k]
        case Serviced => Result(settled, Served(k), skip + [k])
        case Dropped => Result(settled, Abandoned(k), skip + [k])
        case _ => Serve(settled, req, world, retries, skip + [k])
  }

  // ---------------------------------------------------------------------- the handler

  class AppState {
    const pool: Pool
    const stats: Stats
    const recorder: Recorder
    const maxRetries: nat

    constructor (cfgs: seq<UpstreamConfig>, rps: RpsConfig, maxRetries: nat)
      ensures pool.Valid() && fresh(pool) && fresh(pool.upstreams) && fresh(stats) && fresh(recorder)
      ensures this.maxRetries == maxRetries
      ensures View() == App(FreshKeys(cfgs, rps), 0, NO_STATS, BLANK)
    {
      pool := new Pool.FromConfig(cfgs, rps);
      stats := new Stats();
      recorder := new Recorder();
      this.maxRetries := maxRetries;
    }

    ghost function View(): App
      reads pool, pool.upstreams, stats, recorder
    {
      AppView(pool, stats, recorder)
    }

    /** The counters bracket the forward; a dropped future never reaches the second one. */
    method ForwardOnce(up: Upstream, outcome: Outcome)
      modifies up`inFlight
      ensures up.View() == old(up.View()).(inFlight := old(up.inFlight) + if outcome.Dropped? then 1 else 0)
    {
      up.inFlight := up.inFlight + 1;
      if outcome != Dropped {
        up.inFlight := up.inFlight - 1;
      }
    }

    method CommitCredits(up: Upstream, req: Request)
      modifies up, stats, recorder
      ensures up.View() == old(up.View()).AddCredits(req.est)
      ensures stats.View() == old(stats.View()).(methods := Tally(old(stats.methods), req.methods))
      ensures recorder.View() == var charged := old(recorder.View()).Inc(CreditsConsumed(up.name), req.est)
                                                .SetRemaining(up.name, SaturatingSub(up.creditCap, up.creditsUsed));
                                 charged.(rpc := Tally(charged.rpc, req.methods))
    {
      var used := up.AddCredits(req.est);
      recorder.Increment(CreditsConsumed(up.name), req.est);
      recorder.SetRemaining(up.name, SaturatingSub(up.creditCap, used));
      stats.RecordMethods(req.methods, recorder);
    }

    method Attempt(up: Upstream, outcome: Outcome, now: nat, req: Request)
      modifies up, stats, recorder
      ensures up.View() == AfterAttempt(old(up.View()), outcome, now, req.est)
      ensures stats.View() == if outcome.Serviced?
                              then old(stats.View()).(methods := Tally(old(stats.methods), req.methods))
                              else old(stats.View())
      ensures recorder.View() == AttemptProm(old(recorder.View()), old(up.View()), outcome, req)
    {
      ForwardOnce(up, outcome);
      match outcome {
        case RateLimited =>
          up.TripCooldown(now);
          up.RecordRateLimited();
          recorder.Increment(RateLimitHits(up.name), 1);
          recorder.Increment(Requests(up.name, WasRateLimited), 1);
        case Serviced =>
          up.NoteSuccess();
          up.RecordOk();
          CommitCredits(up, req);
          recorder.Increment(Requests(up.name, WasOk), 1);
        case Failed =>
          up.RecordError();
          recorder.Increment(UpstreamErrors(up.name), 1);
          recorder.Increment(Requests(up.name, WasError), 1);
        case Dropped =>
      }
    }

    method AttemptOn(k: nat, outcome: Outcome, now: nat, req: Request)
      requires pool.Valid() && k < |pool.upstreams|
      modifies pool.upstreams, stats, recorder
      ensures View() == Settle(old(View()), k, outcome, now, req)
    {
      ghost var was := pool.View();
      Attempt(pool.upstreams[k], outcome, now, req);
      assert pool.View() == was[k := AfterAttempt(was[k], outcome, now, req.est)];
    }

    method SelectFor(req: Request, drip: seq<nat>, skip: seq<nat>, now: nat) returns (choice: Option<nat>)
      requires pool.Valid()
      modifies pool, pool.upstreams
      ensures (View(), choice) == Selected(old(View()), req.kind, drip, Ask(req.kind, req.est, skip, now))
    {
      pool.PassTime(req.kind, drip);
      choice := pool.Select(req.kind, req.est, skip, now);
    }

    method Exhaust(now: nat) returns (reply: Reply)
      modifies stats, recorder
      ensures View() == CountExhausted(old(View()))
      ensures reply == Exhausted(Cooldown.SoonestCooldownSecs(pool.View(), now))
    {
      stats.RecordExhausted(recorder);
      reply := Exhausted(Cooldown.SoonestCooldownSecs(pool.View(), now));
    }

    /** The request handler, run alone. */
    method Proxy(req: Request, world: World) returns (reply: Reply, tried: seq<nat>)
      requires pool.Valid() && Covers(world, |pool.upstreams|, maxRetries)
      modifies pool, pool.upstreams, stats, recorder
      ensures Result(View(), reply, tried) == Serve(old(View()), req, world, maxRetries, [])
    {
      var skip: seq<nat> := [];
      for attempt := 0 to maxRetries
        invariant |skip| == attempt
        invariant Serve(old(View()), req, world, maxRetries, []) == Serve(View(), req, world, maxRetries, skip)
      {
        var now := world.clock[attempt];
        var choice := SelectFor(req, world.drips[attempt], skip, now);
        match choice {
          case None =>
            reply := Exhaust(now);
            return reply, skip;
          case Some(k) =>
            var outcome := world.answers[k];
            AttemptOn(k, outcome, now, req);
            skip := skip + [k];
            if outcome == Serviced {
              return Served(k), skip;
            } else if outcome == Dropped {
              return Abandoned(k), skip;
            }
        }
      }
      reply := Exhaust(world.clock[maxRetries]);
      return reply, skip;
    }
  }
}
