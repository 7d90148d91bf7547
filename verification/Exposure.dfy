/** What `/metrics` exposes is the durable state, through any number of restarts. */
module Exposure {
  import opened Lifetimes
  import opened Metrics
  import opened Persistence
  import opened Restart
  import opened Statistics
  import opened Upstreams
  import KeepAlive
  import Proxy
  import RoundTrip

  /** The exposed series of one key against its fields.  Rate-limited pings are counted in memory only;
      failed forwards and answered pings have a series but nothing durable, so theirs count from boot. */
  ghost predicate KeyExposed(p: Prom, k: Key, up: Uptime) {
    && p.Get(CreditsConsumed(k.name)) == k.total
    && p.Get(Requests(k.name, WasOk)) == k.ok
    && p.Get(Requests(k.name, WasError)) == k.errors
    && p.Get(Requests(k.name, WasRateLimited)) + up.pings429 == k.limited
    && p.Get(RateLimitHits(k.name)) + up.pings429 == k.hits
    && p.Get(UpstreamErrors(k.name)) == up.failures
    && p.Get(Keepalive(k.name)) == up.pings
    && k.name in p.remaining && p.remaining[k.name] == if k.used <= k.cap then k.cap - k.used else 0
  }

  ghost predicate GlobalExposed(p: Prom, g: Global) {
    p.rpc == g.methods && p.Get(AllExhausted) == g.allExhausted
  }

  ghost predicate Exposed(s: Machine, k: nat) {
    && k < |s.app.keys| && k < |s.ledger.uptime|
    && KeyExposed(s.app.prom, s.app.keys[k], s.ledger.uptime[k])
    && GlobalExposed(s.app.prom, s.app.global)
  }

  // ---------------------------------------------------------------------- boot

  lemma {:induction false} ReplayedKey(keys: seq<Key>, k: nat)
    requires RoundTrip.DistinctNames(keys) && k < |keys|
    ensures KeyExposed(ReplayKeys(BLANK, keys), keys[k], JUST_BOOTED)
  {
    var n := |keys| - 1;
    if k < n {
      ReplayedKey(keys[..n], k);
      ReplayOfAnotherKey(ReplayKeys(BLANK, keys[..n]), keys[n], keys[k]);
    } else {
      NotReplayedYet(keys[..n], keys[n].name);
      ReplayOfThisKey(ReplayKeys(BLANK, keys[..n]), keys[n]);
    }
  }

  ghost predicate Unheard(p: Prom, name: string) {
    && p.Get(CreditsConsumed(name)) == 0
    && p.Get(RateLimitHits(name)) == 0
    && p.Get(UpstreamErrors(name)) == p.Get(Keepalive(name)) == 0
    && forall outcome :: p.Get(Requests(name, outcome)) == 0
  }

  lemma ReplayOfThisKey(p: Prom, k: Key)
    requires Unheard(p, k.name)
    ensures KeyExposed(ReplayKey(p, k), k, JUST_BOOTED)
  {
  }

  lemma ReplayOfAnotherKey(p: Prom, other: Key, k: Key)
    requires KeyExposed(p, k, JUST_BOOTED) && other.name != k.name
    ensures KeyExposed(ReplayKey(p, other), k, JUST_BOOTED)
  {
  }

  lemma ReplayOfAnotherName(p: Prom, other: Key, name: string)
    requires Unheard(p, name) && other.name != name
    ensures Unheard(ReplayKey(p, other), name)
  {
  }

  lemma {:induction false} NotReplayedYet(keys: seq<Key>, name: string)
    requires forall k <- keys :: k.name != name
    ensures Unheard(ReplayKeys(BLANK, keys), name)
  {
    if keys != [] {
      var n := |keys| - 1;
      NotReplayedYet(keys[..n], name);
      assert keys[n] in keys;
      ReplayOfAnotherName(ReplayKeys(BLANK, keys[..n]), keys[n], name);
    }
  }

  lemma {:induction false} ReplayLeavesTheRest(p: Prom, keys: seq<Key>)
    ensures ReplayKeys(p, keys).rpc == p.rpc && ReplayKeys(p, keys).Get(AllExhausted) == p.Get(AllExhausted)
  {
    if keys != [] {
      ReplayLeavesTheRest(p, keys[..|keys| - 1]);
    }
  }

  lemma TalliesExposed(p: Prom, k: Key, tallies: map<string, nat>, exhausted: nat)
    requires KeyExposed(p, k, JUST_BOOTED) && p.rpc == map[] && p.Get(AllExhausted) == 0
    ensures var q := IncNonzero(p.(rpc := AddTallies(p.rpc, tallies)), AllExhausted, exhausted);
            KeyExposed(q, k, JUST_BOOTED) && q.rpc == tallies && q.Get(AllExhausted) == exhausted
  {
    assert AddTallies(map[], tallies) == tallies;
  }

  lemma ReplayExposes(keys: seq<Key>, g: Global, k: nat)
    requires RoundTrip.DistinctNames(keys) && k < |keys|
    ensures KeyExposed(Replay(BLANK, keys, g), keys[k], JUST_BOOTED) && GlobalExposed(Replay(BLANK, keys, g), g)
  {
    ReplayedKey(keys, k);
    ReplayLeavesTheRest(BLANK, keys);
    TalliesExposed(ReplayKeys(BLANK, keys), keys[k], g.methods, g.allExhausted);
  }

  lemma BootExposes(setup: Setup, file: File, month: nat, day: nat, k: nat)
    requires ValidSetup(setup) && k < |setup.cfgs|
    ensures var app := Boot(setup, file, month, day);
            KeyExposed(app.prom, app.keys[k], JUST_BOOTED) && GlobalExposed(app.prom, app.global)
  {
    var app := Boot(setup, file, month, day);
    BootShape(setup, file, month, day);
    ReplayExposes(app.keys, app.global, k);
  }

  // ---------------------------------------------------------------------- the other events

  lemma AttemptExposed(p: Prom, before: Key, outcome: Proxy.Outcome, now: nat, req: Proxy.Request, up: Uptime)
    requires KeyExposed(p, before, up)
    ensures KeyExposed(Proxy.AttemptProm(p, before, outcome, req),
                       Proxy.AfterAttempt(before, outcome, now, req.est),
                       up.Plus(ForwardMeets(outcome)))
  {
  }

  lemma AttemptElsewhere(p: Prom, before: Key, outcome: Proxy.Outcome, req: Proxy.Request, k: Key, up: Uptime)
    requires KeyExposed(p, k, up) && before.name != k.name
    ensures KeyExposed(Proxy.AttemptProm(p, before, outcome, req), k, up)
  {
  }

  lemma SettleExposes(setup: Setup, s: Machine, j: nat, outcome: Proxy.Outcome, now: nat, req: Proxy.Request, k: nat)
    requires Shape(setup, s) && Exposed(s, k) && j < |s.app.keys| && ValidSetup(setup)
    ensures Exposed(Next(setup, s, Settle(j, outcome, now, req)), k)
  {
    if j == k {
      AttemptExposed(s.app.prom, s.app.keys[k], outcome, now, req, s.ledger.uptime[k]);
    } else {
      AttemptElsewhere(s.app.prom, s.app.keys[j], outcome, req, s.app.keys[k], s.ledger.uptime[k]);
    }
  }

  lemma PingExposed(p: Prom, before: Key, cost: nat, now: nat, answer: KeepAlive.Answer, up: Uptime)
    requires KeyExposed(p, before, up)
    ensures KeyExposed(KeepAlive.PingProm(p, before, cost, now, answer), KeepAlive.AfterPing(before, cost, now, answer),
                       up.Plus(PingMeets(before, cost, now, answer)))
  {
  }

  lemma PingElsewhere(p: Prom, before: Key, cost: nat, now: nat, answer: KeepAlive.Answer, k: Key, up: Uptime)
    requires KeyExposed(p, k, up) && before.name != k.name
    ensures KeyExposed(KeepAlive.PingProm(p, before, cost, now, answer), k, up)
  {
  }

  lemma PingExposes(setup: Setup, s: Machine, j: nat, cost: nat, now: nat, answer: KeepAlive.Answer, k: nat)
    requires Shape(setup, s) && Exposed(s, k) && j < |s.app.keys| && ValidSetup(setup)
    ensures Exposed(Next(setup, s, Ping(j, cost, now, answer)), k)
  {
    if j == k {
      PingExposed(s.app.prom, s.app.keys[k], cost, now, answer, s.ledger.uptime[k]);
    } else {
      PingElsewhere(s.app.prom, s.app.keys[j], cost, now, answer, s.app.keys[k], s.ledger.uptime[k]);
    }
  }

  lemma {:induction false} GaugesShowRemaining(p: Prom, keys: seq<Key>, k: nat)
    requires RoundTrip.DistinctNames(keys) && k < |keys|
    ensures WithGauges(p, keys).counters == p.counters && WithGauges(p, keys).rpc == p.rpc
    ensures keys[k].name in WithGauges(p, keys).remaining
    ensures WithGauges(p, keys).remaining[keys[k].name] == keys[k].Remaining()
  {
    var n := |keys| - 1;
    if k < n {
      GaugesShowRemaining(p, keys[..n], k);
    } else if n > 0 {
      GaugesShowRemaining(p, keys[..n], 0);
    }
  }

  lemma RollMonthExposes(setup: Setup, s: Machine, month: nat, k: nat)
    requires Shape(setup, s) && Exposed(s, k) && Enabled(s, RollMonth(month))
    ensures Exposed(Next(setup, s, RollMonth(month)), k)
  {
    GaugesShowRemaining(s.app.prom, ResetAll(s.app.keys, month), k);
  }

  lemma CrashExposes(setup: Setup, s: Machine, month: nat, day: nat, k: nat)
    requires Shape(setup, s) && k < |s.app.keys| && ValidSetup(setup) && Enabled(s, Crash(month, day))
    ensures Exposed(Next(setup, s, Crash(month, day)), k)
  {
    BootShape(setup, s.file, month, day);
    BootExposes(setup, s.file, month, day, k);
  }

  lemma SelectionKeepsBooks(app: App, ev: Event, k: nat)
    requires ev.Select? && ev.ask.kind == ev.kind && k < |app.keys|
    ensures var chosen := Proxy.Selected(app, ev.kind, ev.drip, ev.ask).0;
            && chosen.keys[k].Books() == app.keys[k].Books()
            && chosen.prom == app.prom && chosen.global == app.global
  {
  }

  lemma BooksExposed(p: Prom, k: Key, k': Key, up: Uptime)
    requires KeyExposed(p, k, up) && k'.Books() == k.Books()
    ensures KeyExposed(p, k', up)
  {
    assert k' == k.(tokens := k'.tokens);
  }

  lemma SelectExposes(setup: Setup, s: Machine, ev: Event, k: nat)
    requires Shape(setup, s) && Exposed(s, k) && Enabled(s, ev) && ev.Select?
    ensures Exposed(Next(setup, s, ev), k)
  {
    SelectionKeepsBooks(s.app, ev, k);
    BooksExposed(s.app.prom, s.app.keys[k], Next(setup, s, ev).app.keys[k], s.ledger.uptime[k]);
  }

  lemma QuietExposes(setup: Setup, s: Machine, ev: Event, k: nat)
    requires Shape(setup, s) && Exposed(s, k) && Enabled(s, ev) && (ev.Exhaust? || ev.RollDay? || ev.Save? || ev.Spoil?)
    ensures Exposed(Next(setup, s, ev), k)
  {
  }

  lemma EventExposes(setup: Setup, s: Machine, ev: Event, k: nat)
    requires Shape(setup, s) && Exposed(s, k) && Enabled(s, ev) && ValidSetup(setup)
    ensures Exposed(Next(setup, s, ev), k)
  {
    match ev
    case Settle(j, outcome, now, req) => SettleExposes(setup, s, j, outcome, now, req, k);
    case Ping(j, cost, now, answer) => PingExposes(setup, s, j, cost, now, answer, k);
    case Crash(month, day) => CrashExposes(setup, s, month, day, k);
    case RollMonth(month) => RollMonthExposes(setup, s, month, k);
    case Select(_, _, _) => SelectExposes(setup, s, ev, k);
    case _ => QuietExposes(setup, s, ev, k);
  }

  /** After any run of requests, pings, rollovers, saves, losses of the file and crashes, whatever the calendar
      does, the exposed counters are the in-memory ones, except that the rate-limited count lags by exactly the
      rate-limited pings since boot; the gauge shows what each key has left; and the series that are not replayed
      show what happened since boot. */
  lemma {:induction false} MetricsRefineState(setup: Setup, month: nat, day: nat, evs: seq<Event>, k: nat)
    requires ValidSetup(setup) && month > 0 && day > 0 && k < |setup.cfgs|
    ensures Exposed(Run(setup, FirstBoot(setup, month, day), evs), k)
  {
    if evs == [] {
      BootShape(setup, Absent, month, day);
      BootExposes(setup, Absent, month, day, k);
    } else {
      var n := |evs| - 1;
      MetricsRefineState(setup, month, day, evs[..n], k);
      LivesKeepShape(setup, month, day, evs[..n]);
      var before := Run(setup, FirstBoot(setup, month, day), evs[..n]);
      if Enabled(before, evs[n]) {
        EventExposes(setup, before, evs[n], k);
      }
    }
  }
}
