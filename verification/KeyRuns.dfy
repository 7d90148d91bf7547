/** Whatever the gateway does between two boots, it does to each key as a run of key operations; and in no
    reachable state does a cooldown outlast a window opened by the clock's latest reading. */
module KeyRuns {
  import opened Lifetimes
  import opened Persistence
  import opened Ratelimit
  import opened Restart
  import opened Statistics
  import opened Upstreams
  import opened Wrappers
  import Accounting
  import Cooldown
  import Interleaving
  import KeepAlive
  import Proxy

  /** What an event read from the clock is no later than `now`. */
  predicate ReadBy(ev: Event, now: nat) {
    match ev
    case Settle(_, _, t, _) => t <= now
    case Ping(_, _, t, _) => t <= now
    case _ => true
  }

  /** The event that resets the backoff of `k`. */
  predicate Serves(ev: Event, k: nat) {
    ev.Settle? && ev.key == k && ev.outcome.Serviced?
  }

  /** Only a serviced reply is a success, and every rate limit met is one trip, at a reading up to `now`. */
  ghost predicate Follows(ops: seq<Cooldown.KeyOp>, before: Key, after: Key, served: bool, now: nat) {
    && Cooldown.Run(before, ops) == after
    && (!served ==> forall op <- ops :: !op.Succeed?)
    && |Cooldown.TripTimes(ops)| == after.limited - before.limited
    && Cooldown.ClocksUpTo(Cooldown.TripTimes(ops), now)
  }

  lemma SelectionIsKeyOps(app: App, kind: MethodClass, drip: seq<nat>, ask: Ask, k: nat)
    returns (ops: seq<Cooldown.KeyOp>)
    requires ask.kind == kind && k < |app.keys|
    ensures Cooldown.Run(app.keys[k], ops) == Proxy.Selected(app, kind, drip, ask).0.keys[k]
    ensures Cooldown.TripTimes(ops) == [] && forall op <- ops :: !op.Succeed?
  {
    var dripped := Drip(app.keys, kind, drip);
    var choice := FirstEligible(dripped, ask, app.cursor, 0);
    ops := Cooldown.Then(app.keys[k], [], Cooldown.Drip(kind, if k < |drip| then drip[k] else 0));
    if choice == Some(k) {
      ops := Cooldown.Then(app.keys[k], ops, Cooldown.Acquire(kind));
    }
  }

  lemma SettlementFollows(key: Key, outcome: Proxy.Outcome, t: nat, est: nat, now: nat)
    returns (ops: seq<Cooldown.KeyOp>)
    requires t <= now
    ensures Follows(ops, key, Proxy.AfterAttempt(key, outcome, t, est), outcome.Serviced?, now)
  {
    ops := Accounting.AttemptsAreKeyOps(key, outcome, t, est);
  }

  lemma PingFollows(key: Key, cost: nat, t: nat, answer: KeepAlive.Answer, now: nat) returns (ops: seq<Cooldown.KeyOp>)
    requires t <= now
    ensures Follows(ops, key, KeepAlive.AfterPing(key, cost, t, answer), false, now)
  {
    ops := KeepAlive.PingsAreKeyOps(key, cost, t, answer);
  }

  lemma SelectionFollows(app: App, kind: MethodClass, drip: seq<nat>, ask: Ask, k: nat, now: nat)
    returns (ops: seq<Cooldown.KeyOp>)
    requires ask.kind == kind && k < |app.keys|
    ensures Follows(ops, app.keys[k], Proxy.Selected(app, kind, drip, ask).0.keys[k], false, now)
  {
    ops := SelectionIsKeyOps(app, kind, drip, ask, k);
  }

  lemma NothingFollows(key: Key, now: nat)
    ensures Follows([], key, key, false, now)
  {
  }

  /** A roll treats each key once, if it does anything. */
  lemma RollFollows(setup: Setup, s: Machine, ev: Event, k: nat, now: nat) returns (ops: seq<Cooldown.KeyOp>)
    requires Shape(setup, s) && Enabled(s, ev) && (ev.RollMonth? || ev.RollDay?) && k < |s.app.keys|
    ensures k < |Next(setup, s, ev).app.keys|
    ensures Follows(ops, s.app.keys[k], Next(setup, s, ev).app.keys[k], false, now)
  {
    ops := [];
    NothingFollows(s.app.keys[k], now);
    if ev.RollMonth? && ev.month != s.app.global.month {
      ops := Cooldown.Once(s.app.keys[k], Cooldown.NewMonth(ev.month));
    } else if ev.RollDay? && ev.day != s.app.global.day {
      ops := Cooldown.Once(s.app.keys[k], Cooldown.NewDay);
    }
  }

  /** A settlement or a ping is operations on its key and nothing on the others. */
  lemma ReplyFollows(setup: Setup, s: Machine, ev: Event, k: nat, now: nat) returns (ops: seq<Cooldown.KeyOp>)
    requires Shape(setup, s) && Enabled(s, ev) && (ev.Settle? || ev.Ping?) && k < |s.app.keys| && ReadBy(ev, now)
    ensures k < |Next(setup, s, ev).app.keys|
    ensures Follows(ops, s.app.keys[k], Next(setup, s, ev).app.keys[k], Serves(ev, k), now)
  {
    ops := [];
    NothingFollows(s.app.keys[k], now);
    if ev.key == k {
      if ev.Settle? {
        ops := SettlementFollows(s.app.keys[k], ev.outcome, ev.now, ev.req.est, now);
      } else {
        ops := PingFollows(s.app.keys[k], ev.cost, ev.now, ev.answer, now);
      }
    }
  }

  lemma EventIsKeyOps(setup: Setup, s: Machine, ev: Event, k: nat, now: nat) returns (ops: seq<Cooldown.KeyOp>)
    requires Shape(setup, s) && Enabled(s, ev) && !ev.Crash? && k < |s.app.keys| && ReadBy(ev, now)
    ensures k < |Next(setup, s, ev).app.keys|
    ensures Follows(ops, s.app.keys[k], Next(setup, s, ev).app.keys[k], Serves(ev, k), now)
  {
    if ev.Select? {
      ops := SelectionFollows(s.app, ev.kind, ev.drip, ev.ask, k, now);
    } else if ev.Settle? || ev.Ping? {
      ops := ReplyFollows(setup, s, ev, k, now);
    } else if ev.RollMonth? || ev.RollDay? {
      ops := RollFollows(setup, s, ev, k, now);
    } else {
      ops := [];
      NothingFollows(s.app.keys[k], now);
    }
  }

  lemma FollowsOn(ops: seq<Cooldown.KeyOp>, more: seq<Cooldown.KeyOp>, a: Key, b: Key, c: Key, served: bool, also: bool,
        now: nat)
    requires Follows(ops, a, b, served, now) && Follows(more, b, c, also, now)
    ensures Follows(ops + more, a, c, served || also, now)
  {
    Cooldown.RunConcat(a, ops, more);
    forall op | op in ops + more && !served && !also ensures !op.Succeed? {
      assert op in ops || op in more;
    }
  }

  /** Between two crashes every key runs through key operations: a success only for a serviced reply on it, and one
      trip for each rate limit it meets, at a reading of the clock. */
  lemma {:induction false} LivesAreKeyOps(setup: Setup, s: Machine, evs: seq<Event>, k: nat, now: nat)
    returns (ops: seq<Cooldown.KeyOp>)
    requires ValidSetup(setup) && Shape(setup, s) && k < |s.app.keys|
    requires forall ev <- evs :: !ev.Crash? && ReadBy(ev, now)
    ensures Shape(setup, Run(setup, s, evs)) && k < |Run(setup, s, evs).app.keys|
    ensures Follows(ops, s.app.keys[k], Run(setup, s, evs).app.keys[k], exists ev <- evs :: Serves(ev, k), now)
  {
    ops := [];
    if evs != [] {
      var n := |evs| - 1;
      ops := LivesAreKeyOps(setup, s, evs[..n], k, now);
      var before := Run(setup, s, evs[..n]);
      assert evs[n] in evs;
      if Enabled(before, evs[n]) {
        ShapeKept(setup, before, evs[n]);
        var more := EventIsKeyOps(setup, before, evs[n], k, now);
        FollowsOn(ops, more, s.app.keys[k], before.app.keys[k], Next(setup, before, evs[n]).app.keys[k],
                  exists ev <- evs[..n] :: Serves(ev, k), Serves(evs[n], k), now);
        ops := ops + more;
      }
    }
  }

  /** The backoff law of whole lives: from step 0, while nothing is serviced on the key and nothing crashes, the step is
      the number of rate limits met, by requests and pings together; the key's cooldowns are that many windows,
      each in its band and each of the first six longer than the one before. */
  lemma UnservedKeysBackOff(setup: Setup, s: Machine, evs: seq<Event>, k: nat, now: nat)
    returns (ops: seq<Cooldown.KeyOp>)
    requires ValidSetup(setup) && Shape(setup, s) && k < |s.app.keys| && s.app.keys[k].backoffStep == 0
    requires forall ev <- evs :: !ev.Crash? && ReadBy(ev, now) && !Serves(ev, k)
    ensures k < |Run(setup, s, evs).app.keys|
    ensures var key, key', windows := s.app.keys[k], Run(setup, s, evs).app.keys[k],
                                      Cooldown.Windows(s.app.keys[k], ops);
            && key' == Cooldown.Run(key, ops)
            && key'.backoffStep == |windows| == key'.limited - key.limited
            && (forall w <- windows :: 750 <= w <= 37_499)
            && (forall i :: 0 <= i < |windows| ==> 3 * BackoffBase(i) <= 4 * windows[i] < 5 * BackoffBase(i))
            && (forall i :: 0 < i < |windows| && i < 6 ==> windows[i - 1] < windows[i])
  {
    ops := LivesAreKeyOps(setup, s, evs, k, now);
    Cooldown.BackoffGrowsOverRuns(s.app.keys[k], ops);
  }

  lemma EventKeepsTrippedBy(setup: Setup, s: Machine, ev: Event, k: nat, now: nat)
    requires ValidSetup(setup) && Shape(setup, s) && Enabled(s, ev) && k < |setup.cfgs| && ReadBy(ev, now)
    requires Cooldown.TrippedBy(s.app.keys[k], now)
    ensures k < |Next(setup, s, ev).app.keys| && Cooldown.TrippedBy(Next(setup, s, ev).app.keys[k], now)
  {
    if ev.Crash? {
      BootShape(setup, s.file, ev.month, ev.day);
    } else {
      var ops := EventIsKeyOps(setup, s, ev, k, now);
      Cooldown.RunsAreTrippedBy(s.app.keys[k], ops, now);
    }
  }

  /** Through any number of crashes: when every reading of the clock was at most `now`, the keys are such as the
      Retry-After hint needs them. */
  lemma {:induction false} LivesAreTrippedBy(setup: Setup, month: nat, day: nat, evs: seq<Event>, now: nat, k: nat)
    requires ValidSetup(setup) && month > 0 && day > 0 && k < |setup.cfgs| && forall ev <- evs :: ReadBy(ev, now)
    ensures var s := Run(setup, FirstBoot(setup, month, day), evs);
            k < |s.app.keys| && Cooldown.TrippedBy(s.app.keys[k], now)
  {
    if evs != [] {
      var n := |evs| - 1;
      LivesAreTrippedBy(setup, month, day, evs[..n], now, k);
      LivesKeepShape(setup, month, day, evs[..n]);
      var before := Run(setup, FirstBoot(setup, month, day), evs[..n]);
      assert evs[n] in evs;
      if Enabled(before, evs[n]) {
        EventKeepsTrippedBy(setup, before, evs[n], k, now);
      }
    } else {
      BootShape(setup, Absent, month, day);
    }
  }

  // ---------------------------------------------------------------------- access by access

  /** The clock reading a job holds is no later than `now`. */
  predicate JobReadBy(job: Interleaving.Job, now: nat) {
    match job
    case Scanning(_, t, _, _) => t <= now
    case Vetted(_, t, _, _, _) => t <= now
    case Forwarding(_, t, _) => t <= now
    case Pinging(_, t, _) => t <= now
    case Tripping(_, t, _, _) => t <= now
    case _ => true
  }

  predicate MoveReadBy(move: Interleaving.Move, now: nat) {
    match move
    case TakeTicket(t) => t <= now
    case StartPing(_, _, t) => t <= now
    case _ => true
  }

  predicate EventReadBy(ev: Interleaving.Event, now: nat) {
    ev.Work? ==> MoveReadBy(ev.move, now)
  }

  ghost predicate AllReadBy(s: Interleaving.State, now: nat) {
    && (forall t :: 0 <= t < |s.jobs| ==> JobReadBy(s.jobs[t], now))
    && forall k :: 0 <= k < |s.keys| ==> Cooldown.TrippedBy(s.keys[k], now)
  }

  lemma MoveStaysReadBy(job: Interleaving.Job, move: Interleaving.Move, k: nat, key: Key, n: nat, now: nat)
    requires Interleaving.Can(job, move, n) && !Interleaving.Plans(move)
    requires JobReadBy(job, now) && MoveReadBy(move, now) && Cooldown.TrippedBy(key, now)
    ensures JobReadBy(Interleaving.JobAfter(job, move, k, key, n), now)
    ensures Cooldown.TrippedBy(Interleaving.KeyAfter(job, move, key, n), now)
  {
    if move.StoreCooldown? {
      assert Interleaving.KeyAfter(job, move, key, n).cooldownUntil == job.now + BackoffWithJitter(job.step, job.now);
    } else {
      assert Interleaving.KeyAfter(job, move, key, n).cooldownUntil == key.cooldownUntil;
    }
  }

  lemma WorkStaysReadBy(s: Interleaving.State, t: nat, move: Interleaving.Move, now: nat)
    requires AllReadBy(s, now) && MoveReadBy(move, now)
    requires t < |s.jobs| && |s.tallies| == |s.keys| && Interleaving.Can(s.jobs[t], move, |s.keys|)
    ensures AllReadBy(Interleaving.WorkNext(s, t, move), now)
  {
    if !Interleaving.Plans(move) {
      var k := Interleaving.Touched(s.jobs[t], move, |s.keys|);
      MoveStaysReadBy(s.jobs[t], move, k, s.keys[k], |s.keys|, now);
    }
  }

  lemma BootIsReadBy(setup: Setup, file: File, jobs: nat, month: nat, day: nat, now: nat)
    ensures AllReadBy(Interleaving.Booted(setup, file, jobs, month, day), now)
  {
    var s := Interleaving.Booted(setup, file, jobs, month, day);
    forall k | 0 <= k < |s.keys| ensures s.keys[k].cooldownUntil == 0 {
    }
  }

  lemma SystemStaysReadBy(setup: Setup, s: Interleaving.State, ev: Interleaving.Event, retries: nat, now: nat)
    requires AllReadBy(s, now) && Interleaving.Enabled(s, ev, retries) && !ev.Work? && !ev.Crash?
    ensures AllReadBy(Interleaving.Next(setup, s, ev, retries), now)
  {
    var s' := Interleaving.Next(setup, s, ev, retries);
    match ev {
      case Day(step) => Interleaving.DayKeepsTheRest(setup, s, step);
      case Roll(step) => Interleaving.RollKeepsTheRest(s, step);
      case Save(step) => Interleaving.SaveKeepsTheRest(s, step);
      case _ =>
    }
    forall k | 0 <= k < |s'.keys| ensures Cooldown.TrippedBy(s'.keys[k], now) {
      assert s'.keys[k].cooldownUntil == s.keys[k].cooldownUntil;
      assert Cooldown.TrippedBy(s.keys[k], now);
    }
  }

  lemma EventStaysReadBy(setup: Setup, s: Interleaving.State, ev: Interleaving.Event, retries: nat, now: nat)
    requires AllReadBy(s, now) && Interleaving.Enabled(s, ev, retries) && EventReadBy(ev, now)
    ensures AllReadBy(Interleaving.Next(setup, s, ev, retries), now)
  {
    if ev.Work? {
      WorkStaysReadBy(s, ev.job, ev.move, now);
    } else if ev.Crash? {
      BootIsReadBy(setup, s.file, |s.jobs|, ev.month, ev.day, now);
    } else {
      SystemStaysReadBy(setup, s, ev, retries, now);
    }
  }

  /** The same of every interleaving, where a cooldown is computed and stored in two accesses. */
  lemma {:induction false} InterleavedTripsAreReadBy(setup: Setup, file: File, jobs: nat, month: nat, day: nat,
        evs: seq<Interleaving.Event>, retries: nat, now: nat)
    requires forall ev <- evs :: EventReadBy(ev, now)
    ensures AllReadBy(Interleaving.Run(setup, Interleaving.Booted(setup, file, jobs, month, day), evs, retries), now)
  {
    if evs == [] {
      BootIsReadBy(setup, file, jobs, month, day, now);
    } else {
      var n := |evs| - 1;
      InterleavedTripsAreReadBy(setup, file, jobs, month, day, evs[..n], retries, now);
      assert evs[n] in evs;
      var before := Interleaving.Run(setup, Interleaving.Booted(setup, file, jobs, month, day), evs[..n], retries);
      if Interleaving.Enabled(before, evs[n], retries) {
        EventStaysReadBy(setup, before, evs[n], retries, now);
      }
    }
  }
}
