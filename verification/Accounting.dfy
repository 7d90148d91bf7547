/** What one request, run alone, does to the books of every key, and when failover must succeed. */
module Accounting {
  import opened Cyclic
  import opened Proxy
  import opened Ratelimit
  import opened Statistics
  import opened Upstreams
  import opened Wrappers
  import Cooldown

  predicate NoRepeats(s: seq<nat>) {
    forall i, j :: 0 <= i < j < |s| ==> s[i] != s[j]
  }

  predicate Fails(outcome: Outcome) {
    outcome.RateLimited? || outcome.Failed?
  }

  /** Relative to `before`, exactly the attempts on `tried` have been entered in the books, one each. */
  ghost predicate Entered(before: App, after: App, world: World, est: nat, tried: seq<nat>) {
    && |after.keys| == |before.keys| == |world.answers|
    && |tried| <= |world.clock|
    && NoRepeats(tried)
    && (forall p :: 0 <= p < |tried| ==> tried[p] < |before.keys|)
    && (forall j :: 0 <= j < |before.keys| && j !in tried ==> after.keys[j].Books() == before.keys[j].Books())
    && (forall p :: 0 <= p < |tried| ==>
                      var j := tried[p];
                      after.keys[j].Books()
                        == AfterAttempt(before.keys[j], world.answers[j], world.clock[p], est).Books())
  }

  lemma SelectionEntersNothing(before: App, app: App, req: Request, world: World, tried: seq<nat>, ask: Ask)
    requires Entered(before, app, world, req.est, tried)
    requires |tried| < |world.drips| && |tried| < |world.clock|
    requires ask == Ask(req.kind, req.est, tried, world.clock[|tried|])
    ensures Entered(before, Selected(app, req.kind, world.drips[|tried|], ask).0, world, req.est, tried)
    ensures Selected(app, req.kind, world.drips[|tried|], ask).0.global == app.global
    ensures Selected(app, req.kind, world.drips[|tried|], ask).1.Some? ==>
              Selected(app, req.kind, world.drips[|tried|], ask).1.value !in tried
  {
    var chosen := Selected(app, req.kind, world.drips[|tried|], ask).0;
    forall j | 0 <= j < |app.keys| ensures chosen.keys[j].Books() == app.keys[j].Books() {
    }
  }

  lemma AttemptIsEntered(before: App, app: App, req: Request, world: World, tried: seq<nat>, k: nat)
    requires Entered(before, app, world, req.est, tried)
    requires k < |app.keys| && k !in tried && |tried| < |world.clock|
    ensures Entered(before, Settle(app, k, world.answers[k], world.clock[|tried|], req), world, req.est, tried + [k])
  {
    var after, now := Settle(app, k, world.answers[k], world.clock[|tried|], req), world.clock[|tried|];
    var longer := tried + [k];
    assert forall j :: 0 <= j < |app.keys| && j != k ==> after.keys[j] == app.keys[j];
    forall p | 0 <= p < |longer|
      ensures after.keys[longer[p]].Books()
           == AfterAttempt(before.keys[longer[p]], world.answers[longer[p]], world.clock[p], req.est).Books()
    {
      if p == |tried| {
        SameBooksSameAttempt(before.keys[k], app.keys[k], world.answers[k], now, req.est);
      }
    }
    forall j | 0 <= j < |app.keys| && j !in longer ensures after.keys[j].Books() == before.keys[j].Books() {
      assert j != k by { assert longer[|tried|] == k; }
      assert j !in tried;
    }
  }

  lemma SameBooksSameAttempt(a: Key, b: Key, outcome: Outcome, now: nat, est: nat)
    requires a.Books() == b.Books()
    ensures AfterAttempt(a, outcome, now, est).Books() == AfterAttempt(b, outcome, now, est).Books()
  {
    assert b == a.(tokens := b.tokens);
  }

  /** A result of the loop against the state it started from. */
  ghost predicate Settled(before: App, r: Result, req: Request, world: World, retries: nat) {
    && Entered(before, r.app, world, req.est, r.tried)
    && |r.tried| <= retries
    && (forall p :: 0 <= p < |r.tried| - (if r.reply.Exhausted? then 0 else 1) ==> Fails(world.answers[r.tried[p]]))
    && match r.reply
       case Served(k) => r.tried != [] && k == r.tried[|r.tried| - 1] && world.answers[k] == Serviced
                         && r.app.global == before.global.(methods := Tally(before.global.methods, req.methods))
       case Abandoned(k) => r.tried != [] && k == r.tried[|r.tried| - 1] && world.answers[k] == Dropped
                            && r.app.global == before.global
       case Exhausted(_) => r.app.global == before.global.(allExhausted := before.global.allExhausted + 1)
  }

  lemma ExhaustionSettles(before: App, app: App, req: Request, world: World, retries: nat, skip: seq<nat>,
        hint: Option<nat>)
    requires Entered(before, app, world, req.est, skip) && app.global == before.global && |skip| <= retries
    requires forall p :: 0 <= p < |skip| ==> Fails(world.answers[skip[p]])
    ensures Settled(before, Result(CountExhausted(app), Exhausted(hint), skip), req, world, retries)
  {
  }

  lemma ReplySettles(before: App, app: App, req: Request, world: World, retries: nat, skip: seq<nat>, k: nat)
    requires Entered(before, app, world, req.est, skip) && app.global == before.global && |skip| < retries
    requires forall p :: 0 <= p < |skip| ==> Fails(world.answers[skip[p]])
    requires k < |app.keys| && k !in skip && |skip| < |world.clock| && !Fails(world.answers[k])
    ensures var settled := Settle(app, k, world.answers[k], world.clock[|skip|], req);
            var reply := if world.answers[k].Serviced? then Served(k) else Abandoned(k);
            Settled(before, Result(settled, reply, skip + [k]), req, world, retries)
  {
    AttemptIsEntered(before, app, req, world, skip, k);
  }

  lemma {:induction false} LoopSettles(before: App, app: App, req: Request, world: World, retries: nat, skip: seq<nat>)
    requires Covers(world, |app.keys|, retries) && |skip| <= retries
    requires Entered(before, app, world, req.est, skip) && app.global == before.global
    requires forall p :: 0 <= p < |skip| ==> Fails(world.answers[skip[p]])
    ensures Settled(before, Serve(app, req, world, retries, skip), req, world, retries)
    decreases retries - |skip|
  {
    var now := world.clock[|skip|];
    if |skip| == retries {
      ExhaustionSettles(before, app, req, world, retries, skip, Cooldown.SoonestCooldownSecs(app.keys, now));
    } else {
      var ask := Ask(req.kind, req.est, skip, now);
      SelectionEntersNothing(before, app, req, world, skip, ask);
      var (chosen, choice) := Selected(app, req.kind, world.drips[|skip|], ask);
      if choice.None? {
        ExhaustionSettles(before, chosen, req, world, retries, skip, Cooldown.SoonestCooldownSecs(chosen.keys, now));
      } else if Fails(world.answers[choice.value]) {
        AttemptIsEntered(before, chosen, req, world, skip, choice.value);
        LoopSettles(before, Settle(chosen, choice.value, world.answers[choice.value], now, req), req, world, retries,
                    skip + [choice.value]);
      } else {
        ReplySettles(before, chosen, req, world, retries, skip, choice.value);
      }
    }
  }

  /** A list without repeats is no longer than a set that holds it. */
  lemma {:induction false} NoRepeatsFit(s: seq<nat>, holder: set<nat>)
    requires NoRepeats(s) && forall x <- s :: x in holder
    ensures |s| <= |holder|
  {
    if s != [] {
      var n := |s| - 1;
      assert s[n] in holder;
      NoRepeatsFit(s[..n], holder - {s[n]});
    }
  }

  function Indices(n: nat): (r: set<nat>)
    ensures |r| == n && forall i: nat :: i in r <==> i < n
  {
    if n == 0 then {} else Indices(n - 1) + {n - 1}
  }

  /** The books of a key after one attempt on it, field by field. */
  predicate OneRecord(k: Key, k': Key, outcome: Outcome, now: nat, est: nat) {
    match outcome
    case Serviced =>
      k'.Books() == k.(used := k.used + est, total := k.total + est, ok := k.ok + 1, backoffStep := 0).Books()
    case RateLimited =>
      && now + 750 <= k'.cooldownUntil <= now + 37_499
      && k'.Books() == k.(limited := k.limited + 1, hits := k.hits + 1, backoffStep := k.backoffStep + 1,
                          cooldownUntil := k'.cooldownUntil).Books()
    case Failed => k'.Books() == k.(errors := k.errors + 1).Books()
    case Dropped => k'.Books() == k.(inFlight := k.inFlight + 1).Books()
  }

  lemma AttemptIsOneRecord(k: Key, k': Key, outcome: Outcome, now: nat, est: nat)
    requires k'.Books() == AfterAttempt(k, outcome, now, est).Books()
    ensures OneRecord(k, k', outcome, now, est)
  {
    WindowBand(k.backoffStep, now);
    assert k'.cooldownUntil == k'.Books().cooldownUntil;
  }

  /** Exact accounting of one request, whatever the keys answer: it is forwarded to distinct keys, no more than
      `retries` and no more than there are, and fails on each but perhaps the last. Serving it charges its cost
      to the last of them alone; otherwise nobody is charged. Each key it failed on has one record of that
      failure and no other, with a cooldown if and only if it was a rate limit; the other keys' books are
      untouched. */
  lemma OneRequestIsAccountedExactly(app: App, req: Request, world: World, retries: nat)
    requires Covers(world, |app.keys|, retries)
    ensures var r := Serve(app, req, world, retries, []);
            && NoRepeats(r.tried) && |r.tried| <= retries && |r.tried| <= |app.keys|
            && (forall p :: 0 <= p < |r.tried| ==> r.tried[p] < |app.keys|)
            && (forall p :: 0 <= p < |r.tried| - (if r.reply.Exhausted? then 0 else 1) ==>
                              Fails(world.answers[r.tried[p]]))
            && (!r.reply.Exhausted? ==>
                  && r.tried != [] && r.tried[|r.tried| - 1] == r.reply.key
                  && world.answers[r.reply.key] == if r.reply.Served? then Serviced else Dropped)
            && r.app.global == app.global.(
                                 allExhausted := app.global.allExhausted + (if r.reply.Exhausted? then 1 else 0),
                                 methods := if r.reply.Served? then Tally(app.global.methods, req.methods)
                                            else app.global.methods)
    ensures var r := Serve(app, req, world, retries, []);
            && |r.app.keys| == |app.keys|
            && (forall j :: 0 <= j < |app.keys| && j !in r.tried ==> r.app.keys[j].Books() == app.keys[j].Books())
            && (forall p :: 0 <= p < |r.tried| ==>
                              var j := r.tried[p];
                              OneRecord(app.keys[j], r.app.keys[j], world.answers[j], world.clock[p], req.est))
  {
    var r := Serve(app, req, world, retries, []);
    LoopSettles(app, app, req, world, retries, []);
    assert forall j <- r.tried :: j in Indices(|app.keys|);
    NoRepeatsFit(r.tried, Indices(|app.keys|));
    forall p | 0 <= p < |r.tried|
      ensures var j := r.tried[p];
              OneRecord(app.keys[j], r.app.keys[j], world.answers[j], world.clock[p], req.est)
    {
      var j := r.tried[p];
      AttemptIsOneRecord(app.keys[j], r.app.keys[j], world.answers[j], world.clock[p], req.est);
    }
  }

  lemma ServiceIsKeyOps(k: Key, est: nat) returns (ops: seq<Cooldown.KeyOp>)
    ensures Cooldown.Run(k, ops) == k.NoteSuccess().RecordOk().AddCredits(est)
    ensures Cooldown.TripTimes(ops) == []
  {
    ops := Cooldown.Once(k, Cooldown.Succeed);
    var more := Cooldown.Once(k.NoteSuccess(), Cooldown.CountOk);
    Cooldown.RunConcat(k, ops, more);
    ops := ops + more;
    more := Cooldown.Once(k.NoteSuccess().RecordOk(), Cooldown.Charge(est));
    Cooldown.RunConcat(k, ops, more);
    ops := ops + more;
  }

  lemma RateLimitIsKeyOps(k: Key, now: nat) returns (ops: seq<Cooldown.KeyOp>)
    ensures Cooldown.Run(k, ops) == k.TripCooldown(now).RecordRateLimited()
    ensures ops == [Cooldown.Trip(now), Cooldown.CountRateLimited] && Cooldown.TripTimes(ops) == [now]
  {
    ops := Cooldown.Once(k, Cooldown.Trip(now));
    var more := Cooldown.Once(k.TripCooldown(now), Cooldown.CountRateLimited);
    Cooldown.RunConcat(k, ops, more);
    ops := ops + more;
  }

  /** Attempts are runs of key operations, so what holds of all runs of a key holds of what the proxy does to
      it: only a serviced response resets the backoff, and only a rate limit trips the cooldown, at the clock
      read before forwarding. */
  lemma AttemptsAreKeyOps(k: Key, outcome: Outcome, now: nat, est: nat) returns (ops: seq<Cooldown.KeyOp>)
    ensures Cooldown.Run(k, ops) == AfterAttempt(k, outcome, now, est)
    ensures outcome != Serviced ==> forall i :: 0 <= i < |ops| ==> !ops[i].Succeed?
    ensures Cooldown.TripTimes(ops) == if outcome == RateLimited then [now] else []
  {
    match outcome {
      case RateLimited =>
        ops := RateLimitIsKeyOps(k, now);
      case Failed =>
        ops := Cooldown.Once(k, Cooldown.CountError);
      case Serviced =>
        ops := ServiceIsKeyOps(k, est);
      case Dropped =>
        ops := Cooldown.Once(k, Cooldown.Launch);
    }
  }

  // ---------------------------------------------------------------------- refusals

  lemma {:induction false} RefusalIsAnsweredNow(app: App, req: Request, world: World, retries: nat, skip: seq<nat>)
    requires Covers(world, |app.keys|, retries) && |skip| <= retries
    ensures var r := Serve(app, req, world, retries, skip);
            r.reply.Exhausted? ==>
              && |r.tried| <= retries
              && r.reply.retryAfterSecs == Cooldown.SoonestCooldownSecs(r.app.keys, world.clock[|r.tried|])
              && (|r.tried| < retries ==>
                    forall i :: 0 <= i < |r.app.keys| ==>
                                  !Fit(r.app.keys[i], i, Ask(req.kind, req.est, r.tried, world.clock[|r.tried|])))
    decreases retries - |skip|
  {
    if |skip| < retries {
      var ask := Ask(req.kind, req.est, skip, world.clock[|skip|]);
      var (chosen, choice) := Selected(app, req.kind, world.drips[|skip|], ask);
      if choice.None? {
        SelectionIsFit(chosen.keys, ask, app.cursor);
      } else if Fails(world.answers[choice.value]) {
        var settled := Settle(chosen, choice.value, world.answers[choice.value], world.clock[|skip|], req);
        RefusalIsAnsweredNow(settled, req, world, retries, skip + [choice.value]);
      }
    }
  }

  /** A refusal, whether the retries ran out or no key is fit any more, is dated by the reading taken after the last
      attempt: without a hint exactly if no key cools at that reading; with one, some cooling key is out when the
      hint has passed, and a second earlier all of them still cool. */
  lemma RefusalHintIsTight(app: App, req: Request, world: World, retries: nat)
    requires Covers(world, |app.keys|, retries)
    ensures var r := Serve(app, req, world, retries, []);
            r.reply.Exhausted? ==>
              && |r.tried| <= retries
              && var t, keys, hint := world.clock[|r.tried|], r.app.keys, r.reply.retryAfterSecs;
              && (hint.None? <==> forall i :: 0 <= i < |keys| ==> keys[i].cooldownUntil <= t)
              && (hint.Some? ==>
                    && hint.value >= 1
                    && (exists i :: 0 <= i < |keys| && t < keys[i].cooldownUntil <= t + 1000 * hint.value)
                    && (forall i :: 0 <= i < |keys| && t < keys[i].cooldownUntil ==>
                                      keys[i].cooldownUntil > t + 1000 * (hint.value - 1)))
              && (|r.tried| == retries
                  || forall i :: 0 <= i < |keys| ==> !Fit(keys[i], i, Ask(req.kind, req.est, r.tried, t)))
  {
    RefusalIsAnsweredNow(app, req, world, retries, []);
    var r := Serve(app, req, world, retries, []);
    if r.reply.Exhausted? {
      Cooldown.HintIsTight(r.app.keys, world.clock[|r.tried|]);
    }
  }

  // ---------------------------------------------------------------------- failover

  /** The keys that would not service the request. */
  function Failing(world: World): set<nat> {
    set j | 0 <= j < |world.answers| && world.answers[j] != Serviced
  }

  predicate Nondecreasing(clock: seq<nat>) {
    forall i, j :: 0 <= i < j < |clock| ==> clock[i] <= clock[j]
  }

  lemma {:induction false} GoodKeyIsFound(app: App, req: Request, world: World, retries: nat, skip: seq<nat>, g: nat)
    requires Covers(world, |app.keys|, retries) && |skip| <= retries && Nondecreasing(world.clock)
    requires NoRepeats(skip) && forall j <- skip :: j in Failing(world)
    requires forall j :: 0 <= j < |world.answers| ==> world.answers[j] != Dropped
    requires g < |app.keys| && world.answers[g] == Serviced
    requires app.keys[g].Passes(req.kind, req.est, world.clock[|skip|])
    requires retries > |Failing(world)|
    ensures Serve(app, req, world, retries, skip).reply.Served?
    ensures |Serve(app, req, world, retries, skip).tried| <= |Failing(world)| + 1
    decreases retries - |skip|
  {
    NoRepeatsFit(skip, Failing(world));
    var now := world.clock[|skip|];
    var ask := Ask(req.kind, req.est, skip, now);
    var dripped := Drip(app.keys, req.kind, world.drips[|skip|]);
    assert dripped[g].Passes(req.kind, req.est, now) && g !in skip;
    SomeEligibleIsFound(dripped, ask, app.cursor, g);
    var (chosen, choice) := Selected(app, req.kind, world.drips[|skip|], ask);
    var k := choice.value;
    assert Eligible(dripped, ask, k);
    if world.answers[k] != Serviced {
      assert k in Failing(world);
      NoRepeatsFit(skip + [k], Failing(world));
      var settled := Settle(chosen, k, world.answers[k], now, req);
      assert settled.keys[g] == dripped[g];
      GoodKeyIsFound(settled, req, world, retries, skip + [k], g);
    }
  }

  /** Failover is complete: one key that passes every test and would service the request is enough,
      provided the retries outnumber the failing keys. */
  lemma FailoverIsComplete(app: App, req: Request, world: World, retries: nat, g: nat)
    requires Covers(world, |app.keys|, retries) && Nondecreasing(world.clock)
    requires forall j :: 0 <= j < |world.answers| ==> world.answers[j] != Dropped
    requires g < |app.keys| && app.keys[g].Passes(req.kind, req.est, world.clock[0]) && world.answers[g] == Serviced
    requires retries > |Failing(world)|
    ensures Serve(app, req, world, retries, []).reply.Served?
    ensures |Serve(app, req, world, retries, []).tried| <= |Failing(world)| + 1
  {
    GoodKeyIsFound(app, req, world, retries, [], g);
  }

  // ---------------------------------------------------------------------- too few retries

  /** The `p`-th key in cyclic order from ticket `base` passes at the `p`-th attempt. */
  predicate PassesInTurn(keys: seq<Key>, req: Request, clock: seq<nat>, base: nat, p: nat) {
    && keys != [] && p < |clock|
    && keys[Slot(base, p, |keys|)].Passes(req.kind, req.est, clock[p])
  }

  /** An attempt takes the next key of the ring if that one passes. */
  lemma NextInTurnIsTried(app: App, req: Request, world: World, skip: seq<nat>, base: nat)
    requires |skip| < |app.keys| == |world.answers| && |skip| < |world.drips| && |skip| < |world.clock|
    requires app.cursor == base + |skip|
    requires forall i :: 0 <= i < |skip| ==> skip[i] == Slot(base, i, |app.keys|)
    requires PassesInTurn(app.keys, req, world.clock, base, |skip|)
    ensures var ask := Ask(req.kind, req.est, skip, world.clock[|skip|]);
            var (chosen, choice) := Selected(app, req.kind, world.drips[|skip|], ask);
            && choice == Some(Slot(base, |skip|, |app.keys|))
            && chosen.cursor == base + |skip| + 1
            && forall j, kind, est, now :: 0 <= j < |app.keys| && j != choice.value
                                           && app.keys[j].Passes(kind, est, now) ==>
                                             chosen.keys[j].Passes(kind, est, now)
  {
    var n, k := |app.keys|, Slot(base, |skip|, |app.keys|);
    var ask := Ask(req.kind, req.est, skip, world.clock[|skip|]);
    var dripped := Drip(app.keys, req.kind, world.drips[|skip|]);
    forall i | 0 <= i < |skip| ensures skip[i] != k {
      SlotsDiffer(base, i, |skip|, n);
    }
    assert Eligible(dripped, ask, k) && Slot(app.cursor, 0, n) == k;
  }

  lemma {:induction false} RetriesRunOut(app: App, req: Request, world: World, retries: nat, skip: seq<nat>, base: nat)
    requires Covers(world, |app.keys|, retries) && |skip| <= retries <= |app.keys|
    requires app.keys != [] ==> forall p :: 0 <= p < retries ==> Fails(world.answers[Slot(base, p, |app.keys|)])
    requires app.cursor == base + |skip|
    requires forall i :: 0 <= i < |skip| ==> app.keys != [] && skip[i] == Slot(base, i, |app.keys|)
    requires forall p :: |skip| <= p < retries ==> PassesInTurn(app.keys, req, world.clock, base, p)
    ensures var r := Serve(app, req, world, retries, skip); r.reply.Exhausted? && |r.tried| == retries
    decreases retries - |skip|
  {
    if |skip| < retries {
      assert PassesInTurn(app.keys, req, world.clock, base, |skip|);
      NextInTurnIsTried(app, req, world, skip, base);
      var n, now := |app.keys|, world.clock[|skip|];
      var (chosen, choice) := Selected(app, req.kind, world.drips[|skip|], Ask(req.kind, req.est, skip, now));
      var k := choice.value;
      var settled := Settle(chosen, k, world.answers[k], now, req);
      forall p | |skip| < p < retries ensures PassesInTurn(settled.keys, req, world.clock, base, p) {
        SlotsDiffer(base, |skip|, p, n);
        assert PassesInTurn(app.keys, req, world.clock, base, p);
      }
      RetriesRunOut(settled, req, world, retries, skip + [k], base);
    }
  }

  /** If the first `retries` keys in turn pass and fail, the request is refused after them, whatever the other keys
      would answer. */
  lemma FailingKeysUseUpRetries(app: App, req: Request, world: World, retries: nat)
    requires Covers(world, |app.keys|, retries) && retries <= |app.keys|
    requires forall p :: 0 <= p < retries ==> PassesInTurn(app.keys, req, world.clock, app.cursor, p)
                                              && Fails(world.answers[Slot(app.cursor, p, |app.keys|)])
    ensures var r := Serve(app, req, world, retries, []); r.reply.Exhausted? && |r.tried| == retries
  {
    RetriesRunOut(app, req, world, retries, [], app.cursor);
  }

  /** Every key passes at every reading. */
  predicate AllPass(keys: seq<Key>, req: Request, clock: seq<nat>) {
    forall j, p :: 0 <= j < |keys| && 0 <= p < |clock| ==> keys[j].Passes(req.kind, req.est, clock[p])
  }

  /** Whichever `failing` keys fail, the request is served. */
  ghost predicate FailsOver(app: App, req: Request, clock: seq<nat>, drips: seq<seq<nat>>, retries: nat, failing: nat)
    requires |clock| == retries + 1 && |drips| == retries
  {
    forall answers: seq<Outcome> :: |answers| == |app.keys| && Dropped !in answers
                                    && |Failing(World(clock, drips, answers))| == failing ==>
                                      Serve(app, req, World(clock, drips, answers), retries, []).reply.Served?
  }

  lemma AllFail(world: World)
    requires forall g :: 0 <= g < |world.answers| ==> world.answers[g] != Serviced
    ensures |Failing(world)| == |world.answers|
  {
    assert Failing(world) == Indices(|world.answers|);
  }

  lemma EnoughRetries(app: App, req: Request, world: World, retries: nat)
    requires Covers(world, |app.keys|, retries) && Nondecreasing(world.clock) && Dropped !in world.answers
    requires AllPass(app.keys, req, world.clock) && |Failing(world)| < |app.keys|
    requires retries > |Failing(world)|
    ensures Serve(app, req, world, retries, []).reply.Served?
  {
    if g :| 0 <= g < |world.answers| && world.answers[g] == Serviced {
      FailoverIsComplete(app, req, world, retries, g);
    } else {
      AllFail(world);
    }
  }

  lemma TooFewRetries(app: App, req: Request, clock: seq<nat>, drips: seq<seq<nat>>, retries: nat, failing: nat)
    returns (answers: seq<Outcome>)
    requires |clock| == retries + 1 && |drips| == retries && retries <= failing < |app.keys|
    requires AllPass(app.keys, req, clock)
    ensures |answers| == |app.keys| && Dropped !in answers
    ensures |Failing(World(clock, drips, answers))| == failing
    ensures Serve(app, req, World(clock, drips, answers), retries, []).reply.Exhausted?
  {
    var n, base := |app.keys|, app.cursor;
    var failed := FirstSlots(base, failing, n);
    FirstSlotsCount(base, failing, n);
    answers := seq(n, i requires 0 <= i < n => if i in failed then Failed else Serviced);
    assert Failing(World(clock, drips, answers)) == failed;
    FailingKeysUseUpRetries(app, req, World(clock, drips, answers), retries);
  }

  /** While all keys pass, any `failing` of them, but not all, are made up for exactly when the retries outnumber
      them. */
  lemma FailoverNeedsMoreRetriesThanFailures(app: App, req: Request, clock: seq<nat>, drips: seq<seq<nat>>,
        retries: nat, failing: nat)
    requires |clock| == retries + 1 && |drips| == retries && Nondecreasing(clock)
    requires failing < |app.keys| && AllPass(app.keys, req, clock)
    ensures FailsOver(app, req, clock, drips, retries, failing) <==> retries > failing
  {
    if retries > failing {
      forall answers: seq<Outcome> | |answers| == |app.keys| && Dropped !in answers
                                     && |Failing(World(clock, drips, answers))| == failing
        ensures Serve(app, req, World(clock, drips, answers), retries, []).reply.Served?
      {
        EnoughRetries(app, req, World(clock, drips, answers), retries);
      }
    } else {
      var answers := TooFewRetries(app, req, clock, drips, retries, failing);
    }
  }
}
