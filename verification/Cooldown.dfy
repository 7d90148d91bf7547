/** How cooldowns evolve over runs of a key, and what the Retry-After hint promises. */
module Cooldown {
  import opened Ratelimit
  import opened Upstreams
  import opened Wrappers

  /** Everything the proxy, the pinger and the rollers do to a key's fields, one operation each. */
  datatype KeyOp =
    | Charge(cost: nat)
    | CountOk
    | CountRateLimited
    | CountError
    | Acquire(kind: MethodClass)
    | Drip(kind: MethodClass, extra: nat)
    | NewMonth(month: nat)
    | NewDay
    | Succeed
    | Trip(now: nat)
    | Launch           // a forward that is dropped and never lands

  function Apply(k: Key, op: KeyOp): Key {
    match op
    case Charge(cost) => k.AddCredits(cost)
    case CountOk => k.RecordOk()
    case CountRateLimited => k.RecordRateLimited()
    case CountError => k.RecordError()
    case Acquire(kind) => if k.CanAcquire(kind) then k.TakeToken(kind) else k
    case Drip(kind, extra) => k.Refill(kind, extra)
    case NewMonth(month) => k.RestoreMonthly(month, 0)
    case NewDay => k.StartNewDay()
    case Succeed => k.NoteSuccess()
    case Trip(now) => k.TripCooldown(now)
    case Launch => k.(inFlight := k.inFlight + 1)
  }

  function Run(k: Key, ops: seq<KeyOp>): Key {
    if ops == [] then k else Apply(Run(k, ops[..|ops| - 1]), ops[|ops| - 1])
  }

  /** The clock readings of the rate limits in a run. */
  function TripTimes(ops: seq<KeyOp>): seq<nat> {
    if ops == [] then [] else
      TripTimes(ops[..|ops| - 1]) + if ops[|ops| - 1].Trip? then [ops[|ops| - 1].now] else []
  }

  /** One more operation at the end of a run. */
  lemma Then(k: Key, ops: seq<KeyOp>, op: KeyOp) returns (longer: seq<KeyOp>)
    ensures longer == ops + [op] && Run(k, longer) == Apply(Run(k, ops), op)
    ensures TripTimes(longer) == TripTimes(ops) + if op.Trip? then [op.now] else []
  {
    longer := ops + [op];
    assert longer[..|ops|] == ops;
  }

  /** A run of one operation. */
  lemma Once(k: Key, op: KeyOp) returns (ops: seq<KeyOp>)
    ensures ops == [op] && Run(k, ops) == Apply(k, op)
    ensures TripTimes(ops) == if op.Trip? then [op.now] else []
  {
    ops := Then(k, [], op);
  }

  lemma {:induction false} RunConcat(k: Key, ops: seq<KeyOp>, more: seq<KeyOp>)
    ensures Run(k, ops + more) == Run(Run(k, ops), more)
    ensures TripTimes(ops + more) == TripTimes(ops) + TripTimes(more)
  {
    if more == [] {
      assert ops + more == ops;
    } else {
      assert (ops + more)[..|ops + more| - 1] == ops + more[..|more| - 1];
      RunConcat(k, ops, more[..|more| - 1]);
    }
  }

  /** The cooldown windows a run opens: for each rate limit, how far past its clock reading it put the key. */
  function Windows(k: Key, ops: seq<KeyOp>): seq<int> {
    if ops == [] then [] else
      Windows(k, ops[..|ops| - 1])
      + if ops[|ops| - 1].Trip? then [Run(k, ops).cooldownUntil - ops[|ops| - 1].now] else []
  }

  lemma {:induction false} WindowsFollowSteps(k: Key, ops: seq<KeyOp>)
    requires forall op <- ops :: !op.Succeed?
    ensures |Windows(k, ops)| == |TripTimes(ops)|
    ensures Run(k, ops).backoffStep == k.backoffStep + |TripTimes(ops)|
    ensures forall i :: 0 <= i < |TripTimes(ops)| ==>
              Windows(k, ops)[i] == BackoffWithJitter(k.backoffStep + i, TripTimes(ops)[i])
  {
    if ops != [] {
      WindowsFollowSteps(k, ops[..|ops| - 1]);
    }
  }

  /** From step 0 and with no successful proxied response in between: the step counts the rate
      limits, every window keeps to its band, and each of the first six outgrows the one before. */
  lemma {:induction false} BackoffGrowsOverRuns(k: Key, ops: seq<KeyOp>)
    requires k.backoffStep == 0
    requires forall op <- ops :: !op.Succeed?
    ensures Run(k, ops).backoffStep == |TripTimes(ops)| == |Windows(k, ops)|
    ensures forall w <- Windows(k, ops) :: 750 <= w <= 37_499
    ensures forall i :: 0 <= i < |Windows(k, ops)| ==>
              3 * BackoffBase(i) <= 4 * Windows(k, ops)[i] < 5 * BackoffBase(i)
    ensures forall i :: 0 < i < |Windows(k, ops)| && i < 6 ==> Windows(k, ops)[i - 1] < Windows(k, ops)[i]
  {
    WindowsFollowSteps(k, ops);
    var times := TripTimes(ops);
    forall i | 0 <= i < |times|
      ensures 3 * BackoffBase(i) <= 4 * Windows(k, ops)[i] < 5 * BackoffBase(i)
      ensures 750 <= Windows(k, ops)[i] <= 37_499
    {
      WindowBand(i, times[i]);
    }
    forall i | 0 < i < |times| && i < 6
      ensures Windows(k, ops)[i - 1] < Windows(k, ops)[i]
    {
      WindowsGrow(i - 1, times[i - 1], times[i]);
    }
  }

  // ---------------------------------------------------------------------- Retry-After

  /** The least positive remaining cooldown. */
  function SoonestMs(keys: seq<Key>, now: nat): Option<nat> {
    if keys == [] then None else
      var rest := SoonestMs(keys[..|keys| - 1], now);
      var ms := keys[|keys| - 1].CooldownRemaining(now);
      if ms > 0 && (rest.None? || ms < rest.value) then Some(ms) else rest
  }

  function SoonestCooldownSecs(keys: seq<Key>, now: nat): Option<nat> {
    match SoonestMs(keys, now)
    case None => None
    case Some(ms) => Some(if (ms + 999) / 1000 < 1 then 1 else (ms + 999) / 1000)
  }

  lemma {:induction false} SoonestIsLeast(keys: seq<Key>, now: nat)
    ensures SoonestMs(keys, now).None? <==> forall k <- keys :: !k.InCooldown(now)
    ensures SoonestMs(keys, now).Some? ==>
              && (exists k <- keys :: k.InCooldown(now) && k.cooldownUntil == now + SoonestMs(keys, now).value)
              && forall k <- keys :: k.InCooldown(now) ==> now + SoonestMs(keys, now).value <= k.cooldownUntil
  {
    if keys != [] {
      var init, last := keys[..|keys| - 1], keys[|keys| - 1];
      SoonestIsLeast(init, now);
      assert keys == init + [last];
      assert last in keys && forall k :: k in init ==> k in keys;
    }
  }

  /** The hint against the cooldowns themselves: none if none cools; else at least a second, after which some key that
      cools is out, while a second earlier all of them still cool. */
  lemma HintIsTight(keys: seq<Key>, now: nat)
    ensures SoonestCooldownSecs(keys, now).None? <==> forall i :: 0 <= i < |keys| ==> keys[i].cooldownUntil <= now
    ensures SoonestCooldownSecs(keys, now).Some? ==>
              var secs := SoonestCooldownSecs(keys, now).value;
              && secs >= 1
              && (exists i :: 0 <= i < |keys| && now < keys[i].cooldownUntil <= now + 1000 * secs)
              && (forall i :: 0 <= i < |keys| && now < keys[i].cooldownUntil ==>
                                keys[i].cooldownUntil > now + 1000 * (secs - 1))
  {
    SoonestIsLeast(keys, now);
    assert forall i :: 0 <= i < |keys| ==> keys[i] in keys;
  }

  predicate ClocksUpTo(times: seq<nat>, now: nat) {
    forall i :: 0 <= i < |times| ==> times[i] <= now
  }

  /** The key has never been rate-limited since boot, or its cooldown is a window opened by `now`. */
  ghost predicate TrippedBy(k: Key, now: nat) {
    k.cooldownUntil == 0 || exists step: nat, t: nat :: t <= now && k.cooldownUntil == t + BackoffWithJitter(step, t)
  }

  /** Runs whose rate limits all happen by `now` keep a key so. */
  lemma {:induction false} RunsAreTrippedBy(k: Key, ops: seq<KeyOp>, now: nat)
    requires TrippedBy(k, now) && ClocksUpTo(TripTimes(ops), now)
    ensures TrippedBy(Run(k, ops), now)
  {
    if ops != [] {
      var init, op := ops[..|ops| - 1], ops[|ops| - 1];
      assert TripTimes(init) == TripTimes(ops)[..|TripTimes(init)|];
      RunsAreTrippedBy(k, init, now);
      if op.Trip? {
        assert TripTimes(ops)[|TripTimes(init)|] == op.now;
        assert Run(k, ops).cooldownUntil == op.now + BackoffWithJitter(Run(k, init).backoffStep, op.now);
      }
    }
  }

  lemma {:induction false} NoTripKeepsCooldown(k: Key, ops: seq<KeyOp>)
    requires forall op <- ops :: !op.Trip?
    ensures Run(k, ops).cooldownUntil == k.cooldownUntil
  {
    if ops != [] {
      NoTripKeepsCooldown(k, ops[..|ops| - 1]);
    }
  }

  /** The hint is absent exactly when no key cools, and never exceeds 38 seconds.  Unless a key is
      tripped again, waiting that long frees some key that cools now, and waiting a second less frees none. */
  lemma RetryAfterIsTight(keys: seq<Key>, now: nat, later: seq<seq<KeyOp>>)
    requires forall k <- keys :: TrippedBy(k, now)
    requires |later| == |keys|
    requires forall ops <- later :: forall op <- ops :: !op.Trip?
    ensures SoonestCooldownSecs(keys, now).None? <==> forall k <- keys :: !k.InCooldown(now)
    ensures SoonestCooldownSecs(keys, now).Some? ==>
              var secs := SoonestCooldownSecs(keys, now).value;
              && 1 <= secs <= 38
              && (exists i :: 0 <= i < |keys| && keys[i].InCooldown(now)
                              && !Run(keys[i], later[i]).InCooldown(now + 1000 * secs))
              && (forall i :: 0 <= i < |keys| && keys[i].InCooldown(now) ==>
                                Run(keys[i], later[i]).InCooldown(now + 1000 * (secs - 1)))
  {
    SoonestIsLeast(keys, now);
    forall i | 0 <= i < |keys|
      ensures Run(keys[i], later[i]).cooldownUntil == keys[i].cooldownUntil <= now + 37_499
    {
      assert later[i] in later;
      NoTripKeepsCooldown(keys[i], later[i]);
      assert TrippedBy(keys[i], now);
      if keys[i].cooldownUntil != 0 {
        var step: nat, t: nat :| t <= now && keys[i].cooldownUntil == t + BackoffWithJitter(step, t);
        WindowBand(step, t);
      }
    }
  }
}
