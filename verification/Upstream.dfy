/** One upstream key, and the pool that selects among keys.

    `Key` is the value of a key's fields between two operations; the functions on it say what
    each operation does to those fields.  `Upstream` and `Pool` are the objects that hold the
    fields, and each of their methods is proved to take `View()` where the function says. */
module Upstreams {
  import opened Cyclic
  import opened Ratelimit
  import opened Wrappers

  datatype UpstreamConfig = UpstreamConfig(name: string, creditCap: u64, enabled: bool)

  datatype Key = Key(
    name: string,
    cap: u64,
    used: nat,
    epoch: nat,
    cooldownUntil: nat,
    backoffStep: nat,
    inFlight: nat,
    enabled: bool,
    total: nat,
    ok: nat,
    limited: nat,
    errors: nat,
    hits: nat,
    dayStart: nat,
    tokens: Limiters)
  {
    predicate HasQuotaFor(cost: nat) {
      SaturatingAdd(used, cost) <= cap
    }

    function Remaining(): nat {
      SaturatingSub(cap, used)
    }

    function DailyUsed(): nat {
      SaturatingSub(total, dayStart)
    }

    predicate InCooldown(now: nat) {
      cooldownUntil > now
    }

    function CooldownRemaining(now: nat): nat {
      SaturatingSub(cooldownUntil, now)
    }

    predicate CanAcquire(kind: MethodClass) {
      kind in tokens ==> tokens[kind] > 0
    }

    predicate Passes(kind: MethodClass, cost: nat, now: nat) {
      enabled && HasQuotaFor(cost) && !InCooldown(now) && CanAcquire(kind)
    }

    function TakeToken(kind: MethodClass): Key
      requires CanAcquire(kind)
    {
      if kind in tokens then this.(tokens := tokens[kind := tokens[kind] - 1]) else this
    }

    /** Time passing: `extra` tokens drip into the bucket of `kind`, if there is one. */
    function Refill(kind: MethodClass, extra: nat): Key {
      if kind in tokens then this.(tokens := tokens[kind := tokens[kind] + extra]) else this
    }

    function AddCredits(cost: nat): Key {
      this.(total := total + cost, used := used + cost)
    }

    function TripCooldown(now: nat): Key {
      this.(backoffStep := backoffStep + 1, cooldownUntil := now + BackoffWithJitter(backoffStep, now))
    }

    function NoteSuccess(): Key {
      this.(backoffStep := 0)
    }

    function RecordOk(): Key {
      this.(ok := ok + 1)
    }

    function RecordRateLimited(): Key {
      this.(limited := limited + 1, hits := hits + 1)
    }

    function RecordError(): Key {
      this.(errors := errors + 1)
    }

    function RestoreMonthly(month: nat, credits: nat): Key {
      this.(epoch := month, used := credits)
    }

    function StartNewDay(): Key {
      this.(dayStart := total)
    }

    /** Everything but the token buckets, which also change with the passing of time. */
    function Books(): Key {
      this.(tokens := map[])
    }
  }

  function FreshKeys(cfgs: seq<UpstreamConfig>, rps: RpsConfig): seq<Key> {
    seq(|cfgs|, i requires 0 <= i < |cfgs| => KeyFromConfig(cfgs[i], FullBuckets(rps)))
  }

  function KeyFromConfig(c: UpstreamConfig, limiters: Limiters): Key {
    Key(c.name, c.creditCap, 0, 0, 0, 0, 0, c.enabled, 0, 0, 0, 0, 0, 0, limiters)
  }

  /** A configured key has nothing on its books. */
  lemma FreshKeyIsBlank(c: UpstreamConfig, limiters: Limiters)
    ensures var k := KeyFromConfig(c, limiters);
            && k.name == c.name && k.cap == c.creditCap && k.enabled == c.enabled && k.tokens == limiters
            && k.used == k.total == k.ok == k.limited == k.errors == k.hits == k.dayStart == 0
            && k.epoch == k.cooldownUntil == k.backoffStep == k.inFlight == 0
  {
  }

  /** A rate limit puts the key out of service until a window after the given reading, whatever its cooldown was: three
      quarters of a second and up to half a second more at step 0, and more at each further step. */
  lemma TripIsExact(k: Key, now: nat)
    ensures var k' := k.TripCooldown(now);
            && k' == k.(cooldownUntil := k'.cooldownUntil, backoffStep := k.backoffStep + 1)
            && k'.cooldownUntil - now ==
               if k.backoffStep == 0 then 750 + now % 500
               else if k.backoffStep == 1 then 1500 + now % 1000
               else if k.backoffStep == 2 then 3000 + now % 2000
               else if k.backoffStep == 3 then 6000 + now % 4000
               else if k.backoffStep == 4 then 12_000 + now % 8000
               else 22_500 + now % 15_000
  {
    ExactWindow(k.backoffStep, now);
  }

  /** The saturating check is the exact cap check, except that a cap of `u64::MAX` never refuses. */
  lemma QuotaCheckIsExact(k: Key, cost: nat)
    ensures k.HasQuotaFor(cost) <==> k.used + cost <= k.cap || k.cap == U64_MAX
  {
  }

  class Upstream {
    const name: string
    const creditCap: u64
    var creditsUsed: nat
    var epochYyyymm: nat
    var cooldownUntil: nat
    var backoffStep: nat
    var inFlight: nat
    var enabled: bool
    var creditsTotal: nat
    var requestsOk: nat
    var requestsRateLimited: nat
    var requestsError: nat
    var rateLimitHits: nat
    var dayStartTotal: nat
    var limiters: Limiters

    function View(): Key
      reads this
    {
      Key(name, creditCap, creditsUsed, epochYyyymm, cooldownUntil, backoffStep, inFlight, enabled, creditsTotal,
          requestsOk, requestsRateLimited, requestsError, rateLimitHits, dayStartTotal, limiters)
    }

    constructor FromConfig(c: UpstreamConfig, rps: RpsConfig)
      ensures View() == KeyFromConfig(c, FullBuckets(rps))
    {
      var buckets := BuildLimiters(rps);
      name, creditCap, enabled, limiters := c.name, c.creditCap, c.enabled, buckets;
      creditsUsed, epochYyyymm, cooldownUntil, backoffStep, inFlight := 0, 0, 0, 0, 0;
      creditsTotal, requestsOk, requestsRateLimited, requestsError, rateLimitHits, dayStartTotal := 0, 0, 0, 0, 0, 0;
    }

    /** Consume one token for `kind`; an unlimited class always succeeds. */
    method TryAcquire(kind: MethodClass) returns (acquired: bool)
      modifies this`limiters
      ensures acquired == old(View()).CanAcquire(kind)
      ensures View() == if acquired then old(View()).TakeToken(kind) else old(View())
    {
      if kind in limiters {
        acquired := limiters[kind] > 0;
        if acquired {
          limiters := limiters[kind := limiters[kind] - 1];
        }
      } else {
        acquired := true;
      }
    }

    /** Returns the new monthly total. */
    method AddCredits(cost: nat) returns (monthly: nat)
      modifies this`creditsTotal, this`creditsUsed
      ensures View() == old(View()).AddCredits(cost) && monthly == creditsUsed
    {
      creditsTotal := creditsTotal + cost;
      monthly := creditsUsed + cost;
      creditsUsed := creditsUsed + cost;
    }

    method TripCooldown(now: nat)
      modifies this`backoffStep, this`cooldownUntil
      ensures View() == old(View()).TripCooldown(now)
    {
      var step := backoffStep;
      backoffStep := backoffStep + 1;
      var duration := BackoffWithJitter(step, now);
      cooldownUntil := now + duration;
    }

    method NoteSuccess()
      modifies this`backoffStep
      ensures View() == old(View()).NoteSuccess()
    {
      if backoffStep != 0 {
        backoffStep := 0;
      }
    }

    method RecordOk()
      modifies this`requestsOk
      ensures View() == old(View()).RecordOk()
    {
      requestsOk := requestsOk + 1;
    }

    method RecordRateLimited()
      modifies this`requestsRateLimited, this`rateLimitHits
      ensures View() == old(View()).RecordRateLimited()
    {
      requestsRateLimited := requestsRateLimited + 1;
      rateLimitHits := rateLimitHits + 1;
    }

    method RecordError()
      modifies this`requestsError
      ensures View() == old(View()).RecordError()
    {
      requestsError := requestsError + 1;
    }

    method RestoreMonthly(month: nat, credits: nat)
      modifies this`epochYyyymm, this`creditsUsed
      ensures View() == old(View()).RestoreMonthly(month, credits)
    {
      epochYyyymm := month;
      creditsUsed := credits;
    }

    method RestoreLifetime(total: nat, ok: nat, limited: nat, errors: nat, hits: nat)
      modifies this`creditsTotal, this`requestsOk, this`requestsRateLimited, this`requestsError, this`rateLimitHits
      ensures View() == old(View()).(total := total, ok := ok, limited := limited, errors := errors, hits := hits)
    {
      creditsTotal := total;
      requestsOk := ok;
      requestsRateLimited := limited;
      requestsError := errors;
      rateLimitHits := hits;
    }

    method StartNewDay()
      modifies this`dayStartTotal
      ensures View() == old(View()).StartNewDay()
    {
      dayStartTotal := creditsTotal;
    }
  }

  // ---------------------------------------------------------------------- selection

  /** What `select` is asked for. */
  datatype Ask = Ask(kind: MethodClass, cost: nat, skip: seq<nat>, now: nat)

  predicate Eligible(keys: seq<Key>, ask: Ask, i: nat)
    requires i < |keys|
  {
    i !in ask.skip && keys[i].Passes(ask.kind, ask.cost, ask.now)
  }

  /** The first eligible key in cyclic order, looking at offsets `off`, `off + 1`, ... from `base`. */
  function FirstEligible(keys: seq<Key>, ask: Ask, base: nat, off: nat): (r: Option<nat>)
    requires off <= |keys|
    ensures r.Some? ==> r.value < |keys| && Eligible(keys, ask, r.value)
    decreases |keys| - off
  {
    if off == |keys| then None
    else if Eligible(keys, ask, Slot(base, off, |keys|)) then Some(Slot(base, off, |keys|))
    else FirstEligible(keys, ask, base, off + 1)
  }

  /** `select` finds a key whenever one is eligible, and no eligible key lies between the ticket and its choice. */
  lemma {:induction false} FirstEligibleIsFirst(keys: seq<Key>, ask: Ask, base: nat, off: nat)
    requires off <= |keys|
    ensures FirstEligible(keys, ask, base, off).None? <==>
            forall d :: off <= d < |keys| ==> !Eligible(keys, ask, Slot(base, d, |keys|))
    ensures FirstEligible(keys, ask, base, off).Some? ==>
              exists d :: off <= d < |keys| && FirstEligible(keys, ask, base, off).value == Slot(base, d, |keys|)
                          && forall e :: off <= e < d ==> !Eligible(keys, ask, Slot(base, e, |keys|))
    decreases |keys| - off
  {
    if off < |keys| {
      if Eligible(keys, ask, Slot(base, off, |keys|)) {
        assert FirstEligible(keys, ask, base, off).value == Slot(base, off, |keys|);
      } else {
        FirstEligibleIsFirst(keys, ask, base, off + 1);
      }
    }
  }

  /** A key that would serve the ask, said in its fields: not skipped, switched on, with room for the cost under a cap
      that can refuse, past its cooldown, and with a token left if the class is limited. */
  ghost predicate Fit(k: Key, i: nat, ask: Ask) {
    && i !in ask.skip && k.enabled
    && (k.used + ask.cost <= k.cap || k.cap == 0xFFFF_FFFF_FFFF_FFFF)
    && k.cooldownUntil <= ask.now
    && (ask.kind in k.tokens ==> k.tokens[ask.kind] >= 1)
  }

  /** What is selected is fit, and nothing is selected only if nothing is. */
  lemma SelectionIsFit(keys: seq<Key>, ask: Ask, base: nat)
    ensures var choice := FirstEligible(keys, ask, base, 0);
            && (choice.Some? ==> choice.value < |keys| && Fit(keys[choice.value], choice.value, ask))
            && (choice.None? <==> forall i :: 0 <= i < |keys| ==> !Fit(keys[i], i, ask))
  {
    if i: nat :| i < |keys| && Fit(keys[i], i, ask) {
      SomeEligibleIsFound(keys, ask, base, i);
    }
  }

  lemma SomeEligibleIsFound(keys: seq<Key>, ask: Ask, base: nat, i: nat)
    requires i < |keys| && Eligible(keys, ask, i)
    ensures FirstEligible(keys, ask, base, 0).Some?
  {
    var d := OffsetOf(base, i, |keys|);
    FirstEligibleIsFirst(keys, ask, base, 0);
  }

  function Charged(keys: seq<Key>, kind: MethodClass, choice: Option<nat>): seq<Key>
    requires choice.Some? ==> choice.value < |keys| && keys[choice.value].CanAcquire(kind)
  {
    if choice.Some? then keys[choice.value := keys[choice.value].TakeToken(kind)] else keys
  }

  /** Time passing: what drips into each key's bucket of one class. */
  function Drip(keys: seq<Key>, kind: MethodClass, extra: seq<nat>): seq<Key> {
    seq(|keys|, i requires 0 <= i < |keys| => keys[i].Refill(kind, if i < |extra| then extra[i] else 0))
  }

  class Pool {
    const upstreams: seq<Upstream>
    var cursor: nat

    ghost predicate Valid() {
      forall i, j :: 0 <= i < j < |upstreams| ==> upstreams[i] != upstreams[j]
    }

    function View(): seq<Key>
      reads upstreams
    {
      seq(|upstreams|, i requires 0 <= i < |upstreams| reads upstreams => upstreams[i].View())
    }

    constructor FromConfig(cfgs: seq<UpstreamConfig>, rps: RpsConfig)
      ensures Valid() && fresh(upstreams) && cursor == 0 && |upstreams| == |cfgs|
      ensures View() == FreshKeys(cfgs, rps)
    {
      var ups: seq<Upstream> := [];
      for i := 0 to |cfgs|
        invariant |ups| == i && fresh(ups)
        invariant forall j, k :: 0 <= j < k < i ==> ups[j] != ups[k]
        invariant forall j :: 0 <= j < i ==> ups[j].View() == KeyFromConfig(cfgs[j], FullBuckets(rps))
      {
        var up := new Upstream.FromConfig(cfgs[i], rps);
        ups := ups + [up];
      }
      upstreams, cursor := ups, 0;
    }

    /** Round-robin selection: takes a ticket, scans the keys once from there, and consumes one
        token of the key it returns. */
    method Select(kind: MethodClass, cost: nat, skip: seq<nat>, now: nat) returns (choice: Option<nat>)
      requires Valid()
      modifies this`cursor, upstreams
      ensures cursor == if |upstreams| == 0 then old(cursor) else old(cursor) + 1
      ensures choice == FirstEligible(old(View()), Ask(kind, cost, skip, now), old(cursor), 0)
      ensures View() == Charged(old(View()), kind, choice)
    {
      var n := |upstreams|;
      if n == 0 {
        return None;
      }
      ghost var keys, ask := View(), Ask(kind, cost, skip, now);
      var base := cursor;
      cursor := cursor + 1;
      for off := 0 to n
        invariant View() == keys && cursor == old(cursor) + 1
        invariant FirstEligible(keys, ask, base, 0) == FirstEligible(keys, ask, base, off)
      {
        var idx := (base + off) % n;
        var up := upstreams[idx];
        assert up.View() == keys[idx];
        if idx in skip {
          continue;
        }
        if !up.enabled || !up.View().HasQuotaFor(cost) || up.View().InCooldown(now) {
          continue;
        }
        var acquired := up.TryAcquire(kind);
        if !acquired {
          assert View() == keys;
          continue;
        }
        assert View() == keys[idx := keys[idx].TakeToken(kind)];
        return Some(idx);
      }
      return None;
    }

    /** The passing of time, as far as the buckets of one class notice it. */
    method PassTime(kind: MethodClass, extra: seq<nat>)
      requires Valid()
      modifies upstreams
      ensures View() == Drip(old(View()), kind, extra)
    {
      ghost var was, after := View(), Drip(View(), kind, extra);
      for i := 0 to |upstreams|
        invariant forall j :: 0 <= j < |was| ==> upstreams[j].View() == if j < i then after[j] else was[j]
      {
        var up := upstreams[i];
        if kind in up.limiters {
          up.limiters := up.limiters[kind := up.limiters[kind] + if i < |extra| then extra[i] else 0];
        }
      }
    }
  }
}
