/** The backoff step under interleaving, where a rate limit takes the step, stores the cooldown and
    is counted in three accesses. */
module BackoffRace {
  import opened Interleaving
  import opened Ratelimit
  import opened Restart
  import opened Totals
  import opened Upstreams
  import Proxy

  /** A rate limit of `k` whose step is taken, but which is not counted yet. */
  function UncountedOn(k: nat): Job -> nat {
    (job: Job) => if (job.Tripping? || job.Recording?) && job.key == k then 1 else 0
  }

  /** The access that resets the step of `k`. */
  predicate Serves(s: State, ev: Event, k: nat) {
    && ev.Work? && ev.job < |s.jobs|
    && ev.move == Reply(Proxy.Serviced) && s.jobs[ev.job].Forwarding? && s.jobs[ev.job].key == k
  }

  /** Over the run nothing is serviced on `k`, and nothing crashes. */
  ghost predicate NeverServed(setup: Setup, s: State, evs: seq<Event>, retries: nat, k: nat) {
    evs != [] ==>
      var n := |evs| - 1;
      && NeverServed(setup, s, evs[..n], retries, k)
      && !evs[n].Crash? && !Serves(Run(setup, s, evs[..n], retries), evs[n], k)
  }

  /** Steps taken less rate limits counted, or in the course of it. */
  function Imbalance(s: State, k: nat): int
    requires k < |s.keys|
  {
    s.keys[k].backoffStep - s.keys[k].limited - Total(s.jobs, UncountedOn(k))
  }

  lemma MoveKeepsStep(job: Job, move: Move, key: Key, k: nat, n: nat)
    requires Can(job, move, n) && !Plans(move)
    ensures var j := Touched(job, move, n);
            var key', job' := KeyAfter(job, move, key, n), JobAfter(job, move, j, key, n);
            && (j != k ==> UncountedOn(k)(job') == UncountedOn(k)(job))
            && (j == k && !(move == Reply(Proxy.Serviced)) ==>
                  key'.backoffStep - key.backoffStep
                  == key'.limited - key.limited + UncountedOn(k)(job') - UncountedOn(k)(job))
            && (j == k && move == Reply(Proxy.Serviced) ==>
                  key'.backoffStep == 0 && UncountedOn(k)(job') == UncountedOn(k)(job) == 0)
  {
  }

  lemma WorkKeepsStep(s: State, t: nat, move: Move, k: nat)
    requires k < |s.keys| == |s.tallies| && t < |s.jobs| && Can(s.jobs[t], move, |s.keys|)
    requires !Serves(s, Work(t, move), k)
    ensures k < |WorkNext(s, t, move).keys| && Imbalance(WorkNext(s, t, move), k) == Imbalance(s, k)
  {
    TotalUpdate(s.jobs, t, WorkNext(s, t, move).jobs[t], UncountedOn(k));
    if !Plans(move) {
      MoveKeepsStep(s.jobs[t], move, s.keys[Touched(s.jobs[t], move, |s.keys|)], k, |s.keys|);
    }
  }

  lemma EventKeepsStep(setup: Setup, s: State, ev: Event, retries: nat, k: nat)
    requires k < |s.keys| && Enabled(s, ev, retries) && !ev.Crash? && !Serves(s, ev, k)
    ensures var s' := Next(setup, s, ev, retries);
            && k < |s'.keys| == |s'.tallies| && Imbalance(s', k) == Imbalance(s, k)
  {
    match ev
    case Work(t, move) => WorkKeepsStep(s, t, move, k);
    case Roll(step) => RollKeepsTheRest(s, step);
    case Day(step) => DayKeepsTheRest(setup, s, step);
    case Save(step) => SaveKeepsTheRest(s, step);
    case _ =>
  }

  /** While nothing is serviced on a key, its step grows by exactly the rate-limited replies, of requests and pings:
      those counted, and those about to be. */
  lemma {:induction false} StepCountsRateLimits(setup: Setup, s: State, evs: seq<Event>, retries: nat, k: nat)
    requires k < |s.keys| == |s.tallies| && NeverServed(setup, s, evs, retries, k)
    ensures var s' := Run(setup, s, evs, retries);
            && k < |s'.keys| == |s'.tallies|
            && s'.keys[k].backoffStep - s.keys[k].backoffStep
               == s'.keys[k].limited - s.keys[k].limited
                  + Total(s'.jobs, UncountedOn(k)) - Total(s.jobs, UncountedOn(k))
  {
    if evs != [] {
      var n := |evs| - 1;
      StepCountsRateLimits(setup, s, evs[..n], retries, k);
      var before := Run(setup, s, evs[..n], retries);
      if Enabled(before, evs[n], retries) {
        EventKeepsStep(setup, before, evs[n], retries, k);
      }
    }
  }

  /** So from a serviced reply on, until the next one or a crash, the step is the number of rate-limited replies since,
      however many jobs they came from and wherever those stand. */
  lemma StepCountsSinceService(setup: Setup, s: State, t: nat, evs: seq<Event>, retries: nat, k: nat)
    requires k < |s.keys| == |s.tallies| && Enabled(s, Work(t, Reply(Proxy.Serviced)), retries)
    requires s.jobs[t].key == k
    requires NeverServed(setup, Next(setup, s, Work(t, Reply(Proxy.Serviced)), retries), evs, retries, k)
    ensures var s' := Run(setup, Next(setup, s, Work(t, Reply(Proxy.Serviced)), retries), evs, retries);
            && k < |s'.keys|
            && s'.keys[k].backoffStep == s'.keys[k].limited - s.keys[k].limited
                                         + Total(s'.jobs, UncountedOn(k)) - Total(s.jobs, UncountedOn(k))
  {
    var start := Next(setup, s, Work(t, Reply(Proxy.Serviced)), retries);
    TotalUpdate(s.jobs, t, start.jobs[t], UncountedOn(k));
    MoveKeepsStep(s.jobs[t], Reply(Proxy.Serviced), s.keys[k], k, |s.keys|);
    StepCountsRateLimits(setup, start, evs, retries, k);
  }

  // ---------------------------------------------------------------------- the window of a rate limit

  /** What the other jobs, the rollers and the writer do leaves a job where it stands. */
  predicate LeavesAlone(ev: Event, t: nat) {
    !ev.Crash? && !(ev.Work? && ev.job == t)
  }

  lemma EventLeavesJob(setup: Setup, s: State, ev: Event, retries: nat, t: nat)
    requires t < |s.jobs| && Enabled(s, ev, retries) && LeavesAlone(ev, t)
    ensures var s' := Next(setup, s, ev, retries);
            t < |s'.jobs| && s'.jobs[t] == s.jobs[t] && |s'.keys| == |s.keys| && |s'.tallies| == |s.tallies|
  {
    match ev
    case Roll(step) => RollKeepsTheRest(s, step);
    case Day(step) => DayKeepsTheRest(setup, s, step);
    case Save(step) => SaveKeepsTheRest(s, step);
    case _ =>
  }

  lemma {:induction false} RunLeavesJob(setup: Setup, s: State, evs: seq<Event>, retries: nat, t: nat)
    requires t < |s.jobs| && forall ev <- evs :: LeavesAlone(ev, t)
    ensures var s' := Run(setup, s, evs, retries);
            t < |s'.jobs| && s'.jobs[t] == s.jobs[t] && |s'.keys| == |s.keys| && |s'.tallies| == |s.tallies|
  {
    if evs != [] {
      var n := |evs| - 1;
      RunLeavesJob(setup, s, evs[..n], retries, t);
      assert LeavesAlone(evs[n], t);
      var before := Run(setup, s, evs[..n], retries);
      if Enabled(before, evs[n], retries) {
        EventLeavesJob(setup, before, evs[n], retries, t);
      }
    }
  }

  /** Whatever comes between the reply that is a rate limit and the store of the cooldown, other rate limits of the same
      key included: the cooldown is the window of the step found at the reply, from the reading taken before the
      request was forwarded. */
  lemma CooldownIsOfItsReply(setup: Setup, s: State, t: nat, evs: seq<Event>, retries: nat)
    requires Enabled(s, Work(t, Reply(Proxy.RateLimited)), retries) && forall ev <- evs :: LeavesAlone(ev, t)
    ensures var k, step, now := s.jobs[t].key, s.keys[s.jobs[t].key].backoffStep, s.jobs[t].now;
            var replied := Next(setup, s, Work(t, Reply(Proxy.RateLimited)), retries);
            var later := Run(setup, replied, evs, retries);
            && replied.keys[k].backoffStep == step + 1 && replied.keys[k].cooldownUntil == s.keys[k].cooldownUntil
            && Enabled(later, Work(t, StoreCooldown), retries)
            && var tripped := Next(setup, later, Work(t, StoreCooldown), retries);
            && k < |tripped.keys|
            && tripped.keys[k].cooldownUntil - now ==
               if step == 0 then 750 + now % 500
               else if step == 1 then 1500 + now % 1000
               else if step == 2 then 3000 + now % 2000
               else if step == 3 then 6000 + now % 4000
               else if step == 4 then 12_000 + now % 8000
               else 22_500 + now % 15_000
  {
    ExactWindow(s.keys[s.jobs[t].key].backoffStep, s.jobs[t].now);
    RunLeavesJob(setup, Next(setup, s, Work(t, Reply(Proxy.RateLimited)), retries), evs, retries, t);
  }
}
