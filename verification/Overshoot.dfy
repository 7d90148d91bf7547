/** The overshoot bound is attained, for any number of requests, and the cap is kept by itself only if
    one request at a time can be outstanding. */
module Overshoot {
  import opened Interleaving
  import opened Persistence
  import opened QuotaRace
  import opened Ratelimit
  import opened Restart
  import opened Schedules
  import opened Totals
  import Cyclic
  import Proxy

  /** Key `k` would take `req` at `now`, but for tokens and for quota. */
  ghost predicate Open(s: State, k: nat, now: nat) {
    k < |s.keys| == |s.tallies| && s.keys[k].enabled && !s.keys[k].InCooldown(now)
  }

  /** From `s` to `s'`, job `t` moved to `job`, no other job moved, and key `k` gained `charged` credits this month. */
  ghost predicate Moved(s: State, s': State, k: nat, now: nat, t: nat, job: Job, charged: nat) {
    && Open(s, k, now) && Open(s', k, now)
    && |s'.keys| == |s.keys|
    && t < |s.jobs| && s'.jobs == s.jobs[t := job]
    && s'.keys[k].cap == s.keys[k].cap && s'.keys[k].used == s.keys[k].used + charged
  }

  /** The run from `s` over `evs` and then `more` moves as its two parts do. */
  lemma MovedOn(setup: Setup, s: State, evs: seq<Event>, more: seq<Event>, k: nat, now: nat, t: nat, mid: Job, job: Job,
        charged: nat, also: nat, retries: nat)
    requires Moved(s, Run(setup, s, evs, retries), k, now, t, mid, charged)
    requires Moved(Run(setup, s, evs, retries), Run(setup, Run(setup, s, evs, retries), more, retries), k, now, t, job,
                   also)
    ensures Moved(s, Run(setup, s, evs + more, retries), k, now, t, job, charged + also)
  {
    RunConcat(setup, s, evs, more, retries);
    assert s.jobs[t := mid][t := job] == s.jobs[t := job];
  }

  // ---------------------------------------------------------------------- one job

  lemma TakesTicket(setup: Setup, s: State, t: nat, req: Proxy.Request, now: nat, retries: nat)
    returns (evs: seq<Event>)
    requires |s.keys| == |s.tallies| && t < |s.jobs| && s.jobs[t].Idle? && retries > 0
    ensures Run(setup, s, evs, retries) == At(s, t, Scanning(Quest(req, []), now, s.cursor, 0)).(cursor := s.cursor + 1)
  {
    var s1, s2;
    assert Run(setup, s, [], retries) == s;
    evs, s1 := Then(setup, s, [], Work(t, Arrive(req)), retries);
    evs, s2 := Then(setup, s, evs, Work(t, TakeTicket(now)), retries);
  }

  /** A request that is given up, or dropped on its first key, uses up one ticket and charges nobody. */
  lemma WastesTicket(setup: Setup, s: State, t: nat, k: nat, req: Proxy.Request, now: nat, retries: nat)
    returns (evs: seq<Event>)
    requires Open(s, k, now) && t < |s.jobs| && s.jobs[t].Idle? && retries > 0
    ensures Moved(s, Run(setup, s, evs, retries), k, now, t, Idle, 0)
    ensures Run(setup, s, evs, retries).cursor == s.cursor + 1
  {
    evs := TakesTicket(setup, s, t, req, now, retries);
    var s1 := Run(setup, s, evs, retries);
    var scan := ScanAloneIsSelection(setup, s1, t, Quest(req, []), now, s.cursor, 0, retries);
    RunConcat(setup, s, evs, scan, retries);
    evs := evs + scan;
    var s2, s3 := Run(setup, s, evs, retries), s;
    if s2.jobs[t].Scanning? {
      evs, s3 := Then(setup, s, evs, Work(t, GiveUp), retries);
    } else {
      evs, s3 := ThenWork(setup, s, evs, t, Reply(Proxy.Dropped), retries);
    }
  }

  lemma {:induction false} WastesTickets(setup: Setup, s: State, t: nat, k: nat, req: Proxy.Request, now: nat, d: nat,
        retries: nat)
    returns (evs: seq<Event>)
    requires Open(s, k, now) && t < |s.jobs| && s.jobs[t].Idle? && retries > 0
    ensures Moved(s, Run(setup, s, evs, retries), k, now, t, Idle, 0)
    ensures Run(setup, s, evs, retries).cursor == s.cursor + d
  {
    evs := [];
    assert Run(setup, s, [], retries) == s;
    if d > 0 {
      evs := WastesTickets(setup, s, t, k, req, now, d - 1, retries);
      var more := WastesTicket(setup, Run(setup, s, evs, retries), t, k, req, now, retries);
      MovedOn(setup, s, evs, more, k, now, t, Idle, Idle, 0, 0, retries);
      RunConcat(setup, s, evs, more, retries);
      evs := evs + more;
    }
  }

  /** A job that has read the quota of `k` for `req` and found room. */
  ghost predicate Holds(job: Job, k: nat, req: Proxy.Request, now: nat) {
    job.Vetted? && job.key == k && job.quest.req == req && job.now == now
  }

  lemma ReadsQuota(setup: Setup, s: State, t: nat, k: nat, req: Proxy.Request, now: nat, retries: nat)
    returns (evs: seq<Event>, job: Job)
    requires Open(s, k, now) && t < |s.jobs| && s.jobs[t].Idle? && retries > 0
    requires Cyclic.Slot(s.cursor, 0, |s.keys|) == k && s.keys[k].HasQuotaFor(req.est)
    ensures Moved(s, Run(setup, s, evs, retries), k, now, t, job, 0) && Holds(job, k, req, now)
  {
    evs := TakesTicket(setup, s, t, req, now, retries);
    var s1 := Run(setup, s, evs, retries);
    ReadsOne(setup, s1, t, Quest(req, []), now, s.cursor, 0, k, retries);
    RunConcat(setup, s, evs, [Work(t, ReadQuota)], retries);
    evs := evs + [Work(t, ReadQuota)];
    job := Vetted(Quest(req, []), now, s.cursor, 0, k);
  }

  /** An idle job can get as far as holding a reading of the quota of `k`, wherever the rotor stands. */
  lemma Reserves(setup: Setup, s: State, t: nat, k: nat, req: Proxy.Request, now: nat, retries: nat)
    returns (evs: seq<Event>, job: Job)
    requires Open(s, k, now) && t < |s.jobs| && s.jobs[t].Idle? && retries > 0 && s.keys[k].HasQuotaFor(req.est)
    ensures Moved(s, Run(setup, s, evs, retries), k, now, t, job, 0) && Holds(job, k, req, now)
  {
    var d := Cyclic.OffsetOf(s.cursor, k, |s.keys|);
    evs := WastesTickets(setup, s, t, k, req, now, d, retries);
    var more;
    more, job := ReadsQuota(setup, Run(setup, s, evs, retries), t, k, req, now, retries);
    MovedOn(setup, s, evs, more, k, now, t, Idle, job, 0, 0, retries);
    evs := evs + more;
  }

  lemma GetsToken(setup: Setup, s: State, t: nat, k: nat, req: Proxy.Request, now: nat, retries: nat)
    returns (evs: seq<Event>, job: Job)
    requires Open(s, k, now) && t < |s.jobs| && Holds(s.jobs[t], k, req, now)
    ensures Moved(s, Run(setup, s, evs, retries), k, now, t, job, 0)
    ensures job.Forwarding? && job.key == k && job.quest.req == req
  {
    var s1, s2;
    assert Run(setup, s, [], retries) == s;
    evs, s1 := Then(setup, s, [], Drip(k, req.kind, 1), retries);
    evs, s2 := ThenWork(setup, s, evs, t, Admit, retries);
    job := s2.jobs[t];
  }

  lemma IsCharged(setup: Setup, s: State, t: nat, k: nat, now: nat, retries: nat) returns (evs: seq<Event>)
    requires Open(s, k, now) && t < |s.jobs| && s.jobs[t].Forwarding? && s.jobs[t].key == k
    ensures Moved(s, Run(setup, s, evs, retries), k, now, t, Idle, s.jobs[t].quest.req.est)
  {
    var s1, s2, s3;
    assert Run(setup, s, [], retries) == s;
    evs, s1 := ThenWork(setup, s, [], t, Reply(Proxy.Serviced), retries);
    evs, s2 := ThenWork(setup, s, evs, t, AddTotal, retries);
    evs, s3 := ThenWork(setup, s, evs, t, AddUsed, retries);
  }

  /** A job that holds a reading is served and charged, whatever has been charged since. */
  lemma IsServed(setup: Setup, s: State, t: nat, k: nat, req: Proxy.Request, now: nat, retries: nat)
    returns (evs: seq<Event>)
    requires Open(s, k, now) && t < |s.jobs| && Holds(s.jobs[t], k, req, now)
    ensures Moved(s, Run(setup, s, evs, retries), k, now, t, Idle, req.est)
  {
    var job;
    evs, job := GetsToken(setup, s, t, k, req, now, retries);
    var more := IsCharged(setup, Run(setup, s, evs, retries), t, k, now, retries);
    MovedOn(setup, s, evs, more, k, now, t, job, Idle, 0, req.est, retries);
    evs := evs + more;
  }

  // ---------------------------------------------------------------------- many jobs

  /** The first `m` jobs hold a reading. */
  ghost predicate Held(s: State, m: nat, k: nat, req: Proxy.Request, now: nat) {
    && m <= |s.jobs|
    && (forall t :: 0 <= t < m ==> Holds(s.jobs[t], k, req, now))
    && (forall t :: m <= t < |s.jobs| ==> s.jobs[t].Idle?)
  }

  lemma {:induction false} AllReserve(setup: Setup, s: State, m: nat, k: nat, req: Proxy.Request, now: nat,
        retries: nat)
    returns (evs: seq<Event>)
    requires Open(s, k, now) && s.keys[k].HasQuotaFor(req.est) && retries > 0
    requires Held(s, 0, k, req, now) && m <= |s.jobs|
    ensures var s' := Run(setup, s, evs, retries);
            && Open(s', k, now) && Held(s', m, k, req, now) && |s'.jobs| == |s.jobs|
            && s'.keys[k].used == s.keys[k].used && s'.keys[k].cap == s.keys[k].cap
  {
    evs := [];
    assert Run(setup, s, [], retries) == s;
    if m > 0 {
      evs := AllReserve(setup, s, m - 1, k, req, now, retries);
      var more, job := Reserves(setup, Run(setup, s, evs, retries), m - 1, k, req, now, retries);
      RunConcat(setup, s, evs, more, retries);
      evs := evs + more;
    }
  }

  lemma OneMore(m: nat, est: nat)
    requires m > 0
    ensures m * est == est + (m - 1) * est
  {
  }

  function Times(m: nat, est: nat): nat {
    if m == 0 then 0 else est + Times(m - 1, est)
  }

  lemma {:induction false} TimesIsProduct(m: nat, est: nat)
    ensures Times(m, est) == m * est
  {
    if m > 0 {
      TimesIsProduct(m - 1, est);
      OneMore(m, est);
    }
  }

  lemma {:induction false} AllAreServed(setup: Setup, s: State, m: nat, k: nat, req: Proxy.Request, now: nat,
        retries: nat)
    returns (evs: seq<Event>)
    requires Open(s, k, now) && Held(s, m, k, req, now)
    ensures var s' := Run(setup, s, evs, retries);
            && k < |s'.keys| && s'.keys[k].used == s.keys[k].used + Times(m, req.est)
    decreases m
  {
    evs := [];
    assert Run(setup, s, [], retries) == s;
    if m > 0 {
      evs := IsServed(setup, s, m - 1, k, req, now, retries);
      var more := AllAreServed(setup, Run(setup, s, evs, retries), m - 1, k, req, now, retries);
      RunConcat(setup, s, evs, more, retries);
      evs := evs + more;
    }
  }

  /** The bound is attained for every number of requests, whatever the pool and wherever the rotor stands: a request
      for which the key has room is charged as often as there are jobs that read the quota before the first charge;
      if it fills the key, that is `most - 1` times too often. */
  lemma OvershootIsAttained(setup: Setup, s: State, most: nat, k: nat, req: Proxy.Request, now: nat, retries: nat)
    returns (evs: seq<Event>)
    requires Open(s, k, now) && s.keys[k].HasQuotaFor(req.est) && retries > 0
    requires 0 < most <= |s.jobs| && forall job <- s.jobs :: job.Idle?
    ensures var s' := Run(setup, s, evs, retries);
            && k < |s'.keys| && s'.keys[k].used == s.keys[k].used + most * req.est
            && (s.keys[k].used + req.est == s.keys[k].cap ==>
                  s'.keys[k].used == s.keys[k].cap + (most - 1) * req.est)
  {
    evs := AllReserve(setup, s, most, k, req, now, retries);
    TimesIsProduct(most, req.est);
    var more := AllAreServed(setup, Run(setup, s, evs, retries), most, k, req, now, retries);
    RunConcat(setup, s, evs, more, retries);
    evs := evs + more;
    OneMore(most, req.est);
  }

  /** Half of 2^64, a cost like any other. */
  const HALF: u64 := 0x8000_0000_0000_0000

  lemma {:induction false} ServedOneByOne(setup: Setup, s: State, t: nat, k: nat, req: Proxy.Request, now: nat, m: nat,
        retries: nat)
    returns (evs: seq<Event>)
    requires Open(s, k, now) && s.keys[k].cap == U64_MAX && retries > 0 && t < |s.jobs| && s.jobs[t].Idle?
    ensures Moved(s, Run(setup, s, evs, retries), k, now, t, Idle, Times(m, req.est))
    decreases m
  {
    evs := [];
    assert Run(setup, s, [], retries) == s;
    if m > 0 {
      evs := ServedOneByOne(setup, s, t, k, req, now, m - 1, retries);
      var more := ServedOnce(setup, Run(setup, s, evs, retries), t, k, req, now, retries);
      MovedOn(setup, s, evs, more, k, now, t, Idle, Idle, Times(m - 1, req.est), req.est, retries);
      evs := evs + more;
    }
  }

  lemma ServedOnce(setup: Setup, s: State, t: nat, k: nat, req: Proxy.Request, now: nat, retries: nat)
    returns (evs: seq<Event>)
    requires Open(s, k, now) && t < |s.jobs| && s.jobs[t].Idle? && retries > 0 && s.keys[k].HasQuotaFor(req.est)
    ensures Moved(s, Run(setup, s, evs, retries), k, now, t, Idle, req.est)
  {
    var job;
    evs, job := Reserves(setup, s, t, k, req, now, retries);
    var more := IsServed(setup, Run(setup, s, evs, retries), t, k, req, now, retries);
    MovedOn(setup, s, evs, more, k, now, t, job, Idle, 0, req.est, retries);
    evs := evs + more;
  }

  /** The largest cap bounds nothing: it is never refused, so one job that comes back often enough exceeds any limit. */
  lemma LargestCapBoundsNothing(setup: Setup, s: State, t: nat, k: nat, now: nat, limit: nat, retries: nat)
    returns (evs: seq<Event>)
    requires Open(s, k, now) && s.keys[k].cap == U64_MAX && retries > 0 && t < |s.jobs| && s.jobs[t].Idle?
    ensures var s' := Run(setup, s, evs, retries); k < |s'.keys| && s'.keys[k].used > limit
  {
    var m := limit / HALF + 1;
    evs := ServedOneByOne(setup, s, t, k, Proxy.Request(StandardRpc, HALF, []), now, m, retries);
    TimesIsProduct(m, HALF);
    assert m * HALF > limit;
  }

  // ---------------------------------------------------------------------- when the cap is kept

  lemma {:induction false} CountsFitJobs(jobs: seq<Job>, k: nat)
    ensures Total(jobs, CountOn(k)) <= |jobs|
  {
    if jobs != [] {
      CountsFitJobs(jobs[..|jobs| - 1], k);
    }
  }

  lemma JobsStay(setup: Setup, s: State, ev: Event, retries: nat)
    requires Enabled(s, ev, retries)
    ensures |Next(setup, s, ev, retries).jobs| == |s.jobs|
  {
  }

  /** There are never more outstanding than jobs, and no cost exceeds 64 bits. */
  lemma {:induction false} JobsAreWithin(setup: Setup, s: State, evs: seq<Event>, retries: nat, k: nat)
    ensures |Run(setup, s, evs, retries).jobs| == |s.jobs|
    ensures AlwaysWithin(setup, s, evs, retries, k, |s.jobs|, U64_MAX)
  {
    if evs != [] {
      var n := |evs| - 1;
      JobsAreWithin(setup, s, evs[..n], retries, k);
      var before := Run(setup, s, evs[..n], retries);
      if Enabled(before, evs[n], retries) {
        JobsStay(setup, before, evs[n], retries);
      }
    }
    CountsFitJobs(Run(setup, s, evs, retries).jobs, k);
  }

  /** Whatever happens, the month's usage of the key stays within its cap. */
  ghost predicate KeepsCap(setup: Setup, s: State, k: nat, retries: nat) {
    forall evs: seq<Event> :: var s' := Run(setup, s, evs, retries);
                              k < |s'.keys| && s'.keys[k].used <= s'.keys[k].cap
  }

  lemma FreshKeyIsOpen(setup: Setup, jobs: nat, month: nat, day: nat, k: nat)
    requires ValidSetup(setup) && k < |setup.cfgs| && setup.cfgs[k].enabled
    ensures var s := Booted(setup, Absent, jobs, month, day);
            && Open(s, k, 0) && s.keys[k].used == 0 && s.keys[k].cap == setup.cfgs[k].creditCap
            && |s.jobs| == jobs && forall job <- s.jobs :: job.Idle?
  {
    BootShape(setup, Absent, month, day);
  }

  lemma OneJobKeepsCap(setup: Setup, month: nat, day: nat, k: nat, evs: seq<Event>, retries: nat)
    requires ValidSetup(setup) && month > 0 && k < |setup.cfgs| && setup.cfgs[k].creditCap < U64_MAX
    ensures var s' := Run(setup, Booted(setup, Absent, 1, month, day), evs, retries);
            k < |s'.keys| && s'.keys[k].used <= s'.keys[k].cap
  {
    var start := Booted(setup, Absent, 1, month, day);
    JobsAreWithin(setup, start, evs, retries, k);
    OvershootIsBounded(setup, Absent, 1, month, day, evs, retries, k, 1, U64_MAX);
    BootedShape(setup, Absent, 1, month, day);
    RunKeepsShape(setup, start, evs, retries);
  }

  lemma TwoJobsBreakCap(setup: Setup, jobs: nat, month: nat, day: nat, k: nat, retries: nat)
    requires ValidSetup(setup) && month > 0 && k < |setup.cfgs| && setup.cfgs[k].enabled && retries > 0 && jobs > 1
    requires setup.cfgs[k].creditCap > 0
    ensures !KeepsCap(setup, Booted(setup, Absent, jobs, month, day), k, retries)
  {
    var start := Booted(setup, Absent, jobs, month, day);
    FreshKeyIsOpen(setup, jobs, month, day, k);
    var req := Proxy.Request(StandardRpc, setup.cfgs[k].creditCap, []);
    var evs := OvershootIsAttained(setup, start, 2, k, req, 0, retries);
    BootedShape(setup, Absent, jobs, month, day);
    RunKeepsShape(setup, start, evs, retries);
    assert Run(setup, start, evs, retries).keys[k].cap == setup.cfgs[k].creditCap;
  }

  lemma LargestCapIsBroken(setup: Setup, jobs: nat, month: nat, day: nat, k: nat, retries: nat)
    requires ValidSetup(setup) && month > 0 && k < |setup.cfgs| && setup.cfgs[k].enabled && retries > 0 && jobs > 0
    requires setup.cfgs[k].creditCap == U64_MAX
    ensures !KeepsCap(setup, Booted(setup, Absent, jobs, month, day), k, retries)
  {
    var start := Booted(setup, Absent, jobs, month, day);
    FreshKeyIsOpen(setup, jobs, month, day, k);
    assert start.jobs[0] in start.jobs;
    var evs := LargestCapBoundsNothing(setup, start, 0, k, 0, U64_MAX, retries);
    BootedShape(setup, Absent, jobs, month, day);
    RunKeepsShape(setup, start, evs, retries);
    assert Run(setup, start, evs, retries).keys[k].cap == setup.cfgs[k].creditCap;
  }

  /** On a fresh deployment of any pool, an enabled key's cap holds in every run if and only if one job runs at a time
      and the cap is not the largest number, which the saturating check never refuses. */
  lemma CapIsKeptIffOneJob(setup: Setup, jobs: nat, month: nat, day: nat, k: nat, retries: nat)
    requires ValidSetup(setup) && month > 0 && k < |setup.cfgs| && retries > 0 && jobs > 0
    requires setup.cfgs[k].enabled && setup.cfgs[k].creditCap > 0
    ensures KeepsCap(setup, Booted(setup, Absent, jobs, month, day), k, retries) <==>
            jobs == 1 && setup.cfgs[k].creditCap < U64_MAX
  {
    if jobs > 1 {
      TwoJobsBreakCap(setup, jobs, month, day, k, retries);
    } else if setup.cfgs[k].creditCap == U64_MAX {
      LargestCapIsBroken(setup, jobs, month, day, k, retries);
    } else {
      forall evs: seq<Event>
        ensures var s' := Run(setup, Booted(setup, Absent, jobs, month, day), evs, retries);
                k < |s'.keys| && s'.keys[k].used <= s'.keys[k].cap
      {
        OneJobKeepsCap(setup, month, day, k, evs, retries);
      }
    }
  }

  /** The month's usage of the key never exceeds `limit`. */
  ghost predicate KeepsLimit(setup: Setup, s: State, k: nat, limit: nat, retries: nat) {
    forall evs: seq<Event> :: var s' := Run(setup, s, evs, retries); k < |s'.keys| && s'.keys[k].used <= limit
  }

  /** For a fresh deployment with any number of jobs: usage has a limit at all if and only if the cap is not the largest
      number; the limit is then the cap and one cost for each job but one. */
  lemma UsageIsLimitedIff(setup: Setup, jobs: nat, month: nat, day: nat, k: nat, retries: nat)
    requires ValidSetup(setup) && month > 0 && k < |setup.cfgs| && setup.cfgs[k].enabled && retries > 0 && jobs > 0
    ensures (exists limit :: KeepsLimit(setup, Booted(setup, Absent, jobs, month, day), k, limit, retries)) <==>
            setup.cfgs[k].creditCap < U64_MAX
  {
    var start := Booted(setup, Absent, jobs, month, day);
    FreshKeyIsOpen(setup, jobs, month, day, k);
    assert start.jobs[0] in start.jobs;
    if setup.cfgs[k].creditCap < U64_MAX {
      var limit := Limit(setup, k, jobs, U64_MAX);
      forall evs: seq<Event>
        ensures var s' := Run(setup, start, evs, retries); k < |s'.keys| && s'.keys[k].used <= limit
      {
        JobsAreWithin(setup, start, evs, retries, k);
        OvershootIsBounded(setup, Absent, jobs, month, day, evs, retries, k, jobs, U64_MAX);
      }
      assert KeepsLimit(setup, start, k, limit, retries);
    } else {
      forall limit: nat ensures !KeepsLimit(setup, start, k, limit, retries) {
        var evs := LargestCapBoundsNothing(setup, start, 0, k, 0, limit, retries);
      }
    }
  }
}
