/** How far a key can overshoot its cap when quota is read at selection and charged after the response. */
module QuotaRace {
  import opened Interleaving
  import opened Persistence
  import opened Ratelimit
  import opened Restart
  import opened Totals
  import opened Upstreams
  import opened Wrappers

  /** The cost a job may still charge to `k`: from its reading of the quota until it charges, fails or is dropped. */
  function Outstanding(job: Job, k: nat): Option<nat> {
    match job
    case Vetted(quest, _, _, _, key) => if key == k then Some(quest.req.est) else None
    case Forwarding(quest, _, key) => if key == k then Some(quest.req.est) else None
    case Pinging(cost, _, key) => if key == k then Some(cost) else None
    case BumpTotal(cost, key) => if key == k then Some(cost) else None
    case BumpUsed(cost, key) => if key == k then Some(cost) else None
    case _ => None
  }

  function CostOn(k: nat): Job -> nat {
    (job: Job) => match Outstanding(job, k) case Some(cost) => cost case None => 0
  }

  function CountOn(k: nat): Job -> nat {
    (job: Job) => if Outstanding(job, k).Some? then 1 else 0
  }

  /** At most `most` jobs are outstanding on `k`, each costing at most `dearest` if there can be more than one. */
  ghost predicate Within(s: State, k: nat, most: nat, dearest: nat) {
    && Total(s.jobs, CountOn(k)) <= most
    && (most > 1 ==> forall t :: 0 <= t < |s.jobs| ==> CostOn(k)(s.jobs[t]) <= dearest)
  }

  ghost predicate AlwaysWithin(setup: Setup, s: State, evs: seq<Event>, retries: nat, k: nat, most: nat, dearest: nat) {
    && Within(Run(setup, s, evs, retries), k, most, dearest)
    && (evs != [] ==> AlwaysWithin(setup, s, evs[..|evs| - 1], retries, k, most, dearest))
  }

  function Limit(setup: Setup, k: nat, most: nat, dearest: nat): nat
    requires k < |setup.cfgs| && most > 0
  {
    setup.cfgs[k].creditCap + (most - 1) * dearest
  }

  /** Nothing that counts as this month's usage of `k`, in memory or on its way to or from disk, exceeds the limit. */
  ghost predicate Bounded(s: State, k: nat, limit: nat) {
    && k < |s.keys| && |s.tallies| == |s.keys|
    && s.keys[k].used + Total(s.jobs, CostOn(k)) <= limit
    && (!s.writer.Off? && k < |s.writer.draft.upstreams| ==> s.writer.draft.upstreams[k].used <= limit)
    && (s.writer.Saving? && k == |s.writer.draft.upstreams| && s.writer.part != [] ==> s.writer.part[0] <= limit)
    && (s.file.Holding? && k < |s.file.snap.upstreams| ==> s.file.snap.upstreams[k].used <= limit)
  }

  lemma {:induction false} CostsFitCounts(jobs: seq<Job>, k: nat, dearest: nat)
    requires forall t :: 0 <= t < |jobs| ==> CostOn(k)(jobs[t]) <= dearest
    ensures Total(jobs, CostOn(k)) <= Total(jobs, CountOn(k)) * dearest
  {
    if jobs != [] {
      var n := |jobs| - 1;
      CostsFitCounts(jobs[..n], k, dearest);
      assert (Total(jobs[..n], CountOn(k)) + CountOn(k)(jobs[n])) * dearest
          == Total(jobs[..n], CountOn(k)) * dearest + CountOn(k)(jobs[n]) * dearest;
    }
  }

  /** A move either newly reads the quota of `k` and finds room for its cost, or leaves usage plus outstanding
      cost no higher. */
  lemma MoveFitsQuota(job: Job, move: Move, key: Key, k: nat, n: nat)
    requires Can(job, move, n) && !Plans(move)
    ensures var j := Touched(job, move, n);
            var key', job' := KeyAfter(job, move, key, n), JobAfter(job, move, j, key, n);
            && (j != k ==> CostOn(k)(job') == CostOn(k)(job))
            && (j == k ==>
                  || key'.used + CostOn(k)(job') <= key.used + CostOn(k)(job)
                  || (key'.used == key.used && CostOn(k)(job) == 0 == CountOn(k)(job) && CountOn(k)(job') == 1
                      && key.HasQuotaFor(CostOn(k)(job'))))
  {
  }

  lemma WorkStaysBounded(setup: Setup, s: State, t: nat, move: Move, k: nat, most: nat, dearest: nat)
    requires Shape(setup, s) && k < |s.keys| && most > 0 && s.keys[k].cap < U64_MAX
    requires Bounded(s, k, Limit(setup, k, most, dearest))
    requires t < |s.jobs| && Can(s.jobs[t], move, |s.keys|)
    requires Within(WorkNext(s, t, move), k, most, dearest)
    ensures Bounded(WorkNext(s, t, move), k, Limit(setup, k, most, dearest))
  {
    var s' := WorkNext(s, t, move);
    TotalUpdate(s.jobs, t, s'.jobs[t], CostOn(k));
    if !Plans(move) {
      var j := Touched(s.jobs[t], move, |s.keys|);
      MoveFitsQuota(s.jobs[t], move, s.keys[j], k, |s.keys|);
      if j == k && s'.keys[k].used + CostOn(k)(s'.jobs[t]) > s.keys[k].used + CostOn(k)(s.jobs[t]) {
        OthersFit(s'.jobs, t, k, most, dearest);
      }
    }
  }

  /** Beside an outstanding job there is room for `most - 1` others. */
  lemma OthersFit(jobs: seq<Job>, t: nat, k: nat, most: nat, dearest: nat)
    requires t < |jobs| && most > 0 && CountOn(k)(jobs[t]) == 1
    requires Total(jobs, CountOn(k)) <= most
    requires most > 1 ==> forall t :: 0 <= t < |jobs| ==> CostOn(k)(jobs[t]) <= dearest
    ensures Total(jobs, CostOn(k)) <= CostOn(k)(jobs[t]) + (most - 1) * dearest
  {
    var others := jobs[t := Idle];
    TotalUpdate(jobs, t, Idle, CostOn(k));
    TotalUpdate(jobs, t, Idle, CountOn(k));
    forall i | 0 <= i < |others| ensures CostOn(k)(others[i]) <= dearest {
      TotalAtLeast(others, i, CountOn(k));
    }
    CostsFitCounts(others, k, dearest);
    assert Total(others, CountOn(k)) * dearest <= (most - 1) * dearest by {
      MulMonotone(Total(others, CountOn(k)), most - 1, dearest);
    }
  }

  lemma MulMonotone(a: nat, b: nat, c: nat)
    requires a <= b
    ensures a * c <= b * c
  {
    assert b * c == a * c + (b - a) * c;
  }

  lemma BootedUse(setup: Setup, file: File, month: nat, day: nat, k: nat, limit: nat)
    requires FileMatches(setup, file) && k < |setup.cfgs| && setup.cfgs[k].creditCap <= limit && ValidSetup(setup)
    requires file.Holding? ==> file.snap.upstreams[k].used <= limit
    ensures k < |Boot(setup, file, month, day).keys| && Boot(setup, file, month, day).keys[k].used <= limit
  {
    if file.Holding? {
      BootKey(setup, file, month, day, k);
    }
  }

  lemma BootedIsBounded(setup: Setup, file: File, jobs: nat, month: nat, day: nat, k: nat, limit: nat)
    requires ValidSetup(setup) && FileMatches(setup, file) && k < |setup.cfgs|
    requires setup.cfgs[k].creditCap <= limit
    requires file.Holding? ==> file.snap.upstreams[k].used <= limit
    ensures Bounded(Booted(setup, file, jobs, month, day), k, limit)
  {
    BootShape(setup, file, month, day);
    TotalZero(Booted(setup, file, jobs, month, day).jobs, CostOn(k));
    BootedUse(setup, file, month, day, k, limit);
  }

  lemma SystemStaysBounded(setup: Setup, s: State, ev: Event, retries: nat, k: nat, limit: nat)
    requires ValidSetup(setup) && Shape(setup, s) && Enabled(s, ev, retries) && (ev.Drip? || ev.Corrupt? || ev.Crash?)
    requires Bounded(s, k, limit) && setup.cfgs[k].creditCap <= limit
    ensures Bounded(SystemNext(setup, s, ev, retries), k, limit)
  {
    if ev.Crash? {
      BootedIsBounded(setup, s.file, |s.jobs|, ev.month, ev.day, k, limit);
    }
  }

  lemma RollStaysBounded(s: State, step: RollStep, k: nat, limit: nat)
    requires Bounded(s, k, limit) && CanRoll(s.roller, step, s.global.month, |s.keys|)
    ensures Bounded(RollNext(s, step), k, limit)
  {
    RollKeepsTheRest(s, step);
  }

  lemma SaveStaysBounded(s: State, step: SaveStep, k: nat, limit: nat)
    requires Bounded(s, k, limit) && CanSave(s.writer, step, |s.keys|)
    ensures Bounded(SaveNext(s, step), k, limit)
  {
    SaveKeepsTheRest(s, step);
  }

  lemma DayStaysBounded(setup: Setup, s: State, step: DayStep, k: nat, limit: nat)
    requires Bounded(s, k, limit) && CanStep(s.dayRoller, step, s.global.day, |s.keys|)
    ensures Bounded(DayNext(setup, s, step), k, limit)
  {
    DayKeepsTheRest(setup, s, step);
  }

  lemma EventStaysBounded(setup: Setup, s: State, ev: Event, retries: nat, k: nat, most: nat, dearest: nat)
    requires ValidSetup(setup) && Shape(setup, s) && Enabled(s, ev, retries) && k < |setup.cfgs| && most > 0
    requires setup.cfgs[k].creditCap < U64_MAX && Bounded(s, k, Limit(setup, k, most, dearest))
    requires Within(Next(setup, s, ev, retries), k, most, dearest)
    ensures Bounded(Next(setup, s, ev, retries), k, Limit(setup, k, most, dearest))
  {
    var limit := Limit(setup, k, most, dearest);
    if ev.Work? {
      WorkStaysBounded(setup, s, ev.job, ev.move, k, most, dearest);
    } else if ev.Roll? {
      RollStaysBounded(s, ev.roll, k, limit);
    } else if ev.Day? {
      DayStaysBounded(setup, s, ev.step, k, limit);
    } else if ev.Save? {
      SaveStaysBounded(s, ev.save, k, limit);
    } else {
      SystemStaysBounded(setup, s, ev, retries, k, limit);
    }
  }

  lemma {:induction false} RunStaysBounded(setup: Setup, file: File, jobs: nat, month: nat, day: nat,
        evs: seq<Event>, retries: nat, k: nat, most: nat, dearest: nat)
    requires ValidSetup(setup) && month > 0 && FileMatches(setup, file) && k < |setup.cfgs| && most > 0
    requires setup.cfgs[k].creditCap < U64_MAX
    requires file.Holding? ==> file.snap.upstreams[k].used <= Limit(setup, k, most, dearest)
    requires AlwaysWithin(setup, Booted(setup, file, jobs, month, day), evs, retries, k, most, dearest)
    ensures var s := Run(setup, Booted(setup, file, jobs, month, day), evs, retries);
            Bounded(s, k, Limit(setup, k, most, dearest))
  {
    var limit := Limit(setup, k, most, dearest);
    BootedShape(setup, file, jobs, month, day);
    BootedIsBounded(setup, file, jobs, month, day, k, limit);
    if evs != [] {
      var n := |evs| - 1;
      RunStaysBounded(setup, file, jobs, month, day, evs[..n], retries, k, most, dearest);
      RunKeepsShape(setup, Booted(setup, file, jobs, month, day), evs[..n], retries);
      var before := Run(setup, Booted(setup, file, jobs, month, day), evs[..n], retries);
      if Enabled(before, evs[n], retries) {
        EventStaysBounded(setup, before, evs[n], retries, k, most, dearest);
      }
    }
  }

  /** The overshoot bound: if at most `most` requests and pings are ever outstanding on a key, each
      costing at most `dearest`, then in every reachable state of every interleaving its usage plus
      everything outstanding exceeds the cap by at most `most - 1` times `dearest`, rolls, saves,
      crashes and restarts from any such file included.  With `most == 1` the cap is never exceeded.
      All this for every cap but the largest, which the saturating check never refuses. */
  lemma OvershootIsBounded(setup: Setup, file: File, jobs: nat, month: nat, day: nat, evs: seq<Event>, retries: nat,
        k: nat, most: nat, dearest: nat)
    requires ValidSetup(setup) && month > 0 && FileMatches(setup, file) && k < |setup.cfgs| && most > 0
    requires file.Holding? ==> file.snap.upstreams[k].used <= Limit(setup, k, most, dearest)
    requires AlwaysWithin(setup, Booted(setup, file, jobs, month, day), evs, retries, k, most, dearest)
    ensures setup.cfgs[k].creditCap < U64_MAX ==>
              var s := Run(setup, Booted(setup, file, jobs, month, day), evs, retries);
              && Bounded(s, k, Limit(setup, k, most, dearest))
              && s.keys[k].used + Total(s.jobs, CostOn(k)) <= setup.cfgs[k].creditCap + (most - 1) * dearest
              && (most == 1 ==> s.keys[k].used <= setup.cfgs[k].creditCap)
  {
    if setup.cfgs[k].creditCap < U64_MAX {
      RunStaysBounded(setup, file, jobs, month, day, evs, retries, k, most, dearest);
    }
  }
}
