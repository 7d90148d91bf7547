/** What the policy of assuming the cap is for: after a boot from an unreadable file nothing is charged
    until the month is over. */
module FailClosed {
  import opened Interleaving
  import opened Persistence
  import opened QuotaRace
  import opened Ratelimit
  import opened Restart
  import opened Totals
  import opened Upstreams

  /** The month counts as used up, nothing was charged, and nothing that costs anything is outstanding. */
  ghost predicate Closed(s: State, k: nat) {
    && k < |s.keys| == |s.tallies|
    && s.keys[k].used == s.keys[k].cap < U64_MAX && s.keys[k].total == 0
    && Total(s.jobs, CostOn(k)) == 0
  }

  lemma MoveStaysClosed(job: Job, move: Move, key: Key, k: nat, n: nat)
    requires Can(job, move, n) && !Plans(move) && CostOn(k)(job) == 0
    requires Touched(job, move, n) == k ==> key.used == key.cap < U64_MAX
    ensures var j := Touched(job, move, n);
            && CostOn(k)(JobAfter(job, move, j, key, n)) == 0
            && (j == k ==> KeyAfter(job, move, key, n).used == key.used
                           && KeyAfter(job, move, key, n).total == key.total
                           && KeyAfter(job, move, key, n).cap == key.cap)
  {
  }

  lemma WorkStaysClosed(s: State, t: nat, move: Move, k: nat)
    requires Closed(s, k) && t < |s.jobs| && Can(s.jobs[t], move, |s.keys|)
    ensures Closed(WorkNext(s, t, move), k)
  {
    TotalUpdate(s.jobs, t, WorkNext(s, t, move).jobs[t], CostOn(k));
    TotalAtLeast(s.jobs, t, CostOn(k));
    if !Plans(move) {
      MoveStaysClosed(s.jobs[t], move, s.keys[Touched(s.jobs[t], move, |s.keys|)], k, |s.keys|);
    }
  }

  lemma EventStaysClosed(setup: Setup, s: State, ev: Event, retries: nat, k: nat)
    requires Closed(s, k) && Enabled(s, ev, retries) && !ev.Crash? && ev != Roll(RollReset)
    ensures Closed(Next(setup, s, ev, retries), k)
  {
    match ev
    case Work(t, move) => WorkStaysClosed(s, t, move, k);
    case Roll(step) => RollKeepsTheRest(s, step);
    case Day(step) => DayKeepsTheRest(setup, s, step);
    case Save(step) => SaveKeepsTheRest(s, step);
    case _ =>
  }

  lemma {:induction false} RunStaysClosed(setup: Setup, s: State, evs: seq<Event>, retries: nat, k: nat)
    requires Closed(s, k) && forall ev <- evs :: !ev.Crash? && ev != Roll(RollReset)
    ensures Closed(Run(setup, s, evs, retries), k)
  {
    if evs != [] {
      var n := |evs| - 1;
      RunStaysClosed(setup, s, evs[..n], retries, k);
      assert !evs[n].Crash? && evs[n] != Roll(RollReset);
      var before := Run(setup, s, evs[..n], retries);
      if Enabled(before, evs[n], retries) {
        EventStaysClosed(setup, before, evs[n], retries, k);
      }
    }
  }

  /** The policy fails closed: from a boot with an unreadable file that assumes the cap, in every interleaving and until
      a month roll resets the key or the next boot, no credit is charged to a key, its usage stays at its cap, and no
      request or ping that costs anything gets as far as the key. */
  lemma UnreadableFileFailsClosed(setup: Setup, jobs: nat, month: nat, day: nat, evs: seq<Event>, retries: nat, k: nat)
    requires ValidSetup(setup) && k < |setup.cfgs| && setup.policy == Cap && setup.cfgs[k].creditCap < U64_MAX
    requires forall ev <- evs :: !ev.Crash? && ev != Roll(RollReset)
    ensures var s := Run(setup, Booted(setup, Unreadable, jobs, month, day), evs, retries);
            && k < |s.keys| && s.keys[k].total == 0 && s.keys[k].used == setup.cfgs[k].creditCap
            && forall t :: 0 <= t < |s.jobs| ==>
                             match s.jobs[t]
                             case Vetted(quest, _, _, _, key) => key == k ==> quest.req.est == 0
                             case Forwarding(quest, _, key) => key == k ==> quest.req.est == 0
                             case Pinging(cost, _, key) => key == k ==> cost == 0
                             case _ => true
  {
    var start := Booted(setup, Unreadable, jobs, month, day);
    BootWithoutFile(setup, Unreadable, month, day, k);
    TotalZero(start.jobs, CostOn(k));
    RunStaysClosed(setup, start, evs, retries, k);
    CapStays(setup, start, evs, retries, k);
    var s := Run(setup, start, evs, retries);
    forall t | 0 <= t < |s.jobs| ensures CostOn(k)(s.jobs[t]) == 0 {
      TotalAtLeast(s.jobs, t, CostOn(k));
    }
  }

  lemma EventKeepsCap(setup: Setup, s: State, ev: Event, retries: nat, k: nat)
    requires k < |s.keys| && Enabled(s, ev, retries) && !ev.Crash?
    ensures k < |Next(setup, s, ev, retries).keys| && Next(setup, s, ev, retries).keys[k].cap == s.keys[k].cap
  {
    match ev
    case Work(t, move) => WorkKeepsNames(s, t, move);
    case Roll(step) => RollKeepsTheRest(s, step);
    case Day(step) => DayKeepsTheRest(setup, s, step);
    case Save(step) => SaveKeepsTheRest(s, step);
    case _ =>
  }

  lemma {:induction false} CapStays(setup: Setup, s: State, evs: seq<Event>, retries: nat, k: nat)
    requires k < |s.keys| && forall ev <- evs :: !ev.Crash?
    ensures k < |Run(setup, s, evs, retries).keys| && Run(setup, s, evs, retries).keys[k].cap == s.keys[k].cap
  {
    if evs != [] {
      var n := |evs| - 1;
      CapStays(setup, s, evs[..n], retries, k);
      assert !evs[n].Crash?;
      var before := Run(setup, s, evs[..n], retries);
      if Enabled(before, evs[n], retries) {
        EventKeepsCap(setup, before, evs[n], retries, k);
      }
    }
  }
}
