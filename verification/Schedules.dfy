/** Building runs of the interleaved machine, and what one job does when it is left alone. */
module Schedules {
  import opened Interleaving
  import opened Restart
  import opened Upstreams
  import opened Wrappers
  import Cyclic

  lemma {:induction false} RunConcat(setup: Setup, s: State, evs: seq<Event>, more: seq<Event>, retries: nat)
    ensures Run(setup, s, evs + more, retries) == Run(setup, Run(setup, s, evs, retries), more, retries)
  {
    if more == [] {
      assert evs + more == evs;
    } else {
      var n := |more| - 1;
      assert (evs + more)[..|evs + more| - 1] == evs + more[..n];
      RunConcat(setup, s, evs, more[..n], retries);
    }
  }

  lemma RunOne(setup: Setup, s: State, ev: Event, retries: nat)
    requires Enabled(s, ev, retries)
    ensures Run(setup, s, [ev], retries) == Next(setup, s, ev, retries)
  {
    assert [ev][..0] == [];
    assert Run(setup, s, [], retries) == s;
  }

  /** One more event at the end of a run. */
  lemma Then(setup: Setup, s: State, evs: seq<Event>, ev: Event, retries: nat) returns (longer: seq<Event>, s': State)
    requires Enabled(Run(setup, s, evs, retries), ev, retries)
    ensures longer == evs + [ev]
    ensures s' == Run(setup, s, longer, retries) == Next(setup, Run(setup, s, evs, retries), ev, retries)
  {
    longer := evs + [ev];
    RunConcat(setup, s, evs, [ev], retries);
    RunOne(setup, Run(setup, s, evs, retries), ev, retries);
    s' := Run(setup, s, longer, retries);
  }

  /** One more move of job `t` on a key. */
  lemma ThenWork(setup: Setup, s: State, evs: seq<Event>, t: nat, move: Move, retries: nat)
    returns (longer: seq<Event>, s': State)
    requires Enabled(Run(setup, s, evs, retries), Work(t, move), retries) && !Plans(move)
    ensures s' == Run(setup, s, longer, retries)
    ensures var mid := Run(setup, s, evs, retries);
            var k, n := Touched(mid.jobs[t], move, |mid.keys|), |mid.keys|;
            && s'.jobs == mid.jobs[t := JobAfter(mid.jobs[t], move, k, mid.keys[k], n)]
            && s'.keys == mid.keys[k := KeyAfter(mid.jobs[t], move, mid.keys[k], n)]
            && |s'.tallies| == |mid.tallies| && s'.cursor == mid.cursor && s'.global == mid.global
  {
    longer, s' := Then(setup, s, evs, Work(t, move), retries);
  }

  function AskOf(quest: Quest, now: nat): Ask {
    Ask(quest.req.kind, quest.req.est, quest.skip, now)
  }

  /** The state in which job `t` stands at `job` and nothing else has moved. */
  function At(s: State, t: nat, job: Job): State
    requires t < |s.jobs|
  {
    s.(jobs := s.jobs[t := job])
  }

  /** Where the scan of job `t` ends, given what `select` would choose. */
  function ScanEnd(s: State, t: nat, quest: Quest, now: nat, base: nat, choice: Option<nat>): State
    requires t < |s.jobs| && |s.tallies| == |s.keys|
    requires choice.Some? ==> choice.value < |s.keys| && s.keys[choice.value].CanAcquire(quest.req.kind)
  {
    match choice
    case None => At(s, t, Scanning(quest, now, base, |s.keys|))
    case Some(k) =>
      var kind, key, tally := quest.req.kind, s.keys[k], s.tallies[k];
      At(s, t, Forwarding(quest, now, k)).(
        keys := s.keys[k := key.TakeToken(kind).(inFlight := key.inFlight + 1)],
        tallies := s.tallies[k := tally.(selects := tally.selects + 1,
                                         granted := tally.granted[kind := CountIn(tally.granted, kind) + 1])])
  }

  lemma ReadsOne(setup: Setup, s: State, t: nat, quest: Quest, now: nat, base: nat, off: nat, k: nat, retries: nat)
    requires t < |s.jobs| && s.jobs[t] == Scanning(quest, now, base, off) && off < |s.keys| == |s.tallies|
    requires k == Cyclic.Slot(base, off, |s.keys|)
    ensures Run(setup, s, [Work(t, ReadQuota)], retries) ==
            At(s, t, if k !in quest.skip && s.keys[k].enabled && s.keys[k].HasQuotaFor(quest.req.est)
                     then Vetted(quest, now, base, off, k) else Scanning(quest, now, base, off + 1))
  {
    RunOne(setup, s, Work(t, ReadQuota), retries);
    assert s.keys[k := s.keys[k]] == s.keys && s.tallies[k := s.tallies[k]] == s.tallies;
  }

  lemma TurnsAway(setup: Setup, s: State, t: nat, quest: Quest, now: nat, base: nat, off: nat, k: nat, retries: nat)
    requires t < |s.jobs| && s.jobs[t] == Vetted(quest, now, base, off, k) && k < |s.keys| == |s.tallies|
    requires !Admits(s.jobs[t], s.keys[k])
    ensures Run(setup, s, [Work(t, Admit)], retries) == At(s, t, Scanning(quest, now, base, off + 1))
  {
    RunOne(setup, s, Work(t, Admit), retries);
    assert s.keys[k := s.keys[k]] == s.keys && s.tallies[k := s.tallies[k]] == s.tallies;
  }

  lemma TakesIn(setup: Setup, s: State, t: nat, quest: Quest, now: nat, base: nat, off: nat, k: nat, retries: nat)
    requires t < |s.jobs| && s.jobs[t] == Vetted(quest, now, base, off, k) && k < |s.keys| == |s.tallies|
    requires Admits(s.jobs[t], s.keys[k])
    ensures Run(setup, s, [Work(t, Admit)], retries) == ScanEnd(s, t, quest, now, base, Some(k))
  {
    RunOne(setup, s, Work(t, Admit), retries);
  }

  lemma PassesOneOver(setup: Setup, s: State, t: nat, quest: Quest, now: nat, base: nat, off: nat, retries: nat)
    returns (evs: seq<Event>)
    requires t < |s.jobs| && s.jobs[t] == Scanning(quest, now, base, off) && off < |s.keys| == |s.tallies|
    requires !Eligible(s.keys, AskOf(quest, now), Cyclic.Slot(base, off, |s.keys|))
    ensures Run(setup, s, evs, retries) == At(s, t, Scanning(quest, now, base, off + 1))
  {
    var k := Cyclic.Slot(base, off, |s.keys|);
    evs := [Work(t, ReadQuota)];
    ReadsOne(setup, s, t, quest, now, base, off, k, retries);
    var s1 := Run(setup, s, evs, retries);
    if s1.jobs[t].Vetted? {
      TurnsAway(setup, s1, t, quest, now, base, off, k, retries);
      RunConcat(setup, s, evs, [Work(t, Admit)], retries);
      evs := evs + [Work(t, Admit)];
    }
  }

  lemma AdmitsOne(setup: Setup, s: State, t: nat, quest: Quest, now: nat, base: nat, off: nat, k: nat, retries: nat)
    returns (evs: seq<Event>)
    requires t < |s.jobs| && s.jobs[t] == Scanning(quest, now, base, off) && off < |s.keys| == |s.tallies|
    requires k == Cyclic.Slot(base, off, |s.keys|) && Eligible(s.keys, AskOf(quest, now), k)
    ensures Run(setup, s, evs, retries) == ScanEnd(s, t, quest, now, base, Some(k))
  {
    evs := [Work(t, ReadQuota)];
    ReadsOne(setup, s, t, quest, now, base, off, k, retries);
    var s1 := Run(setup, s, evs, retries);
    TakesIn(setup, s1, t, quest, now, base, off, k, retries);
    RunConcat(setup, s, evs, [Work(t, Admit)], retries);
    evs := evs + [Work(t, Admit)];
  }

  lemma EndForgetsStart(s: State, t: nat, job: Job, quest: Quest, now: nat, base: nat, choice: Option<nat>)
    requires t < |s.jobs| && |s.tallies| == |s.keys|
    requires choice.Some? ==> choice.value < |s.keys| && s.keys[choice.value].CanAcquire(quest.req.kind)
    ensures ScanEnd(At(s, t, job), t, quest, now, base, choice) == ScanEnd(s, t, quest, now, base, choice)
  {
    var end := match choice
      case None => Scanning(quest, now, base, |s.keys|)
      case Some(k) => Forwarding(quest, now, k);
    assert s.jobs[t := job][t := end] == s.jobs[t := end];
  }

  lemma ScansOn(setup: Setup, s: State, t: nat, quest: Quest, now: nat, base: nat, off: nat, choice: Option<nat>,
        evs: seq<Event>, rest: seq<Event>, retries: nat)
    requires t < |s.jobs| && |s.keys| == |s.tallies|
    requires choice.Some? ==> choice.value < |s.keys| && s.keys[choice.value].CanAcquire(quest.req.kind)
    requires Run(setup, s, evs, retries) == At(s, t, Scanning(quest, now, base, off))
    requires Run(setup, At(s, t, Scanning(quest, now, base, off)), rest, retries)
          == ScanEnd(At(s, t, Scanning(quest, now, base, off)), t, quest, now, base, choice)
    ensures Run(setup, s, evs + rest, retries) == ScanEnd(s, t, quest, now, base, choice)
  {
    RunConcat(setup, s, evs, rest, retries);
    EndForgetsStart(s, t, Scanning(quest, now, base, off), quest, now, base, choice);
  }

  /** A scan that passes over its key goes on to end as it would have from the next one. */
  lemma ScanPasses(setup: Setup, s: State, t: nat, quest: Quest, now: nat, base: nat, off: nat, rest: seq<Event>,
        retries: nat)
    returns (evs: seq<Event>)
    requires t < |s.jobs| && s.jobs[t] == Scanning(quest, now, base, off) && off < |s.keys| == |s.tallies|
    requires !Eligible(s.keys, AskOf(quest, now), Cyclic.Slot(base, off, |s.keys|))
    requires var next := At(s, t, Scanning(quest, now, base, off + 1));
             Run(setup, next, rest, retries) ==
             ScanEnd(next, t, quest, now, base, FirstEligible(s.keys, AskOf(quest, now), base, off + 1))
    ensures Run(setup, s, evs, retries) ==
            ScanEnd(s, t, quest, now, base, FirstEligible(s.keys, AskOf(quest, now), base, off + 1))
  {
    evs := PassesOneOver(setup, s, t, quest, now, base, off, retries);
    ScansOn(setup, s, t, quest, now, base, off + 1, FirstEligible(s.keys, AskOf(quest, now), base, off + 1), evs, rest,
            retries);
    evs := evs + rest;
  }

  /** Left alone, a job's scan is `select`: it ends on the key `FirstEligible` finds, with that key's token taken,
      or runs out of keys when there is none. */
  lemma {:induction false} ScanAloneIsSelection(setup: Setup, s: State, t: nat, quest: Quest, now: nat, base: nat,
      off: nat, retries: nat)
    returns (evs: seq<Event>)
    requires t < |s.jobs| && s.jobs[t] == Scanning(quest, now, base, off) && off <= |s.keys| == |s.tallies|
    ensures Run(setup, s, evs, retries) ==
            ScanEnd(s, t, quest, now, base, FirstEligible(s.keys, AskOf(quest, now), base, off))
    decreases |s.keys| - off
  {
    if off == |s.keys| {
      evs := [];
      assert Run(setup, s, [], retries) == s;
    } else if Eligible(s.keys, AskOf(quest, now), Cyclic.Slot(base, off, |s.keys|)) {
      evs := AdmitsOne(setup, s, t, quest, now, base, off, Cyclic.Slot(base, off, |s.keys|), retries);
    } else {
      var next := At(s, t, Scanning(quest, now, base, off + 1));
      var rest := ScanAloneIsSelection(setup, next, t, quest, now, base, off + 1, retries);
      evs := ScanPasses(setup, s, t, quest, now, base, off, rest, retries);
    }
  }
}
