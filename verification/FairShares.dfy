/** Round robin under interleaving: however the scans of any number of requests interleave with each other
    and with everything else, the keys are chosen as the tickets say. */
module FairShares {
  import opened Cyclic
  import opened Interleaving
  import opened Persistence
  import opened Restart
  import opened Rotation
  import opened Totals
  import opened Upstreams
  import opened Wrappers

  /** How a key fares in the two parts of `select`'s test: quota and switch, then cooldown and token. */
  datatype Test = Test(vets: bool, admits: bool)

  function Passing(tests: seq<Test>): (pass: seq<bool>)
    ensures |pass| == |tests|
  {
    seq(|tests|, k requires 0 <= k < |tests| => tests[k].vets && tests[k].admits)
  }

  predicate InSelect(job: Job) {
    job.Scanning? || job.Vetted?
  }

  predicate Meets(key: Key, test: Test, quest: Quest, now: nat) {
    && test.vets == (key.enabled && key.HasQuotaFor(quest.req.est))
    && test.admits == (!key.InCooldown(now) && key.CanAcquire(quest.req.kind))
  }

  /** A request inside `select` skips no key and finds each as `tests` says. */
  ghost predicate FindsAll(keys: seq<Key>, tests: seq<Test>, job: Job) {
    && |tests| == |keys|
    && (InSelect(job) ==> job.quest.skip == []
                          && forall k :: 0 <= k < |keys| ==> Meets(keys[k], tests[k], job.quest, job.now))
  }

  /** In every state of the run every request inside `select` does. */
  ghost predicate AlwaysFinds(setup: Setup, s: State, evs: seq<Event>, retries: nat, tests: seq<Test>) {
    && (forall job <- Run(setup, s, evs, retries).jobs :: FindsAll(Run(setup, s, evs, retries).keys, tests, job))
    && (evs != [] ==> AlwaysFinds(setup, s, evs[..|evs| - 1], retries, tests))
  }

  /** Tickets on their way to key `k`. */
  function BoundFor(tests: seq<Test>, k: nat): Job -> nat {
    (job: Job) => if tests != [] && InSelect(job) && Choice(Passing(tests), job.base) == k then 1 else 0
  }

  ghost predicate NonePassed(pass: seq<bool>, base: nat, off: nat) {
    pass != [] && off <= |pass| && forall x :: base <= x < base + off ==> !PassAt(pass, x)
  }

  /** A scan has passed over no key that passes. */
  ghost predicate OnItsWay(tests: seq<Test>, job: Job) {
    match job
    case Scanning(_, _, base, off) => NonePassed(Passing(tests), base, off)
    case Vetted(_, _, base, off, key) =>
      && NonePassed(Passing(tests), base, off) && off < |tests|
      && key == Slot(base, off, |tests|) && tests[key].vets
    case _ => true
  }

  ghost predicate ChosenAsTicketed(s: State, tests: seq<Test>) {
    && tests != [] && |s.keys| == |s.tallies| == |tests|
    && (forall job <- s.jobs :: OnItsWay(tests, job))
    && forall k :: 0 <= k < |tests| ==>
                     s.tallies[k].selects + Total(s.jobs, BoundFor(tests, k)) == Picks(Passing(tests), k, 0, s.cursor)
  }

  lemma ScanGoesOn(tests: seq<Test>, base: nat, off: nat)
    requires NonePassed(Passing(tests), base, off) && off < |tests|
    requires !Passing(tests)[Slot(base, off, |tests|)]
    ensures NonePassed(Passing(tests), base, off + 1)
  {
    forall x | base <= x < base + off + 1 ensures !PassAt(Passing(tests), x) {
      if x == base + off {
        assert x % |tests| == Slot(base, off, |tests|);
      }
    }
  }

  lemma ScanEndsHere(tests: seq<Test>, base: nat, off: nat)
    requires NonePassed(Passing(tests), base, off) && off < |tests|
    requires Passing(tests)[Slot(base, off, |tests|)]
    ensures Choice(Passing(tests), base) == Slot(base, off, |tests|)
  {
    NextPassIs(Passing(tests), base, base + off, |tests|);
  }

  lemma ScanCannotRunOut(tests: seq<Test>, base: nat)
    requires true in Passing(tests)
    ensures !NonePassed(Passing(tests), base, |tests|)
  {
    var pass := Passing(tests);
    var j :| 0 <= j < |pass| && pass[j];
    var d := OffsetOf(base, j, |pass|);
    assert PassAt(pass, base + d);
  }

  /** A move of a job that touches key `j`: what `j` gains in selections, the tickets bound for it lose. */
  lemma MoveGoesOn(job: Job, move: Move, key: Key, t: Tally, open: bool, start: Option<nat>, tests: seq<Test>, j: nat)
    requires tests != [] && Can(job, move, |tests|) && !Plans(move) && j == Touched(job, move, |tests|)
    requires OnItsWay(tests, job) && j < |tests|
    requires InSelect(job) ==> job.quest.skip == [] && Meets(key, tests[j], job.quest, job.now)
    ensures OnItsWay(tests, JobAfter(job, move, j, key, |tests|))
    ensures forall k :: BoundFor(tests, k)(JobAfter(job, move, j, key, |tests|))
                        + (if k == j then TallyAfter(job, move, key, t, open, start, |tests|).selects - t.selects
                           else 0)
                     == BoundFor(tests, k)(job)
  {
    if InSelect(job) {
      if Passing(tests)[j] {
        ScanEndsHere(tests, job.base, job.off);
      } else {
        ScanGoesOn(tests, job.base, job.off);
      }
    }
  }

  lemma WorkGoesOn(s: State, t: nat, move: Move, tests: seq<Test>)
    requires ChosenAsTicketed(s, tests) && true in Passing(tests)
    requires t < |s.jobs| && Can(s.jobs[t], move, |s.keys|) && FindsAll(s.keys, tests, s.jobs[t])
    ensures ChosenAsTicketed(WorkNext(s, t, move), tests)
  {
    var s' := WorkNext(s, t, move);
    assert s.jobs[t] in s.jobs;
    if Plans(move) {
      PlanGoesOn(s, t, move, tests);
    } else {
      var j := Touched(s.jobs[t], move, |s.keys|);
      MoveGoesOn(s.jobs[t], move, s.keys[j], s.tallies[j], Window(s.roller, j), DayBase(s.dayRoller, j, s.keys[j]),
               tests, j);
      forall k | 0 <= k < |tests|
        ensures s'.tallies[k].selects + Total(s'.jobs, BoundFor(tests, k)) == Picks(Passing(tests), k, 0, s'.cursor)
      {
        TotalUpdate(s.jobs, t, s'.jobs[t], BoundFor(tests, k));
      }
    }
  }

  lemma PlanGoesOn(s: State, t: nat, move: Move, tests: seq<Test>)
    requires ChosenAsTicketed(s, tests) && true in Passing(tests) && Plans(move)
    requires t < |s.jobs| && Can(s.jobs[t], move, |s.keys|)
    ensures ChosenAsTicketed(WorkNext(s, t, move), tests)
  {
    var s' := WorkNext(s, t, move);
    assert s.jobs[t] in s.jobs;
    if move.GiveUp? && s.jobs[t].Scanning? {
      ScanCannotRunOut(tests, s.jobs[t].base);
    }
    forall k | 0 <= k < |tests|
      ensures s'.tallies[k].selects + Total(s'.jobs, BoundFor(tests, k)) == Picks(Passing(tests), k, 0, s'.cursor)
    {
      TotalUpdate(s.jobs, t, s'.jobs[t], BoundFor(tests, k));
    }
  }

  lemma BootGoesOn(setup: Setup, file: File, jobs: nat, month: nat, day: nat, tests: seq<Test>)
    requires ValidSetup(setup) && tests != [] && |tests| == |setup.cfgs|
    ensures ChosenAsTicketed(Booted(setup, file, jobs, month, day), tests)
  {
    var s := Booted(setup, file, jobs, month, day);
    BootShape(setup, file, month, day);
    assert s.cursor == 0;
    forall k | 0 <= k < |tests| ensures s.tallies[k].selects + Total(s.jobs, BoundFor(tests, k)) == 0 {
      TotalZero(s.jobs, BoundFor(tests, k));
    }
  }

  /** Nothing but the jobs takes tickets or chooses keys. */
  lemma SystemGoesOn(setup: Setup, s: State, ev: Event, retries: nat, tests: seq<Test>)
    requires ChosenAsTicketed(s, tests) && Enabled(s, ev, retries) && !ev.Work? && !ev.Crash?
    ensures ChosenAsTicketed(Next(setup, s, ev, retries), tests)
  {
    var s' := Next(setup, s, ev, retries);
    match ev {
      case Day(step) => DayKeepsTheRest(setup, s, step);
      case Roll(step) => RollKeepsTheRest(s, step);
      case Save(step) => SaveKeepsTheRest(s, step);
      case _ =>
    }
    assert s'.jobs == s.jobs && s'.cursor == s.cursor && |s'.tallies| == |s.tallies|;
    assert forall k :: 0 <= k < |tests| ==> s'.tallies[k].selects == s.tallies[k].selects;
  }

  lemma EventGoesOn(setup: Setup, s: State, ev: Event, retries: nat, tests: seq<Test>)
    requires ValidSetup(setup) && |tests| == |setup.cfgs| && true in Passing(tests)
    requires ChosenAsTicketed(s, tests) && Enabled(s, ev, retries)
    requires forall job <- s.jobs :: FindsAll(s.keys, tests, job)
    ensures ChosenAsTicketed(Next(setup, s, ev, retries), tests)
  {
    match ev
    case Work(t, move) =>
      assert s.jobs[t] in s.jobs;
      WorkGoesOn(s, t, move, tests);
    case Crash(m, d) => BootGoesOn(setup, s.file, |s.jobs|, m, d, tests);
    case _ => SystemGoesOn(setup, s, ev, retries, tests);
  }

  lemma {:induction false} RunGoesOn(setup: Setup, file: File, jobs: nat, month: nat, day: nat, evs: seq<Event>,
        retries: nat, tests: seq<Test>)
    requires ValidSetup(setup) && |tests| == |setup.cfgs| && true in Passing(tests)
    requires AlwaysFinds(setup, Booted(setup, file, jobs, month, day), evs, retries, tests)
    ensures ChosenAsTicketed(Run(setup, Booted(setup, file, jobs, month, day), evs, retries), tests)
  {
    var start := Booted(setup, file, jobs, month, day);
    if evs == [] {
      BootGoesOn(setup, file, jobs, month, day, tests);
    } else {
      var n := |evs| - 1;
      RunGoesOn(setup, file, jobs, month, day, evs[..n], retries, tests);
      var before := Run(setup, start, evs[..n], retries);
      assert AlwaysFinds(setup, start, evs[..n], retries, tests);
      if Enabled(before, evs[n], retries) {
        EventGoesOn(setup, before, evs[n], retries, tests);
      }
    }
  }

  /** However any number of requests interleave their scans, access by access, and whatever else goes on: as long as
      every request that is inside `select` skips nothing and finds each key passing the same tests, then whenever
      none is, each key was chosen since boot as often as the tickets taken say; and if every key passes, no two
      counts differ by more than one. */
  lemma InterleavedScansShareEvenly(setup: Setup, file: File, jobs: nat, month: nat, day: nat, evs: seq<Event>,
        retries: nat, tests: seq<Test>)
    requires ValidSetup(setup) && |tests| == |setup.cfgs| && true in Passing(tests)
    requires AlwaysFinds(setup, Booted(setup, file, jobs, month, day), evs, retries, tests)
    requires forall job <- Run(setup, Booted(setup, file, jobs, month, day), evs, retries).jobs :: !InSelect(job)
    ensures var s := Run(setup, Booted(setup, file, jobs, month, day), evs, retries);
            && |s.tallies| == |tests|
            && (forall k :: 0 <= k < |tests| ==> s.tallies[k].selects == Picks(Passing(tests), k, 0, s.cursor))
            && (false !in Passing(tests) ==>
                  forall j, k :: 0 <= j < |tests| && 0 <= k < |tests| ==>
                                   s.tallies[j].selects <= s.tallies[k].selects + 1)
  {
    RunGoesOn(setup, file, jobs, month, day, evs, retries, tests);
    var s, n := Run(setup, Booted(setup, file, jobs, month, day), evs, retries), |tests|;
    forall k | 0 <= k < n
      ensures s.tallies[k].selects == Picks(Passing(tests), k, 0, s.cursor)
      ensures false !in Passing(tests) ==> s.cursor / n <= s.tallies[k].selects <= s.cursor / n + 1
    {
      TotalZero(s.jobs, BoundFor(tests, k));
      if false !in Passing(tests) {
        PicksWhenAllPass(Passing(tests), k, s.cursor);
      }
    }
  }
}
