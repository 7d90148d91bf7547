/** The monthly books under interleaving: rolls and snapshots against commits that are two separate
    additions, with no lock over any of them. */
module MonthRace {
  import opened Interleaving
  import opened Logs
  import opened Persistence
  import opened Restart
  import opened Totals
  import opened Upstreams
  import opened Wrappers

  /** Charged to the lifetime total of `k` but not to its month yet. */
  function PendingOn(k: nat): Job -> nat {
    (job: Job) => if job.BumpUsed? && job.key == k then job.cost else 0
  }

  function Pending(s: State, k: nat): nat {
    Total(s.jobs, PendingOn(k))
  }

  /** What of the key's current month is not in the history yet. */
  function Unclosed(s: State, k: nat): nat
    requires k < |s.keys|
  {
    if !Window(s.roller, k) then s.keys[k].used
    else if s.roller.Capturing? then s.roller.points[k].credits
    else 0
  }

  ghost predicate MonthBooks(s: State, k: nat) {
    && k < |s.keys| && k < |s.tallies|
    && s.keys[k].total == s.tallies[k].opening + Logged(s.global.history, s.keys[k].name) + Unclosed(s, k)
                          + s.tallies[k].late + Pending(s, k)
    && (s.roller.Capturing? && k < |s.roller.points| ==>
          s.keys[k].used <= s.roller.points[k].credits + s.tallies[k].late)
  }

  /** A move of a job, seen from key `k`: totals and pending charges move together. */
  lemma MoveBalances(job: Job, move: Move, key: Key, t: Tally, open: bool, start: Option<nat>, k: nat, n: nat)
    requires Can(job, move, n) && !Plans(move)
    ensures var j := Touched(job, move, n);
            var key', t' := KeyAfter(job, move, key, n), TallyAfter(job, move, key, t, open, start, n);
            var owed, owes := PendingOn(k)(job), PendingOn(k)(JobAfter(job, move, j, key, n));
            && (j != k ==> owed == owes)
            && (j == k ==>
                  key'.total - key.total
                    == (if open then 0 else key'.used - key.used) + (t'.late - t.late) + owes - owed)
            && (open ==> key'.used - key.used == t'.late - t.late)
            && key'.name == key.name && t'.opening == t.opening
  {
  }

  lemma WorkKeepsMonthBooks(s: State, t: nat, move: Move, k: nat)
    requires MonthBooks(s, k) && t < |s.jobs| && |s.tallies| == |s.keys| && Can(s.jobs[t], move, |s.keys|)
    ensures MonthBooks(WorkNext(s, t, move), k)
  {
    var s' := WorkNext(s, t, move);
    TotalUpdate(s.jobs, t, s'.jobs[t], PendingOn(k));
    if !Plans(move) {
      var j := Touched(s.jobs[t], move, |s.keys|);
      MoveBalances(s.jobs[t], move, s.keys[j], s.tallies[j], Window(s.roller, j), DayBase(s.dayRoller, j, s.keys[j]),
                   k, |s.keys|);
    }
  }

  lemma PushClosesEveryPoint(setup: Setup, s: State, k: nat)
    requires Shape(setup, s) && s.roller.Capturing? && |s.roller.points| == |s.keys| && k < |s.keys|
    ensures Logged(s.global.history + [ClosingRecord(s.roller)], s.keys[k].name)
         == Logged(s.global.history, s.keys[k].name) + s.roller.points[k].credits
  {
    var points, r := s.roller.points, ClosingRecord(s.roller);
    assert DistinctPoints(points);
    PointsHoldItOnce(points, k);
    LoggedOne(r, s.keys[k].name);
    LoggedAppend(s.global.history, [r], s.keys[k].name);
  }

  lemma BootStartsMonthBooks(setup: Setup, file: File, jobs: nat, month: nat, day: nat, k: nat)
    requires ValidSetup(setup) && k < |setup.cfgs|
    ensures MonthBooks(Booted(setup, file, jobs, month, day), k)
  {
    BootShape(setup, file, month, day);
    TotalZero(Booted(setup, file, jobs, month, day).jobs, PendingOn(k));
  }

  lemma RollKeepsMonthBooks(setup: Setup, s: State, step: RollStep, k: nat)
    requires Shape(setup, s) && MonthBooks(s, k) && CanRoll(s.roller, step, s.global.month, |s.keys|)
    ensures MonthBooks(RollNext(s, step), k)
  {
    if step.RollPush? {
      PushClosesEveryPoint(setup, s, k);
    }
  }

  lemma SaveKeepsMonthBooks(s: State, step: SaveStep, k: nat)
    requires MonthBooks(s, k) && CanSave(s.writer, step, |s.keys|)
    ensures MonthBooks(SaveNext(s, step), k)
  {
    SaveKeepsTheRest(s, step);
  }

  lemma SystemKeepsMonthBooks(setup: Setup, s: State, ev: Event, retries: nat, k: nat)
    requires ValidSetup(setup) && Shape(setup, s) && MonthBooks(s, k) && Enabled(s, ev, retries)
    requires ev.Drip? || ev.Corrupt? || ev.Crash?
    ensures MonthBooks(SystemNext(setup, s, ev, retries), k)
  {
    if ev.Crash? {
      BootStartsMonthBooks(setup, s.file, |s.jobs|, ev.month, ev.day, k);
    }
  }

  lemma DayKeepsMonthBooks(setup: Setup, s: State, step: DayStep, k: nat)
    requires MonthBooks(s, k) && CanStep(s.dayRoller, step, s.global.day, |s.keys|)
    ensures MonthBooks(DayNext(setup, s, step), k)
  {
    DayKeepsTheRest(setup, s, step);
  }

  lemma EventKeepsMonthBooks(setup: Setup, s: State, ev: Event, retries: nat, k: nat)
    requires ValidSetup(setup) && Shape(setup, s) && MonthBooks(s, k) && Enabled(s, ev, retries)
    ensures MonthBooks(Next(setup, s, ev, retries), k)
  {
    match ev
    case Work(t, move) => WorkKeepsMonthBooks(s, t, move, k);
    case Roll(step) => RollKeepsMonthBooks(setup, s, step, k);
    case Day(step) => DayKeepsMonthBooks(setup, s, step, k);
    case Save(step) => SaveKeepsMonthBooks(s, step, k);
    case _ => SystemKeepsMonthBooks(setup, s, ev, retries, k);
  }

  lemma {:induction false} RunKeepsMonthBooks(setup: Setup, s: State, evs: seq<Event>, retries: nat, k: nat)
    requires ValidSetup(setup) && Shape(setup, s) && MonthBooks(s, k)
    ensures MonthBooks(Run(setup, s, evs, retries), k)
  {
    if evs != [] {
      var n := |evs| - 1;
      RunKeepsMonthBooks(setup, s, evs[..n], retries, k);
      RunKeepsShape(setup, s, evs[..n], retries);
      var before := Run(setup, s, evs[..n], retries);
      if Enabled(before, evs[n], retries) {
        EventKeepsMonthBooks(setup, before, evs[n], retries, k);
      }
    }
  }

  /** No roll and no commit on `k` is half done. */
  predicate Quiet(s: State, k: nat) {
    s.roller.Resting? && Pending(s, k) == 0
  }

  /** How far the lifetime total is ahead of the books. */
  function Ahead(s: State, k: nat): int
    requires k < |s.keys|
  {
    s.keys[k].total - Logged(s.global.history, s.keys[k].name) - s.keys[k].used
  }

  lemma EventKeepsOpening(setup: Setup, s: State, ev: Event, retries: nat, k: nat)
    requires k < |s.tallies| == |s.keys| && Enabled(s, ev, retries) && !ev.Crash?
    ensures var s' := Next(setup, s, ev, retries);
            && k < |s'.tallies| == |s'.keys|
            && s'.tallies[k].opening == s.tallies[k].opening && s'.tallies[k].dayOpening == s.tallies[k].dayOpening
            && s'.tallies[k].base == s.tallies[k].base
  {
    match ev
    case Day(step) => DayKeepsTheRest(setup, s, step);
    case Roll(step) => RollKeepsTheRest(s, step);
    case Save(step) => SaveKeepsTheRest(s, step);
    case _ =>
  }

  lemma {:induction false} OpeningStays(setup: Setup, s: State, evs: seq<Event>, retries: nat, k: nat)
    requires k < |s.tallies| == |s.keys| && forall ev <- evs :: !ev.Crash?
    ensures var s' := Run(setup, s, evs, retries);
            && k < |s'.tallies| == |s'.keys|
            && s'.tallies[k].opening == s.tallies[k].opening && s'.tallies[k].dayOpening == s.tallies[k].dayOpening
            && s'.tallies[k].base == s.tallies[k].base
  {
    if evs != [] {
      var n := |evs| - 1;
      OpeningStays(setup, s, evs[..n], retries, k);
      assert !evs[n].Crash?;
      var before := Run(setup, s, evs[..n], retries);
      if Enabled(before, evs[n], retries) {
        EventKeepsOpening(setup, before, evs[n], retries, k);
      }
    }
  }

  /** Month rollover under interleaving: over any life between two crashes, whenever no roll and no commit is
      half done, a key's lifetime total is ahead of its closed months plus its current month by exactly the
      credits whose monthly add fell between a roll's read of the key and its reset, on top of what it was ahead
      by at boot. So the books of a fresh deployment never exceed the total, and match it when no commit
      overlapped a roll. */
  lemma RolloverLosesOnlyLateCommits(setup: Setup, file: File, jobs: nat, month: nat, day: nat, evs: seq<Event>,
        retries: nat, k: nat)
    requires ValidSetup(setup) && month > 0 && FileMatches(setup, file) && k < |setup.cfgs|
    requires forall ev <- evs :: !ev.Crash?
    ensures var start := Booted(setup, file, jobs, month, day);
            var s := Run(setup, start, evs, retries);
            && k < |start.keys| == |s.keys| == |s.tallies|
            && (Quiet(s, k) ==> Ahead(s, k) == Ahead(start, k) + s.tallies[k].late)
            && (file.Absent? ==> Ahead(start, k) == 0)
  {
    var start := Booted(setup, file, jobs, month, day);
    BootedShape(setup, file, jobs, month, day);
    BootShape(setup, file, month, day);
    BootStartsMonthBooks(setup, file, jobs, month, day, k);
    OpeningStays(setup, start, evs, retries, k);
    RunKeepsMonthBooks(setup, start, evs, retries, k);
    RunKeepsShape(setup, start, evs, retries);
  }
}
