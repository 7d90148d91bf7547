/** The daily books under interleaving: day rolls against charges, with no lock over either. */
module DayRace {
  import opened Interleaving
  import opened Logs
  import opened MonthRace
  import opened Persistence
  import opened Restart
  import opened Statistics
  import opened Upstreams
  import opened Wrappers

  /** What of the key's current day is not in the daily log yet. */
  function UnclosedDay(s: State, k: nat): nat
    requires k < |s.keys|
  {
    match DayBase(s.dayRoller, k, s.keys[k])
    case Some(start) => Lead(s.keys[k].total, start)
    case None => if s.dayRoller.Reading? && k < |s.dayRoller.points| then s.dayRoller.points[k].credits else 0
  }

  function LeadAtBoot(t: Tally): nat {
    Lead(t.base.dayStart, t.base.total)
  }

  /** The day's books, and what can have been hidden from them: no more than the baseline was ahead at boot. */
  ghost predicate DayBooks(s: State, k: nat) {
    && k < |s.keys| && k < |s.tallies|
    && s.keys[k].total == s.tallies[k].dayOpening + Logged(s.days, s.keys[k].name) + UnclosedDay(s, k)
                          + s.tallies[k].lateDay + s.tallies[k].hidden
    && (DayBase(s.dayRoller, k, s.keys[k]).Some? ==>
          s.tallies[k].hidden + Lead(DayBase(s.dayRoller, k, s.keys[k]).value, s.keys[k].total)
          <= LeadAtBoot(s.tallies[k]))
    && s.tallies[k].hidden <= LeadAtBoot(s.tallies[k])
  }

  lemma MoveKeepsDay(job: Job, move: Move, key: Key, t: Tally, open: bool, start: Option<nat>, n: nat)
    requires Can(job, move, n) && !Plans(move)
    ensures var key', t' := KeyAfter(job, move, key, n), TallyAfter(job, move, key, t, open, start, n);
            && key'.name == key.name && key'.dayStart == key.dayStart && key'.total >= key.total
            && t'.dayOpening == t.dayOpening && t'.base == t.base
            && match start
               case None => t'.lateDay - t.lateDay == key'.total - key.total && t'.hidden == t.hidden
               case Some(b) =>
                 && t'.lateDay == t.lateDay
                 && t'.hidden - t.hidden == Lead(b, key.total) - Lead(b, key'.total)
                 && key'.total - key.total == Lead(key'.total, b) - Lead(key.total, b) + t'.hidden - t.hidden
  {
  }

  lemma WorkKeepsDayBooks(s: State, t: nat, move: Move, k: nat)
    requires DayBooks(s, k) && t < |s.jobs| && |s.tallies| == |s.keys| && Can(s.jobs[t], move, |s.keys|)
    ensures DayBooks(WorkNext(s, t, move), k)
  {
    if !Plans(move) {
      var j := Touched(s.jobs[t], move, |s.keys|);
      MoveKeepsDay(s.jobs[t], move, s.keys[j], s.tallies[j], Window(s.roller, j), DayBase(s.dayRoller, j, s.keys[j]),
                   |s.keys|);
    }
  }

  lemma PushClosesEveryDayPoint(setup: Setup, s: State, log: seq<PeriodRecord>, k: nat)
    requires Shape(setup, s) && s.dayRoller.Reading? && |s.dayRoller.points| == |s.keys| && k < |s.keys|
    ensures Logged(log + [ClosingDay(s.dayRoller)], s.keys[k].name)
         == Logged(log, s.keys[k].name) + s.dayRoller.points[k].credits
  {
    var points, r := s.dayRoller.points, ClosingDay(s.dayRoller);
    assert DistinctPoints(points);
    PointsHoldItOnce(points, k);
    LoggedOne(r, s.keys[k].name);
    LoggedAppend(log, [r], s.keys[k].name);
  }

  lemma StepKeepsDayBooks(setup: Setup, s: State, step: DayStep, k: nat)
    requires Shape(setup, s) && DayBooks(s, k) && CanStep(s.dayRoller, step, s.global.day, |s.keys|)
    ensures DayBooks(DayNext(setup, s, step), k)
  {
    if step.Push? {
      PushClosesEveryDayPoint(setup, s, s.days, k);
    }
  }

  lemma RestKeepsDayBooks(setup: Setup, s: State, ev: Event, retries: nat, k: nat)
    requires Shape(setup, s) && DayBooks(s, k) && Enabled(s, ev, retries) && !ev.Work? && !ev.Day? && !ev.Crash?
    ensures DayBooks(Next(setup, s, ev, retries), k)
  {
    match ev
    case Roll(step) => RollKeepsTheRest(s, step);
    case Save(step) => SaveKeepsTheRest(s, step);
    case _ =>
  }

  lemma BootStartsDayBooks(setup: Setup, file: File, jobs: nat, month: nat, day: nat, k: nat)
    requires ValidSetup(setup) && k < |setup.cfgs|
    ensures DayBooks(Booted(setup, file, jobs, month, day), k)
  {
    BootShape(setup, file, month, day);
  }

  lemma EventKeepsDayBooks(setup: Setup, s: State, ev: Event, retries: nat, k: nat)
    requires ValidSetup(setup) && Shape(setup, s) && DayBooks(s, k) && Enabled(s, ev, retries)
    ensures DayBooks(Next(setup, s, ev, retries), k)
  {
    match ev
    case Work(t, move) => WorkKeepsDayBooks(s, t, move, k);
    case Day(step) => StepKeepsDayBooks(setup, s, step, k);
    case Crash(month, day) => BootStartsDayBooks(setup, s.file, |s.jobs|, month, day, k);
    case _ => RestKeepsDayBooks(setup, s, ev, retries, k);
  }

  lemma {:induction false} RunKeepsDayBooks(setup: Setup, s: State, evs: seq<Event>, retries: nat, k: nat)
    requires ValidSetup(setup) && Shape(setup, s) && DayBooks(s, k)
    ensures DayBooks(Run(setup, s, evs, retries), k)
  {
    if evs != [] {
      var n := |evs| - 1;
      RunKeepsDayBooks(setup, s, evs[..n], retries, k);
      RunKeepsShape(setup, s, evs[..n], retries);
      var before := Run(setup, s, evs[..n], retries);
      if Enabled(before, evs[n], retries) {
        EventKeepsDayBooks(setup, before, evs[n], retries, k);
      }
    }
  }

  /** How far the lifetime total is ahead of the untrimmed daily books. */
  function DaysAhead(s: State, k: nat): int
    requires k < |s.keys|
  {
    s.keys[k].total - Logged(s.days, s.keys[k].name) - s.keys[k].DailyUsed()
  }

  /** Day rollover under interleaving: over any life between two crashes, from any file, whenever no day roll is half
      done, a key's lifetime total is ahead of its untrimmed days plus today's usage by exactly the credits added to
      it between a roll's read of the key and its load of the new baseline, and those added while it was still behind
      a baseline that was ahead of it, on top of what it was ahead by at boot. The latter are no more than the
      baseline was ahead at boot, so there are none unless it was. */
  lemma DayRollLosesOnlyLateCharges(setup: Setup, file: File, jobs: nat, month: nat, day: nat, evs: seq<Event>,
        retries: nat, k: nat)
    requires ValidSetup(setup) && month > 0 && FileMatches(setup, file) && k < |setup.cfgs|
    requires forall ev <- evs :: !ev.Crash?
    ensures var start := Booted(setup, file, jobs, month, day);
            var s := Run(setup, start, evs, retries);
            && k < |start.keys| == |s.keys| == |s.tallies|
            && (s.dayRoller.Asleep? ==>
                  DaysAhead(s, k) == DaysAhead(start, k) + s.tallies[k].lateDay + s.tallies[k].hidden)
            && s.tallies[k].hidden <= Lead(start.keys[k].dayStart, start.keys[k].total)
            && (file.Absent? ==> DaysAhead(start, k) == 0)
  {
    var start := Booted(setup, file, jobs, month, day);
    BootedShape(setup, file, jobs, month, day);
    BootShape(setup, file, month, day);
    BootStartsDayBooks(setup, file, jobs, month, day, k);
    RunKeepsDayBooks(setup, start, evs, retries, k);
    OpeningStays(setup, start, evs, retries, k);
    RunKeepsShape(setup, start, evs, retries);
  }
}
