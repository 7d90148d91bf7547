/** The daily part of snapshots under interleaving: what day rolls can do to a save, and what they cannot. */
module DaySaves {
  import opened DayRace
  import opened Interleaving
  import opened Logs
  import opened Persistence
  import opened Restart
  import opened RoundTrip
  import opened Statistics
  import opened Upstreams
  import opened Wrappers

  /** The three ways in which a day roll can tear the entry of `k`: it pushes its record between the save's reads of
      the baseline of `k` and of the daily log; the save reads that baseline after the push and before the new one
      is stored; or a baseline is stored between the reads of total and baseline that is ahead of the former. */
  predicate DayTears(s: State, ev: Event, k: nat) {
    || (ev == Day(Push) && !s.writer.Off? && k < |s.writer.draft.upstreams|)
    || (s.writer.Saving? && k == |s.writer.draft.upstreams| && s.dayRoller.Rebasing?
        && ((ev == Save(SaveBaseline) && k >= s.dayRoller.next)
            || (ev == Day(Store) && k == s.dayRoller.next && |s.writer.part| == 2 && s.dayRoller.loaded.Some?
                && s.writer.part[1] < s.dayRoller.loaded.value)))
  }

  ghost predicate NeverDayTorn(setup: Setup, s: State, evs: seq<Event>, retries: nat, k: nat) {
    evs != [] ==>
      var n := |evs| - 1;
      && NeverDayTorn(setup, s, evs[..n], retries, k)
      && (Enabled(Run(setup, s, evs[..n], retries), evs[n], retries) ==>
            !DayTears(Run(setup, s, evs[..n], retries), evs[n], k))
  }

  /** The stored days account for no more than the baseline, and the baseline for no more than the total. */
  ghost predicate FileDaysSound(file: File, k: nat) {
    file.Holding? ==>
      && k < |file.snap.upstreams|
      && var e := file.snap.upstreams[k];
      Logged(file.snap.daily, e.name) <= e.dayStart <= e.total
  }

  /** In memory likewise; while a roll goes on, what it has read counts with the stored days. */
  ghost predicate MemoryDaysSound(s: State, k: nat) {
    && k < |s.keys| && s.keys[k].dayStart <= s.keys[k].total
    && var logged := Logged(s.global.daily, s.keys[k].name);
    match DayBase(s.dayRoller, k, s.keys[k])
    case Some(start) => logged <= start <= s.keys[k].total
    case None =>
      && logged + UnclosedDay(s, k) <= s.keys[k].total
      && (s.dayRoller.Reading? ==> logged <= s.keys[k].dayStart)
  }

  ghost predicate WriterDaysSound(s: State, k: nat)
    requires k < |s.keys|
  {
    !s.writer.Off? ==>
      var ups := s.writer.draft.upstreams;
      && (k < |ups| ==> ups[k].name == s.keys[k].name
                        && Logged(s.global.daily, s.keys[k].name) <= ups[k].dayStart <= ups[k].total)
      && (s.writer.Saving? && k == |ups| && |s.writer.part| == 2 ==> s.keys[k].dayStart <= s.writer.part[1])
  }

  ghost predicate DaysSound(s: State, k: nat) {
    MemoryDaysSound(s, k) && WriterDaysSound(s, k) && FileDaysSound(s.file, k)
  }

  lemma TrimmingLogsLess(log: seq<PeriodRecord>, retention: nat, name: string)
    ensures Logged(TrimFront(log, retention), name) <= Logged(log, name)
  {
    var kept := TrimFront(log, retention);
    var dropped := log[..|log| - |kept|];
    assert log == dropped + kept;
    LoggedAppend(dropped, kept, name);
  }

  lemma WorkKeepsDaysSound(s: State, t: nat, move: Move, k: nat)
    requires DaysSound(s, k) && t < |s.jobs| && |s.tallies| == |s.keys| && Can(s.jobs[t], move, |s.keys|)
    ensures DaysSound(WorkNext(s, t, move), k)
  {
    WorkKeepsNames(s, t, move);
    if !Plans(move) {
      var j := Touched(s.jobs[t], move, |s.keys|);
      MoveKeepsDay(s.jobs[t], move, s.keys[j], s.tallies[j], Window(s.roller, j), Some(0), |s.keys|);
    }
  }

  lemma PushKeepsDaysSound(setup: Setup, s: State, k: nat)
    requires Shape(setup, s) && MemoryDaysSound(s, k) && s.dayRoller.Reading? && |s.dayRoller.points| == |s.keys|
    ensures MemoryDaysSound(DayNext(setup, s, Push), k)
  {
    var log := s.global.daily + [ClosingDay(s.dayRoller)];
    PushClosesEveryDayPoint(setup, s, s.global.daily, k);
    TrimmingLogsLess(log, setup.retention, s.keys[k].name);
    var s' := DayNext(setup, s, Push);
    assert s'.keys == s.keys && s'.dayRoller == Rebasing(0, None);
    assert Logged(s'.global.daily, s.keys[k].name) <= Logged(log, s.keys[k].name) <= s.keys[k].total;
  }

  lemma StepKeepsMemorySound(setup: Setup, s: State, step: DayStep, k: nat)
    requires Shape(setup, s) && MemoryDaysSound(s, k) && CanStep(s.dayRoller, step, s.global.day, |s.keys|)
    ensures MemoryDaysSound(DayNext(setup, s, step), k)
  {
    if step.Push? {
      PushKeepsDaysSound(setup, s, k);
    }
  }

  lemma StepKeepsWriterSound(setup: Setup, s: State, step: DayStep, k: nat)
    requires k < |s.keys| && WriterDaysSound(s, k) && CanStep(s.dayRoller, step, s.global.day, |s.keys|)
    requires !DayTears(s, Day(step), k)
    ensures k < |DayNext(setup, s, step).keys| && WriterDaysSound(DayNext(setup, s, step), k)
  {
    DayKeepsTheRest(setup, s, step);
  }

  lemma StepKeepsDaysSound(setup: Setup, s: State, step: DayStep, k: nat)
    requires Shape(setup, s) && DaysSound(s, k) && CanStep(s.dayRoller, step, s.global.day, |s.keys|)
    requires !DayTears(s, Day(step), k)
    ensures DaysSound(DayNext(setup, s, step), k)
  {
    StepKeepsMemorySound(setup, s, step, k);
    StepKeepsWriterSound(setup, s, step, k);
    DayKeepsTheRest(setup, s, step);
  }

  lemma SaveKeepsDaysSound(setup: Setup, s: State, step: SaveStep, k: nat)
    requires Shape(setup, s) && DaysSound(s, k) && CanSave(s.writer, step, |s.keys|) && !DayTears(s, Save(step), k)
    ensures DaysSound(SaveNext(s, step), k)
  {
  }

  lemma BootKeepsDaysSound(setup: Setup, file: File, jobs: nat, month: nat, day: nat, k: nat)
    requires ValidSetup(setup) && FileMatches(setup, file) && k < |setup.cfgs| && FileDaysSound(file, k)
    ensures DaysSound(Booted(setup, file, jobs, month, day), k)
  {
    BootShape(setup, file, month, day);
    if file.Holding? {
      BootKey(setup, file, month, day, k);
      BootLogsDay(setup, file.snap, month, day, k);
    }
  }

  lemma BootLogsDay(setup: Setup, snap: Snapshot, month: nat, day: nat, k: nat)
    requires ValidSetup(setup) && SnapMatches(setup, snap.upstreams) && k < |setup.cfgs|
    requires snap.upstreams[k].dayStart <= snap.upstreams[k].total
    ensures var logged := Logged(Boot(setup, Holding(snap), month, day).global.daily, snap.upstreams[k].name);
            logged <= Logged(snap.daily, snap.upstreams[k].name)
                      + if snap.currentDay == day then 0 else snap.upstreams[k].total - snap.upstreams[k].dayStart
  {
    if snap.currentDay != day && snap.currentDay != 0 {
      var restored := RestoreKeys(FreshKeys(setup.cfgs, setup.rps), snap, month);
      BootKey(setup, Holding(snap), month, day, k);
      assert DistinctNames(restored);
      CapturedDayLogs(restored, snap.currentDay, k);
      LoggedAppend(snap.daily, [CaptureDay(restored, snap.currentDay)], snap.upstreams[k].name);
      TrimmingLogsLess(snap.daily + [CaptureDay(restored, snap.currentDay)], setup.retention, snap.upstreams[k].name);
    }
  }

  /** What changes none of the fields that count here. */
  lemma SameDaysSound(s: State, s': State, k: nat)
    requires DaysSound(s, k) && |s'.keys| == |s.keys|
    requires s'.keys[k].name == s.keys[k].name && s'.keys[k].total == s.keys[k].total
    requires s'.keys[k].dayStart == s.keys[k].dayStart && s'.dayRoller == s.dayRoller
    requires s'.global.daily == s.global.daily && s'.writer == s.writer
    requires s'.file == s.file || !s'.file.Holding?
    ensures DaysSound(s', k)
  {
  }

  lemma EventKeepsDaysSound(setup: Setup, s: State, ev: Event, retries: nat, k: nat)
    requires ValidSetup(setup) && Shape(setup, s) && DaysSound(s, k) && Enabled(s, ev, retries) && !DayTears(s, ev, k)
    ensures DaysSound(Next(setup, s, ev, retries), k)
  {
    if ev.Work? {
      WorkKeepsDaysSound(s, ev.job, ev.move, k);
    } else if ev.Day? {
      StepKeepsDaysSound(setup, s, ev.step, k);
    } else if ev.Save? {
      SaveKeepsDaysSound(setup, s, ev.save, k);
    } else if ev.Crash? {
      BootKeepsDaysSound(setup, s.file, |s.jobs|, ev.month, ev.day, k);
    } else {
      if ev.Roll? {
        RollKeepsTheRest(s, ev.roll);
      }
      SameDaysSound(s, Next(setup, s, ev, retries), k);
    }
  }

  lemma {:induction false} RunKeepsDaysSound(setup: Setup, s: State, evs: seq<Event>, retries: nat, k: nat)
    requires ValidSetup(setup) && Shape(setup, s) && DaysSound(s, k) && NeverDayTorn(setup, s, evs, retries, k)
    ensures DaysSound(Run(setup, s, evs, retries), k)
  {
    if evs != [] {
      var n := |evs| - 1;
      RunKeepsDaysSound(setup, s, evs[..n], retries, k);
      RunKeepsShape(setup, s, evs[..n], retries);
      var before := Run(setup, s, evs[..n], retries);
      if Enabled(before, evs[n], retries) {
        EventKeepsDaysSound(setup, before, evs[n], retries, k);
      }
    }
  }

  /** Saves keep the days consistent over whole lives: start from a file whose stored days are within the key's
      baseline and whose baseline is within its total, and let anything happen, crashes, unreadable files and rolls
      that overlap saves included, so long as no day roll tears the entry of `k`. Then every file is such, no baseline
      is ever ahead, and whenever no day roll is half done the stored days and today's usage are within the total. */
  lemma UntornDaysStayConsistent(setup: Setup, file: File, jobs: nat, month: nat, day: nat, evs: seq<Event>,
        retries: nat, k: nat)
    requires ValidSetup(setup) && month > 0 && FileMatches(setup, file) && k < |setup.cfgs| && FileDaysSound(file, k)
    requires NeverDayTorn(setup, Booted(setup, file, jobs, month, day), evs, retries, k)
    ensures var s := Run(setup, Booted(setup, file, jobs, month, day), evs, retries);
            && DaysSound(s, k) && FileDaysSound(s.file, k)
            && k < |s.keys| && s.keys[k].dayStart <= s.keys[k].total
            && (s.dayRoller.Asleep? ==>
                  Logged(s.global.daily, s.keys[k].name) + s.keys[k].DailyUsed() <= s.keys[k].total)
  {
    BootedShape(setup, file, jobs, month, day);
    BootKeepsDaysSound(setup, file, jobs, month, day, k);
    RunKeepsDaysSound(setup, Booted(setup, file, jobs, month, day), evs, retries, k);
  }
}
