/** Runs in which a roll overlaps a save or a charge, and the books suffer for it. */
module Witnesses {
  import opened Interleaving
  import opened Logs
  import opened Persistence
  import opened Restart
  import opened Schedules
  import opened Statistics
  import opened Totals

  /** A pool of one key. */
  ghost predicate OneKey(s: State) {
    |s.keys| == |s.tallies| == 1 && s.global.month > 0
  }

  lemma RollTheOnlyKey(setup: Setup, s: State, month: nat, retries: nat) returns (evs: seq<Event>)
    requires OneKey(s) && s.roller.Resting? && month > 0 && month != s.global.month
    ensures var points := [UsagePoint(s.keys[0].name, s.keys[0].used)];
            var r := PeriodRecord(s.global.month, Total(points, CreditsOf), points);
            Run(setup, s, evs, retries) ==
            s.(keys := [s.keys[0].RestoreMonthly(month, 0)],
               global := s.global.(month := month, history := s.global.history + [r]))
  {
    var s1, s2, s3, s4;
    assert Run(setup, s, [], retries) == s;
    evs, s1 := Then(setup, s, [], Roll(RollStart(month)), retries);
    evs, s2 := Then(setup, s, evs, Roll(RollCapture), retries);
    evs, s3 := Then(setup, s, evs, Roll(RollPush), retries);
    evs, s4 := Then(setup, s, evs, Roll(RollReset), retries);
  }

  lemma OnePointLogs(history: seq<PeriodRecord>, period: nat, p: UsagePoint)
    ensures Logged(history + [PeriodRecord(period, Total([p], CreditsOf), [p])], p.name)
         == Logged(history, p.name) + p.credits
  {
    var r := PeriodRecord(period, Total([p], CreditsOf), [p]);
    LoggedAppend(history, [r], p.name);
    LoggedOne(r, p.name);
    PointsHoldItOnce([p], 0);
  }

  // ---------------------------------------------------------------------- saves

  function Draft(s: State, now: nat, snaps: seq<UpstreamSnap>): Snapshot {
    Snapshot(SCHEMA_VERSION, s.global.month, now, snaps, 0, map[], [], 0, [])
  }

  /** What the snapshot of `draft` becomes if it reads the rest now. */
  function Finished(s: State, draft: Snapshot): Snapshot {
    draft.(allExhausted := s.global.allExhausted, methods := s.global.methods, history := s.global.history,
           currentDay := s.global.day, daily := s.global.daily)
  }

  lemma ReadsTwoCounters(setup: Setup, s: State, retries: nat) returns (evs: seq<Event>)
    requires OneKey(s) && s.writer.Saving? && s.writer.draft.upstreams == [] && s.writer.part == []
    ensures Run(setup, s, evs, retries) == s.(writer := s.writer.(part := [s.keys[0].used, s.keys[0].total]))
  {
    assert Run(setup, s, [], retries) == s;
    var s1, s2;
    evs, s1 := Then(setup, s, [], Save(SaveUsed), retries);
    evs, s2 := Then(setup, s, evs, Save(SaveTotal), retries);
    assert s2.writer.part == [s.keys[0].used, s.keys[0].total];
  }

  lemma ReadsEntry(setup: Setup, s: State, retries: nat) returns (evs: seq<Event>)
    requires OneKey(s) && s.writer.Saving? && s.writer.draft.upstreams == [] && s.writer.part == []
    ensures Run(setup, s, evs, retries)
         == s.(writer := Saving(s.writer.draft.(upstreams := [SnapOf(s.keys[0])]), []))
  {
    evs := ReadsTwoCounters(setup, s, retries);
    var s1;
    evs, s1 := Then(setup, s, evs, Save(SaveBaseline), retries);
    assert s1.writer.draft.upstreams == [SnapOf(s.keys[0])];
  }

  lemma Starts(setup: Setup, s: State, now: nat, retries: nat) returns (evs: seq<Event>)
    requires OneKey(s) && s.writer.Off?
    ensures Run(setup, s, evs, retries) == s.(writer := Saving(Draft(s, now, []), []))
  {
    assert Run(setup, s, [], retries) == s;
    var s1;
    evs, s1 := Then(setup, s, [], Save(SaveStart(now)), retries);
  }

  lemma SavesEntry(setup: Setup, s: State, now: nat, retries: nat) returns (evs: seq<Event>)
    requires OneKey(s) && s.writer.Off?
    ensures Run(setup, s, evs, retries) == s.(writer := Saving(Draft(s, now, [SnapOf(s.keys[0])]), []))
  {
    evs := Starts(setup, s, now, retries);
    var more := ReadsEntry(setup, Run(setup, s, evs, retries), retries);
    RunConcat(setup, s, evs, more, retries);
    evs := evs + more;
  }

  lemma SavesRest(setup: Setup, s: State, retries: nat) returns (evs: seq<Event>)
    requires OneKey(s) && s.writer.Saving? && |s.writer.draft.upstreams| == 1
    ensures Run(setup, s, evs, retries) == s.(writer := Off, file := Holding(Finished(s, s.writer.draft)))
  {
    assert Run(setup, s, [], retries) == s;
    var s1, s2, s3;
    evs, s1 := Then(setup, s, [], Save(SaveHistory), retries);
    evs, s2 := Then(setup, s, evs, Save(SaveDay), retries);
    evs, s3 := Then(setup, s, evs, Save(SaveFinish), retries);
  }

  lemma SaveTheOnlyKey(setup: Setup, s: State, now: nat, retries: nat) returns (evs: seq<Event>)
    requires OneKey(s) && s.writer.Off?
    ensures Run(setup, s, evs, retries)
         == s.(writer := Off, file := Holding(Finished(s, Draft(s, now, [SnapOf(s.keys[0])]))))
  {
    evs := SavesEntry(setup, s, now, retries);
    var rest := SavesRest(setup, Run(setup, s, evs, retries), retries);
    RunConcat(setup, s, evs, rest, retries);
    evs := evs + rest;
  }

  // ---------------------------------------------------------------------- months

  /** The key's books are exactly its total. */
  ghost predicate MonthsBalance(s: State) {
    OneKey(s) && s.keys[0].total == Logged(s.global.history, s.keys[0].name) + s.keys[0].used
  }

  /** By how much the books of the file's only entry exceed its total. */
  ghost predicate FileExceeds(file: File, name: string, excess: nat) {
    && file.Holding? && |file.snap.upstreams| == 1
    && var e := file.snap.upstreams[0];
    e.name == name && Logged(file.snap.history, name) + e.used == e.total + excess
  }

  /** A save that a roll overtakes counts the closing month twice: the key's month was read before
      the roll and the history after it, so the file's books exceed its lifetime total. */
  lemma SaveAcrossRollCountsTwice(setup: Setup, s: State, month: nat, now: nat, retries: nat) returns (evs: seq<Event>)
    requires MonthsBalance(s) && s.roller.Resting? && s.writer.Off? && month > 0 && month != s.global.month
    ensures FileExceeds(Run(setup, s, evs, retries).file, s.keys[0].name, s.keys[0].used)
  {
    evs := SavesEntry(setup, s, now, retries);
    var more := RollTheOnlyKey(setup, Run(setup, s, evs, retries), month, retries);
    RunConcat(setup, s, evs, more, retries);
    evs := evs + more;
    more := SavesRest(setup, Run(setup, s, evs, retries), retries);
    RunConcat(setup, s, evs, more, retries);
    evs := evs + more;
    OnePointLogs(s.global.history, s.global.month, UsagePoint(s.keys[0].name, s.keys[0].used));
  }

  /** A save inside a roll counts it twice as well: the record was pushed before the save began, but the key's month
      is read before its reset. */
  lemma SaveBeforeResetCountsTwice(setup: Setup, s: State, month: nat, now: nat, retries: nat) returns (evs: seq<Event>)
    requires MonthsBalance(s) && s.roller.Resting? && s.writer.Off? && month > 0 && month != s.global.month
    ensures FileExceeds(Run(setup, s, evs, retries).file, s.keys[0].name, s.keys[0].used)
  {
    evs := RollPushes(setup, s, month, retries);
    OnePointLogs(s.global.history, s.global.month, UsagePoint(s.keys[0].name, s.keys[0].used));
    var save := SaveTheOnlyKey(setup, Run(setup, s, evs, retries), now, retries);
    RunConcat(setup, s, evs, save, retries);
    evs := evs + save;
  }

  /** A roll up to the push of its record, before any reset. */
  lemma RollPushes(setup: Setup, s: State, month: nat, retries: nat) returns (evs: seq<Event>)
    requires OneKey(s) && s.roller.Resting? && month > 0 && month != s.global.month
    ensures var points := [UsagePoint(s.keys[0].name, s.keys[0].used)];
            var r := PeriodRecord(s.global.month, Total(points, CreditsOf), points);
            Run(setup, s, evs, retries) ==
            s.(global := s.global.(month := month, history := s.global.history + [r]), roller := Resetting(points, 0))
  {
    assert Run(setup, s, [], retries) == s;
    var s1, s2, s3;
    evs, s1 := Then(setup, s, [], Roll(RollStart(month)), retries);
    evs, s2 := Then(setup, s, evs, Roll(RollCapture), retries);
    assert s2.roller.points == [UsagePoint(s.keys[0].name, s.keys[0].used)];
    evs, s3 := Then(setup, s, evs, Roll(RollPush), retries);
  }

  /** A month is closed twice, although no entry is torn and the calendar only goes forward: a save that has read the
      epoch is overtaken by a whole roll, and a boot closes the epoch's month again. */
  lemma MonthIsClosedTwice(setup: Setup, s: State, month: nat, now: nat, day: nat, retries: nat)
    returns (evs: seq<Event>)
    requires OneKey(s) && s.roller.Resting? && s.writer.Off? && s.global.month < month && day > 0
    ensures var history := Run(setup, s, evs, retries).global.history;
            && |history| == |s.global.history| + 2
            && history[|history| - 2].period == history[|history| - 1].period == s.global.month
  {
    evs := Starts(setup, s, now, retries);
    var more := RollTheOnlyKey(setup, Run(setup, s, evs, retries), month, retries);
    RunConcat(setup, s, evs, more, retries);
    evs := evs + more;
    more := ReadsEntry(setup, Run(setup, s, evs, retries), retries);
    RunConcat(setup, s, evs, more, retries);
    evs := evs + more;
    more := SavesRest(setup, Run(setup, s, evs, retries), retries);
    RunConcat(setup, s, evs, more, retries);
    evs := evs + more;
    var s5;
    evs, s5 := Then(setup, s, evs, Crash(month, day), retries);
  }

  /** A commit whose monthly add lands between a roll's read and its reset vanishes from the monthly books. */
  lemma LateCommitLeavesTheBooks(setup: Setup, s: State, t: nat, month: nat, retries: nat) returns (evs: seq<Event>)
    requires OneKey(s) && s.roller.Resting? && month > 0 && month != s.global.month
    requires t < |s.jobs| && s.jobs[t].BumpUsed? && s.jobs[t].key == 0
    requires s.keys[0].total == Logged(s.global.history, s.keys[0].name) + s.keys[0].used + s.jobs[t].cost
    ensures var s' := Run(setup, s, evs, retries);
            && |s'.keys| == 1 && s'.roller.Resting? && s'.jobs == s.jobs[t := Idle]
            && s'.keys[0].total == s.keys[0].total
            && Logged(s'.global.history, s'.keys[0].name) + s'.keys[0].used + s.jobs[t].cost == s'.keys[0].total
  {
    var s1, s2, s3, s4, s5;
    assert Run(setup, s, [], retries) == s;
    evs, s1 := Then(setup, s, [], Roll(RollStart(month)), retries);
    evs, s2 := Then(setup, s, evs, Roll(RollCapture), retries);
    evs, s3 := Then(setup, s, evs, Work(t, AddUsed), retries);
    evs, s4 := Then(setup, s, evs, Roll(RollPush), retries);
    evs, s5 := Then(setup, s, evs, Roll(RollReset), retries);
    OnePointLogs(s.global.history, s.global.month, UsagePoint(s.keys[0].name, s.keys[0].used));
  }

  // ---------------------------------------------------------------------- days

  /** The key's stored days and today's usage are exactly its total. */
  ghost predicate DaysBalance(s: State) {
    && OneKey(s) && s.keys[0].dayStart <= s.keys[0].total
    && Logged(s.global.daily, s.keys[0].name) == s.keys[0].dayStart
  }

  function DayOf(s: State, credits: nat): PeriodRecord {
    var points := [UsagePoint(if s.keys == [] then "" else s.keys[0].name, credits)];
    PeriodRecord(s.global.day, Total(points, CreditsOf), points)
  }

  lemma DayRollReads(setup: Setup, s: State, day: nat, retries: nat) returns (evs: seq<Event>)
    requires OneKey(s) && s.dayRoller.Asleep? && day > 0 && day != s.global.day
    ensures Run(setup, s, evs, retries)
         == s.(global := s.global.(day := day),
               dayRoller := Reading(s.global.day, [UsagePoint(s.keys[0].name, s.keys[0].DailyUsed())]))
  {
    assert Run(setup, s, [], retries) == s;
    var s1, s2;
    evs, s1 := Then(setup, s, [], Day(Start(day)), retries);
    evs, s2 := Then(setup, s, evs, Day(Read), retries);
    assert s2.dayRoller.points == [UsagePoint(s.keys[0].name, s.keys[0].DailyUsed())];
  }

  lemma DayRollEnds(setup: Setup, s: State, retries: nat) returns (evs: seq<Event>)
    requires OneKey(s) && s.dayRoller.Reading? && |s.dayRoller.points| == 1 && setup.retention == 0
    ensures var closed := ClosingDay(s.dayRoller);
            Run(setup, s, evs, retries) ==
            s.(keys := [s.keys[0].StartNewDay()], days := s.days + [closed], dayRoller := Asleep,
               global := s.global.(daily := s.global.daily + [closed]))
  {
    assert Run(setup, s, [], retries) == s;
    var s1, s2, s3;
    evs, s1 := Then(setup, s, [], Day(Push), retries);
    evs, s2 := Then(setup, s, evs, Day(Load), retries);
    evs, s3 := Then(setup, s, evs, Day(Store), retries);
  }

  lemma RollTheOnlyDay(setup: Setup, s: State, day: nat, retries: nat) returns (evs: seq<Event>)
    requires OneKey(s) && s.dayRoller.Asleep? && day > 0 && day != s.global.day && setup.retention == 0
    ensures var closed := DayOf(s, s.keys[0].DailyUsed());
            Run(setup, s, evs, retries) ==
            s.(keys := [s.keys[0].StartNewDay()], days := s.days + [closed],
               global := s.global.(day := day, daily := s.global.daily + [closed]))
  {
    evs := DayRollReads(setup, s, day, retries);
    var more := DayRollEnds(setup, Run(setup, s, evs, retries), retries);
    RunConcat(setup, s, evs, more, retries);
    evs := evs + more;
  }

  /** A save that a day roll overtakes counts the closing day twice. */
  lemma SaveAcrossDayRollCountsTwice(setup: Setup, s: State, day: nat, now: nat, retries: nat) returns (evs: seq<Event>)
    requires DaysBalance(s) && s.dayRoller.Asleep? && s.writer.Off? && day > 0 && day != s.global.day
    requires setup.retention == 0
    ensures var file := Run(setup, s, evs, retries).file;
            && file.Holding? && |file.snap.upstreams| == 1
            && var e := file.snap.upstreams[0];
            e.name == s.keys[0].name && e.dayStart <= e.total
            && Logged(file.snap.daily, e.name) + (e.total - e.dayStart) == e.total + s.keys[0].DailyUsed()
  {
    evs := SavesEntry(setup, s, now, retries);
    var more := RollTheOnlyDay(setup, Run(setup, s, evs, retries), day, retries);
    RunConcat(setup, s, evs, more, retries);
    evs := evs + more;
    more := SavesRest(setup, Run(setup, s, evs, retries), retries);
    RunConcat(setup, s, evs, more, retries);
    evs := evs + more;
    OnePointLogs(s.global.daily, s.global.day, UsagePoint(s.keys[0].name, s.keys[0].DailyUsed()));
  }

  /** A save that has read a key's total, but not its baseline, when a charge and then a day roll come in, writes a
      baseline that is ahead of the total by the charge. */
  lemma SavedBaselineIsAhead(setup: Setup, s: State, t: nat, day: nat, now: nat, retries: nat) returns (evs: seq<Event>)
    requires OneKey(s) && s.dayRoller.Asleep? && s.writer.Off? && day > 0 && day != s.global.day
    requires t < |s.jobs| && s.jobs[t].BumpTotal? && s.jobs[t].key == 0 && setup.retention == 0
    ensures var file := Run(setup, s, evs, retries).file;
            && file.Holding? && |file.snap.upstreams| == 1
            && file.snap.upstreams[0].dayStart == file.snap.upstreams[0].total + s.jobs[t].cost
  {
    evs := Starts(setup, s, now, retries);
    var more := ReadsTwoCounters(setup, Run(setup, s, evs, retries), retries);
    RunConcat(setup, s, evs, more, retries);
    evs := evs + more;
    var s1, s2;
    evs, s1 := Then(setup, s, evs, Work(t, AddTotal), retries);
    more := RollTheOnlyDay(setup, s1, day, retries);
    RunConcat(setup, s, evs, more, retries);
    evs := evs + more;
    evs, s2 := Then(setup, s, evs, Save(SaveBaseline), retries);
    more := SavesRest(setup, s2, retries);
    RunConcat(setup, s, evs, more, retries);
    evs := evs + more;
  }

  /** A charge between a day roll's read of the key and its load of the new baseline is in no day. */
  lemma LateChargeLeavesTheDays(setup: Setup, s: State, t: nat, day: nat, retries: nat) returns (evs: seq<Event>)
    requires DaysBalance(s) && s.dayRoller.Asleep? && day > 0 && day != s.global.day && setup.retention == 0
    requires t < |s.jobs| && s.jobs[t].BumpTotal? && s.jobs[t].key == 0
    ensures var s' := Run(setup, s, evs, retries);
            && OneKey(s') && s'.dayRoller.Asleep?
            && s'.keys[0].total == s.keys[0].total + s.jobs[t].cost
            && Logged(s'.global.daily, s'.keys[0].name) + s'.keys[0].DailyUsed() + s.jobs[t].cost == s'.keys[0].total
  {
    evs := DayRollReads(setup, s, day, retries);
    var s1;
    evs, s1 := Then(setup, s, evs, Work(t, AddTotal), retries);
    var more := DayRollEnds(setup, s1, retries);
    RunConcat(setup, s, evs, more, retries);
    evs := evs + more;
    OnePointLogs(s.global.daily, s.global.day, UsagePoint(s.keys[0].name, s.keys[0].DailyUsed()));
  }
}
