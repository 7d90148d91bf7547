/** When closed periods stay in order under interleaving, over saves and boots. */
module ClosingOrder {
  import opened Interleaving
  import opened Logs
  import opened Persistence
  import opened Restart
  import opened SaveRace
  import opened Statistics
  import opened Totals
  import opened Upstreams

  /** The clock shows no earlier month or day than the active ones. */
  predicate OnTime(g: Global, ev: Event) {
    match ev
    case Roll(RollStart(month)) => month >= g.month
    case Day(Start(day)) => day >= g.day
    case Crash(month, day) => month >= g.month && day >= g.day
    case _ => true
  }

  /** A roll closes the month that a save has read as the epoch, before the save reads the history. */
  predicate ClosesEpoch(s: State, ev: Event) {
    ev == Roll(RollPush) && s.roller.Capturing? && s.writer.Saving? && s.roller.prev >= s.writer.draft.epoch
  }

  /** A day roll closes the day that a save has read as the current one, before the save reads the daily log. */
  predicate ClosesCurrentDay(s: State, ev: Event) {
    ev == Day(Push) && s.dayRoller.Reading? && s.writer.Ending? && s.dayRoller.day >= s.writer.draft.currentDay
  }

  /** Over the run the clock never goes back, and no roll closes a period under a save. */
  ghost predicate Orderly(setup: Setup, s: State, evs: seq<Event>, retries: nat) {
    evs != [] ==>
      var n := |evs| - 1;
      var before := Run(setup, s, evs[..n], retries);
      && Orderly(setup, s, evs[..n], retries)
      && (Enabled(before, evs[n], retries) ==>
            OnTime(before.global, evs[n]) && !ClosesEpoch(before, evs[n]) && !ClosesCurrentDay(before, evs[n]))
  }

  /** Each period closed once, in order, before the active one; a roll's own period is still to be closed. */
  ghost predicate MonthsInOrder(g: Global, roller: Roller) {
    && g.month > 0 && ClosedInOrder(g.history, g.month)
    && (roller.Capturing? ==> ClosedInOrder(g.history, roller.prev) && roller.prev < g.month)
  }

  ghost predicate DaysInOrder(g: Global, roller: DayRoller) {
    && g.day > 0 && ClosedInOrder(g.daily, g.day)
    && (roller.Reading? ==> ClosedInOrder(g.daily, roller.day) && roller.day < g.day)
  }

  ghost predicate MemoryInOrder(s: State) {
    MonthsInOrder(s.global, s.roller) && DaysInOrder(s.global, s.dayRoller)
  }

  /** So it is in the file, whose epoch and day are not in its logs and not in the future. */
  ghost predicate FileInOrder(file: File, g: Global) {
    file.Holding? ==>
      && 0 < file.snap.epoch <= g.month && ClosedInOrder(file.snap.history, file.snap.epoch)
      && 0 < file.snap.currentDay <= g.day && ClosedInOrder(file.snap.daily, file.snap.currentDay)
  }

  ghost predicate WriterInOrder(s: State) {
    && (!s.writer.Off? ==> 0 < s.writer.draft.epoch <= s.global.month
                           && ClosedInOrder(DraftHistory(s), s.writer.draft.epoch))
    && (s.writer.Ending? ==> 0 < s.writer.draft.currentDay <= s.global.day
                             && ClosedInOrder(s.global.daily, s.writer.draft.currentDay))
  }

  ghost predicate InOrder(s: State) {
    MemoryInOrder(s) && WriterInOrder(s) && FileInOrder(s.file, s.global)
  }

  lemma LaterBound(log: seq<PeriodRecord>, bound: nat, later: nat)
    requires ClosedInOrder(log, bound) && bound <= later
    ensures ClosedInOrder(log, later)
  {
  }

  lemma ClosingKeepsOrder(log: seq<PeriodRecord>, r: PeriodRecord, active: nat)
    requires ClosedInOrder(log, r.period) && r.period < active && r.totalCredits == Total(r.points, CreditsOf)
    ensures ClosedInOrder(log + [r], active)
  {
  }

  lemma TrimmingKeepsOrder(log: seq<PeriodRecord>, retention: nat, active: nat)
    requires ClosedInOrder(log, active)
    ensures ClosedInOrder(TrimFront(log, retention), active)
  {
  }

  lemma RollKeepsOrder(setup: Setup, s: State, step: RollStep)
    requires InOrder(s) && CanRoll(s.roller, step, s.global.month, |s.keys|)
    requires OnTime(s.global, Roll(step)) && !ClosesEpoch(s, Roll(step))
    ensures InOrder(RollNext(s, step))
  {
    match step
    case RollStart(month) => LaterBound(s.global.history, s.global.month, month);
    case RollPush =>
      var r := ClosingRecord(s.roller);
      ClosingKeepsOrder(s.global.history, r, s.global.month);
      if s.writer.Saving? {
        ClosingKeepsOrder(s.global.history, r, s.writer.draft.epoch);
      }
    case _ =>
  }

  lemma DayKeepsOrder(setup: Setup, s: State, step: DayStep)
    requires InOrder(s) && CanStep(s.dayRoller, step, s.global.day, |s.keys|)
    requires OnTime(s.global, Day(step)) && !ClosesCurrentDay(s, Day(step))
    ensures InOrder(DayNext(setup, s, step))
  {
    match step
    case Start(day) => LaterBound(s.global.daily, s.global.day, day);
    case Push =>
      var r := ClosingDay(s.dayRoller);
      ClosingKeepsOrder(s.global.daily, r, s.global.day);
      TrimmingKeepsOrder(s.global.daily + [r], setup.retention, s.global.day);
      if s.writer.Ending? {
        ClosingKeepsOrder(s.global.daily, r, s.writer.draft.currentDay);
        TrimmingKeepsOrder(s.global.daily + [r], setup.retention, s.writer.draft.currentDay);
      }
    case _ =>
  }

  lemma SaveKeepsOrder(s: State, step: SaveStep)
    requires InOrder(s) && CanSave(s.writer, step, |s.keys|)
    ensures InOrder(SaveNext(s, step))
  {
  }

  lemma BootKeepsOrder(setup: Setup, file: File, g: Global, jobs: nat, month: nat, day: nat)
    requires FileInOrder(file, g) && month > 0 && day > 0 && month >= g.month && day >= g.day
    ensures InOrder(Booted(setup, file, jobs, month, day))
  {
    if file.Holding? {
      var snap := file.snap;
      if snap.epoch != month {
        ClosingKeepsOrder(snap.history, SnapshotMonth(snap), month);
      } else {
        assert snap.history + [] == snap.history;
      }
      if snap.currentDay != day {
        var r := CaptureDay(RestoreKeys(FreshKeys(setup.cfgs, setup.rps), snap, month), snap.currentDay);
        ClosingKeepsOrder(snap.daily, r, day);
        TrimmingKeepsOrder(snap.daily + [r], setup.retention, day);
      }
    }
  }

  lemma EventKeepsOrder(setup: Setup, s: State, ev: Event, retries: nat)
    requires InOrder(s) && Enabled(s, ev, retries)
    requires OnTime(s.global, ev) && !ClosesEpoch(s, ev) && !ClosesCurrentDay(s, ev)
    ensures InOrder(Next(setup, s, ev, retries))
  {
    match ev
    case Work(t, move) => WorkKeepsNames(s, t, move);
    case Roll(step) => RollKeepsOrder(setup, s, step);
    case Day(step) => DayKeepsOrder(setup, s, step);
    case Save(step) => SaveKeepsOrder(s, step);
    case Crash(month, day) => BootKeepsOrder(setup, s.file, s.global, |s.jobs|, month, day);
    case _ =>
  }

  lemma {:induction false} RunKeepsOrder(setup: Setup, s: State, evs: seq<Event>, retries: nat)
    requires InOrder(s) && Orderly(setup, s, evs, retries)
    ensures InOrder(Run(setup, s, evs, retries))
  {
    if evs != [] {
      var n := |evs| - 1;
      RunKeepsOrder(setup, s, evs[..n], retries);
      var before := Run(setup, s, evs[..n], retries);
      if Enabled(before, evs[n], retries) {
        EventKeepsOrder(setup, before, evs[n], retries);
      }
    }
  }

  /** With a clock that never goes back, closed periods are strictly ascending and before the active one, in memory, in
      every save and on disk, through any number of crashes and unreadable files and whatever rolls overlap saves: so
      long as none closes the save's epoch before it reads the history, or the save's day before it reads the days. */
  lemma PeriodsStayInOrder(setup: Setup, file: File, jobs: nat, month: nat, day: nat, evs: seq<Event>, retries: nat)
    requires month > 0 && day > 0 && FileInOrder(file, NO_STATS.(month := month, day := day))
    requires Orderly(setup, Booted(setup, file, jobs, month, day), evs, retries)
    ensures InOrder(Run(setup, Booted(setup, file, jobs, month, day), evs, retries))
  {
    BootKeepsOrder(setup, file, NO_STATS.(month := month, day := day), jobs, month, day);
    RunKeepsOrder(setup, Booted(setup, file, jobs, month, day), evs, retries);
  }

  // ---------------------------------------------------------------------- one save, exactly

  /** Some roll closes the save's epoch before the save reads the history. */
  ghost predicate EpochClosed(setup: Setup, s: State, evs: seq<Event>, retries: nat) {
    evs != [] &&
    var n := |evs| - 1;
    var before := Run(setup, s, evs[..n], retries);
    EpochClosed(setup, s, evs[..n], retries) || (Enabled(before, evs[n], retries) && ClosesEpoch(before, evs[n]))
  }

  /** The clock never goes back over the run. */
  ghost predicate Forward(setup: Setup, s: State, evs: seq<Event>, retries: nat) {
    evs != [] ==>
      var n := |evs| - 1;
      && Forward(setup, s, evs[..n], retries)
      && (Enabled(Run(setup, s, evs[..n], retries), evs[n], retries) ==>
            OnTime(Run(setup, s, evs[..n], retries).global, evs[n]))
  }

  /** The months the save has or will have in its history are closed ones. */
  ghost predicate DraftMonthsInOrder(s: State) {
    !s.writer.Off? && ClosedInOrder(DraftHistory(s), s.writer.draft.epoch)
  }

  lemma RollKeepsMonths(s: State, step: RollStep)
    requires MonthsInOrder(s.global, s.roller) && CanRoll(s.roller, step, s.global.month, |s.keys|)
    requires OnTime(s.global, Roll(step)) && !s.writer.Off?
    ensures MonthsInOrder(RollNext(s, step).global, RollNext(s, step).roller)
    ensures DraftMonthsInOrder(RollNext(s, step)) <==> DraftMonthsInOrder(s) && !ClosesEpoch(s, Roll(step))
  {
    match step
    case RollStart(month) => LaterBound(s.global.history, s.global.month, month);
    case RollPush =>
      var r := ClosingRecord(s.roller);
      ClosingKeepsOrder(s.global.history, r, s.global.month);
      if s.writer.Saving? {
        var log := s.global.history + [r];
        assert log[|log| - 1] == r;
        assert forall i :: 0 <= i < |s.global.history| ==> log[i] == s.global.history[i];
        if s.roller.prev < s.writer.draft.epoch {
          ClosingKeepsOrder(s.global.history, r, s.writer.draft.epoch);
        }
      }
    case _ =>
  }

  lemma EventKeepsMonths(setup: Setup, s: State, ev: Event, retries: nat)
    requires MonthsInOrder(s.global, s.roller) && Enabled(s, ev, retries) && OnTime(s.global, ev)
    requires DuringSave(ev) && !s.writer.Off?
    ensures var s' := Next(setup, s, ev, retries);
            && MonthsInOrder(s'.global, s'.roller) && !s'.writer.Off?
            && (DraftMonthsInOrder(s') <==> DraftMonthsInOrder(s) && !ClosesEpoch(s, ev))
            && s'.writer.draft.epoch == s.writer.draft.epoch
  {
    match ev
    case Work(t, move) => WorkKeepsNames(s, t, move);
    case Roll(step) => RollKeepsMonths(s, step);
    case Day(step) => DayKeepsTheRest(setup, s, step);
    case Save(step) => SaveKeepsTheRest(s, step);
    case _ =>
  }

  lemma {:induction false} SaveRunKeepsMonths(setup: Setup, s: State, evs: seq<Event>, retries: nat)
    requires MonthsInOrder(s.global, s.roller) && DraftMonthsInOrder(s)
    requires Forward(setup, s, evs, retries) && forall ev <- evs :: DuringSave(ev)
    ensures var s' := Run(setup, s, evs, retries);
            && MonthsInOrder(s'.global, s'.roller) && !s'.writer.Off?
            && (DraftMonthsInOrder(s') <==> !EpochClosed(setup, s, evs, retries))
  {
    if evs != [] {
      var n := |evs| - 1;
      SaveRunKeepsMonths(setup, s, evs[..n], retries);
      assert DuringSave(evs[n]);
      var before := Run(setup, s, evs[..n], retries);
      if Enabled(before, evs[n], retries) {
        EventKeepsMonths(setup, before, evs[n], retries);
      }
    }
  }

  /** One save, from its first access to its last: the months it writes are strictly ascending and before its epoch, so
      that a boot can close that month next, if and only if no roll closes it between the reads of the epoch and of
      the history. */
  lemma SavedMonthsInOrderIff(setup: Setup, s: State, now: nat, evs: seq<Event>, retries: nat)
    requires MonthsInOrder(s.global, s.roller) && Enabled(s, Save(SaveStart(now)), retries)
    requires Forward(setup, Next(setup, s, Save(SaveStart(now)), retries), evs, retries)
    requires forall ev <- evs :: DuringSave(ev)
    ensures var start := Next(setup, s, Save(SaveStart(now)), retries);
            var done := Run(setup, start, evs, retries);
            Enabled(done, Save(SaveFinish), retries) ==>
              var snap := Next(setup, done, Save(SaveFinish), retries).file.snap;
              ClosedInOrder(snap.history, snap.epoch) <==> !EpochClosed(setup, start, evs, retries)
  {
    SaveRunKeepsMonths(setup, Next(setup, s, Save(SaveStart(now)), retries), evs, retries);
  }
}
