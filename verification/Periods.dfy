/** No period is closed twice, in memory or on disk, while saves and rolls do not overlap. */
module Periods {
  import opened Lifetimes
  import opened Logs
  import opened Persistence
  import opened Restart
  import opened Statistics
  import opened Totals
  import opened Upstreams

  ghost predicate MemoryInOrder(g: Global, days: seq<PeriodRecord>) {
    && ClosedInOrder(g.history, g.month)
    && ClosedInOrder(days, g.day)
  }

  ghost predicate FileInOrder(file: File, saved: seq<PeriodRecord>, g: Global) {
    file.Holding? ==>
      && file.snap.epoch <= g.month && file.snap.currentDay <= g.day
      && ClosedInOrder(file.snap.history, file.snap.epoch)
      && ClosedInOrder(saved, file.snap.currentDay)
  }

  ghost predicate InOrder(setup: Setup, s: Machine) {
    && Shape(setup, s)
    && MemoryInOrder(s.app.global, s.ledger.days)
    && FileInOrder(s.file, s.ledger.savedDays, s.app.global)
  }

  /** The clock shows no earlier month or day than the active ones. */
  predicate OnTime(g: Global, ev: Event) {
    match ev
    case RollMonth(month) => month >= g.month
    case RollDay(day) => day >= g.day
    case Crash(month, day) => month >= g.month && day >= g.day
    case _ => true
  }

  /** The clock never goes back over the run. */
  ghost predicate Forward(setup: Setup, s: Machine, evs: seq<Event>) {
    evs != [] ==>
      var n := |evs| - 1;
      Forward(setup, s, evs[..n]) && OnTime(Run(setup, s, evs[..n]).app.global, evs[n])
  }

  lemma ClosingKeepsOrder(log: seq<PeriodRecord>, r: PeriodRecord, active: nat)
    requires ClosedInOrder(log, r.period) && r.period < active && r.totalCredits == Total(r.points, CreditsOf)
    ensures ClosedInOrder(log + [r], active)
  {
  }

  lemma RollsKeepOrder(setup: Setup, s: Machine, ev: Event)
    requires InOrder(setup, s) && Enabled(s, ev) && OnTime(s.app.global, ev) && ValidSetup(setup)
    requires ev.RollMonth? || ev.RollDay?
    ensures InOrder(setup, Next(setup, s, ev))
  {
    ShapeKept(setup, s, ev);
    var g := s.app.global;
    if ev.RollMonth? && ev.month != g.month {
      ClosingKeepsOrder(g.history, CaptureMonth(s.app.keys, g.month), ev.month);
    }
    if ev.RollDay? && ev.day != g.day {
      ClosingKeepsOrder(s.ledger.days, CaptureDay(s.app.keys, g.day), ev.day);
    }
  }

  lemma CrashKeepsOrder(setup: Setup, s: Machine, month: nat, day: nat)
    requires InOrder(setup, s) && Enabled(s, Crash(month, day)) && ValidSetup(setup)
    requires OnTime(s.app.global, Crash(month, day))
    ensures InOrder(setup, Next(setup, s, Crash(month, day)))
  {
    ShapeKept(setup, s, Crash(month, day));
    if s.file.Holding? {
      var snap, saved := s.file.snap, s.ledger.savedDays;
      if snap.epoch != month {
        ClosingKeepsOrder(snap.history, SnapshotMonth(snap), month);
      } else {
        assert snap.history + [] == snap.history;
      }
      if snap.currentDay != day {
        var r := CaptureDay(RestoreKeys(FreshKeys(setup.cfgs, setup.rps), snap, month), snap.currentDay);
        ClosingKeepsOrder(saved, r, day);
      }
    }
  }

  lemma EventKeepsOrder(setup: Setup, s: Machine, ev: Event)
    requires InOrder(setup, s) && Enabled(s, ev) && OnTime(s.app.global, ev) && ValidSetup(setup)
    ensures InOrder(setup, Next(setup, s, ev))
  {
    if ev.RollMonth? || ev.RollDay? {
      RollsKeepOrder(setup, s, ev);
    } else if ev.Crash? {
      CrashKeepsOrder(setup, s, ev.month, ev.day);
    } else {
      ShapeKept(setup, s, ev);
    }
  }

  /** Through any number of crashes, saves, losses of the file and rollovers, with a clock that never goes back: the
      closed months are strictly ascending and all before the active one, the untrimmed days likewise, and all of this
      holds on disk too. */
  lemma {:induction false} NoPeriodIsClosedTwice(setup: Setup, month: nat, day: nat, evs: seq<Event>)
    requires ValidSetup(setup) && month > 0 && day > 0 && Forward(setup, FirstBoot(setup, month, day), evs)
    ensures InOrder(setup, Run(setup, FirstBoot(setup, month, day), evs))
  {
    if evs == [] {
      BootShape(setup, Absent, month, day);
    } else {
      var n := |evs| - 1;
      NoPeriodIsClosedTwice(setup, month, day, evs[..n]);
      var before := Run(setup, FirstBoot(setup, month, day), evs[..n]);
      if Enabled(before, evs[n]) {
        EventKeepsOrder(setup, before, evs[n]);
      }
    }
  }

  lemma {:induction false} RunKeepsOrder(setup: Setup, s: Machine, evs: seq<Event>)
    requires ValidSetup(setup) && InOrder(setup, s) && Forward(setup, s, evs)
    ensures InOrder(setup, Run(setup, s, evs))
  {
    if evs != [] {
      var n := |evs| - 1;
      RunKeepsOrder(setup, s, evs[..n]);
      var before := Run(setup, s, evs[..n]);
      if Enabled(before, evs[n]) {
        EventKeepsOrder(setup, before, evs[n]);
      }
    }
  }

  lemma EventKeepsDates(setup: Setup, s: Machine, ev: Event)
    requires InOrder(setup, s) && Enabled(s, ev) && !ev.Spoil?
    ensures var s' := Next(setup, s, ev);
            s.file.Holding? ==>
              s'.file.Holding? && s.file.snap.epoch <= s'.file.snap.epoch
              && s.file.snap.currentDay <= s'.file.snap.currentDay
  {
  }

  /** Nor do the file's month and day, if the clock does not and the file is not lost. */
  lemma {:induction false} FileDatesNeverGoBack(setup: Setup, s: Machine, more: seq<Event>)
    requires ValidSetup(setup) && InOrder(setup, s) && Forward(setup, s, more) && forall ev <- more :: !ev.Spoil?
    ensures var s' := Run(setup, s, more);
            s.file.Holding? ==>
              s'.file.Holding? && s.file.snap.epoch <= s'.file.snap.epoch
              && s.file.snap.currentDay <= s'.file.snap.currentDay
  {
    if more != [] {
      var n := |more| - 1;
      FileDatesNeverGoBack(setup, s, more[..n]);
      RunKeepsOrder(setup, s, more[..n]);
      assert more[n] in more;
      var before := Run(setup, s, more[..n]);
      if Enabled(before, more[n]) {
        EventKeepsDates(setup, before, more[n]);
      }
    }
  }
}
