/** What is on disk only grows, whatever the calendar does. */
module Growth {
  import opened Lifetimes
  import opened Persistence
  import opened Restart
  import opened Statistics
  import RoundTrip

  predicate EntryAtMost(e: UpstreamSnap, f: UpstreamSnap) {
    e.total <= f.total && e.ok <= f.ok && e.limited <= f.limited && e.errors <= f.errors && e.hits <= f.hits
  }

  predicate TalliesAtMost(a: map<string, nat>, b: map<string, nat>) {
    forall m <- a :: m in b && a[m] <= b[m]
  }

  ghost predicate SnapAtMost(a: Snapshot, b: Snapshot) {
    && |a.upstreams| == |b.upstreams|
    && (forall k :: 0 <= k < |a.upstreams| ==> EntryAtMost(a.upstreams[k], b.upstreams[k]))
    && a.allExhausted <= b.allExhausted
    && TalliesAtMost(a.methods, b.methods)
    && a.history <= b.history
  }

  /** What a save would write now is at least what the file holds. */
  ghost predicate MemoryCoversFile(s: Machine) {
    s.file.Holding? ==>
      SnapAtMost(s.file.snap, Capture(s.app.keys, s.app.global, 0)) && s.ledger.savedDays <= s.ledger.days
  }

  lemma {:induction false} TallyGrows(methods: map<string, nat>, names: seq<string>)
    ensures TalliesAtMost(methods, Tally(methods, names))
  {
    if names != [] {
      TallyGrows(methods, names[..|names| - 1]);
    }
  }

  lemma KeyGrows(s: Machine, setup: Setup, ev: Event, k: nat)
    requires Shape(setup, s) && Enabled(s, ev) && !ev.Crash? && k < |s.app.keys|
    ensures |Next(setup, s, ev).app.keys| == |s.app.keys|
    ensures EntryAtMost(SnapOf(s.app.keys[k]), SnapOf(Next(setup, s, ev).app.keys[k]))
  {
    if ev.Settle? || ev.Ping? {
      ChargedKeyGrows(s, setup, ev, k);
    }
  }

  lemma ChargedKeyGrows(s: Machine, setup: Setup, ev: Event, k: nat)
    requires Shape(setup, s) && Enabled(s, ev) && (ev.Settle? || ev.Ping?) && k < |s.app.keys|
    ensures |Next(setup, s, ev).app.keys| == |s.app.keys|
    ensures EntryAtMost(SnapOf(s.app.keys[k]), SnapOf(Next(setup, s, ev).app.keys[k]))
  {
  }

  lemma GlobalGrows(s: Machine, setup: Setup, ev: Event)
    requires Shape(setup, s) && Enabled(s, ev) && !ev.Crash?
    ensures var g, g' := s.app.global, Next(setup, s, ev).app.global;
            && g.allExhausted <= g'.allExhausted && TalliesAtMost(g.methods, g'.methods)
            && g.history <= g'.history
  {
    if ev.Settle? {
      TallyGrows(s.app.global.methods, ev.req.methods);
    }
  }

  /** Between crashes nothing that a snapshot counts ever goes down. */
  lemma MemoryGrows(setup: Setup, s: Machine, ev: Event)
    requires Shape(setup, s) && Enabled(s, ev) && !ev.Crash?
    ensures SnapAtMost(Capture(s.app.keys, s.app.global, 0),
                       Capture(Next(setup, s, ev).app.keys, Next(setup, s, ev).app.global, 0))
  {
    GlobalGrows(s, setup, ev);
    forall k | 0 <= k < |s.app.keys|
      ensures EntryAtMost(SnapOf(s.app.keys[k]), SnapOf(Next(setup, s, ev).app.keys[k]))
    {
      KeyGrows(s, setup, ev, k);
    }
    if |s.app.keys| > 0 {
      KeyGrows(s, setup, ev, 0);
    }
  }

  lemma CrashRestoresFile(setup: Setup, s: Machine, month: nat, day: nat)
    requires Shape(setup, s) && Enabled(s, Crash(month, day)) && ValidSetup(setup)
    ensures MemoryCoversFile(Next(setup, s, Crash(month, day)))
  {
    if s.file.Holding? {
      var s' := Next(setup, s, Crash(month, day));
      forall k | 0 <= k < |s.file.snap.upstreams|
        ensures EntryAtMost(s.file.snap.upstreams[k], SnapOf(s'.app.keys[k]))
      {
        RoundTrip.FindsItsEntry(s.file.snap.upstreams, k);
      }
    }
  }

  lemma AtMostIsTransitive(a: Snapshot, b: Snapshot, c: Snapshot)
    requires SnapAtMost(a, b) && SnapAtMost(b, c)
    ensures SnapAtMost(a, c)
  {
    forall k | 0 <= k < |a.upstreams| ensures EntryAtMost(a.upstreams[k], c.upstreams[k]) {
      assert EntryAtMost(a.upstreams[k], b.upstreams[k]) && EntryAtMost(b.upstreams[k], c.upstreams[k]);
    }
  }

  /** From one event to the next the file, while it is not lost, only gains. */
  ghost predicate FileGrows(s: Machine, s': Machine) {
    s.file.Holding? ==>
      s'.file.Holding? && SnapAtMost(s.file.snap, s'.file.snap) && s.ledger.savedDays <= s'.ledger.savedDays
  }

  lemma EventGrows(setup: Setup, s: Machine, ev: Event)
    requires ValidSetup(setup) && Shape(setup, s) && MemoryCoversFile(s) && Enabled(s, ev)
    ensures MemoryCoversFile(Next(setup, s, ev))
    ensures !ev.Spoil? ==> FileGrows(s, Next(setup, s, ev))
  {
    if ev.Crash? {
      CrashRestoresFile(setup, s, ev.month, ev.day);
      if s.file.Holding? {
        AtMostIsReflexive(s.file.snap);
      }
    } else {
      MemoryGrows(setup, s, ev);
      LiveEventGrows(setup, s, ev);
    }
  }

  lemma AtMostIsReflexive(a: Snapshot)
    ensures SnapAtMost(a, a)
  {
  }

  lemma LiveEventGrows(setup: Setup, s: Machine, ev: Event)
    requires MemoryCoversFile(s) && Enabled(s, ev) && !ev.Crash? && |s.ledger.lost| == |s.ledger.unsaved|
    requires SnapAtMost(Capture(s.app.keys, s.app.global, 0),
                        Capture(Next(setup, s, ev).app.keys, Next(setup, s, ev).app.global, 0))
    ensures MemoryCoversFile(Next(setup, s, ev))
    ensures !ev.Spoil? ==> FileGrows(s, Next(setup, s, ev))
  {
    var now := Capture(s.app.keys, s.app.global, 0);
    var after := Capture(Next(setup, s, ev).app.keys, Next(setup, s, ev).app.global, 0);
    if ev.Save? {
      AtMostIsReflexive(now);
    } else if s.file.Holding? && !ev.Spoil? {
      AtMostIsTransitive(s.file.snap, now, after);
      AtMostIsReflexive(s.file.snap);
    }
  }

  lemma {:induction false} LivesCoverTheirFile(setup: Setup, month: nat, day: nat, evs: seq<Event>)
    requires ValidSetup(setup) && month > 0 && day > 0
    ensures MemoryCoversFile(Run(setup, FirstBoot(setup, month, day), evs))
  {
    if evs != [] {
      var n := |evs| - 1;
      LivesCoverTheirFile(setup, month, day, evs[..n]);
      LivesKeepShape(setup, month, day, evs[..n]);
      var before := Run(setup, FirstBoot(setup, month, day), evs[..n]);
      if Enabled(before, evs[n]) {
        EventGrows(setup, before, evs[n]);
      }
    }
  }

  lemma {:induction false} RunGrows(setup: Setup, s: Machine, more: seq<Event>)
    requires ValidSetup(setup) && Shape(setup, s) && MemoryCoversFile(s) && forall ev <- more :: !ev.Spoil?
    ensures Shape(setup, Run(setup, s, more)) && MemoryCoversFile(Run(setup, s, more))
    ensures FileGrows(s, Run(setup, s, more))
  {
    if more == [] {
      if s.file.Holding? {
        AtMostIsReflexive(s.file.snap);
      }
    } else {
      var n := |more| - 1;
      RunGrows(setup, s, more[..n]);
      var before := Run(setup, s, more[..n]);
      assert more[n] in more;
      if Enabled(before, more[n]) {
        ShapeKept(setup, before, more[n]);
        EventGrows(setup, before, more[n]);
        if s.file.Holding? {
          AtMostIsTransitive(s.file.snap, before.file.snap, Next(setup, before, more[n]).file.snap);
        }
      }
    }
  }

  /** The file never goes back over any further events of a life, whatever crashes they hold and whatever the calendar
      does, unless it is lost: its lifetime counters never decrease, and each saved history and untrimmed daily log
      extends the ones saved before. */
  lemma FileNeverGoesBack(setup: Setup, month: nat, day: nat, evs: seq<Event>, more: seq<Event>)
    requires ValidSetup(setup) && month > 0 && day > 0 && forall ev <- more :: !ev.Spoil?
    ensures var s := Run(setup, FirstBoot(setup, month, day), evs); FileGrows(s, Run(setup, s, more))
  {
    LivesKeepShape(setup, month, day, evs);
    LivesCoverTheirFile(setup, month, day, evs);
    RunGrows(setup, Run(setup, FirstBoot(setup, month, day), evs), more);
  }
}
