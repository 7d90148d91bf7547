/** What a deployment keeps over restarts, and the state a boot starts from. */
module Restart {
  import opened Logs
  import opened Persistence
  import opened Ratelimit
  import opened RoundTrip
  import opened Statistics
  import opened Totals
  import opened Upstreams
  import opened Wrappers

  /** What stays the same over every restart. */
  datatype Setup = Setup(cfgs: seq<UpstreamConfig>, rps: RpsConfig, policy: ErrorPolicy, retention: nat)

  function Boot(setup: Setup, file: File, month: nat, day: nat): App {
    RestoreInto(BlankApp(setup.cfgs, setup.rps), file, setup.policy, month, day, setup.retention)
  }

  ghost predicate NamesMatch(setup: Setup, keys: seq<Key>) {
    && |keys| == |setup.cfgs|
    && DistinctNames(keys)
    && forall i :: 0 <= i < |keys| ==> keys[i].name == setup.cfgs[i].name && keys[i].cap == setup.cfgs[i].creditCap
  }

  ghost predicate ValidSetup(setup: Setup) {
    forall i, j :: 0 <= i < j < |setup.cfgs| ==> setup.cfgs[i].name != setup.cfgs[j].name
  }

  lemma BootShape(setup: Setup, file: File, month: nat, day: nat)
    requires ValidSetup(setup)
    ensures NamesMatch(setup, Boot(setup, file, month, day).keys)
    ensures Boot(setup, file, month, day).global.month == month && Boot(setup, file, month, day).global.day == day
  {
    var keys, blank := Boot(setup, file, month, day).keys, FreshKeys(setup.cfgs, setup.rps);
    forall i | 0 <= i < |keys| ensures keys[i].name == setup.cfgs[i].name && keys[i].cap == setup.cfgs[i].creditCap {
      assert blank[i].name == setup.cfgs[i].name;
    }
  }

  ghost predicate SnapMatches(setup: Setup, snaps: seq<UpstreamSnap>) {
    && |snaps| == |setup.cfgs|
    && DistinctSnaps(snaps)
    && forall i :: 0 <= i < |snaps| ==> snaps[i].name == setup.cfgs[i].name
  }

  lemma BootKey(setup: Setup, file: File, month: nat, day: nat, k: nat)
    requires file.Holding? && SnapMatches(setup, file.snap.upstreams) && k < |setup.cfgs|
    ensures var key, e := RestoreKeys(FreshKeys(setup.cfgs, setup.rps), file.snap, month)[k], file.snap.upstreams[k];
            && key.name == e.name && key.total == e.total && key.dayStart == e.dayStart
            && key.used == (if file.snap.epoch == month then e.used else 0)
            && Boot(setup, file, month, day).keys[k] == if file.snap.currentDay == day then key else key.StartNewDay()
  {
    FindsItsEntry(file.snap.upstreams, k);
  }

  /** A boot closes the snapshot's month or goes on with it; either way the key's books hold what they held. */
  lemma BootHistory(setup: Setup, snap: Snapshot, month: nat, day: nat, k: nat)
    requires SnapMatches(setup, snap.upstreams) && k < |setup.cfgs| && snap.epoch != 0
    ensures var app, e := Boot(setup, Holding(snap), month, day), snap.upstreams[k];
            && app.keys[k].name == e.name && app.keys[k].total == e.total
            && Logged(app.global.history, e.name) + app.keys[k].used == Logged(snap.history, e.name) + e.used
  {
    BootKey(setup, Holding(snap), month, day, k);
    if snap.epoch != month {
      SnapshotMonthLogs(snap, k);
      LoggedAppend(snap.history, [SnapshotMonth(snap)], snap.upstreams[k].name);
    } else {
      assert snap.history + [] == snap.history;
    }
  }

  // ---------------------------------------------------------------------- a boot, field by field

  /** A configured key that the file knows gets the counters of the first entry of its name; its month goes on or starts
      at zero, its day goes on or starts from its total. */
  lemma BootRestoresFirstEntry(setup: Setup, snap: Snapshot, month: nat, day: nat, i: nat, first: nat)
    requires i < |setup.cfgs| && first < |snap.upstreams| && snap.upstreams[first].name == setup.cfgs[i].name
    requires forall j :: 0 <= j < first ==> snap.upstreams[j].name != setup.cfgs[i].name
    ensures var keys, c, e := Boot(setup, Holding(snap), month, day).keys, setup.cfgs[i], snap.upstreams[first];
            && |keys| == |setup.cfgs|
            && var k := keys[i];
            && k.name == c.name && k.cap == c.creditCap && k.enabled == c.enabled && k.tokens == FullBuckets(setup.rps)
            && k.total == e.total && k.ok == e.ok && k.limited == e.limited && k.errors == e.errors && k.hits == e.hits
            && k.used == (if snap.epoch == month then e.used else 0) && k.epoch == month
            && k.dayStart == (if snap.currentDay == day then e.dayStart else e.total)
            && k.cooldownUntil == k.backoffStep == k.inFlight == 0
  {
    FindsItsEntry(snap.upstreams, first);
  }

  /** A configured key that the file does not know starts with nothing. */
  lemma BootStartsUnknownAfresh(setup: Setup, snap: Snapshot, month: nat, day: nat, i: nat)
    requires i < |setup.cfgs| && forall e <- snap.upstreams :: e.name != setup.cfgs[i].name
    ensures var keys, c := Boot(setup, Holding(snap), month, day).keys, setup.cfgs[i];
            && |keys| == |setup.cfgs|
            && keys[i] == Key(c.name, c.creditCap, 0, month, 0, 0, 0, c.enabled, 0, 0, 0, 0, 0, 0,
                              FullBuckets(setup.rps))
  {
    FindsNothing(snap.upstreams, setup.cfgs[i].name);
    var blank := FreshKeys(setup.cfgs, setup.rps)[i];
    assert RestoreLifetime(blank, snap.upstreams) == blank;
    assert RestoreKey(blank, snap, month) == blank.(epoch := month);
  }

  lemma {:induction false} FindsNothing(snaps: seq<UpstreamSnap>, name: string)
    requires forall e <- snaps :: e.name != name
    ensures Find(snaps, name) == None
  {
    if snaps != [] {
      FindsNothing(snaps[1..], name);
    }
  }

  /** Without a readable file every key starts with nothing charged; its month's usage is zero, but the whole cap if the
      file is there, unreadable, and the policy is to assume the worst. */
  lemma BootWithoutFile(setup: Setup, file: File, month: nat, day: nat, i: nat)
    requires !file.Holding? && i < |setup.cfgs|
    ensures var app, c := Boot(setup, file, month, day), setup.cfgs[i];
            && |app.keys| == |setup.cfgs|
            && app.keys[i].used == (if file == Unreadable && setup.policy == Cap then c.creditCap else 0)
            && app.keys[i] == Key(c.name, c.creditCap, app.keys[i].used, month, 0, 0, 0, c.enabled, 0, 0, 0, 0, 0, 0,
                                  FullBuckets(setup.rps))
            && app.global == Global(month, day, 0, map[], [], [])
  {
  }

  /** A boot restores what was closed before, and closes what is over: the file's month, with what its entries used, and
      its day, with what the restored totals have grown by since their baselines. */
  lemma BootClosesWhatIsOver(setup: Setup, snap: Snapshot, month: nat, day: nat)
    ensures var g, keys := Boot(setup, Holding(snap), month, day).global,
                           RestoreKeys(FreshKeys(setup.cfgs, setup.rps), snap, month);
            var used := seq(|snap.upstreams|, i requires 0 <= i < |snap.upstreams| =>
                              UsagePoint(snap.upstreams[i].name, snap.upstreams[i].used));
            var grown := seq(|keys|, i requires 0 <= i < |keys| =>
                               UsagePoint(keys[i].name,
                                          if keys[i].total < keys[i].dayStart then 0
                                          else keys[i].total - keys[i].dayStart));
            && g.month == month && g.day == day && g.allExhausted == snap.allExhausted && g.methods == snap.methods
            && g.history == snap.history + (if snap.epoch == month || snap.epoch == 0 then []
                                            else [PeriodRecord(snap.epoch, Total(used, CreditsOf), used)])
            && g.daily == (if snap.currentDay == day || snap.currentDay == 0 then snap.daily
                           else TrimFront(snap.daily + [PeriodRecord(snap.currentDay, Total(grown, CreditsOf), grown)],
                                          setup.retention))
  {
    var keys := RestoreKeys(FreshKeys(setup.cfgs, setup.rps), snap, month);
    var used := seq(|snap.upstreams|, i requires 0 <= i < |snap.upstreams| =>
                      UsagePoint(snap.upstreams[i].name, snap.upstreams[i].used));
    var grown := seq(|keys|, i requires 0 <= i < |keys| =>
                       UsagePoint(keys[i].name,
                                  if keys[i].total < keys[i].dayStart then 0 else keys[i].total - keys[i].dayStart));
    assert PointsOf(snap.upstreams) == used && UsagePoints(keys, DailyUse) == grown;
  }

  /** A snapshot holds what there is, under the version that is written, the reading it was taken at and the active
      periods. */
  lemma CaptureIsComplete(keys: seq<Key>, g: Global, now: nat)
    ensures var snap := Capture(keys, g, now);
            && snap.version == 3 && snap.savedAt == now && snap.epoch == g.month && snap.currentDay == g.day
            && snap.allExhausted == g.allExhausted && snap.methods == g.methods
            && snap.history == g.history && snap.daily == g.daily && |snap.upstreams| == |keys|
            && forall i :: 0 <= i < |keys| ==>
                             var e, k := snap.upstreams[i], keys[i];
                             && e.name == k.name && e.used == k.used && e.total == k.total && e.ok == k.ok
                             && e.limited == k.limited && e.errors == k.errors && e.hits == k.hits
                             && e.dayStart == k.dayStart
  {
  }
}
