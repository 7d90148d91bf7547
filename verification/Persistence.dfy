/** Durable state: what a snapshot captures, and how a boot restores it. */
module Persistence {
  import opened Metrics
  import opened Statistics
  import opened Totals
  import opened Upstreams
  import opened Wrappers

  const SCHEMA_VERSION := 3

  datatype UpstreamSnap = UpstreamSnap(
    name: string,
    used: nat,
    total: nat,
    ok: nat,
    limited: nat,
    errors: nat,
    hits: nat,
    dayStart: nat)

  datatype Snapshot = Snapshot(
    version: nat,
    epoch: nat,
    savedAt: nat,
    upstreams: seq<UpstreamSnap>,
    allExhausted: nat,
    methods: map<string, nat>,
    history: seq<PeriodRecord>,
    currentDay: nat,
    daily: seq<PeriodRecord>)

  /** What reading the snapshot file yields. */
  datatype File = Absent | Unreadable | Holding(snap: Snapshot)

  /** What to assume of the month's usage when the file is unreadable. */
  datatype ErrorPolicy = Zero | Cap

  function SnapOf(k: Key): UpstreamSnap {
    UpstreamSnap(k.name, k.used, k.total, k.ok, k.limited, k.errors, k.hits, k.dayStart)
  }

  function SnapsOf(keys: seq<Key>): seq<UpstreamSnap> {
    seq(|keys|, i requires 0 <= i < |keys| => SnapOf(keys[i]))
  }

  function Capture(keys: seq<Key>, global: Global, now: nat): Snapshot {
    Snapshot(SCHEMA_VERSION, global.month, now, SnapsOf(keys), global.allExhausted, global.methods, global.history,
             global.day, global.daily)
  }

  /** The first entry of that name. */
  function Find(snaps: seq<UpstreamSnap>, name: string): Option<UpstreamSnap> {
    if snaps == [] then None else if snaps[0].name == name then Some(snaps[0]) else Find(snaps[1..], name)
  }

  function UsedIn(snaps: seq<UpstreamSnap>, name: string): nat {
    match Find(snaps, name)
    case None => 0
    case Some(s) => s.used
  }

  function RestoreLifetime(k: Key, snaps: seq<UpstreamSnap>): Key {
    match Find(snaps, k.name)
    case None => k
    case Some(s) =>
      k.(total := s.total, ok := s.ok, limited := s.limited, errors := s.errors, hits := s.hits, dayStart := s.dayStart)
  }

  function RestoreMonth(k: Key, snap: Snapshot, month: nat): Key {
    k.RestoreMonthly(month, if snap.epoch == month then UsedIn(snap.upstreams, k.name) else 0)
  }

  /** A key once the lifetime and the monthly part of a snapshot are restored into it. */
  function RestoreKey(k: Key, snap: Snapshot, month: nat): Key {
    RestoreMonth(RestoreLifetime(k, snap.upstreams), snap, month)
  }

  function RestoreKeys(keys: seq<Key>, snap: Snapshot, month: nat): seq<Key> {
    seq(|keys|, i requires 0 <= i < |keys| => RestoreKey(keys[i], snap, month))
  }

  function PointOf(s: UpstreamSnap): UsagePoint {
    UsagePoint(s.name, s.used)
  }

  function PointsOf(snaps: seq<UpstreamSnap>): seq<UsagePoint> {
    seq(|snaps|, i requires 0 <= i < |snaps| => PointOf(snaps[i]))
  }

  /** The snapshot's month as a closed record. */
  function SnapshotMonth(snap: Snapshot): PeriodRecord {
    PeriodRecord(snap.epoch, Total(PointsOf(snap.upstreams), CreditsOf), PointsOf(snap.upstreams))
  }

  /** The record to close on boot, if the snapshot's month is over. */
  function ClosedMonth(snap: Snapshot, month: nat): seq<PeriodRecord> {
    if snap.epoch != month && snap.epoch != 0 then [SnapshotMonth(snap)] else []
  }

  function ApplySnapshot(app: App, snap: Snapshot, month: nat, day: nat, retention: nat): App {
    var keys := RestoreKeys(app.keys, snap, month);
    var daily := if snap.currentDay != day && snap.currentDay != 0
                 then TrimFront(snap.daily + [CaptureDay(keys, snap.currentDay)], retention)
                 else snap.daily;
    app.(keys := if snap.currentDay == day then keys else NewDayForAll(keys),
         global := app.global.(allExhausted := snap.allExhausted,
                               methods := snap.methods,
                               history := snap.history + ClosedMonth(snap, month),
                               daily := daily))
  }

  /** Without a readable snapshot every key starts its month at `used`, which depends on the policy. */
  function StartUsed(k: Key, file: File, policy: ErrorPolicy): nat {
    if file.Unreadable? && policy == Cap then k.cap else 0
  }

  function StartWithout(keys: seq<Key>, file: File, policy: ErrorPolicy, month: nat): seq<Key> {
    seq(|keys|, i requires 0 <= i < |keys| =>
      keys[i].RestoreMonthly(month, StartUsed(keys[i], file, policy)).StartNewDay())
  }

  // ---------------------------------------------------------------------- replay

  function IncNonzero(p: Prom, s: Series, n: nat): Prom {
    if n > 0 then p.Inc(s, n) else p
  }

  function ReplayKey(p: Prom, k: Key): Prom {
    IncNonzero(p, CreditsConsumed(k.name), k.total)
    .Inc(Requests(k.name, WasOk), k.ok)
    .Inc(Requests(k.name, WasRateLimited), k.limited)
    .Inc(Requests(k.name, WasError), k.errors)
    .Inc(RateLimitHits(k.name), k.hits)
    .SetRemaining(k.name, k.Remaining())
  }

  function ReplayKeys(p: Prom, keys: seq<Key>): Prom {
    if keys == [] then p else ReplayKey(ReplayKeys(p, keys[..|keys| - 1]), keys[|keys| - 1])
  }

  function AddTallies(a: map<string, nat>, b: map<string, nat>): map<string, nat> {
    map m <- a.Keys + b.Keys :: (if m in a then a[m] else 0) + (if m in b then b[m] else 0)
  }

  function Replay(p: Prom, keys: seq<Key>, global: Global): Prom {
    var q := ReplayKeys(p, keys);
    IncNonzero(q.(rpc := AddTallies(q.rpc, global.methods)), AllExhausted, global.allExhausted)
  }

  function Rehydrate(app: App, file: File, policy: ErrorPolicy, month: nat, day: nat, retention: nat): App {
    match file
    case Holding(snap) => ApplySnapshot(app, snap, month, day, retention)
    case _ => app.(keys := StartWithout(app.keys, file, policy, month))
  }

  function RestoreInto(app: App, file: File, policy: ErrorPolicy, month: nat, day: nat, retention: nat): App {
    var applied := Rehydrate(app, file, policy, month, day, retention);
    var global := applied.global.(month := month, day := day);
    applied.(global := global, prom := Replay(applied.prom, applied.keys, global))
  }

  // ---------------------------------------------------------------------- the boot code

  method RestoreLifetimes(pool: Pool, snaps: seq<UpstreamSnap>)
    requires pool.Valid()
    modifies pool.upstreams
    ensures pool.View() == seq(|pool.upstreams|, i requires 0 <= i < |pool.upstreams| =>
                             RestoreLifetime(old(pool.View())[i], snaps))
  {
    ghost var was := pool.View();
    for i := 0 to |pool.upstreams|
      invariant forall j :: 0 <= j < |was| ==>
                              pool.upstreams[j].View() == if j < i then RestoreLifetime(was[j], snaps) else was[j]
    {
      var up := pool.upstreams[i];
      match Find(snaps, up.name) {
        case None =>
        case Some(s) =>
          up.RestoreLifetime(s.total, s.ok, s.limited, s.errors, s.hits);
          up.dayStartTotal := s.dayStart;
      }
    }
  }

  method RestoreMonths(pool: Pool, snap: Snapshot, month: nat)
    requires pool.Valid()
    modifies pool.upstreams
    ensures forall i :: 0 <= i < |pool.upstreams| ==>
              pool.upstreams[i].View() == RestoreMonth(old(pool.View())[i], snap, month)
  {
    ghost var was := pool.View();
    for i := 0 to |pool.upstreams|
      invariant forall j :: 0 <= j < |was| ==>
                              pool.upstreams[j].View() == if j < i then RestoreMonth(was[j], snap, month) else was[j]
    {
      var used := if snap.epoch == month then UsedIn(snap.upstreams, pool.upstreams[i].name) else 0;
      pool.upstreams[i].RestoreMonthly(month, used);
    }
  }

  method ApplyTo(pool: Pool, stats: Stats, recorder: Recorder, snap: Snapshot, month: nat, day: nat, retention: nat)
    requires pool.Valid()
    modifies pool.upstreams, stats
    ensures AppView(pool, stats, recorder)
         == ApplySnapshot(old(AppView(pool, stats, recorder)), snap, month, day, retention)
  {
    RestoreBooks(pool, snap, month);
    RestoreStats(stats, snap, month);
    CloseSnapshotDay(pool, stats, snap.currentDay, day, retention);
  }

  method RestoreStats(stats: Stats, snap: Snapshot, month: nat)
    modifies stats
    ensures stats.View() == old(stats.View()).(
                              allExhausted := snap.allExhausted, methods := snap.methods, daily := snap.daily,
                              history := snap.history + ClosedMonth(snap, month))
  {
    stats.allExhausted := snap.allExhausted;
    stats.methods := snap.methods;
    stats.history := snap.history;
    stats.dailyHistory := snap.daily;
    if snap.epoch != month && snap.epoch != 0 {
      stats.history := stats.history + [SnapshotMonth(snap)];
    }
  }

  method RestoreBooks(pool: Pool, snap: Snapshot, month: nat)
    requires pool.Valid()
    modifies pool.upstreams
    ensures pool.View() == RestoreKeys(old(pool.View()), snap, month)
  {
    RestoreLifetimes(pool, snap.upstreams);
    RestoreMonths(pool, snap, month);
  }

  method CloseSnapshotDay(pool: Pool, stats: Stats, snapDay: nat, day: nat, retention: nat)
    requires pool.Valid()
    modifies pool.upstreams, stats`dailyHistory
    ensures pool.View() == if snapDay == day then old(pool.View()) else NewDayForAll(old(pool.View()))
    ensures stats.dailyHistory == if snapDay != day && snapDay != 0
                                  then TrimFront(old(stats.dailyHistory) + [CaptureDay(old(pool.View()), snapDay)],
                                                 retention)
                                  else old(stats.dailyHistory)
  {
    if snapDay != day {
      if snapDay != 0 {
        stats.PushDaily(CaptureDay(pool.View(), snapDay), retention);
      }
      Stats.NewDay(pool);
    }
  }

  method StartAll(pool: Pool, file: File, policy: ErrorPolicy, month: nat)
    requires pool.Valid()
    modifies pool.upstreams
    ensures pool.View() == StartWithout(old(pool.View()), file, policy, month)
  {
    ghost var was, after := pool.View(), StartWithout(pool.View(), file, policy, month);
    for i := 0 to |pool.upstreams|
      invariant forall j :: 0 <= j < |was| ==> pool.upstreams[j].View() == if j < i then after[j] else was[j]
    {
      var up := pool.upstreams[i];
      up.RestoreMonthly(month, StartUsed(up.View(), file, policy));
      up.StartNewDay();
    }
  }

  method ReplayOne(up: Upstream, recorder: Recorder)
    modifies recorder
    ensures recorder.View() == ReplayKey(old(recorder.View()), up.View())
  {
    if up.creditsTotal > 0 {
      recorder.Increment(CreditsConsumed(up.name), up.creditsTotal);
    }
    recorder.Increment(Requests(up.name, WasOk), up.requestsOk);
    recorder.Increment(Requests(up.name, WasRateLimited), up.requestsRateLimited);
    recorder.Increment(Requests(up.name, WasError), up.requestsError);
    recorder.Increment(RateLimitHits(up.name), up.rateLimitHits);
    recorder.SetRemaining(up.name, up.View().Remaining());
  }

  method ReplayToPrometheus(pool: Pool, stats: Stats, recorder: Recorder)
    modifies recorder
    ensures recorder.View() == Replay(old(recorder.View()), pool.View(), stats.View())
  {
    ghost var keys := pool.View();
    for i := 0 to |pool.upstreams|
      invariant recorder.View() == ReplayKeys(old(recorder.View()), keys[..i])
    {
      ReplayOne(pool.upstreams[i], recorder);
      assert keys[..i + 1][..i] == keys[..i] && keys[i] == pool.upstreams[i].View();
    }
    assert keys[..|keys|] == keys;
    ReplayTallies(stats.methods, recorder);
    if stats.allExhausted > 0 {
      recorder.Increment(AllExhausted, stats.allExhausted);
    }
  }

  method ReplayTallies(methods: map<string, nat>, recorder: Recorder)
    modifies recorder
    ensures recorder.View() == old(recorder.View()).(rpc := AddTallies(old(recorder.rpc), methods))
  {
    var left := methods.Keys;
    ghost var done: map<string, nat> := map[];
    assert recorder.rpc == AddTallies(recorder.rpc, done);
    while left != {}
      invariant left <= methods.Keys && done == map m <- methods.Keys - left :: methods[m]
      invariant recorder.View() == old(recorder.View()).(rpc := AddTallies(old(recorder.rpc), done))
    {
      var m :| m in left;
      recorder.IncrementRpc(m, methods[m]);
      left := left - {m};
      done := done[m := methods[m]];
    }
    assert done == methods;
  }

  method RestoreOnBoot(pool: Pool, stats: Stats, recorder: Recorder, file: File, policy: ErrorPolicy, month: nat,
        day: nat, retention: nat)
    requires pool.Valid()
    modifies pool.upstreams, stats, recorder
    ensures AppView(pool, stats, recorder)
         == RestoreInto(old(AppView(pool, stats, recorder)), file, policy, month, day, retention)
  {
    RehydrateAll(pool, stats, recorder, file, policy, month, day, retention);
    ghost var applied := AppView(pool, stats, recorder);
    StartPeriods(stats, month, day);
    ghost var global := stats.View();
    assert pool.View() == applied.keys && recorder.View() == applied.prom;
    ReplayToPrometheus(pool, stats, recorder);
    assert AppView(pool, stats, recorder).(prom := applied.prom) == applied.(global := global);
  }

  method StartPeriods(stats: Stats, month: nat, day: nat)
    modifies stats
    ensures stats.View() == old(stats.View()).(month := month, day := day)
  {
    stats.currentMonth := month;
    stats.currentDay := day;
  }

  method RehydrateAll(pool: Pool, stats: Stats, recorder: Recorder, file: File, policy: ErrorPolicy, month: nat,
        day: nat, retention: nat)
    requires pool.Valid()
    modifies pool.upstreams, stats
    ensures AppView(pool, stats, recorder)
         == Rehydrate(old(AppView(pool, stats, recorder)), file, policy, month, day, retention)
  {
    match file {
      case Holding(snap) => ApplyTo(pool, stats, recorder, snap, month, day, retention);
      case _ => StartAll(pool, file, policy, month);
    }
  }
}
