/** What a log of closed periods says about one key. */
module Logs {
  import opened Persistence
  import opened RoundTrip
  import opened Statistics
  import opened Totals
  import opened Upstreams

  function CreditsNamed(name: string): UsagePoint -> nat {
    (p: UsagePoint) => if p.name == name then p.credits else 0
  }

  function CreditsIn(name: string): PeriodRecord -> nat {
    (r: PeriodRecord) => Total(r.points, CreditsNamed(name))
  }

  /** All the credits a log holds under a name. */
  function Logged(log: seq<PeriodRecord>, name: string): nat {
    Total(log, CreditsIn(name))
  }

  ghost predicate DistinctPoints(points: seq<UsagePoint>) {
    forall i, j :: 0 <= i < j < |points| ==> points[i].name != points[j].name
  }

  lemma {:induction false} PointsHoldItOnce(points: seq<UsagePoint>, k: nat)
    requires k < |points| && DistinctPoints(points)
    ensures Total(points, CreditsNamed(points[k].name)) == points[k].credits
  {
    var name, n := points[k].name, |points| - 1;
    if k == n {
      TotalZero(points[..n], CreditsNamed(name));
    } else {
      PointsHoldItOnce(points[..n], k);
    }
  }

  lemma LoggedAppend(log: seq<PeriodRecord>, more: seq<PeriodRecord>, name: string)
    ensures Logged(log + more, name) == Logged(log, name) + Logged(more, name)
  {
    TotalAppend(log, more, CreditsIn(name));
  }

  lemma LoggedOne(r: PeriodRecord, name: string)
    ensures Logged([r], name) == Total(r.points, CreditsNamed(name))
  {
    assert Total([r][..0], CreditsIn(name)) == 0;
    assert CreditsIn(name)(r) == Total(r.points, CreditsNamed(name));
  }

  lemma CapturedMonthLogs(keys: seq<Key>, period: nat, k: nat)
    requires DistinctNames(keys) && k < |keys|
    ensures Logged([CaptureMonth(keys, period)], keys[k].name) == keys[k].used
  {
    LoggedOne(CaptureMonth(keys, period), keys[k].name);
    PointsHoldItOnce(UsagePoints(keys, MonthlyUse), k);
  }

  lemma CapturedDayLogs(keys: seq<Key>, period: nat, k: nat)
    requires DistinctNames(keys) && k < |keys|
    ensures Logged([CaptureDay(keys, period)], keys[k].name) == keys[k].DailyUsed()
  {
    LoggedOne(CaptureDay(keys, period), keys[k].name);
    PointsHoldItOnce(UsagePoints(keys, DailyUse), k);
  }

  lemma SnapshotMonthLogs(snap: Snapshot, k: nat)
    requires DistinctSnaps(snap.upstreams) && k < |snap.upstreams|
    ensures Logged([SnapshotMonth(snap)], snap.upstreams[k].name) == snap.upstreams[k].used
  {
    LoggedOne(SnapshotMonth(snap), snap.upstreams[k].name);
    PointsHoldItOnce(PointsOf(snap.upstreams), k);
  }

  /** Each period closed once, in order, all of them over before `active`, and each record's total the sum of
      its points. */
  ghost predicate ClosedInOrder(log: seq<PeriodRecord>, active: nat) {
    && (forall i :: 0 <= i < |log| ==> log[i].totalCredits == Total(log[i].points, CreditsOf))
    && (forall i, j :: 0 <= i < j < |log| ==> log[i].period < log[j].period)
    && (forall i :: 0 <= i < |log| ==> log[i].period < active)
  }

  /** Trimming after every push keeps exactly the last `retention` periods of the untrimmed log. */
  lemma TrimmingForgetsOnlyTheOldest<T>(log: seq<T>, x: T, retention: nat)
    ensures TrimFront(TrimFront(log, retention) + [x], retention) == TrimFront(log + [x], retention)
  {
  }
}
