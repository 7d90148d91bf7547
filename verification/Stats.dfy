/** Process-wide statistics: global counters, closed periods, and the rollovers that close them.

    `App` is the value of the whole application state between two operations. */
module Statistics {
  import opened Metrics
  import opened Totals
  import opened Upstreams

  datatype UsagePoint = UsagePoint(name: string, credits: nat)

  /** A closed accounting period: a month `YYYYMM` or a day `YYYYMMDD`. */
  datatype PeriodRecord = PeriodRecord(period: nat, totalCredits: nat, points: seq<UsagePoint>)

  datatype Global = Global(
    month: nat,
    day: nat,
    allExhausted: nat,
    methods: map<string, nat>,
    history: seq<PeriodRecord>,
    daily: seq<PeriodRecord>)

  datatype App = App(keys: seq<Key>, cursor: nat, global: Global, prom: Prom)

  const NO_STATS := Global(0, 0, 0, map[], [], [])

  // ---------------------------------------------------------------------- capture

  function MonthlyUse(k: Key): nat {
    k.used
  }

  function DailyUse(k: Key): nat {
    k.DailyUsed()
  }

  function CreditsOf(p: UsagePoint): nat {
    p.credits
  }

  function UsagePoints(keys: seq<Key>, use: Key -> nat): seq<UsagePoint> {
    seq(|keys|, i requires 0 <= i < |keys| => UsagePoint(keys[i].name, use(keys[i])))
  }

  function CaptureMonth(keys: seq<Key>, month: nat): PeriodRecord {
    var points := UsagePoints(keys, MonthlyUse);
    PeriodRecord(month, Total(points, CreditsOf), points)
  }

  function CaptureDay(keys: seq<Key>, day: nat): PeriodRecord {
    var points := UsagePoints(keys, DailyUse);
    PeriodRecord(day, Total(points, CreditsOf), points)
  }

  /** Keep only the most recent `max` entries; 0 keeps all. */
  function TrimFront<T>(v: seq<T>, max: nat): (r: seq<T>)
    ensures |r| == if max == 0 || |v| <= max then |v| else max
    ensures forall i :: 0 <= i < |r| ==> r[i] == v[|v| - |r| + i]
  {
    if max > 0 && |v| > max then v[|v| - max..] else v
  }

  // ---------------------------------------------------------------------- rollovers

  function ResetAll(keys: seq<Key>, month: nat): seq<Key> {
    seq(|keys|, i requires 0 <= i < |keys| => keys[i].RestoreMonthly(month, 0))
  }

  function NewDayForAll(keys: seq<Key>): seq<Key> {
    seq(|keys|, i requires 0 <= i < |keys| => keys[i].StartNewDay())
  }

  function WithGauges(p: Prom, keys: seq<Key>): Prom {
    if keys == [] then p else
      var last := keys[|keys| - 1];
      WithGauges(p, keys[..|keys| - 1]).SetRemaining(last.name, last.Remaining())
  }

  function RollMonth(app: App, cur: nat): App {
    var prev := app.global.month;
    if prev == cur then app else
      var closed := if prev != 0 then [CaptureMonth(app.keys, prev)] else [];
      var keys := ResetAll(app.keys, cur);
      app.(keys := keys,
           global := app.global.(month := cur, history := app.global.history + closed),
           prom := WithGauges(app.prom, keys))
  }

  function RollDay(app: App, cur: nat, retention: nat): App {
    var prev := app.global.day;
    if prev == cur then app else
      var daily := if prev != 0 then TrimFront(app.global.daily + [CaptureDay(app.keys, prev)], retention)
                   else app.global.daily;
      app.(keys := NewDayForAll(app.keys), global := app.global.(day := cur, daily := daily))
  }

  // ---------------------------------------------------------------------- tallies

  function Tally(methods: map<string, nat>, names: seq<string>): map<string, nat> {
    if names == [] then methods else Bumped(Tally(methods, names[..|names| - 1]), names[|names| - 1], 1)
  }

  /** A batch raises each method by the number of times it occurs in it. */
  lemma {:induction false} TallyCounts(methods: map<string, nat>, names: seq<string>, m: string)
    ensures m in Tally(methods, names) <==> m in methods || m in names
    ensures m in Tally(methods, names) ==>
              Tally(methods, names)[m] == (if m in methods then methods[m] else 0) + multiset(names)[m]
  {
    if names != [] {
      var n := |names| - 1;
      assert names == names[..n] + [names[n]];
      TallyCounts(methods, names[..n], m);
    }
  }

  /** The total of a record is the sum over its points. */
  lemma CreditsAddUp(points: seq<UsagePoint>, p: UsagePoint)
    ensures Total<UsagePoint>([], CreditsOf) == 0
    ensures Total(points + [p], CreditsOf) == Total(points, CreditsOf) + p.credits
  {
    assert (points + [p])[..|points|] == points;
  }

  // ---------------------------------------------------------------------- what a rollover closes

  /** Rolling from an initialized month to another one appends one record, of the month that was active, with what each
      key has used, and starts every key at zero; from none it closes nothing; to the same one it does nothing. */
  lemma RollMonthCloses(app: App, cur: nat)
    ensures var r, prev := RollMonth(app, cur), app.global.month;
            if cur == prev then r == app
            else
              var points := seq(|app.keys|, i requires 0 <= i < |app.keys| =>
                                  UsagePoint(app.keys[i].name, app.keys[i].used));
              var closed := PeriodRecord(prev, Total(points, CreditsOf), points);
              && r.global == app.global.(month := cur,
                                         history := app.global.history + if prev == 0 then [] else [closed])
              && r.cursor == app.cursor && |r.keys| == |app.keys|
              && forall i :: 0 <= i < |app.keys| ==> r.keys[i] == app.keys[i].(used := 0, epoch := cur)
  {
    var points := seq(|app.keys|, i requires 0 <= i < |app.keys| => UsagePoint(app.keys[i].name, app.keys[i].used));
    assert UsagePoints(app.keys, MonthlyUse) == points;
  }

  /** Likewise a day, with what each key's total has grown by since its baseline, which becomes that total. */
  lemma RollDayCloses(app: App, cur: nat, retention: nat)
    ensures var r, prev := RollDay(app, cur, retention), app.global.day;
            if cur == prev then r == app
            else
              var points := seq(|app.keys|, i requires 0 <= i < |app.keys| =>
                                  UsagePoint(app.keys[i].name,
                                             if app.keys[i].total < app.keys[i].dayStart then 0
                                             else app.keys[i].total - app.keys[i].dayStart));
              var closed := PeriodRecord(prev, Total(points, CreditsOf), points);
              && r.global == app.global.(day := cur,
                                         daily := if prev == 0 then app.global.daily
                                                  else TrimFront(app.global.daily + [closed], retention))
              && r.cursor == app.cursor && r.prom == app.prom && |r.keys| == |app.keys|
              && forall i :: 0 <= i < |app.keys| ==> r.keys[i] == app.keys[i].(dayStart := app.keys[i].total)
  {
    var points := seq(|app.keys|, i requires 0 <= i < |app.keys| =>
                        UsagePoint(app.keys[i].name,
                                   if app.keys[i].total < app.keys[i].dayStart then 0
                                   else app.keys[i].total - app.keys[i].dayStart));
    assert UsagePoints(app.keys, DailyUse) == points;
  }

  class Stats {
    var currentMonth: nat
    var currentDay: nat
    var allExhausted: nat
    var methods: map<string, nat>
    var history: seq<PeriodRecord>
    var dailyHistory: seq<PeriodRecord>

    function View(): Global
      reads this
    {
      Global(currentMonth, currentDay, allExhausted, methods, history, dailyHistory)
    }

    constructor ()
      ensures View() == NO_STATS
    {
      currentMonth, currentDay, allExhausted, methods, history, dailyHistory := 0, 0, 0, map[], [], [];
    }

    method RecordExhausted(recorder: Recorder)
      modifies this`allExhausted, recorder
      ensures View() == old(View()).(allExhausted := old(allExhausted) + 1)
      ensures recorder.View() == old(recorder.View()).Inc(AllExhausted, 1)
    {
      allExhausted := allExhausted + 1;
      recorder.Increment(AllExhausted, 1);
    }

    method RecordMethods(names: seq<string>, recorder: Recorder)
      modifies this`methods, recorder
      ensures View() == old(View()).(methods := Tally(old(methods), names))
      ensures recorder.View() == old(recorder.View()).(rpc := Tally(old(recorder.rpc), names))
    {
      for i := 0 to |names|
        invariant View() == old(View()).(methods := Tally(old(methods), names[..i]))
        invariant recorder.View() == old(recorder.View()).(rpc := Tally(old(recorder.rpc), names[..i]))
      {
        assert names[..i + 1][..i] == names[..i];
        methods := Bumped(methods, names[i], 1);
        recorder.IncrementRpc(names[i], 1);
      }
      assert names[..|names|] == names;
    }

    /** Alone with the state, the compare-exchange always wins; callers that race for it are in `PeriodRace`. */
    method RollMonthIfChanged(pool: Pool, recorder: Recorder, cur: nat)
      requires pool.Valid()
      modifies this, pool.upstreams, recorder
      ensures AppView(pool, this, recorder) == RollMonth(old(AppView(pool, this, recorder)), cur)
    {
      var prev := currentMonth;
      if prev == cur {
        return;
      }
      currentMonth := cur;
      if prev != 0 {
        history := history + [CaptureMonth(pool.View(), prev)];
      }
      ResetPool(pool, recorder, cur);
    }

    static method ResetPool(pool: Pool, recorder: Recorder, cur: nat)
      requires pool.Valid()
      modifies pool.upstreams, recorder
      ensures pool.View() == ResetAll(old(pool.View()), cur)
      ensures recorder.View() == WithGauges(old(recorder.View()), ResetAll(old(pool.View()), cur))
    {
      ghost var was, after := pool.View(), ResetAll(pool.View(), cur);
      for i := 0 to |pool.upstreams|
        invariant forall j :: 0 <= j < |was| ==> pool.upstreams[j].View() == if j < i then after[j] else was[j]
        invariant recorder.View() == WithGauges(old(recorder.View()), after[..i])
      {
        var up := pool.upstreams[i];
        up.RestoreMonthly(cur, 0);
        recorder.SetRemaining(up.name, up.View().Remaining());
        assert after[..i + 1][..i] == after[..i];
      }
      assert after[..|after|] == after;
      assert pool.View() == after;
    }

    method RollDayIfChanged(pool: Pool, recorder: Recorder, cur: nat, retention: nat)
      requires pool.Valid()
      modifies this, pool.upstreams
      ensures AppView(pool, this, recorder) == RollDay(old(AppView(pool, this, recorder)), cur, retention)
    {
      var prev := currentDay;
      if prev == cur {
        return;
      }
      currentDay := cur;
      if prev != 0 {
        PushDaily(CaptureDay(pool.View(), prev), retention);
      }
      NewDay(pool);
    }

    /** Re-baseline every key. */
    static method NewDay(pool: Pool)
      requires pool.Valid()
      modifies pool.upstreams
      ensures pool.View() == NewDayForAll(old(pool.View()))
    {
      ghost var was := pool.View();
      for i := 0 to |pool.upstreams|
        invariant forall j :: 0 <= j < |was| ==>
                                pool.upstreams[j].View() == if j < i then was[j].StartNewDay() else was[j]
      {
        pool.upstreams[i].StartNewDay();
      }
    }

    method PushDaily(record: PeriodRecord, retention: nat)
      modifies this`dailyHistory
      ensures View() == old(View()).(daily := TrimFront(old(dailyHistory) + [record], retention))
    {
      dailyHistory := dailyHistory + [record];
      if retention > 0 && |dailyHistory| > retention {
        var drop := |dailyHistory| - retention;
        dailyHistory := dailyHistory[drop..];
      }
    }
  }

  ghost function AppView(pool: Pool, stats: Stats, recorder: Recorder): App
    reads pool, pool.upstreams, stats, recorder
  {
    App(pool.View(), pool.cursor, stats.View(), recorder.View())
  }
}
