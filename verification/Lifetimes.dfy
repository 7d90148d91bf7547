/** The gateway over whole lifetimes: boots, requests, pings, rollovers, saves and crashes, each one
    atomic, with a ledger that remembers what the program itself forgets. */
module Lifetimes {
  import opened Ratelimit
  import opened Logs
  import opened Persistence
  import opened Restart
  import opened RoundTrip
  import opened Statistics
  import opened Upstreams
  import KeepAlive
  import Proxy

  /** What one key has met since boot: rate-limited pings, answered pings, failed forwards. */
  datatype Uptime = Uptime(pings429: nat, pings: nat, failures: nat) {
    function Plus(more: Uptime): Uptime {
      Uptime(pings429 + more.pings429, pings + more.pings, failures + more.failures)
    }
  }

  const JUST_BOOTED := Uptime(0, 0, 0)

  /** Per key: `charged` is every credit ever charged, `unsaved` what was charged and is not in the file,
      `lost` what was unsaved at each crash, `assumed` the usage that boots without a readable file
      assumed although nothing was charged.  `days` is the daily log as it would be without trimming.
      `months` are the months that were active when each of the closed ones was closed.  `savedAssumed`,
      `savedDays` and `savedMonths` are what those were at the last save. */
  datatype Ledger = Ledger(
    charged: seq<nat>,
    unsaved: seq<nat>,
    lost: seq<nat>,
    assumed: seq<nat>,
    savedAssumed: seq<nat>,
    uptime: seq<Uptime>,
    days: seq<PeriodRecord>,
    savedDays: seq<PeriodRecord>,
    months: seq<nat>,
    savedMonths: seq<nat>)

  datatype Machine = Machine(app: App, file: File, ledger: Ledger)

  datatype Event =
    | Select(kind: MethodClass, drip: seq<nat>, ask: Ask)
    | Settle(key: nat, outcome: Proxy.Outcome, now: nat, req: Proxy.Request)
    | Exhaust
    | Ping(key: nat, cost: nat, now: nat, answer: KeepAlive.Answer)
    | RollMonth(month: nat)
    | RollDay(day: nat)
    | Save(now: nat)
    | Spoil(left: File)   // the file is lost or damaged
    | Crash(month: nat, day: nat)

  function Zeros(n: nat): seq<nat> {
    seq(n, _ => 0)
  }

  function FirstBoot(setup: Setup, month: nat, day: nat): Machine {
    var zeros := Zeros(|setup.cfgs|);
    Machine(Boot(setup, Absent, month, day), Absent,
            Ledger(zeros, zeros, zeros, zeros, zeros, NoUptime(|setup.cfgs|), [], [], [], []))
  }

  function NoUptime(n: nat): seq<Uptime> {
    seq(n, _ => JUST_BOOTED)
  }

  /** The calendar has no month or day zero; it may go back. */
  predicate Enabled(s: Machine, ev: Event) {
    match ev
    case Select(kind, _, ask) => ask.kind == kind
    case Settle(k, _, _, _) => k < |s.app.keys|
    case Ping(k, _, _, _) => k < |s.app.keys|
    case RollMonth(month) => month > 0
    case RollDay(day) => day > 0
    case Spoil(left) => !left.Holding?
    case Crash(month, day) => month > 0 && day > 0
    case _ => true
  }

  function AddAt(s: seq<nat>, k: nat, n: nat): seq<nat> {
    if k < |s| then s[k := s[k] + n] else s
  }

  function Charge(ledger: Ledger, k: nat, cost: nat): Ledger {
    ledger.(charged := AddAt(ledger.charged, k, cost), unsaved := AddAt(ledger.unsaved, k, cost))
  }

  function MeetAt(uptime: seq<Uptime>, k: nat, met: Uptime): seq<Uptime> {
    if k < |uptime| then uptime[k := uptime[k].Plus(met)] else uptime
  }

  /** What a ping or a forward adds to the uptime of its key. */
  function PingMeets(k: Key, cost: nat, now: nat, answer: KeepAlive.Answer): Uptime {
    if !KeepAlive.Pings(k, cost, now) then JUST_BOOTED else
      match answer
      case TooManyRequests => Uptime(1, 0, 0)
      case Answered => Uptime(0, 1, 0)
      case Unreachable => JUST_BOOTED
  }

  function ForwardMeets(outcome: Proxy.Outcome): Uptime {
    Uptime(0, 0, if outcome.Failed? then 1 else 0)
  }

  /** Once the file is gone, everything its key was charged is unsaved. */
  function AllUnsaved(keys: seq<Key>, n: nat): seq<nat> {
    seq(n, i requires 0 <= i < n => if i < |keys| then keys[i].total else 0)
  }

  function AssumedAtBoot(setup: Setup, file: File, saved: seq<nat>): seq<nat> {
    if file.Holding? then saved
    else
      seq(|setup.cfgs|, i requires 0 <= i < |setup.cfgs| =>
        StartUsed(FreshKeys(setup.cfgs, setup.rps)[i], file, setup.policy))
  }

  /** The daily log a boot starts with: the saved one, and the snapshot's day if that is over. */
  function DaysAtBoot(setup: Setup, file: File, saved: seq<PeriodRecord>, month: nat, day: nat): seq<PeriodRecord> {
    match file
    case Holding(snap) =>
      if snap.currentDay == day then saved
      else saved + [CaptureDay(RestoreKeys(FreshKeys(setup.cfgs, setup.rps), snap, month), snap.currentDay)]
    case _ => []
  }

  /** The closed months a boot starts with: the saved ones, and the file's month if that is over. */
  function MonthsAtBoot(file: File, saved: seq<nat>, month: nat): seq<nat> {
    match file
    case Holding(snap) => if snap.epoch == month then saved else saved + [snap.epoch]
    case _ => []
  }

  function Sums(s: seq<nat>, t: seq<nat>): seq<nat>
    requires |s| == |t|
  {
    seq(|s|, i requires 0 <= i < |s| => s[i] + t[i])
  }

  function Next(setup: Setup, s: Machine, ev: Event): Machine
    requires Enabled(s, ev) && |s.ledger.lost| == |s.ledger.unsaved|
  {
    var ledger := s.ledger;
    match ev
    case Select(kind, drip, ask) => s.(app := Proxy.Selected(s.app, kind, drip, ask).0)
    case Settle(k, outcome, now, req) =>
      var met := ledger.(uptime := MeetAt(ledger.uptime, k, ForwardMeets(outcome)));
      Machine(Proxy.Settle(s.app, k, outcome, now, req), s.file,
              if outcome.Serviced? then Charge(met, k, req.est) else met)
    case Exhaust => s.(app := Proxy.CountExhausted(s.app))
    case Ping(k, cost, now, answer) =>
      var met := ledger.(uptime := MeetAt(ledger.uptime, k, PingMeets(s.app.keys[k], cost, now, answer)));
      Machine(KeepAlive.Ping(s.app, k, cost, now, answer), s.file,
              if KeepAlive.Pings(s.app.keys[k], cost, now) && answer.Answered? then Charge(met, k, cost) else met)
    case RollMonth(month) =>
      Machine(Statistics.RollMonth(s.app, month), s.file,
              if month == s.app.global.month then ledger
              else ledger.(months := ledger.months + [s.app.global.month]))
    case RollDay(day) =>
      Machine(Statistics.RollDay(s.app, day, setup.retention), s.file,
              if day == s.app.global.day then ledger
              else ledger.(days := ledger.days + [CaptureDay(s.app.keys, s.app.global.day)]))
    case Save(now) =>
      Machine(s.app, Holding(Capture(s.app.keys, s.app.global, now)),
              ledger.(unsaved := Zeros(|ledger.unsaved|), savedAssumed := ledger.assumed, savedDays := ledger.days,
                      savedMonths := ledger.months))
    case Spoil(left) => Machine(s.app, left, ledger.(unsaved := AllUnsaved(s.app.keys, |ledger.unsaved|)))
    case Crash(month, day) =>
      Machine(Boot(setup, s.file, month, day), s.file,
              ledger.(lost := Sums(ledger.lost, ledger.unsaved),
                      unsaved := Zeros(|ledger.unsaved|),
                      assumed := AssumedAtBoot(setup, s.file, ledger.savedAssumed),
                      uptime := NoUptime(|ledger.uptime|),
                      days := DaysAtBoot(setup, s.file, ledger.savedDays, month, day),
                      months := MonthsAtBoot(s.file, ledger.savedMonths, month)))
  }

  /** Events that are not enabled when their turn comes do not happen. */
  function Run(setup: Setup, s: Machine, evs: seq<Event>): Machine
    decreases |evs|
  {
    if evs == [] then s else
      var before := Run(setup, s, evs[..|evs| - 1]);
      var ev := evs[|evs| - 1];
      if Enabled(before, ev) && |before.ledger.lost| == |before.ledger.unsaved| then Next(setup, before, ev) else before
  }

  // ---------------------------------------------------------------------- shape

  ghost predicate Shape(setup: Setup, s: Machine) {
    var n := |setup.cfgs|;
    && NamesMatch(setup, s.app.keys)
    && |s.ledger.charged| == |s.ledger.unsaved| == |s.ledger.lost| == |s.ledger.uptime| == n
    && |s.ledger.assumed| == |s.ledger.savedAssumed| == n
    && s.app.global.month > 0 && s.app.global.day > 0
    && (s.file.Holding? ==>
          && SnapMatches(setup, s.file.snap.upstreams)
          && 0 < s.file.snap.epoch && 0 < s.file.snap.currentDay)
  }

  lemma NamesKept(setup: Setup, s: Machine, ev: Event)
    requires NamesMatch(setup, s.app.keys) && Enabled(s, ev) && !ev.Crash?
    requires |s.ledger.lost| == |s.ledger.unsaved|
    ensures NamesMatch(setup, Next(setup, s, ev).app.keys)
  {
    var keys := Next(setup, s, ev).app.keys;
    assert |keys| == |s.app.keys|;
    forall i | 0 <= i < |keys|
      ensures keys[i].name == s.app.keys[i].name && keys[i].cap == s.app.keys[i].cap
    {
    }
  }

  lemma ShapeKept(setup: Setup, s: Machine, ev: Event)
    requires ValidSetup(setup) && Shape(setup, s) && Enabled(s, ev)
    ensures Shape(setup, Next(setup, s, ev))
  {
    if ev.Crash? {
      BootShape(setup, s.file, ev.month, ev.day);
    } else {
      NamesKept(setup, s, ev);
    }
  }

  lemma {:induction false} LivesKeepShape(setup: Setup, month: nat, day: nat, evs: seq<Event>)
    requires ValidSetup(setup) && month > 0 && day > 0
    ensures Shape(setup, Run(setup, FirstBoot(setup, month, day), evs))
  {
    if evs == [] {
      BootShape(setup, Absent, month, day);
    } else {
      var n := |evs| - 1;
      LivesKeepShape(setup, month, day, evs[..n]);
      var before := Run(setup, FirstBoot(setup, month, day), evs[..n]);
      if Enabled(before, evs[n]) {
        ShapeKept(setup, before, evs[n]);
      }
    }
  }

  // ---------------------------------------------------------------------- the books of one key

  /** Lifetime, month and day agree, and every credit ever charged is still counted or was lost to a crash. */
  ghost predicate KeyBalances(key: Key, history: seq<PeriodRecord>, days: seq<PeriodRecord>, charged: nat, lost: nat,
        assumed: nat) {
    && key.total + assumed == Logged(history, key.name) + key.used
    && key.dayStart <= key.total
    && key.total == Logged(days, key.name) + key.DailyUsed()
    && charged == key.total + lost
  }

  /** The same on disk; what disk and memory differ by was charged since the last save. */
  ghost predicate FileBalances(total: nat, file: File, k: nat, savedDays: seq<PeriodRecord>, unsaved: nat,
        savedAssumed: nat) {
    match file
    case Holding(snap) =>
      k < |snap.upstreams| &&
      var e := snap.upstreams[k];
      && e.total + savedAssumed == Logged(snap.history, e.name) + e.used
      && e.dayStart <= e.total
      && e.total == Logged(savedDays, e.name) + (e.total - e.dayStart)
      && e.total + unsaved == total
    case _ => unsaved == total
  }

  ghost predicate Balances(s: Machine, k: nat) {
    && k < |s.app.keys| && k < |s.ledger.charged| && k < |s.ledger.lost| && k < |s.ledger.unsaved|
    && k < |s.ledger.assumed| && k < |s.ledger.savedAssumed|
    && KeyBalances(s.app.keys[k], s.app.global.history, s.ledger.days, s.ledger.charged[k], s.ledger.lost[k],
                   s.ledger.assumed[k])
    && FileBalances(s.app.keys[k].total, s.file, k, s.ledger.savedDays, s.ledger.unsaved[k], s.ledger.savedAssumed[k])
  }

  lemma EmptyLog(name: string)
    ensures Logged([], name) == 0
  {
  }

  lemma RollMonthBalances(setup: Setup, s: Machine, month: nat, k: nat)
    requires Shape(setup, s) && Balances(s, k) && Enabled(s, RollMonth(month)) && ValidSetup(setup)
    ensures Balances(Next(setup, s, RollMonth(month)), k)
  {
    if month != s.app.global.month {
      var closed := CaptureMonth(s.app.keys, s.app.global.month);
      CapturedMonthLogs(s.app.keys, s.app.global.month, k);
      LoggedAppend(s.app.global.history, [closed], s.app.keys[k].name);
    }
  }

  lemma NewDayBalances(s: Machine, s': Machine, closed: PeriodRecord, k: nat)
    requires Balances(s, k) && k < |s'.app.keys| && s'.app.keys[k] == s.app.keys[k].StartNewDay()
    requires s'.app.global.history == s.app.global.history && s'.file == s.file
    requires s'.ledger == s.ledger.(days := s.ledger.days + [closed])
    requires Logged(s'.ledger.days, s.app.keys[k].name)
          == Logged(s.ledger.days, s.app.keys[k].name) + s.app.keys[k].DailyUsed()
    ensures Balances(s', k)
  {
  }

  lemma RollDayBalances(setup: Setup, s: Machine, day: nat, k: nat)
    requires Shape(setup, s) && Balances(s, k) && Enabled(s, RollDay(day)) && ValidSetup(setup)
    ensures Balances(Next(setup, s, RollDay(day)), k)
  {
    if day != s.app.global.day {
      var closed := CaptureDay(s.app.keys, s.app.global.day);
      CapturedDayLogs(s.app.keys, s.app.global.day, k);
      LoggedAppend(s.ledger.days, [closed], s.app.keys[k].name);
      NewDayBalances(s, Next(setup, s, RollDay(day)), closed, k);
    }
  }

  lemma RestoredDayBalances(setup: Setup, snap: Snapshot, saved: seq<PeriodRecord>, month: nat, day: nat, k: nat)
    requires SnapMatches(setup, snap.upstreams) && ValidSetup(setup) && k < |setup.cfgs|
    requires var e := snap.upstreams[k]; e.dayStart <= e.total == Logged(saved, e.name) + (e.total - e.dayStart)
    ensures var key := Boot(setup, Holding(snap), month, day).keys[k];
            && key.dayStart <= key.total
            && key.total == Logged(DaysAtBoot(setup, Holding(snap), saved, month, day), key.name) + key.DailyUsed()
  {
    BootKey(setup, Holding(snap), month, day, k);
    if snap.currentDay != day {
      var restored := RestoreKeys(FreshKeys(setup.cfgs, setup.rps), snap, month);
      assert DistinctNames(restored);
      CapturedDayLogs(restored, snap.currentDay, k);
      LoggedAppend(saved, [CaptureDay(restored, snap.currentDay)], snap.upstreams[k].name);
    }
  }

  lemma CrashBalances(setup: Setup, s: Machine, month: nat, day: nat, k: nat)
    requires Shape(setup, s) && Balances(s, k) && Enabled(s, Crash(month, day)) && ValidSetup(setup)
    ensures Balances(Next(setup, s, Crash(month, day)), k)
  {
    if s.file.Holding? {
      BootHistory(setup, s.file.snap, month, day, k);
      RestoredDayBalances(setup, s.file.snap, s.ledger.savedDays, month, day, k);
      BootKey(setup, s.file, month, day, k);
    } else {
      EmptyLog(s.app.keys[k].name);
    }
  }

  /** Charging a key, and nothing else about it that the books look at. */
  ghost predicate ChargedBy(before: Key, after: Key, cost: nat) {
    && after.name == before.name && after.dayStart == before.dayStart
    && after.total == before.total + cost && after.used == before.used + cost
  }

  lemma ChargeBalances(s: Machine, s': Machine, k: nat, cost: nat)
    requires Balances(s, k)
    requires k < |s'.app.keys| && k < |s'.ledger.charged| && k < |s'.ledger.lost| && k < |s'.ledger.unsaved|
    requires ChargedBy(s.app.keys[k], s'.app.keys[k], cost)
    requires s'.app.global.history == s.app.global.history && s'.file == s.file
    requires s'.ledger.days == s.ledger.days && s'.ledger.savedDays == s.ledger.savedDays
    requires s'.ledger.lost == s.ledger.lost && s'.ledger.assumed == s.ledger.assumed
    requires s'.ledger.savedAssumed == s.ledger.savedAssumed
    requires s'.ledger.charged[k] == s.ledger.charged[k] + cost && s'.ledger.unsaved[k] == s.ledger.unsaved[k] + cost
    ensures Balances(s', k)
  {
  }

  lemma SettleBalances(setup: Setup, s: Machine, j: nat, outcome: Proxy.Outcome, now: nat, req: Proxy.Request, k: nat)
    requires Shape(setup, s) && Balances(s, k) && j < |s.app.keys| && ValidSetup(setup)
    ensures Balances(Next(setup, s, Settle(j, outcome, now, req)), k)
  {
    var ev := Settle(j, outcome, now, req);
    var cost := if j == k && outcome.Serviced? then req.est else 0;
    var key := s.app.keys[k];
    assert ChargedBy(key, if j == k then Proxy.AfterAttempt(key, outcome, now, req.est) else key, cost);
    ChargeBalances(s, Next(setup, s, ev), k, cost);
  }

  lemma PingBalances(setup: Setup, s: Machine, j: nat, cost: nat, now: nat, answer: KeepAlive.Answer, k: nat)
    requires Shape(setup, s) && Balances(s, k) && j < |s.app.keys| && ValidSetup(setup)
    ensures Balances(Next(setup, s, Ping(j, cost, now, answer)), k)
  {
    var ev := Ping(j, cost, now, answer);
    var paid := if j == k && KeepAlive.Pings(s.app.keys[j], cost, now) && answer.Answered? then cost else 0;
    var key := s.app.keys[k];
    assert ChargedBy(key, if j == k then KeepAlive.AfterPing(key, cost, now, answer) else key, paid);
    ChargeBalances(s, Next(setup, s, ev), k, paid);
  }

  lemma QuietBalances(setup: Setup, s: Machine, ev: Event, k: nat)
    requires Shape(setup, s) && Balances(s, k) && Enabled(s, ev) && ValidSetup(setup)
    requires ev.Select? || ev.Exhaust? || ev.Save? || ev.Spoil?
    ensures Balances(Next(setup, s, ev), k)
  {
    if ev.Select? || ev.Exhaust? {
      ChargeBalances(s, Next(setup, s, ev), k, 0);
    }
  }

  lemma EventBalances(setup: Setup, s: Machine, ev: Event, k: nat)
    requires Shape(setup, s) && Balances(s, k) && Enabled(s, ev) && ValidSetup(setup)
    ensures Balances(Next(setup, s, ev), k)
  {
    match ev
    case RollMonth(month) => RollMonthBalances(setup, s, month, k);
    case RollDay(day) => RollDayBalances(setup, s, day, k);
    case Crash(month, day) => CrashBalances(setup, s, month, day, k);
    case Settle(j, outcome, now, req) => SettleBalances(setup, s, j, outcome, now, req, k);
    case Ping(j, cost, now, answer) => PingBalances(setup, s, j, cost, now, answer, k);
    case _ => QuietBalances(setup, s, ev, k);
  }

  lemma FirstBootBalances(setup: Setup, month: nat, day: nat, k: nat)
    requires ValidSetup(setup) && month > 0 && day > 0 && k < |setup.cfgs|
    ensures Balances(FirstBoot(setup, month, day), k)
  {
    BootShape(setup, Absent, month, day);
    EmptyLog(setup.cfgs[k].name);
  }

  /** Conservation over whole lifetimes, and agreement of the monthly and the daily books: from a
      first boot, through any run of requests, pings, rollovers, saves, losses of the file and crashes,
      whatever the calendar does, every key's lifetime total is its closed months plus this month's
      usage, less what boots without a readable file assumed of it, and its untrimmed days plus
      today's; and every credit ever charged is in that total or was in no readable file at a crash. */
  lemma {:induction false} LivesBalance(setup: Setup, month: nat, day: nat, evs: seq<Event>, k: nat)
    requires ValidSetup(setup) && month > 0 && day > 0 && k < |setup.cfgs|
    ensures Balances(Run(setup, FirstBoot(setup, month, day), evs), k)
  {
    if evs == [] {
      FirstBootBalances(setup, month, day, k);
    } else {
      var n := |evs| - 1;
      LivesBalance(setup, month, day, evs[..n], k);
      LivesKeepShape(setup, month, day, evs[..n]);
      var before := Run(setup, FirstBoot(setup, month, day), evs[..n]);
      if Enabled(before, evs[n]) {
        EventBalances(setup, before, evs[n], k);
      }
    }
  }

  // ---------------------------------------------------------------------- the stored days

  /** The stored daily log is the end of the untrimmed one, as long as the retention allows, in memory and on disk. */
  ghost predicate StoresTheLastDays(setup: Setup, s: Machine) {
    && s.app.global.daily == TrimFront(s.ledger.days, setup.retention)
    && (s.file.Holding? ==> s.file.snap.daily == TrimFront(s.ledger.savedDays, setup.retention))
  }

  lemma EventStoresTheLastDays(setup: Setup, s: Machine, ev: Event)
    requires Shape(setup, s) && StoresTheLastDays(setup, s) && Enabled(s, ev)
    ensures StoresTheLastDays(setup, Next(setup, s, ev))
  {
    if ev.RollDay? {
      TrimmingForgetsOnlyTheOldest(s.ledger.days, CaptureDay(s.app.keys, s.app.global.day), setup.retention);
    } else if ev.Crash? && s.file.Holding? {
      var restored := RestoreKeys(FreshKeys(setup.cfgs, setup.rps), s.file.snap, ev.month);
      TrimmingForgetsOnlyTheOldest(s.ledger.savedDays, CaptureDay(restored, s.file.snap.currentDay), setup.retention);
    }
  }

  /** So it is over every run, whatever the calendar and the file do. */
  lemma {:induction false} LivesStoreTheLastDays(setup: Setup, month: nat, day: nat, evs: seq<Event>)
    requires ValidSetup(setup) && month > 0 && day > 0
    ensures StoresTheLastDays(setup, Run(setup, FirstBoot(setup, month, day), evs))
  {
    if evs != [] {
      var n := |evs| - 1;
      LivesStoreTheLastDays(setup, month, day, evs[..n]);
      LivesKeepShape(setup, month, day, evs[..n]);
      var before := Run(setup, FirstBoot(setup, month, day), evs[..n]);
      if Enabled(before, evs[n]) {
        EventStoresTheLastDays(setup, before, evs[n]);
      }
    }
  }

  // ---------------------------------------------------------------------- the closed months

  /** The records of a log are those of the given months, one each, in this order. */
  ghost predicate Labelled(history: seq<PeriodRecord>, months: seq<nat>) {
    |history| == |months| && forall i :: 0 <= i < |months| ==> history[i].period == months[i]
  }

  ghost predicate LabelsMonths(s: Machine) {
    && Labelled(s.app.global.history, s.ledger.months)
    && (s.file.Holding? ==> Labelled(s.file.snap.history, s.ledger.savedMonths))
  }

  lemma EventLabelsMonths(setup: Setup, s: Machine, ev: Event)
    requires Shape(setup, s) && LabelsMonths(s) && Enabled(s, ev)
    ensures LabelsMonths(Next(setup, s, ev))
  {
    if ev.RollMonth? {
      RollMonthCloses(s.app, ev.month);
    } else if ev.Crash? && s.file.Holding? {
      BootClosesWhatIsOver(setup, s.file.snap, ev.month, ev.day);
    }
  }

  /** Over every run, whatever the calendar and the file do, each closed month is recorded once and under its own
      number, the one that was active when a roll or a boot left it behind, in memory and on disk. */
  lemma {:induction false} LivesLabelMonths(setup: Setup, month: nat, day: nat, evs: seq<Event>)
    requires ValidSetup(setup) && month > 0 && day > 0
    ensures LabelsMonths(Run(setup, FirstBoot(setup, month, day), evs))
  {
    if evs != [] {
      var n := |evs| - 1;
      LivesLabelMonths(setup, month, day, evs[..n]);
      LivesKeepShape(setup, month, day, evs[..n]);
      var before := Run(setup, FirstBoot(setup, month, day), evs[..n]);
      if Enabled(before, evs[n]) {
        EventLabelsMonths(setup, before, evs[n]);
      }
    }
  }

  // ---------------------------------------------------------------------- requests and rounds of pings are runs

  lemma {:induction false} RunConcat(setup: Setup, s: Machine, evs: seq<Event>, more: seq<Event>)
    ensures Run(setup, s, evs + more) == Run(setup, Run(setup, s, evs), more)
  {
    if more == [] {
      assert evs + more == evs;
    } else {
      var n := |more| - 1;
      assert (evs + more)[..|evs + more| - 1] == evs + more[..n];
      RunConcat(setup, s, evs, more[..n]);
    }
  }

  lemma RunOne(setup: Setup, s: Machine, ev: Event)
    requires Enabled(s, ev) && |s.ledger.lost| == |s.ledger.unsaved|
    ensures Run(setup, s, [ev]) == Next(setup, s, ev)
  {
    assert [ev][..0] == [];
    assert Run(setup, s, []) == s;
  }

  /** One attempt of a request: its selection, then its settlement. */
  lemma AttemptIsARun(setup: Setup, s: Machine, req: Proxy.Request, drip: seq<nat>, ask: Ask, outcome: Proxy.Outcome)
    requires |s.ledger.lost| == |s.ledger.unsaved| && ask.kind == req.kind
    requires Proxy.Selected(s.app, req.kind, drip, ask).1.Some?
    ensures var (chosen, choice) := Proxy.Selected(s.app, req.kind, drip, ask);
            var s' := Run(setup, s, [Select(req.kind, drip, ask), Settle(choice.value, outcome, ask.now, req)]);
            && s'.app == Proxy.Settle(chosen, choice.value, outcome, ask.now, req)
            && |s'.ledger.lost| == |s'.ledger.unsaved|
  {
    var select := Select(req.kind, drip, ask);
    var settle := Settle(Proxy.Selected(s.app, req.kind, drip, ask).1.value, outcome, ask.now, req);
    RunOne(setup, s, select);
    RunOne(setup, Next(setup, s, select), settle);
    RunConcat(setup, s, [select], [settle]);
    assert [select] + [settle] == [select, settle];
  }

  /** What the request loop does to the application is a run of this machine, so everything proved of
      all runs holds of every mix of whole requests. */
  lemma {:induction false} RequestIsARun(setup: Setup, s: Machine, req: Proxy.Request, world: Proxy.World,
        retries: nat, skip: seq<nat>)
    returns (evs: seq<Event>)
    requires |s.ledger.lost| == |s.ledger.unsaved|
    requires Proxy.Covers(world, |s.app.keys|, retries) && |skip| <= retries
    ensures Run(setup, s, evs).app == Proxy.Serve(s.app, req, world, retries, skip).app
    decreases retries - |skip|
  {
    if |skip| == retries {
      RunOne(setup, s, Exhaust);
      return [Exhaust];
    }
    var ask := Ask(req.kind, req.est, skip, world.clock[|skip|]);
    var drip := world.drips[|skip|];
    var (chosen, choice) := Proxy.Selected(s.app, req.kind, drip, ask);
    if choice.None? {
      RunOne(setup, s, Select(req.kind, drip, ask));
      RunOne(setup, Next(setup, s, Select(req.kind, drip, ask)), Exhaust);
      RunConcat(setup, s, [Select(req.kind, drip, ask)], [Exhaust]);
      return [Select(req.kind, drip, ask)] + [Exhaust];
    }
    var outcome := world.answers[choice.value];
    evs := [Select(req.kind, drip, ask), Settle(choice.value, outcome, ask.now, req)];
    AttemptIsARun(setup, s, req, drip, ask, outcome);
    if outcome.RateLimited? || outcome.Failed? {
      var rest := RequestIsARun(setup, Run(setup, s, evs), req, world, retries, skip + [choice.value]);
      RunConcat(setup, s, evs, rest);
      evs := evs + rest;
    }
  }

  lemma {:induction false} RoundIsARun(setup: Setup, s: Machine, cost: nat, clock: seq<nat>,
        answers: seq<KeepAlive.Answer>, m: nat)
    returns (evs: seq<Event>)
    requires |s.ledger.lost| == |s.ledger.unsaved|
    requires m <= |s.app.keys| == |clock| == |answers|
    ensures Run(setup, s, evs).app == KeepAlive.Round(s.app, cost, clock, answers, m)
    ensures |Run(setup, s, evs).ledger.lost| == |Run(setup, s, evs).ledger.unsaved|
  {
    evs := [];
    if m > 0 {
      evs := RoundIsARun(setup, s, cost, clock, answers, m - 1);
      var ping := Ping(m - 1, cost, clock[m - 1], answers[m - 1]);
      RunOne(setup, Run(setup, s, evs), ping);
      RunConcat(setup, s, evs, [ping]);
      evs := evs + [ping];
    }
  }
}
