/** The running gateway with its atomics exposed: any number of request and ping jobs, the month and
    the day roller and the snapshot writer, interleaved one atomic access at a time, and crashes.

    A job is where a task stands between two accesses.  Reads whose order against other tasks does
    not matter share a step.  The tallies are bookkeeping about the run; no step looks at them. */
module Interleaving {
  import opened Cyclic
  import opened Persistence
  import opened Ratelimit
  import opened Restart
  import opened Statistics
  import opened Totals
  import opened Upstreams
  import opened Wrappers
  import KeepAlive
  import Logs
  import Proxy

  /** A request that still has keys to try. */
  datatype Quest = Quest(req: Proxy.Request, skip: seq<nat>)

  datatype Job =
    | Idle
    | Ready(quest: Quest)                                             // before an attempt
    | Scanning(quest: Quest, now: nat, base: nat, off: nat)           // inside `select`, about to look at one key
    | Vetted(quest: Quest, now: nat, base: nat, off: nat, key: nat)   // that key had quota when it was read
    | Forwarding(quest: Quest, now: nat, key: nat)                    // waiting for the upstream
    | Pinging(cost: u64, now: nat, key: nat)                          // the same, for a keep-alive ping
    | Tripping(next: Option<Quest>, now: nat, key: nat, step: nat)    // backoff step taken, cooldown not stored yet
    | Recording(next: Option<Quest>, key: nat)                        // cooldown stored, rate limit not counted yet
    | BumpTotal(cost: u64, key: nat)                                  // serviced, nothing charged yet
    | BumpUsed(cost: u64, key: nat)                                   // charged to the lifetime total only

  datatype Move =
    | Arrive(req: Proxy.Request)
    | TakeTicket(now: nat)
    | GiveUp
    | ReadQuota
    | Admit
    | Reply(outcome: Proxy.Outcome)
    | StartPing(key: nat, cost: u64, now: nat)
    | PingReply(answer: KeepAlive.Answer)
    | StoreCooldown
    | RecordLimit
    | AddTotal
    | AddUsed

  datatype Roller =
    | Resting
    | Capturing(prev: nat, points: seq<UsagePoint>)      // the month is swapped, the first keys are read
    | Resetting(points: seq<UsagePoint>, next: nat)      // the record is pushed, the first keys are reset

  datatype DayRoller =
    | Asleep
    | Reading(day: nat, points: seq<UsagePoint>)         // the day is swapped, the first keys are read
    | Rebasing(next: nat, loaded: Option<nat>)           // the record is pushed, the first keys have their new
                                                         // baseline; `loaded`: the next one's total

  /** `draft` holds what has been read so far, in the order of the fields. */
  datatype Writer =
    | Off
    | Saving(draft: Snapshot, part: seq<nat>)            // `part`: of the next key, the month and then the total
    | Dating(draft: Snapshot)                            // the history is read, the day is not
    | Ending(draft: Snapshot)                            // the day is read, the daily log is not

  /** About one key since boot: `selects` and `granted` count what `select` returned, `late` sums the
      credits whose monthly add fell between a roll's read of the key and its reset, `lateDay` those
      added to the total between a day roll's read of the key and its load of the new baseline, `hidden`
      those added while the total was still behind the day's baseline, `base` is the key as booted, and
      `opening` and `dayOpening` how far its lifetime total was then from its monthly and from its daily
      books. */
  datatype Tally = Tally(selects: nat, granted: Limiters, dripped: Limiters, dropped: nat, pings429: nat, late: nat,
                         lateDay: nat, hidden: nat, base: Key, opening: int, dayOpening: int)

  /** `days` is the daily log as it would be without trimming since boot. */
  datatype State = State(keys: seq<Key>, cursor: nat, jobs: seq<Job>, roller: Roller, dayRoller: DayRoller,
                         writer: Writer, global: Global, file: File, tallies: seq<Tally>, days: seq<PeriodRecord>)

  datatype RollStep = RollStart(month: nat) | RollCapture | RollPush | RollReset

  datatype DayStep = Start(day: nat) | Read | Push | Load | Store

  datatype SaveStep = SaveStart(now: nat) | SaveUsed | SaveTotal | SaveBaseline | SaveHistory | SaveDay | SaveFinish

  datatype Event =
    | Work(job: nat, move: Move)
    | Roll(roll: RollStep)
    | Day(step: DayStep)
    | Save(save: SaveStep)
    | Drip(key: nat, kind: MethodClass, extra: nat)
    | Corrupt
    | Crash(month: nat, day: nat)

  // ---------------------------------------------------------------------- one move of one job

  /** Moves that touch no key. */
  predicate Plans(move: Move) {
    move.Arrive? || move.TakeTicket? || move.GiveUp?
  }

  /** The key any other move reads or writes. */
  function Touched(job: Job, move: Move, n: nat): nat
    requires Can(job, move, n) && !Plans(move)
  {
    if move.ReadQuota? then Slot(job.base, job.off, n) else if move.StartPing? then move.key else job.key
  }

  predicate Can(job: Job, move: Move, n: nat) {
    match move
    case Arrive(_) => job.Idle?
    case TakeTicket(_) => job.Ready?
    case GiveUp => job.Ready? || (job.Scanning? && job.off >= n)
    case ReadQuota => job.Scanning? && job.off < n
    case Admit => job.Vetted? && job.key < n
    case Reply(_) => job.Forwarding? && job.key < n
    case StartPing(k, _, _) => job.Idle? && k < n
    case PingReply(_) => job.Pinging? && job.key < n
    case StoreCooldown => job.Tripping? && job.key < n
    case RecordLimit => job.Recording? && job.key < n
    case AddTotal => job.BumpTotal? && job.key < n
    case AddUsed => job.BumpUsed? && job.key < n
  }

  /** `max_retries` bounds the attempts. */
  predicate WithinRetries(job: Job, move: Move, retries: nat) {
    job.Ready? && !move.Arrive? ==> (move.TakeTicket? <==> |job.quest.skip| < retries)
  }

  predicate Admits(job: Job, k: Key)
    requires job.Vetted?
  {
    !k.InCooldown(job.now) && k.CanAcquire(job.quest.req.kind)
  }

  function Retry(quest: Quest, k: nat): Quest {
    quest.(skip := quest.skip + [k])
  }

  function AfterTrip(next: Option<Quest>): Job {
    match next
    case Some(quest) => Ready(quest)
    case None => Idle
  }

  function Planned(job: Job, move: Move, cursor: nat, n: nat): Job
    requires Can(job, move, n) && Plans(move)
  {
    match move
    case Arrive(req) => Ready(Quest(req, []))
    case TakeTicket(now) => Scanning(job.quest, now, cursor, 0)
    case GiveUp => Idle
  }

  /** Where the job stands after the move; `k` is the touched key's number and `key` its fields. */
  function JobAfter(job: Job, move: Move, k: nat, key: Key, n: nat): Job
    requires Can(job, move, n) && !Plans(move)
  {
    match move
    case ReadQuota =>
      if k !in job.quest.skip && key.enabled && key.HasQuotaFor(job.quest.req.est)
      then Vetted(job.quest, job.now, job.base, job.off, k)
      else Scanning(job.quest, job.now, job.base, job.off + 1)
    case Admit =>
      if Admits(job, key) then Forwarding(job.quest, job.now, k)
      else Scanning(job.quest, job.now, job.base, job.off + 1)
    case Reply(outcome) =>
      (match outcome
       case Serviced => BumpTotal(job.quest.req.est, k)
       case RateLimited => Tripping(Some(Retry(job.quest, k)), job.now, k, key.backoffStep)
       case Failed => Ready(Retry(job.quest, k))
       case Dropped => Idle)
    case StartPing(_, cost, now) => if KeepAlive.Pings(key, cost, now) then Pinging(cost, now, k) else Idle
    case PingReply(answer) =>
      (match answer
       case TooManyRequests => Tripping(None, job.now, k, key.backoffStep)
       case Answered => BumpTotal(job.cost, k)
       case Unreachable => Idle)
    case StoreCooldown => Recording(job.next, k)
    case RecordLimit => AfterTrip(job.next)
    case AddTotal => BumpUsed(job.cost, k)
    case AddUsed => Idle
  }

  function KeyAfter(job: Job, move: Move, key: Key, n: nat): Key
    requires Can(job, move, n)
  {
    match move
    case Admit =>
      if Admits(job, key) then key.TakeToken(job.quest.req.kind).(inFlight := key.inFlight + 1) else key
    case Reply(outcome) =>
      (match outcome
       case Serviced => key.NoteSuccess().RecordOk().(inFlight := SaturatingSub(key.inFlight, 1))
       case RateLimited => key.(backoffStep := key.backoffStep + 1, inFlight := SaturatingSub(key.inFlight, 1))
       case Failed => key.RecordError().(inFlight := SaturatingSub(key.inFlight, 1))
       case Dropped => key)
    case PingReply(answer) => if answer.TooManyRequests? then key.(backoffStep := key.backoffStep + 1) else key
    case StoreCooldown => key.(cooldownUntil := job.now + BackoffWithJitter(job.step, job.now))
    case RecordLimit => key.RecordRateLimited()
    case AddTotal => key.(total := key.total + job.cost)
    case AddUsed => key.(used := key.used + job.cost)
    case _ => key
  }

  /** How far a baseline is ahead of a total. */
  function Lead(baseline: nat, total: nat): nat {
    SaturatingSub(baseline, total)
  }

  function CountIn(m: Limiters, kind: MethodClass): nat {
    if kind in m then m[kind] else 0
  }

  /** `open`: the key is between a roll's read and its reset; `start`: the baseline the day's charges count from. */
  function TallyAfter(job: Job, move: Move, key: Key, t: Tally, open: bool, start: Option<nat>, n: nat): Tally
    requires Can(job, move, n)
  {
    match move
    case Admit =>
      if Admits(job, key) then
        var kind := job.quest.req.kind;
        t.(selects := t.selects + 1, granted := t.granted[kind := CountIn(t.granted, kind) + 1])
      else t
    case Reply(outcome) => if outcome.Dropped? then t.(dropped := t.dropped + 1) else t
    case RecordLimit => if job.next.None? then t.(pings429 := t.pings429 + 1) else t
    case AddTotal =>
      (match start
       case None => t.(lateDay := t.lateDay + job.cost)
       case Some(b) => t.(hidden := t.hidden + Lead(b, key.total) - Lead(b, key.total + job.cost)))
    case AddUsed => if open then t.(late := t.late + job.cost) else t
    case _ => t
  }

  function Dripped(t: Tally, kind: MethodClass, extra: nat): Tally {
    t.(dripped := t.dripped[kind := CountIn(t.dripped, kind) + extra])
  }

  // ---------------------------------------------------------------------- the machine

  /** Between a roll's read of key `k` and its reset. */
  predicate Window(roller: Roller, k: nat) {
    match roller
    case Resting => false
    case Capturing(_, points) => k < |points|
    case Resetting(_, next) => k >= next
  }

  /** The baseline that what is charged to key `k` counts from; none between a day roll's read of the key and its load
      of the new one. */
  function DayBase(roller: DayRoller, k: nat, key: Key): Option<nat> {
    match roller
    case Asleep => Some(key.dayStart)
    case Reading(_, points) => if k < |points| then None else Some(key.dayStart)
    case Rebasing(next, loaded) => if k < next then Some(key.dayStart) else if k == next then loaded else None
  }

  /** The record a day roll pushes once every key is read. */
  function ClosingDay(roller: DayRoller): PeriodRecord
    requires roller.Reading?
  {
    PeriodRecord(roller.day, Total(roller.points, CreditsOf), roller.points)
  }

  /** The record a roll pushes once every key is read. */
  function ClosingRecord(roller: Roller): PeriodRecord
    requires roller.Capturing?
  {
    PeriodRecord(roller.prev, Total(roller.points, CreditsOf), roller.points)
  }

  function NewTally(key: Key, global: Global): Tally {
    Tally(0, map[], map[], 0, 0, 0, 0, 0, key, key.total - key.used - Logs.Logged(global.history, key.name),
          key.total - key.DailyUsed() - Logs.Logged(global.daily, key.name))
  }

  function Booted(setup: Setup, file: File, jobs: nat, month: nat, day: nat): State {
    var app := Boot(setup, file, month, day);
    State(app.keys, app.cursor, seq(jobs, _ => Idle), Resting, Asleep, Off, app.global, file,
          seq(|app.keys|, i requires 0 <= i < |app.keys| => NewTally(app.keys[i], app.global)), app.global.daily)
  }

  predicate CanRoll(roller: Roller, step: RollStep, active: nat, n: nat) {
    match step
    case RollStart(month) => roller.Resting? && month != active && month > 0 && n > 0
    case RollCapture => roller.Capturing? && |roller.points| < n
    case RollPush => roller.Capturing? && |roller.points| == n
    case RollReset => roller.Resetting? && roller.next < n
  }

  predicate CanStep(roller: DayRoller, step: DayStep, active: nat, n: nat) {
    match step
    case Start(day) => roller.Asleep? && day != active && day > 0 && n > 0
    case Read => roller.Reading? && |roller.points| < n
    case Push => roller.Reading? && |roller.points| == n
    case Load => roller.Rebasing? && roller.next < n && roller.loaded.None?
    case Store => roller.Rebasing? && roller.next < n && roller.loaded.Some?
  }

  predicate CanSave(writer: Writer, step: SaveStep, n: nat) {
    match step
    case SaveStart(_) => writer.Off?
    case SaveUsed => writer.Saving? && |writer.draft.upstreams| < n && |writer.part| == 0
    case SaveTotal => writer.Saving? && |writer.draft.upstreams| < n && |writer.part| == 1
    case SaveBaseline => writer.Saving? && |writer.draft.upstreams| < n && |writer.part| == 2
    case SaveHistory => writer.Saving? && |writer.draft.upstreams| == n
    case SaveDay => writer.Dating?
    case SaveFinish => writer.Ending?
  }

  predicate Enabled(s: State, ev: Event, retries: nat) {
    var n := |s.keys|;
    && |s.tallies| == n
    && match ev
       case Work(t, move) => t < |s.jobs| && Can(s.jobs[t], move, n) && WithinRetries(s.jobs[t], move, retries)
       case Roll(step) => CanRoll(s.roller, step, s.global.month, n)
       case Day(step) => CanStep(s.dayRoller, step, s.global.day, n)
       case Save(step) => CanSave(s.writer, step, n)
       case Drip(k, _, _) => k < n
       case Corrupt => true
       case Crash(month, day) => month > 0 && day > 0
  }

  function WorkNext(s: State, t: nat, move: Move): State
    requires t < |s.jobs| && |s.tallies| == |s.keys| && Can(s.jobs[t], move, |s.keys|)
  {
    var job, n := s.jobs[t], |s.keys|;
    if Plans(move) then
      s.(jobs := s.jobs[t := Planned(job, move, s.cursor, n)],
         cursor := s.cursor + (if move.TakeTicket? then 1 else 0),
         global := s.global.(allExhausted := s.global.allExhausted + (if move.GiveUp? then 1 else 0)))
    else
      var k := Touched(job, move, n);
      s.(jobs := s.jobs[t := JobAfter(job, move, k, s.keys[k], n)],
         keys := s.keys[k := KeyAfter(job, move, s.keys[k], n)],
         tallies := s.tallies[k := TallyAfter(job, move, s.keys[k], s.tallies[k], Window(s.roller, k),
                                                 DayBase(s.dayRoller, k, s.keys[k]), n)])
  }

  function DayNext(setup: Setup, s: State, step: DayStep): State
    requires CanStep(s.dayRoller, step, s.global.day, |s.keys|)
  {
    match step
    case Start(day) => s.(global := s.global.(day := day), dayRoller := Reading(s.global.day, []))
    case Read =>
      var k := s.keys[|s.dayRoller.points|];
      s.(dayRoller := Reading(s.dayRoller.day, s.dayRoller.points + [UsagePoint(k.name, k.DailyUsed())]))
    case Push =>
      var closed := ClosingDay(s.dayRoller);
      s.(global := s.global.(daily := TrimFront(s.global.daily + [closed], setup.retention)),
         days := s.days + [closed],
         dayRoller := Rebasing(0, None))
    case Load => s.(dayRoller := Rebasing(s.dayRoller.next, Some(s.keys[s.dayRoller.next].total)))
    case Store =>
      var i := s.dayRoller.next;
      s.(keys := s.keys[i := s.keys[i].(dayStart := s.dayRoller.loaded.value)],
         dayRoller := if i + 1 == |s.keys| then Asleep else Rebasing(i + 1, None))
  }

  function RollNext(s: State, step: RollStep): State
    requires CanRoll(s.roller, step, s.global.month, |s.keys|)
  {
    match step
    case RollStart(month) => s.(global := s.global.(month := month), roller := Capturing(s.global.month, []))
    case RollCapture =>
      var k := |s.roller.points|;
      s.(roller := Capturing(s.roller.prev, s.roller.points + [UsagePoint(s.keys[k].name, s.keys[k].used)]))
    case RollPush =>
      s.(global := s.global.(history := s.global.history + [ClosingRecord(s.roller)]),
         roller := Resetting(s.roller.points, 0))
    case RollReset =>
      var i := s.roller.next;
      s.(keys := s.keys[i := s.keys[i].RestoreMonthly(s.global.month, 0)],
         roller := if i + 1 == |s.keys| then Resting else Resetting(s.roller.points, i + 1))
  }

  function SaveNext(s: State, step: SaveStep): State
    requires CanSave(s.writer, step, |s.keys|)
  {
    match step
    case SaveStart(now) =>
      s.(writer := Saving(Snapshot(SCHEMA_VERSION, s.global.month, now, [], 0, map[], [], 0, []), []))
    case SaveUsed => s.(writer := s.writer.(part := [s.keys[|s.writer.draft.upstreams|].used]))
    case SaveTotal => s.(writer := s.writer.(part := s.writer.part + [s.keys[|s.writer.draft.upstreams|].total]))
    case SaveBaseline =>
      var entry := SnapOf(s.keys[|s.writer.draft.upstreams|]).(used := s.writer.part[0], total := s.writer.part[1]);
      s.(writer := Saving(s.writer.draft.(upstreams := s.writer.draft.upstreams + [entry]), []))
    case SaveHistory =>
      s.(writer := Dating(s.writer.draft.(allExhausted := s.global.allExhausted, methods := s.global.methods,
                                          history := s.global.history)))
    case SaveDay => s.(writer := Ending(s.writer.draft.(currentDay := s.global.day)))
    case SaveFinish => s.(file := Holding(s.writer.draft.(daily := s.global.daily)), writer := Off)
  }

  /** What is left: time passing, the file going bad, crashes. */
  function SystemNext(setup: Setup, s: State, ev: Event, retries: nat): State
    requires Enabled(s, ev, retries) && (ev.Drip? || ev.Corrupt? || ev.Crash?)
  {
    match ev
    case Drip(k, kind, extra) =>
      s.(keys := s.keys[k := s.keys[k].Refill(kind, extra)],
         tallies := s.tallies[k := Dripped(s.tallies[k], kind, extra)])
    case Corrupt => s.(file := Unreadable)
    case Crash(month, day) => Booted(setup, s.file, |s.jobs|, month, day)
  }

  function Next(setup: Setup, s: State, ev: Event, retries: nat): State
    requires Enabled(s, ev, retries)
  {
    match ev
    case Work(t, move) => WorkNext(s, t, move)
    case Roll(step) => RollNext(s, step)
    case Day(step) => DayNext(setup, s, step)
    case Save(step) => SaveNext(s, step)
    case _ => SystemNext(setup, s, ev, retries)
  }

  /** Events that are not enabled when their turn comes do not happen. */
  function Run(setup: Setup, s: State, evs: seq<Event>, retries: nat): State {
    if evs == [] then s else
      var before := Run(setup, s, evs[..|evs| - 1], retries);
      if Enabled(before, evs[|evs| - 1], retries) then Next(setup, before, evs[|evs| - 1], retries) else before
  }

  // ---------------------------------------------------------------------- shape

  ghost predicate Shape(setup: Setup, s: State) {
    && NamesMatch(setup, s.keys)
    && |s.tallies| == |s.keys|
    && s.global.month > 0
    && (s.roller.Capturing? ==> PointsMatch(s.keys, s.roller.points) && 0 < |s.keys|)
    && (s.roller.Resetting? ==>
          PointsMatch(s.keys, s.roller.points) && |s.roller.points| == |s.keys| && s.roller.next < |s.keys|)
    && (s.dayRoller.Reading? ==> PointsMatch(s.keys, s.dayRoller.points) && 0 < |s.keys|)
    && (s.dayRoller.Rebasing? ==> s.dayRoller.next < |s.keys|)
    && (!s.writer.Off? ==> SnapsMatch(setup, s.writer.draft.upstreams))
    && (s.writer.Dating? || s.writer.Ending? ==> |s.writer.draft.upstreams| == |s.keys|)
    && (s.file.Holding? ==> SnapsMatch(setup, s.file.snap.upstreams) && |s.file.snap.upstreams| == |s.keys|)
  }

  ghost predicate PointsMatch(keys: seq<Key>, points: seq<UsagePoint>) {
    |points| <= |keys| && forall i :: 0 <= i < |points| ==> points[i].name == keys[i].name
  }

  ghost predicate SnapsMatch(setup: Setup, snaps: seq<UpstreamSnap>) {
    |snaps| <= |setup.cfgs| && forall i :: 0 <= i < |snaps| ==> snaps[i].name == setup.cfgs[i].name
  }

  ghost predicate FileMatches(setup: Setup, file: File) {
    file.Holding? ==> SnapsMatch(setup, file.snap.upstreams) && |file.snap.upstreams| == |setup.cfgs|
  }

  lemma BootedShape(setup: Setup, file: File, jobs: nat, month: nat, day: nat)
    requires ValidSetup(setup) && month > 0 && FileMatches(setup, file)
    ensures Shape(setup, Booted(setup, file, jobs, month, day))
  {
    BootShape(setup, file, month, day);
  }

  lemma WorkKeepsNames(s: State, t: nat, move: Move)
    requires t < |s.jobs| && |s.tallies| == |s.keys| && Can(s.jobs[t], move, |s.keys|)
    ensures var s' := WorkNext(s, t, move);
            && |s'.keys| == |s.keys| && |s'.tallies| == |s.tallies| && |s'.jobs| == |s.jobs|
            && (forall i :: 0 <= i < |s.keys| ==> s'.keys[i].name == s.keys[i].name && s'.keys[i].cap == s.keys[i].cap)
            && s'.roller == s.roller && s'.dayRoller == s.dayRoller && s'.writer == s.writer && s'.file == s.file
            && s'.global == s.global.(allExhausted := s'.global.allExhausted)
  {
  }

  lemma WorkKeepsShape(setup: Setup, s: State, t: nat, move: Move)
    requires Shape(setup, s) && t < |s.jobs| && Can(s.jobs[t], move, |s.keys|)
    ensures Shape(setup, WorkNext(s, t, move))
  {
    WorkKeepsNames(s, t, move);
  }

  /** A day roll sets baselines; of the rest it touches only the daily log. */
  lemma DayKeepsTheRest(setup: Setup, s: State, step: DayStep)
    requires CanStep(s.dayRoller, step, s.global.day, |s.keys|)
    ensures var s' := DayNext(setup, s, step);
            && |s'.keys| == |s.keys|
            && (forall i :: 0 <= i < |s.keys| ==> s'.keys[i] == s.keys[i].(dayStart := s'.keys[i].dayStart))
            && s' == s.(keys := s'.keys, dayRoller := s'.dayRoller, days := s'.days,
                        global := s.global.(day := s'.global.day, daily := s'.global.daily))
  {
  }

  lemma DayKeepsShape(setup: Setup, s: State, step: DayStep)
    requires Shape(setup, s) && CanStep(s.dayRoller, step, s.global.day, |s.keys|)
    ensures Shape(setup, DayNext(setup, s, step))
  {
    DayKeepsTheRest(setup, s, step);
  }

  /** A roll sets monthly counters; of the rest it touches only the history. */
  lemma RollKeepsTheRest(s: State, step: RollStep)
    requires CanRoll(s.roller, step, s.global.month, |s.keys|)
    ensures var s' := RollNext(s, step);
            && |s'.keys| == |s.keys|
            && (forall i :: 0 <= i < |s.keys| ==>
                              && s'.keys[i] == s.keys[i].(used := s'.keys[i].used, epoch := s'.keys[i].epoch)
                              && s'.keys[i].used <= s.keys[i].used
                              && (!step.RollReset? ==> s'.keys[i] == s.keys[i]))
            && s' == s.(keys := s'.keys, roller := s'.roller,
                        global := s.global.(month := s'.global.month, history := s'.global.history))
            && s.global.history <= s'.global.history && (!step.RollPush? ==> s'.global.history == s.global.history)
  {
  }

  lemma RollKeepsShape(setup: Setup, s: State, step: RollStep)
    requires Shape(setup, s) && CanRoll(s.roller, step, s.global.month, |s.keys|)
    ensures Shape(setup, RollNext(s, step))
  {
    RollKeepsTheRest(s, step);
  }

  /** A save touches nothing but its draft and the file. */
  lemma SaveKeepsTheRest(s: State, step: SaveStep)
    requires CanSave(s.writer, step, |s.keys|)
    ensures SaveNext(s, step) == s.(writer := SaveNext(s, step).writer, file := SaveNext(s, step).file)
    ensures !step.SaveFinish? ==> SaveNext(s, step).file == s.file
  {
  }

  lemma SaveKeepsShape(setup: Setup, s: State, step: SaveStep)
    requires Shape(setup, s) && CanSave(s.writer, step, |s.keys|)
    ensures Shape(setup, SaveNext(s, step))
  {
  }

  lemma SystemKeepsShape(setup: Setup, s: State, ev: Event, retries: nat)
    requires ValidSetup(setup) && Shape(setup, s) && Enabled(s, ev, retries) && (ev.Drip? || ev.Corrupt? || ev.Crash?)
    ensures Shape(setup, SystemNext(setup, s, ev, retries))
  {
    if ev.Crash? {
      BootedShape(setup, s.file, |s.jobs|, ev.month, ev.day);
    }
  }

  lemma NextKeepsShape(setup: Setup, s: State, ev: Event, retries: nat)
    requires ValidSetup(setup) && Shape(setup, s) && Enabled(s, ev, retries)
    ensures Shape(setup, Next(setup, s, ev, retries))
  {
    match ev
    case Work(t, move) => WorkKeepsShape(setup, s, t, move);
    case Roll(step) => RollKeepsShape(setup, s, step);
    case Day(step) => DayKeepsShape(setup, s, step);
    case Save(step) => SaveKeepsShape(setup, s, step);
    case _ => SystemKeepsShape(setup, s, ev, retries);
  }

  lemma {:induction false} RunKeepsShape(setup: Setup, s: State, evs: seq<Event>, retries: nat)
    requires ValidSetup(setup) && Shape(setup, s)
    ensures Shape(setup, Run(setup, s, evs, retries))
  {
    if evs != [] {
      var n := |evs| - 1;
      RunKeepsShape(setup, s, evs[..n], retries);
      var before := Run(setup, s, evs[..n], retries);
      if Enabled(before, evs[n], retries) {
        NextKeepsShape(setup, before, evs[n], retries);
      }
    }
  }
}
