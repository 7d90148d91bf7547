/** Snapshots under interleaving: a save reads the keys one access at a time, among commits and rolls. */
module SaveRace {
  import opened Interleaving
  import opened Logs
  import opened MonthRace
  import opened Persistence
  import opened Restart
  import opened Statistics
  import opened Upstreams

  /** The save under way has read the month of `k`, and not the history yet. */
  predicate MonthRead(writer: Writer, k: nat) {
    && writer.Saving?
    && (k < |writer.draft.upstreams| || (k == |writer.draft.upstreams| && writer.part != []))
  }

  /** The two ways in which a roll can tear the entry of `k`: it pushes its record between the save's reads of the
      month of `k` and of the history, or the save reads that month after the push and before the reset. */
  predicate Tears(s: State, ev: Event, k: nat) {
    || (ev == Roll(RollPush) && MonthRead(s.writer, k))
    || (ev == Save(SaveUsed) && s.writer.Saving? && k == |s.writer.draft.upstreams|
        && s.roller.Resetting? && k >= s.roller.next)
  }

  /** No save is torn at `k` over the run. */
  ghost predicate NeverTorn(setup: Setup, s: State, evs: seq<Event>, retries: nat, k: nat) {
    evs != [] ==>
      var n := |evs| - 1;
      && NeverTorn(setup, s, evs[..n], retries, k)
      && (Enabled(Run(setup, s, evs[..n], retries), evs[n], retries) ==>
            !Tears(Run(setup, s, evs[..n], retries), evs[n], k))
  }

  /** A boot from the file finds the key's books within its total. */
  ghost predicate FileSound(setup: Setup, file: File, k: nat) {
    match file
    case Holding(snap) =>
      && k < |snap.upstreams| && snap.epoch != 0
      && Logged(snap.history, snap.upstreams[k].name) + snap.upstreams[k].used <= snap.upstreams[k].total
    case Unreadable => setup.policy == Zero
    case Absent => true
  }

  /** The history the save under way has read, or is going to read unless a roll closes a month before. */
  function DraftHistory(s: State): seq<PeriodRecord>
    requires !s.writer.Off?
  {
    if s.writer.Saving? then s.global.history else s.writer.draft.history
  }

  /** So does what the save under way has read. */
  ghost predicate WriterSound(s: State, k: nat)
    requires k < |s.keys|
  {
    !s.writer.Off? ==>
      var name, ups := s.keys[k].name, s.writer.draft.upstreams;
      var logged := Logged(DraftHistory(s), name);
      && s.writer.draft.epoch != 0
      && (k < |ups| ==> ups[k].name == name && logged + ups[k].used <= ups[k].total)
      && (s.writer.Saving? && k == |ups| && s.writer.part != [] ==>
            logged + s.writer.part[0] <= if |s.writer.part| == 1 then s.keys[k].total else s.writer.part[1])
  }

  ghost predicate Sound(setup: Setup, s: State, k: nat) {
    && MonthBooks(s, k) && s.tallies[k].opening >= 0
    && FileSound(setup, s.file, k) && WriterSound(s, k)
  }

  lemma WorkOnlyCharges(job: Job, move: Move, key: Key, n: nat)
    requires Can(job, move, n) && !Plans(move)
    ensures var key' := KeyAfter(job, move, key, n);
            key'.name == key.name && key'.used >= key.used && key'.total >= key.total
  {
  }

  /** Outside the moments that tear it, a key's usage as read now and its history are within its total. */
  lemma MonthReadSoundly(setup: Setup, s: State, k: nat)
    requires Shape(setup, s) && MonthBooks(s, k) && s.tallies[k].opening >= 0
    requires !(s.roller.Resetting? && k >= s.roller.next)
    ensures Logged(s.global.history, s.keys[k].name) + s.keys[k].used <= s.keys[k].total
  {
  }

  lemma WorkKeepsWriterSound(s: State, t: nat, move: Move, k: nat)
    requires t < |s.jobs| && |s.tallies| == |s.keys| && Can(s.jobs[t], move, |s.keys|)
    requires k < |s.keys| && WriterSound(s, k)
    ensures k < |WorkNext(s, t, move).keys| && WriterSound(WorkNext(s, t, move), k)
    ensures WorkNext(s, t, move).keys[k].total >= s.keys[k].total && WorkNext(s, t, move).keys[k].used >= s.keys[k].used
  {
    WorkKeepsNames(s, t, move);
    if !Plans(move) {
      var j := Touched(s.jobs[t], move, |s.keys|);
      WorkOnlyCharges(s.jobs[t], move, s.keys[j], |s.keys|);
    }
  }

  lemma RollKeepsWriterSound(s: State, step: RollStep, k: nat)
    requires k < |s.keys| && WriterSound(s, k) && CanRoll(s.roller, step, s.global.month, |s.keys|)
    requires !Tears(s, Roll(step), k)
    ensures k < |RollNext(s, step).keys| && WriterSound(RollNext(s, step), k)
  {
    RollKeepsTheRest(s, step);
  }

  lemma SaveKeepsWriterSound(setup: Setup, s: State, step: SaveStep, k: nat)
    requires Shape(setup, s) && MonthBooks(s, k) && s.tallies[k].opening >= 0 && WriterSound(s, k)
    requires CanSave(s.writer, step, |s.keys|) && !Tears(s, Save(step), k)
    ensures WriterSound(SaveNext(s, step), k)
  {
    if step.SaveUsed? && k == |s.writer.draft.upstreams| {
      MonthReadSoundly(setup, s, k);
    }
  }

  lemma EventKeepsWriterSound(setup: Setup, s: State, ev: Event, retries: nat, k: nat)
    requires ValidSetup(setup) && Shape(setup, s) && Sound(setup, s, k) && Enabled(s, ev, retries)
    requires !Tears(s, ev, k) && !ev.Crash?
    ensures var s' := Next(setup, s, ev, retries); k < |s'.keys| && WriterSound(s', k)
  {
    match ev
    case Work(t, move) => WorkKeepsWriterSound(s, t, move, k);
    case Roll(step) => RollKeepsWriterSound(s, step, k);
    case Day(step) => DayKeepsTheRest(setup, s, step);
    case Save(step) => SaveKeepsWriterSound(setup, s, step, k);
    case _ =>
  }

  lemma SavedFileIsSound(setup: Setup, s: State, ev: Event, retries: nat, k: nat)
    requires ValidSetup(setup) && Shape(setup, s) && Sound(setup, s, k) && Enabled(s, ev, retries)
    requires ev.Corrupt? ==> setup.policy == Zero
    ensures FileSound(setup, Next(setup, s, ev, retries).file, k)
  {
    match ev
    case Work(t, move) => WorkKeepsNames(s, t, move);
    case Roll(step) => RollKeepsTheRest(s, step);
    case Day(step) => DayKeepsTheRest(setup, s, step);
    case Save(step) => SaveKeepsTheRest(s, step);
    case _ =>
  }

  lemma EventKeepsSound(setup: Setup, s: State, ev: Event, retries: nat, k: nat)
    requires ValidSetup(setup) && Shape(setup, s) && Sound(setup, s, k) && Enabled(s, ev, retries)
    requires !Tears(s, ev, k) && (ev.Corrupt? ==> setup.policy == Zero)
    ensures Sound(setup, Next(setup, s, ev, retries), k)
  {
    EventKeepsMonthBooks(setup, s, ev, retries, k);
    SavedFileIsSound(setup, s, ev, retries, k);
    if ev.Crash? {
      SoundFileBootsSound(setup, s.file, |s.jobs|, ev.month, ev.day, k);
    } else {
      EventKeepsOpening(setup, s, ev, retries, k);
      EventKeepsWriterSound(setup, s, ev, retries, k);
    }
  }

  /** A boot from a sound file is sound, whatever the month. */
  lemma SoundFileBootsSound(setup: Setup, file: File, jobs: nat, month: nat, day: nat, k: nat)
    requires ValidSetup(setup) && FileMatches(setup, file) && k < |setup.cfgs| && FileSound(setup, file, k)
    ensures Sound(setup, Booted(setup, file, jobs, month, day), k)
  {
    BootShape(setup, file, month, day);
    BootStartsMonthBooks(setup, file, jobs, month, day, k);
    if file.Holding? {
      BootHistory(setup, file.snap, month, day, k);
    }
  }

  lemma {:induction false} RunKeepsSound(setup: Setup, s: State, evs: seq<Event>, retries: nat, k: nat)
    requires ValidSetup(setup) && Shape(setup, s) && Sound(setup, s, k) && NeverTorn(setup, s, evs, retries, k)
    requires setup.policy == Zero || forall ev <- evs :: !ev.Corrupt?
    ensures Sound(setup, Run(setup, s, evs, retries), k)
  {
    if evs != [] {
      var n := |evs| - 1;
      RunKeepsSound(setup, s, evs[..n], retries, k);
      RunKeepsShape(setup, s, evs[..n], retries);
      assert evs[n] in evs;
      var before := Run(setup, s, evs[..n], retries);
      if Enabled(before, evs[n], retries) {
        EventKeepsSound(setup, before, evs[n], retries, k);
      }
    }
  }

  /** Saves stay consistent over whole lives: start from a sound file, and let anything happen, crashes and rolls that
      overlap saves included, so long as no roll tears the entry of `k`. Then every file written, and so every boot,
      has the key's history and usage within its total: writers add to the total first, the reader reads it last. */
  lemma UntornSavesStayConsistent(setup: Setup, file: File, jobs: nat, month: nat, day: nat, evs: seq<Event>,
        retries: nat, k: nat)
    requires ValidSetup(setup) && month > 0 && FileMatches(setup, file) && k < |setup.cfgs| && FileSound(setup, file, k)
    requires NeverTorn(setup, Booted(setup, file, jobs, month, day), evs, retries, k)
    requires setup.policy == Zero || forall ev <- evs :: !ev.Corrupt?
    ensures FileSound(setup, Run(setup, Booted(setup, file, jobs, month, day), evs, retries).file, k)
    ensures Sound(setup, Run(setup, Booted(setup, file, jobs, month, day), evs, retries), k)
  {
    BootedShape(setup, file, jobs, month, day);
    SoundFileBootsSound(setup, file, jobs, month, day, k);
    RunKeepsSound(setup, Booted(setup, file, jobs, month, day), evs, retries, k);
  }

  // ---------------------------------------------------------------------- what a save includes

  /** What can happen while a save goes on. */
  predicate DuringSave(ev: Event) {
    !ev.Crash? && ev != Save(SaveFinish)
  }

  predicate Resets(ev: Event) {
    ev == Roll(RollReset)
  }

  /** The save under way misses no credit that was in the total, nor, unless the key was `reset`, in its month. */
  ghost predicate SavesAll(start: State, s: State, k: nat, reset: bool) {
    && k < |start.keys| == |s.keys| && |s.tallies| == |s.keys| && !s.writer.Off?
    && s.keys[k].name == start.keys[k].name
    && start.keys[k].total <= s.keys[k].total
    && (!reset ==> start.keys[k].used <= s.keys[k].used)
    && var ups := s.writer.draft.upstreams;
    && (k < |ups| ==>
          && ups[k].name == start.keys[k].name
          && start.keys[k].total <= ups[k].total
          && (!reset ==> start.keys[k].used <= ups[k].used))
    && (s.writer.Saving? && k == |ups| ==>
          && (s.writer.part != [] && !reset ==> start.keys[k].used <= s.writer.part[0])
          && (|s.writer.part| > 1 ==> start.keys[k].total <= s.writer.part[1]))
  }

  lemma WorkSavesAll(start: State, s: State, t: nat, move: Move, k: nat, reset: bool)
    requires SavesAll(start, s, k, reset) && t < |s.jobs| && Can(s.jobs[t], move, |s.keys|)
    ensures SavesAll(start, WorkNext(s, t, move), k, reset)
  {
    WorkKeepsNames(s, t, move);
    if !Plans(move) {
      var j := Touched(s.jobs[t], move, |s.keys|);
      WorkOnlyCharges(s.jobs[t], move, s.keys[j], |s.keys|);
    }
  }

  lemma EventSavesAll(setup: Setup, start: State, s: State, ev: Event, retries: nat, k: nat, reset: bool)
    requires SavesAll(start, s, k, reset) && Enabled(s, ev, retries) && DuringSave(ev)
    requires Resets(ev) ==> reset
    ensures SavesAll(start, Next(setup, s, ev, retries), k, reset)
  {
    match ev
    case Work(t, move) => WorkSavesAll(start, s, t, move, k, reset);
    case Roll(step) => RollKeepsTheRest(s, step);
    case Day(step) => DayKeepsTheRest(setup, s, step);
    case Save(step) => SaveKeepsTheRest(s, step);
    case _ =>
  }

  lemma {:induction false} SaveRunSavesAll(setup: Setup, start: State, evs: seq<Event>, retries: nat, k: nat,
        reset: bool)
    requires SavesAll(start, start, k, reset) && forall ev <- evs :: DuringSave(ev) && (Resets(ev) ==> reset)
    ensures SavesAll(start, Run(setup, start, evs, retries), k, reset)
  {
    if evs != [] {
      var n := |evs| - 1;
      SaveRunSavesAll(setup, start, evs[..n], retries, k, reset);
      var before := Run(setup, start, evs[..n], retries);
      assert DuringSave(evs[n]) && (Resets(evs[n]) ==> reset);
      if Enabled(before, evs[n], retries) {
        EventSavesAll(setup, start, before, evs[n], retries, k, reset);
      }
    }
  }

  lemma FileHasEntry(setup: Setup, start: State, s: State, retries: nat, k: nat, reset: bool)
    requires Shape(setup, s) && SavesAll(start, s, k, reset) && WriterSound(s, k)
    ensures Enabled(s, Save(SaveFinish), retries) ==>
              var file := Next(setup, s, Save(SaveFinish), retries).file;
              && file.Holding? && k < |file.snap.upstreams|
              && var e := file.snap.upstreams[k];
              && e.name == start.keys[k].name
              && Logged(file.snap.history, e.name) + e.used <= e.total
              && start.keys[k].total <= e.total
              && (!reset ==> start.keys[k].used <= e.used)
  {
  }

  /** A snapshot taken access by access, among any moves of jobs and rollers: if no roll tears the entry of `k`, it
      records books within the total; and both of its fields include every commit that was finished when the save
      started, its month unless a roll reset the key meanwhile. */
  lemma TornSnapshotIsConsistent(setup: Setup, s: State, now: nat, evs: seq<Event>, retries: nat, k: nat)
    requires ValidSetup(setup) && Shape(setup, s) && Sound(setup, s, k) && Enabled(s, Save(SaveStart(now)), retries)
    requires forall ev <- evs :: DuringSave(ev)
    requires setup.policy == Zero || forall ev <- evs :: !ev.Corrupt?
    requires NeverTorn(setup, Next(setup, s, Save(SaveStart(now)), retries), evs, retries, k)
    ensures var done := Run(setup, Next(setup, s, Save(SaveStart(now)), retries), evs, retries);
            Enabled(done, Save(SaveFinish), retries) ==>
              var file := Next(setup, done, Save(SaveFinish), retries).file;
              && file.Holding? && k < |file.snap.upstreams|
              && var e := file.snap.upstreams[k];
              && e.name == s.keys[k].name
              && Logged(file.snap.history, e.name) + e.used <= e.total
              && s.keys[k].total <= e.total
              && ((forall ev <- evs :: !Resets(ev)) ==> s.keys[k].used <= e.used)
  {
    var start := Next(setup, s, Save(SaveStart(now)), retries);
    EventKeepsSound(setup, s, Save(SaveStart(now)), retries, k);
    SaveKeepsShape(setup, s, SaveStart(now));
    RunKeepsSound(setup, start, evs, retries, k);
    RunKeepsShape(setup, start, evs, retries);
    SaveRunSavesAll(setup, start, evs, retries, k, true);
    FileHasEntry(setup, start, Run(setup, start, evs, retries), retries, k, true);
    if forall ev <- evs :: !Resets(ev) {
      SaveRunSavesAll(setup, start, evs, retries, k, false);
      FileHasEntry(setup, start, Run(setup, start, evs, retries), retries, k, false);
    }
  }

  // ---------------------------------------------------------------------- by how much a torn save is off

  /** How far the books of an entry exceed its total. */
  function Excess(snap: Snapshot, k: nat): int
    requires k < |snap.upstreams|
  {
    Logged(snap.history, snap.upstreams[k].name) + snap.upstreams[k].used - snap.upstreams[k].total
  }

  /** From the read of the history on, entries and history of the draft stay, and become the file's. */
  ghost predicate Drafted(snap: Snapshot, s: State) {
    (s.writer.Dating? || s.writer.Ending?)
    && s.writer.draft.upstreams == snap.upstreams && s.writer.draft.history == snap.history
  }

  lemma {:induction false} DraftStays(setup: Setup, start: State, evs: seq<Event>, retries: nat, snap: Snapshot)
    requires Drafted(snap, start) && forall ev <- evs :: DuringSave(ev)
    ensures Drafted(snap, Run(setup, start, evs, retries))
  {
    if evs != [] {
      var n := |evs| - 1;
      DraftStays(setup, start, evs[..n], retries, snap);
      assert DuringSave(evs[n]);
      var before := Run(setup, start, evs[..n], retries);
      if Enabled(before, evs[n], retries) {
        EventKeepsDraft(setup, before, evs[n], retries, snap);
      }
    }
  }

  lemma EventKeepsDraft(setup: Setup, s: State, ev: Event, retries: nat, snap: Snapshot)
    requires Drafted(snap, s) && Enabled(s, ev, retries) && DuringSave(ev)
    ensures Drafted(snap, Next(setup, s, ev, retries))
  {
    match ev
    case Work(t, move) => WorkKeepsNames(s, t, move);
    case Roll(step) => RollKeepsTheRest(s, step);
    case Day(step) => DayKeepsTheRest(setup, s, step);
    case Save(step) => SaveKeepsTheRest(s, step);
    case _ =>
  }

  /** Torn or not, the file's books exceed its total by exactly what the save read of the key's month and was no
      longer open when it read the history, plus what was charged since it read the total, less what the books
      were short of then. So the file is consistent if and only if that is not positive. */
  lemma SavedExcess(setup: Setup, s: State, evs: seq<Event>, retries: nat, k: nat)
    requires Shape(setup, s) && MonthBooks(s, k) && Enabled(s, Save(SaveHistory), retries)
    requires forall ev <- evs :: DuringSave(ev)
    ensures var done := Run(setup, Next(setup, s, Save(SaveHistory), retries), evs, retries);
            Enabled(done, Save(SaveFinish), retries) ==>
              var snap := Next(setup, done, Save(SaveFinish), retries).file.snap;
              && k < |snap.upstreams|
              && Excess(snap, k) == (snap.upstreams[k].used - Unclosed(s, k))
                                    + (s.keys[k].total - snap.upstreams[k].total)
                                    - (s.tallies[k].opening + s.tallies[k].late + Pending(s, k))
  {
    var start := Next(setup, s, Save(SaveHistory), retries);
    DraftStays(setup, start, evs, retries, start.writer.draft);
  }
}
