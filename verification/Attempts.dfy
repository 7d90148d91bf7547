/** Every attempt is accounted for, and so is every token, under any interleaving. */
module Attempts {
  import opened Interleaving
  import opened Persistence
  import opened Ratelimit
  import opened Restart
  import opened Totals
  import opened Upstreams
  import opened Wrappers

  /** Selected on `k` and not counted as ok, rate-limited or failed yet. */
  function UnsettledOn(k: nat): Job -> nat {
    (job: Job) =>
      match job
      case Forwarding(_, _, key) => if key == k then 1 else 0
      case Tripping(next, _, key, _) => if key == k && next.Some? then 1 else 0
      case Recording(next, key) => if key == k && next.Some? then 1 else 0
      case _ => 0
  }

  function FlyingOn(k: nat): Job -> nat {
    (job: Job) => if job.Forwarding? && job.key == k then 1 else 0
  }

  function Outcomes(k: Key): nat {
    k.ok + k.limited + k.errors
  }

  /** Selections of the key are its recorded outcomes since boot, less the rate-limited pings, and the
      attempts still unsettled or dropped; its in-flight count is what is in flight or was dropped. */
  ghost predicate AttemptsAddUp(s: State, k: nat) {
    && k < |s.keys| == |s.tallies|
    && var key, t := s.keys[k], s.tallies[k];
    && t.selects == Outcomes(key) - Outcomes(t.base) - t.pings429 + Total(s.jobs, UnsettledOn(k)) + t.dropped
    && key.inFlight == Total(s.jobs, FlyingOn(k)) + t.dropped
  }

  function AllGrants(granted: Limiters): nat {
    CountIn(granted, StandardRpc) + CountIn(granted, SendTransaction) + CountIn(granted, GetProgramAccounts)
    + CountIn(granted, Das) + CountIn(granted, Zk)
  }

  ghost predicate BucketAddsUp(key: Key, t: Tally, kind: MethodClass) {
    && (kind in key.tokens <==> kind in t.base.tokens)
    && (kind in key.tokens ==>
          key.tokens[kind] + CountIn(t.granted, kind) == t.base.tokens[kind] + CountIn(t.dripped, kind))
  }

  /** Each bucket holds what it held at boot and what dripped in, less one token per grant of its class;
      the grants of all classes, limited or not, are the selections. */
  ghost predicate TokensAddUp(s: State, k: nat) {
    && k < |s.keys| == |s.tallies|
    && (forall kind :: BucketAddsUp(s.keys[k], s.tallies[k], kind))
    && s.tallies[k].selects == AllGrants(s.tallies[k].granted)
  }

  lemma MoveAddsUp(job: Job, move: Move, key: Key, t: Tally, open: bool, start: Option<nat>, k: nat, n: nat)
    requires Can(job, move, n) && !Plans(move)
    ensures var j := Touched(job, move, n);
            var key', t' := KeyAfter(job, move, key, n), TallyAfter(job, move, key, t, open, start, n);
            var job' := JobAfter(job, move, j, key, n);
            && (j != k ==> UnsettledOn(k)(job') == UnsettledOn(k)(job) && FlyingOn(k)(job') == FlyingOn(k)(job))
            && t'.base == t.base
            && (j == k ==>
                  && t'.selects - t.selects == Outcomes(key') - Outcomes(key) - (t'.pings429 - t.pings429)
                                               + UnsettledOn(k)(job') - UnsettledOn(k)(job) + (t'.dropped - t.dropped)
                  && (key.inFlight >= FlyingOn(k)(job) ==>
                        key'.inFlight - key.inFlight
                          == FlyingOn(k)(job') - FlyingOn(k)(job) + (t'.dropped - t.dropped)))
  {
  }

  lemma WorkAddsUp(s: State, t: nat, move: Move, k: nat)
    requires AttemptsAddUp(s, k) && t < |s.jobs| && Can(s.jobs[t], move, |s.keys|)
    ensures AttemptsAddUp(WorkNext(s, t, move), k)
  {
    var s' := WorkNext(s, t, move);
    TotalUpdate(s.jobs, t, s'.jobs[t], UnsettledOn(k));
    TotalUpdate(s.jobs, t, s'.jobs[t], FlyingOn(k));
    TotalAtLeast(s.jobs, t, FlyingOn(k));
    if !Plans(move) {
      var j := Touched(s.jobs[t], move, |s.keys|);
      MoveAddsUp(s.jobs[t], move, s.keys[j], s.tallies[j], Window(s.roller, j), DayBase(s.dayRoller, j, s.keys[j]), k,
                 |s.keys|);
    }
  }

  lemma MoveCountsTokens(job: Job, move: Move, key: Key, t: Tally, open: bool, start: Option<nat>, n: nat,
        kind: MethodClass)
    requires Can(job, move, n) && !Plans(move) && BucketAddsUp(key, t, kind)
    ensures BucketAddsUp(KeyAfter(job, move, key, n), TallyAfter(job, move, key, t, open, start, n), kind)
  {
  }

  lemma MoveCountsGrants(job: Job, move: Move, key: Key, t: Tally, open: bool, start: Option<nat>, n: nat)
    requires Can(job, move, n) && !Plans(move)
    ensures var t' := TallyAfter(job, move, key, t, open, start, n);
            t'.selects - t.selects == AllGrants(t'.granted) - AllGrants(t.granted)
  {
    if move.Admit? {
      match job.quest.req.kind
      case StandardRpc =>
      case SendTransaction =>
      case GetProgramAccounts =>
      case Das =>
      case Zk =>
    }
  }

  lemma WorkCountsTokens(s: State, t: nat, move: Move, k: nat)
    requires TokensAddUp(s, k) && t < |s.jobs| && Can(s.jobs[t], move, |s.keys|)
    ensures TokensAddUp(WorkNext(s, t, move), k)
  {
    if !Plans(move) {
      var j := Touched(s.jobs[t], move, |s.keys|);
      var open, start := Window(s.roller, j), DayBase(s.dayRoller, j, s.keys[j]);
      if j == k {
        MoveCountsGrants(s.jobs[t], move, s.keys[k], s.tallies[k], open, start, |s.keys|);
        forall kind ensures BucketAddsUp(WorkNext(s, t, move).keys[k], WorkNext(s, t, move).tallies[k], kind) {
          MoveCountsTokens(s.jobs[t], move, s.keys[k], s.tallies[k], open, start, |s.keys|, kind);
        }
      }
    }
  }

  lemma BootAddsUp(setup: Setup, file: File, jobs: nat, month: nat, day: nat, k: nat)
    requires ValidSetup(setup) && k < |setup.cfgs|
    ensures AttemptsAddUp(Booted(setup, file, jobs, month, day), k)
    ensures TokensAddUp(Booted(setup, file, jobs, month, day), k)
  {
    var s := Booted(setup, file, jobs, month, day);
    BootShape(setup, file, month, day);
    TotalZero(s.jobs, UnsettledOn(k));
    TotalZero(s.jobs, FlyingOn(k));
    assert s.keys[k].inFlight == FreshKeys(setup.cfgs, setup.rps)[k].inFlight;
  }

  lemma DripCountsTokens(key: Key, t: Tally, kind: MethodClass, extra: nat, other: MethodClass)
    requires BucketAddsUp(key, t, other)
    ensures BucketAddsUp(key.Refill(kind, extra), Dripped(t, kind, extra), other)
  {
  }

  lemma SystemAddsUp(setup: Setup, s: State, ev: Event, retries: nat, k: nat)
    requires ValidSetup(setup) && Shape(setup, s) && Enabled(s, ev, retries) && (ev.Drip? || ev.Corrupt? || ev.Crash?)
    requires AttemptsAddUp(s, k) && TokensAddUp(s, k)
    ensures AttemptsAddUp(SystemNext(setup, s, ev, retries), k) && TokensAddUp(SystemNext(setup, s, ev, retries), k)
  {
    if ev.Crash? {
      BootAddsUp(setup, s.file, |s.jobs|, ev.month, ev.day, k);
    } else if ev.Drip? {
      forall kind ensures BucketAddsUp(SystemNext(setup, s, ev, retries).keys[k],
                                       SystemNext(setup, s, ev, retries).tallies[k], kind)
      {
        if ev.key == k {
          DripCountsTokens(s.keys[k], s.tallies[k], ev.kind, ev.extra, kind);
        }
      }
    }
  }

  /** Rollers and writer leave alone what is counted here. */
  lemma OthersAddUp(s: State, s': State, k: nat)
    requires AttemptsAddUp(s, k) && TokensAddUp(s, k)
    requires s'.jobs == s.jobs && s'.tallies == s.tallies && |s'.keys| == |s.keys|
    requires Outcomes(s'.keys[k]) == Outcomes(s.keys[k]) && s'.keys[k].inFlight == s.keys[k].inFlight
    requires s'.keys[k].tokens == s.keys[k].tokens
    ensures AttemptsAddUp(s', k) && TokensAddUp(s', k)
  {
    forall kind ensures BucketAddsUp(s'.keys[k], s'.tallies[k], kind) {
      assert BucketAddsUp(s.keys[k], s.tallies[k], kind);
    }
  }

  lemma EventAddsUp(setup: Setup, s: State, ev: Event, retries: nat, k: nat)
    requires ValidSetup(setup) && Shape(setup, s) && Enabled(s, ev, retries)
    requires AttemptsAddUp(s, k) && TokensAddUp(s, k)
    ensures AttemptsAddUp(Next(setup, s, ev, retries), k) && TokensAddUp(Next(setup, s, ev, retries), k)
  {
    match ev
    case Work(t, move) =>
      WorkAddsUp(s, t, move, k);
      WorkCountsTokens(s, t, move, k);
    case Roll(step) =>
      RollKeepsTheRest(s, step);
      OthersAddUp(s, RollNext(s, step), k);
    case Day(step) =>
      DayKeepsTheRest(setup, s, step);
      OthersAddUp(s, DayNext(setup, s, step), k);
    case Save(step) =>
      SaveKeepsTheRest(s, step);
      OthersAddUp(s, SaveNext(s, step), k);
    case _ => SystemAddsUp(setup, s, ev, retries, k);
  }

  /** In every reachable state of every interleaving, through any number of crashes, attempts and tokens are
      conserved per key. */
  lemma {:induction false} AttemptsAndTokensAreConserved(setup: Setup, file: File, jobs: nat, month: nat, day: nat,
        evs: seq<Event>, retries: nat, k: nat)
    requires ValidSetup(setup) && month > 0 && FileMatches(setup, file) && k < |setup.cfgs|
    ensures AttemptsAddUp(Run(setup, Booted(setup, file, jobs, month, day), evs, retries), k)
    ensures TokensAddUp(Run(setup, Booted(setup, file, jobs, month, day), evs, retries), k)
  {
    BootAddsUp(setup, file, jobs, month, day, k);
    if evs != [] {
      var n := |evs| - 1;
      AttemptsAndTokensAreConserved(setup, file, jobs, month, day, evs[..n], retries, k);
      BootedShape(setup, file, jobs, month, day);
      RunKeepsShape(setup, Booted(setup, file, jobs, month, day), evs[..n], retries);
      var before := Run(setup, Booted(setup, file, jobs, month, day), evs[..n], retries);
      if Enabled(before, evs[n], retries) {
        EventAddsUp(setup, before, evs[n], retries, k);
      }
    }
  }

  /** In every reachable state, a job about to take a token from a key that is past its cooldown is turned away if and
      only if the class is limited and every token the bucket was booted with or given since has been granted. */
  lemma TurnedAwayIffSpent(setup: Setup, file: File, jobs: nat, month: nat, day: nat, evs: seq<Event>, retries: nat,
        t: nat)
    requires ValidSetup(setup) && month > 0 && FileMatches(setup, file)
    ensures var s := Run(setup, Booted(setup, file, jobs, month, day), evs, retries);
            Enabled(s, Work(t, Admit), retries) ==>
              var job, s' := s.jobs[t], Next(setup, s, Work(t, Admit), retries);
              var key, tally, kind := s.keys[job.key], s.tallies[job.key], job.quest.req.kind;
              && (s'.jobs[t].Scanning? || s'.jobs[t].Forwarding?)
              && (key.cooldownUntil > job.now ==> s'.jobs[t].Scanning?)
              && (key.cooldownUntil <= job.now ==>
                    (s'.jobs[t].Scanning? <==>
                     && kind in tally.base.tokens
                     && tally.base.tokens[kind] + CountIn(tally.dripped, kind) == CountIn(tally.granted, kind)))
  {
    var start := Booted(setup, file, jobs, month, day);
    var s := Run(setup, start, evs, retries);
    if Enabled(s, Work(t, Admit), retries) {
      BootedShape(setup, file, jobs, month, day);
      RunKeepsShape(setup, start, evs, retries);
      AttemptsAndTokensAreConserved(setup, file, jobs, month, day, evs, retries, s.jobs[t].key);
      assert BucketAddsUp(s.keys[s.jobs[t].key], s.tallies[s.jobs[t].key], s.jobs[t].quest.req.kind);
    }
  }
}
