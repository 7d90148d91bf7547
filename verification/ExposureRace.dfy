/** What `/metrics` exposes under interleaving: a job increments its series one at a time, after the
    counters in memory that they mirror.

    The increments are laid over the interleaved machine: a job that owes some pays them before its
    next access, and nothing in the machine looks at them. */
module ExposureRace {
  import opened Exposure
  import opened Interleaving
  import opened Metrics
  import opened Persistence
  import opened Restart
  import opened Schedules
  import opened Totals
  import opened Upstreams
  import opened Wrappers

  /** An increment that a job has still to make. */
  datatype Due = Due(series: Series, amount: nat)

  datatype Shown = Shown(s: State, counters: map<Series, nat>, due: seq<seq<Due>>)

  datatype Act = Do(ev: Event) | Publish(t: nat)

  function AmountOf(series: Series): Due -> nat {
    (d: Due) => if d.series == series then d.amount else 0
  }

  function Owed(series: Series): seq<Due> -> nat {
    (q: seq<Due>) => Total(q, AmountOf(series))
  }

  function Get(counters: map<Series, nat>, series: Series): nat {
    if series in counters then counters[series] else 0
  }

  /** What a job comes to owe with a move, in the order in which it will pay; `key` is the touched key. */
  function Owes(job: Job, move: Move, key: Key, n: nat): seq<Due>
    requires Can(job, move, n) && !Plans(move)
  {
    match move
    case RecordLimit =>
      if job.next.None? then []
      else [Due(RateLimitHits(key.name), 1), Due(Requests(key.name, WasRateLimited), 1)]
    case Reply(outcome) =>
      (match outcome
       case Serviced => [Due(CreditsConsumed(key.name), job.quest.req.est), Due(Requests(key.name, WasOk), 1)]
       case Failed => [Due(UpstreamErrors(key.name), 1), Due(Requests(key.name, WasError), 1)]
       case _ => [])
    case PingReply(answer) =>
      if answer.Answered? then [Due(Keepalive(key.name), 1), Due(CreditsConsumed(key.name), job.cost)] else []
    case _ => []
  }

  function WorkOwes(s: State, t: nat, move: Move): seq<Due>
    requires t < |s.jobs| && Can(s.jobs[t], move, |s.keys|)
  {
    if move.GiveUp? then [Due(AllExhausted, 1)]
    else if Plans(move) then []
    else Owes(s.jobs[t], move, s.keys[Touched(s.jobs[t], move, |s.keys|)], |s.keys|)
  }

  /** Charging comes before the increments of a serviced reply. */
  predicate Charging(job: Job) {
    job.BumpTotal? || job.BumpUsed?
  }

  predicate CanAct(x: Shown, act: Act, retries: nat) {
    && |x.due| == |x.s.jobs|
    && match act
       case Do(ev) => Enabled(x.s, ev, retries) && (ev.Work? ==> x.due[ev.job] == [] || Charging(x.s.jobs[ev.job]))
       case Publish(t) => t < |x.due| && x.due[t] != [] && !Charging(x.s.jobs[t])
  }

  function After(setup: Setup, x: Shown, act: Act, retries: nat): Shown
    requires CanAct(x, act, retries)
  {
    match act
    case Publish(t) =>
      var d := x.due[t][0];
      Shown(x.s, x.counters[d.series := Get(x.counters, d.series) + d.amount], x.due[t := x.due[t][1..]])
    case Do(Work(t, move)) =>
      Shown(WorkNext(x.s, t, move), x.counters, x.due[t := x.due[t] + WorkOwes(x.s, t, move)])
    case Do(Crash(month, day)) => BootShown(setup, x.s.file, |x.s.jobs|, month, day)
    case Do(ev) => Shown(Next(setup, x.s, ev, retries), x.counters, x.due)
  }

  function BootShown(setup: Setup, file: File, jobs: nat, month: nat, day: nat): Shown {
    Shown(Booted(setup, file, jobs, month, day), Boot(setup, file, month, day).prom.counters, seq(jobs, _ => []))
  }

  function Perform(setup: Setup, x: Shown, acts: seq<Act>, retries: nat): Shown {
    if acts == [] then x else
      var before := Perform(setup, x, acts[..|acts| - 1], retries);
      var act := acts[|acts| - 1];
      if CanAct(before, act, retries) then After(setup, before, act, retries) else before
  }

  // ---------------------------------------------------------------------- what is shown and what is owed

  /** What a series shows, and what of it is owed. */
  function Promised(x: Shown, series: Series): nat {
    Get(x.counters, series) + Total(x.due, Owed(series))
  }

  /** Serviced, but not in the key's total yet. */
  function UnaddedOn(k: nat): Job -> nat {
    (job: Job) => if job.BumpTotal? && job.key == k then job.cost else 0
  }

  /** Shown and owed, the series of key `k` are its counters in memory, but for the charges still to be added and the
      rate-limited pings since boot. */
  ghost predicate KeyPromised(x: Shown, k: nat) {
    && k < |x.s.keys| == |x.s.tallies| && |x.due| == |x.s.jobs|
    && var key, pings := x.s.keys[k], x.s.tallies[k].pings429;
    && Promised(x, CreditsConsumed(key.name)) == key.total + Total(x.s.jobs, UnaddedOn(k))
    && Promised(x, Requests(key.name, WasOk)) == key.ok
    && Promised(x, Requests(key.name, WasError)) == key.errors
    && Promised(x, Requests(key.name, WasRateLimited)) + pings == key.limited
    && Promised(x, RateLimitHits(key.name)) + pings == key.hits
  }

  ghost predicate AllPromised(x: Shown, k: nat) {
    KeyPromised(x, k) && Promised(x, AllExhausted) == x.s.global.allExhausted
  }

  lemma OwingMore(due: seq<seq<Due>>, t: nat, more: seq<Due>, series: Series)
    requires t < |due|
    ensures Total(due[t := due[t] + more], Owed(series)) == Total(due, Owed(series)) + Owed(series)(more)
  {
    TotalUpdate(due, t, due[t] + more, Owed(series));
    TotalAppend(due[t], more, AmountOf(series));
  }

  lemma PublishKeepsPromise(setup: Setup, x: Shown, t: nat, retries: nat, series: Series)
    requires CanAct(x, Publish(t), retries)
    ensures Promised(After(setup, x, Publish(t), retries), series) == Promised(x, series)
  {
    var d, rest := x.due[t][0], x.due[t][1..];
    assert x.due[t] == [d] + rest;
    TotalAppend([d], rest, AmountOf(series));
    OwedOne(d, series);
    TotalUpdate(x.due, t, rest, Owed(series));
  }

  lemma OwedOne(d: Due, series: Series)
    ensures Owed(series)([d]) == AmountOf(series)(d)
  {
    assert [d][..0] == [] && Total([d][..0], AmountOf(series)) == 0;
    assert Total([d], AmountOf(series)) == AmountOf(series)(d);
  }

  lemma OwedTwo(d: Due, e: Due, series: Series)
    ensures Owed(series)([d, e]) == AmountOf(series)(d) + AmountOf(series)(e)
  {
    assert [d, e][..1] == [d];
    OwedOne(d, series);
  }

  lemma OwedList(due: seq<Due>, series: Series)
    ensures |due| == 2 ==> Owed(series)(due) == AmountOf(series)(due[0]) + AmountOf(series)(due[1])
    ensures due == [] ==> Owed(series)(due) == 0
  {
    if |due| == 2 {
      assert due == [due[0], due[1]];
      OwedTwo(due[0], due[1], series);
    }
  }

  lemma MoveOwesCredits(job: Job, move: Move, j: nat, key: Key, n: nat, k: nat, name: string)
    requires Can(job, move, n) && !Plans(move) && j == Touched(job, move, n) && (j == k <==> key.name == name)
    ensures var due, job' := Owes(job, move, key, n), JobAfter(job, move, j, key, n);
            var unadded := UnaddedOn(k)(job') - UnaddedOn(k)(job);
            && (j != k ==> unadded == 0)
            && Owed(CreditsConsumed(name))(due)
               == if j == k then KeyAfter(job, move, key, n).total - key.total + unadded else 0
  {
    OwedList(Owes(job, move, key, n), CreditsConsumed(name));
  }

  lemma MoveOwesOutcomes(job: Job, move: Move, j: nat, key: Key, n: nat, k: nat, name: string)
    requires Can(job, move, n) && !Plans(move) && j == Touched(job, move, n) && (j == k <==> key.name == name)
    ensures var key', due := KeyAfter(job, move, key, n), Owes(job, move, key, n);
            && key'.name == key.name
            && Owed(AllExhausted)(due) == 0
            && Owed(Requests(name, WasOk))(due) == (if j == k then key'.ok - key.ok else 0)
            && Owed(Requests(name, WasError))(due) == (if j == k then key'.errors - key.errors else 0)
  {
    OwedList(Owes(job, move, key, n), AllExhausted);
    OwedList(Owes(job, move, key, n), Requests(name, WasOk));
    OwedList(Owes(job, move, key, n), Requests(name, WasError));
  }

  lemma MoveOwesLimits(job: Job, move: Move, j: nat, key: Key, t: Tally, open: bool, start: Option<nat>, n: nat, k: nat,
        name: string)
    requires Can(job, move, n) && !Plans(move) && j == Touched(job, move, n) && (j == k <==> key.name == name)
    ensures var key', t' := KeyAfter(job, move, key, n), TallyAfter(job, move, key, t, open, start, n);
            var due := Owes(job, move, key, n);
            && Owed(Requests(name, WasRateLimited))(due)
               == (if j == k then key'.limited - key.limited - (t'.pings429 - t.pings429) else 0)
            && Owed(RateLimitHits(name))(due)
               == (if j == k then key'.hits - key.hits - (t'.pings429 - t.pings429) else 0)
  {
    OwedList(Owes(job, move, key, n), Requests(name, WasRateLimited));
    OwedList(Owes(job, move, key, n), RateLimitHits(name));
  }

  /** What a series is promised moves by what the job comes to owe. */
  lemma WorkPromises(setup: Setup, x: Shown, t: nat, move: Move, retries: nat, series: Series)
    requires CanAct(x, Do(Work(t, move)), retries)
    ensures Promised(After(setup, x, Do(Work(t, move)), retries), series)
         == Promised(x, series) + Owed(series)(WorkOwes(x.s, t, move))
  {
    OwingMore(x.due, t, WorkOwes(x.s, t, move), series);
  }

  lemma PlanKeepsPromise(setup: Setup, x: Shown, t: nat, move: Move, retries: nat, k: nat)
    requires AllPromised(x, k) && CanAct(x, Do(Work(t, move)), retries) && Plans(move)
    ensures AllPromised(After(setup, x, Do(Work(t, move)), retries), k)
  {
    TotalUpdate(x.s.jobs, t, WorkNext(x.s, t, move).jobs[t], UnaddedOn(k));
    forall series ensures Promised(After(setup, x, Do(Work(t, move)), retries), series)
                       == Promised(x, series) + if move.GiveUp? && series == AllExhausted then 1 else 0
    {
      WorkPromises(setup, x, t, move, retries, series);
      OwedOne(Due(AllExhausted, 1), series);
    }
  }

  lemma WorkKeepsPromise(setup: Setup, x: Shown, t: nat, move: Move, retries: nat, k: nat)
    requires Shape(setup, x.s) && AllPromised(x, k) && CanAct(x, Do(Work(t, move)), retries) && !Plans(move)
    ensures AllPromised(After(setup, x, Do(Work(t, move)), retries), k)
  {
    var s, s' := x.s, WorkNext(x.s, t, move);
    var j, n, name := Touched(s.jobs[t], move, |s.keys|), |s.keys|, s.keys[k].name;
    WorkPromises(setup, x, t, move, retries, AllExhausted);
    WorkPromises(setup, x, t, move, retries, CreditsConsumed(name));
    WorkPromises(setup, x, t, move, retries, Requests(name, WasOk));
    WorkPromises(setup, x, t, move, retries, Requests(name, WasError));
    WorkPromises(setup, x, t, move, retries, Requests(name, WasRateLimited));
    WorkPromises(setup, x, t, move, retries, RateLimitHits(name));
    TotalUpdate(s.jobs, t, s'.jobs[t], UnaddedOn(k));
    MoveOwesCredits(s.jobs[t], move, j, s.keys[j], n, k, name);
    MoveOwesOutcomes(s.jobs[t], move, j, s.keys[j], n, k, name);
    MoveOwesLimits(s.jobs[t], move, j, s.keys[j], s.tallies[j], Window(s.roller, j),
                   DayBase(s.dayRoller, j, s.keys[j]), n, k, name);
  }

  /** A state with the same counters, jobs and tallies. */
  lemma SamePromise(x: Shown, s': State, k: nat)
    requires AllPromised(x, k) && s'.jobs == x.s.jobs && |s'.keys| == |x.s.keys| && |s'.tallies| == |x.s.tallies|
    requires s'.tallies[k].pings429 == x.s.tallies[k].pings429
    requires s'.global.allExhausted == x.s.global.allExhausted
    requires var key, key' := x.s.keys[k], s'.keys[k];
             key' == key.(used := key'.used, epoch := key'.epoch, dayStart := key'.dayStart, tokens := key'.tokens)
    ensures AllPromised(Shown(s', x.counters, x.due), k)
  {
  }

  lemma RestKeepsPromise(setup: Setup, x: Shown, ev: Event, retries: nat, k: nat)
    requires AllPromised(x, k) && CanAct(x, Do(ev), retries) && !ev.Work? && !ev.Crash?
    ensures AllPromised(After(setup, x, Do(ev), retries), k)
  {
    match ev {
      case Roll(step) => RollKeepsTheRest(x.s, step);
      case Day(step) => DayKeepsTheRest(setup, x.s, step);
      case Save(step) => SaveKeepsTheRest(x.s, step);
      case _ =>
    }
    SamePromise(x, Next(setup, x.s, ev, retries), k);
  }

  lemma BootKeepsPromise(setup: Setup, file: File, jobs: nat, month: nat, day: nat, k: nat)
    requires ValidSetup(setup) && k < |setup.cfgs|
    ensures AllPromised(BootShown(setup, file, jobs, month, day), k)
  {
    var x := BootShown(setup, file, jobs, month, day);
    BootShape(setup, file, month, day);
    BootExposes(setup, file, month, day, k);
    TotalZero(x.s.jobs, UnaddedOn(k));
    forall series ensures Promised(x, series) == Boot(setup, file, month, day).prom.Get(series) {
      TotalZero(x.due, Owed(series));
    }
  }

  lemma EventKeepsPromise(setup: Setup, x: Shown, ev: Event, retries: nat, k: nat)
    requires ValidSetup(setup) && Shape(setup, x.s) && AllPromised(x, k) && CanAct(x, Do(ev), retries)
    ensures AllPromised(After(setup, x, Do(ev), retries), k)
  {
    if ev.Work? {
      if Plans(ev.move) {
        PlanKeepsPromise(setup, x, ev.job, ev.move, retries, k);
      } else {
        WorkKeepsPromise(setup, x, ev.job, ev.move, retries, k);
      }
    } else if ev.Crash? {
      BootKeepsPromise(setup, x.s.file, |x.s.jobs|, ev.month, ev.day, k);
    } else {
      RestKeepsPromise(setup, x, ev, retries, k);
    }
  }

  lemma ActKeepsPromise(setup: Setup, x: Shown, act: Act, retries: nat, k: nat)
    requires ValidSetup(setup) && Shape(setup, x.s) && AllPromised(x, k) && CanAct(x, act, retries)
    ensures Shape(setup, After(setup, x, act, retries).s) && AllPromised(After(setup, x, act, retries), k)
  {
    match act
    case Publish(t) =>
      forall series ensures Promised(After(setup, x, act, retries), series) == Promised(x, series) {
        PublishKeepsPromise(setup, x, t, retries, series);
      }
    case Do(ev) =>
      NextKeepsShape(setup, x.s, ev, retries);
      EventKeepsPromise(setup, x, ev, retries, k);
  }

  lemma {:induction false} RunKeepsPromise(setup: Setup, file: File, jobs: nat, month: nat, day: nat, acts: seq<Act>,
        retries: nat, k: nat)
    requires ValidSetup(setup) && month > 0 && FileMatches(setup, file) && k < |setup.cfgs|
    ensures var x := Perform(setup, BootShown(setup, file, jobs, month, day), acts, retries);
            Shape(setup, x.s) && AllPromised(x, k)
  {
    if acts == [] {
      BootedShape(setup, file, jobs, month, day);
      BootKeepsPromise(setup, file, jobs, month, day, k);
    } else {
      var n := |acts| - 1;
      RunKeepsPromise(setup, file, jobs, month, day, acts[..n], retries, k);
      var before := Perform(setup, BootShown(setup, file, jobs, month, day), acts[..n], retries);
      if CanAct(before, acts[n], retries) {
        ActKeepsPromise(setup, before, acts[n], retries, k);
      }
    }
  }

  /** No job owes an increment, and no charge to `k` is still to be added. */
  ghost predicate Settled(x: Shown, k: nat) {
    (forall q <- x.due :: q == []) && Total(x.s.jobs, UnaddedOn(k)) == 0
  }

  /** The exposed metrics refine the durable state in every interleaving: in every reachable state each counter in
      memory is what its series shows plus what is still owed to it; so whenever nothing is owed, the series show
      the counters, except that the rate limits lag by exactly the rate-limited pings since boot. */
  lemma MetricsRefineInterleavings(setup: Setup, file: File, jobs: nat, month: nat, day: nat, acts: seq<Act>,
        retries: nat, k: nat)
    requires ValidSetup(setup) && month > 0 && FileMatches(setup, file) && k < |setup.cfgs|
    ensures var x := Perform(setup, BootShown(setup, file, jobs, month, day), acts, retries);
            && AllPromised(x, k)
            && (Settled(x, k) ==>
                  var key, pings := x.s.keys[k], x.s.tallies[k].pings429;
                  && Get(x.counters, CreditsConsumed(key.name)) == key.total
                  && Get(x.counters, Requests(key.name, WasOk)) == key.ok
                  && Get(x.counters, Requests(key.name, WasError)) == key.errors
                  && Get(x.counters, Requests(key.name, WasRateLimited)) + pings == key.limited
                  && Get(x.counters, RateLimitHits(key.name)) + pings == key.hits
                  && Get(x.counters, AllExhausted) == x.s.global.allExhausted)
  {
    RunKeepsPromise(setup, file, jobs, month, day, acts, retries, k);
    var x := Perform(setup, BootShown(setup, file, jobs, month, day), acts, retries);
    if Settled(x, k) {
      forall series ensures Total(x.due, Owed(series)) == 0 {
        TotalZero(x.due, Owed(series));
      }
    }
  }

  /** With the increments left out, these are runs of the interleaved machine. */
  lemma {:induction false} ActsAreARun(setup: Setup, x: Shown, acts: seq<Act>, retries: nat) returns (evs: seq<Event>)
    ensures Run(setup, x.s, evs, retries) == Perform(setup, x, acts, retries).s
  {
    evs := [];
    if acts != [] {
      var n := |acts| - 1;
      evs := ActsAreARun(setup, x, acts[..n], retries);
      var before := Perform(setup, x, acts[..n], retries);
      if CanAct(before, acts[n], retries) && acts[n].Do? {
        var s';
        evs, s' := Then(setup, x.s, evs, acts[n].ev, retries);
      }
    }
  }
}
