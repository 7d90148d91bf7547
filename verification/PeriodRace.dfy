/** Any number of callers racing to roll a period over, one atomic access at a time.

    `roll_month_if_changed` and `roll_day_if_changed` have the same shape: load the active period,
    return if it is the target, compare-exchange it, return if that fails, push a record of the
    previous period, then treat every key.  The months' treatment is a reset of the monthly counter,
    the days' a re-baselining. */
module PeriodRace {
  import opened Statistics
  import opened Totals
  import opened Upstreams

  datatype Kind = Monthly | Daily

  datatype Caller =
    | Called(target: nat)
    | Loaded(target: nat, prev: nat)
    | Won(target: nat, prev: nat)          // the exchange succeeded, nothing is pushed yet
    | Sweeping(target: nat, next: nat)     // the keys before `next` are treated
    | Returned

  /** `treated[k]` counts how often key `k` was reset or re-baselined. */
  datatype Race = Race(kind: Kind, active: nat, pushed: seq<PeriodRecord>, keys: seq<Key>, treated: seq<nat>,
                       callers: seq<Caller>)

  function Treat(kind: Kind, k: Key, target: nat): Key {
    match kind
    case Monthly => k.RestoreMonthly(target, 0)
    case Daily => k.StartNewDay()
  }

  function Record(kind: Kind, keys: seq<Key>, prev: nat): PeriodRecord {
    match kind
    case Monthly => CaptureMonth(keys, prev)
    case Daily => CaptureDay(keys, prev)
  }

  /** One access of caller `c`. */
  function CallerStep(r: Race, c: nat): Race
    requires c < |r.callers| && |r.treated| == |r.keys|
  {
    match r.callers[c]
    case Called(target) =>
      r.(callers := r.callers[c := if r.active == target then Returned else Loaded(target, r.active)])
    case Loaded(target, prev) =>
      if r.active == prev then r.(active := target, callers := r.callers[c := Won(target, prev)])
      else r.(callers := r.callers[c := Returned])
    case Won(target, prev) =>
      r.(pushed := if prev != 0 then r.pushed + [Record(r.kind, r.keys, prev)] else r.pushed,
         callers := r.callers[c := Sweeping(target, 0)])
    case Sweeping(target, next) =>
      if next < |r.keys| then
        r.(keys := r.keys[next := Treat(r.kind, r.keys[next], target)],
           treated := r.treated[next := r.treated[next] + 1],
           callers := r.callers[c := Sweeping(target, next + 1)])
      else r.(callers := r.callers[c := Returned])
    case Returned => r
  }

  /** A schedule names the caller that takes each access; a charge may land between any two. */
  datatype Turn = Caller(c: nat) | ChargeTotal(k: nat, cost: nat) | ChargeUsed(k: nat, cost: nat)

  function Step(r: Race, turn: Turn): Race {
    match turn
    case Caller(c) => if c < |r.callers| && |r.treated| == |r.keys| then CallerStep(r, c) else r
    case ChargeTotal(k, cost) =>
      if k < |r.keys| then r.(keys := r.keys[k := r.keys[k].(total := r.keys[k].total + cost)]) else r
    case ChargeUsed(k, cost) =>
      if k < |r.keys| then r.(keys := r.keys[k := r.keys[k].(used := r.keys[k].used + cost)]) else r
  }

  function Play(r: Race, turns: seq<Turn>): Race {
    if turns == [] then r else Step(Play(r, turns[..|turns| - 1]), turns[|turns| - 1])
  }

  // ---------------------------------------------------------------------- one target

  function ToPush(c: Caller): nat {
    if c.Won? then 1 else 0
  }

  /** Still going to treat key `k`. */
  function ToTreat(k: nat): Caller -> nat {
    (c: Caller) => if c.Won? || (c.Sweeping? && c.next <= k) then 1 else 0
  }

  /** Where a caller can stand while `active` is. */
  ghost predicate SameTarget(c: Caller, prev: nat, target: nat, active: nat) {
    match c
    case Called(t) => t == target
    case Loaded(t, p) => t == target && p == prev
    case Won(t, p) => t == target == active && p == prev
    case Sweeping(t, _) => t == target == active
    case Returned => active == target
  }

  /** Before the exchange nothing is done or promised; after it, exactly one push and one treatment of each key are. */
  ghost predicate OneRoll(r: Race, before: seq<PeriodRecord>, prev: nat, target: nat, n: nat) {
    && |r.keys| == |r.treated| == n
    && (r.active == prev || r.active == target)
    && (forall c :: 0 <= c < |r.callers| ==> SameTarget(r.callers[c], prev, target, r.active))
    && var rolled := if r.active == target then 1 else 0;
    && |r.pushed| + Total(r.callers, ToPush) == |before| + rolled
    && before <= r.pushed
    && (forall i :: |before| <= i < |r.pushed| ==> r.pushed[i].period == prev)
    && (forall k :: 0 <= k < n ==> r.treated[k] + Total(r.callers, ToTreat(k)) == rolled)
  }

  lemma CallerKeepsOneRoll(r: Race, c: nat, before: seq<PeriodRecord>, prev: nat, target: nat, n: nat)
    requires OneRoll(r, before, prev, target, n) && prev != target && prev != 0 && c < |r.callers|
    ensures OneRoll(CallerStep(r, c), before, prev, target, n)
  {
    var r' := CallerStep(r, c);
    assert SameTarget(r.callers[c], prev, target, r.active);
    TotalUpdate(r.callers, c, r'.callers[c], ToPush);
    TotalAtLeast(r.callers, c, ToPush);
    forall k | 0 <= k < n
      ensures r'.treated[k] + Total(r'.callers, ToTreat(k)) == if r'.active == target then 1 else 0
    {
      TotalUpdate(r.callers, c, r'.callers[c], ToTreat(k));
    }
  }

  lemma {:induction false} PlayKeepsOneRoll(r: Race, turns: seq<Turn>, prev: nat, target: nat)
    requires OneRoll(r, r.pushed, prev, target, |r.keys|) && prev != target && prev != 0
    ensures OneRoll(Play(r, turns), r.pushed, prev, target, |r.keys|)
  {
    if turns != [] {
      var before, turn := Play(r, turns[..|turns| - 1]), turns[|turns| - 1];
      PlayKeepsOneRoll(r, turns[..|turns| - 1], prev, target);
      if turn.Caller? && turn.c < |before.callers| {
        CallerKeepsOneRoll(before, turn.c, r.pushed, prev, target, |r.keys|);
      }
    }
  }

  lemma {:induction false} PlayKeepsCallers(r: Race, turns: seq<Turn>)
    ensures |Play(r, turns).callers| == |r.callers|
  {
    if turns != [] {
      PlayKeepsCallers(r, turns[..|turns| - 1]);
    }
  }

  predicate AllReturned(r: Race) {
    forall c <- r.callers :: c == Returned
  }

  /** The race with every caller about to ask for its target. */
  function Start(kind: Kind, prev: nat, pushed: seq<PeriodRecord>, keys: seq<Key>, targets: seq<nat>): Race {
    Race(kind, prev, pushed, keys, seq(|keys|, _ => 0),
         seq(|targets|, c requires 0 <= c < |targets| => Called(targets[c])))
  }

  /** Exclusivity: let any number of callers, at least one, ask for the same new period. However their accesses
      interleave, and whatever is charged meanwhile, once all have returned there is exactly one new record, of
      the previous period, every key was treated exactly once, and the target is active. */
  lemma ConcurrentCallersRollOnce(kind: Kind, prev: nat, target: nat, pushed: seq<PeriodRecord>, keys: seq<Key>,
        targets: seq<nat>, turns: seq<Turn>)
    requires prev != target && prev != 0 && targets != [] && forall t <- targets :: t == target
    ensures var r := Play(Start(kind, prev, pushed, keys, targets), turns);
            AllReturned(r) ==>
              && r.active == target
              && |r.pushed| == |pushed| + 1 && pushed <= r.pushed && r.pushed[|pushed|].period == prev
              && |r.treated| == |keys| && forall k :: 0 <= k < |keys| ==> r.treated[k] == 1
  {
    var start := Start(kind, prev, pushed, keys, targets);
    assert forall c :: 0 <= c < |targets| ==> targets[c] in targets;
    TotalZero(start.callers, ToPush);
    forall k | 0 <= k < |keys| ensures Total(start.callers, ToTreat(k)) == 0 {
      TotalZero(start.callers, ToTreat(k));
    }
    PlayKeepsOneRoll(start, turns, prev, target);
    PlayKeepsCallers(start, turns);
    var r := Play(start, turns);
    if AllReturned(r) {
      assert r.callers[0] in r.callers && SameTarget(r.callers[0], prev, target, r.active);
      TotalZero(r.callers, ToPush);
      forall k | 0 <= k < |keys| ensures r.treated[k] == 1 {
        TotalZero(r.callers, ToTreat(k));
      }
    }
  }

  // ---------------------------------------------------------------------- any targets

  lemma {:induction false} PlayConcat(r: Race, turns: seq<Turn>, more: seq<Turn>)
    ensures Play(r, turns + more) == Play(Play(r, turns), more)
  {
    if more == [] {
      assert turns + more == turns;
    } else {
      assert (turns + more)[..|turns + more| - 1] == turns + more[..|more| - 1];
      PlayConcat(r, turns, more[..|more| - 1]);
    }
  }

  lemma PlayFirst(r: Race, turn: Turn, more: seq<Turn>)
    ensures Play(r, [turn] + more) == Play(Step(r, turn), more)
  {
    assert [turn][..0] == [] && Play(r, []) == r;
    PlayConcat(r, [turn], more);
  }

  /** What has happened from `r` to `r'` when only caller `c` moved, and ran to its end. */
  ghost predicate Finished(r: Race, c: nat, r': Race, rolls: nat, active: nat)
    requires c < |r.callers|
  {
    && r'.callers == r.callers[c := Returned]
    && |r'.keys| == |r'.treated| == |r.keys|
    && r'.active == active
    && |r'.pushed| == |r.pushed| + rolls && r.pushed <= r'.pushed
    && (rolls == 1 ==> r'.pushed[|r.pushed|].period == r.active)
  }

  lemma {:induction false} SweepAlone(r: Race, c: nat) returns (turns: seq<Turn>)
    requires c < |r.callers| && |r.treated| == |r.keys|
    requires r.callers[c].Sweeping? && r.callers[c].next <= |r.keys|
    ensures Finished(r, c, Play(r, turns), 0, r.active)
    decreases |r.keys| - r.callers[c].next
  {
    var r' := Step(r, Caller(c));
    var rest := [];
    if r.callers[c].next < |r.keys| {
      rest := SweepAlone(r', c);
    }
    assert Play(r', []) == r';
    PlayFirst(r, Caller(c), rest);
    turns := [Caller(c)] + rest;
  }

  /** Alone, a caller closes the active period if it is not its target. */
  lemma CallAlone(r: Race, c: nat) returns (turns: seq<Turn>)
    requires c < |r.callers| && |r.treated| == |r.keys| && r.active != 0 && r.callers[c].Called?
    ensures var target := r.callers[c].target;
            Finished(r, c, Play(r, turns), if r.active == target then 0 else 1, target)
  {
    var t := Caller(c);
    var r1 := Step(r, t);
    if r.active == r.callers[c].target {
      assert Play(r1, []) == r1;
      PlayFirst(r, t, []);
      return [t] + [];
    }
    var r2 := Step(r1, t);
    var r3 := Step(r2, t);
    var rest := SweepAlone(r3, c);
    PlayFirst(r2, t, rest);
    PlayFirst(r1, t, [t] + rest);
    PlayFirst(r, t, [t] + ([t] + rest));
    turns := [t] + ([t] + ([t] + rest));
  }

  ghost predicate Ready(r: Race, targets: seq<nat>) {
    && |r.callers| == |targets| && |r.treated| == |r.keys| && r.active != 0
    && forall c :: 0 <= c < |targets| ==> r.callers[c] == Returned || r.callers[c] == Called(targets[c])
  }

  /** Everyone who has not called yet can do so, one after the other. */
  lemma {:induction false} FinishAll(r: Race, targets: seq<nat>, m: nat) returns (turns: seq<Turn>)
    requires Ready(r, targets) && m <= |targets| && 0 !in targets
    ensures var r' := Play(r, turns);
            && Ready(r', targets)
            && (forall c :: 0 <= c < m ==> r'.callers[c] == Returned)
            && |r'.pushed| >= |r.pushed|
            && ((forall c :: 0 <= c < m ==> targets[c] == r.active) ==>
                  r'.active == r.active && |r'.pushed| == |r.pushed|)
  {
    turns := [];
    assert Play(r, []) == r;
    if m > 0 {
      turns := FinishAll(r, targets, m - 1);
      var r' := Play(r, turns);
      if r'.callers[m - 1] != Returned {
        var more := CallAlone(r', m - 1);
        PlayConcat(r, turns, more);
        turns := turns + more;
      }
    }
  }

  /** Every complete interleaving closes exactly one period. */
  ghost predicate AlwaysRollsOnce(r: Race) {
    forall turns: seq<Turn> :: AllReturned(Play(r, turns)) ==> |Play(r, turns).pushed| == |r.pushed| + 1
  }

  /** Callers `i` and `j` first, then everyone else. */
  lemma TwoRolls(kind: Kind, prev: nat, pushed: seq<PeriodRecord>, keys: seq<Key>, targets: seq<nat>, i: nat, j: nat)
    returns (turns: seq<Turn>)
    requires prev != 0 && 0 !in targets && i < |targets| && j < |targets|
    requires targets[i] != prev && targets[j] != targets[i]
    ensures var r := Play(Start(kind, prev, pushed, keys, targets), turns);
            && AllReturned(r)
            && |r.pushed| >= |pushed| + 2
  {
    var start := Start(kind, prev, pushed, keys, targets);
    assert targets[i] in targets && targets[j] in targets;
    turns := CallAlone(start, i);
    var more := CallAlone(Play(start, turns), j);
    PlayConcat(start, turns, more);
    turns := turns + more;
    more := FinishAll(Play(start, turns), targets, |targets|);
    PlayConcat(start, turns, more);
    turns := turns + more;
  }

  /** The exchange keeps concurrent callers from rolling twice exactly when they all ask for the same new period. */
  lemma RollsOnceIffOneTarget(kind: Kind, prev: nat, pushed: seq<PeriodRecord>, keys: seq<Key>, targets: seq<nat>)
    requires prev != 0 && 0 !in targets && targets != []
    ensures AlwaysRollsOnce(Start(kind, prev, pushed, keys, targets)) <==>
            targets[0] != prev && forall t <- targets :: t == targets[0]
  {
    var start := Start(kind, prev, pushed, keys, targets);
    if c :| 0 <= c < |targets| && targets[c] != targets[0] {
      var first, second := if targets[0] != prev then 0 else c, if targets[0] != prev then c else 0;
      var turns := TwoRolls(kind, prev, pushed, keys, targets, first, second);
      assert AllReturned(Play(start, turns)) && targets[c] in targets;
    } else if targets[0] == prev {
      var turns := FinishAll(start, targets, |targets|);
      assert AllReturned(Play(start, turns));
    } else {
      forall turns: seq<Turn> | AllReturned(Play(start, turns))
        ensures |Play(start, turns).pushed| == |pushed| + 1
      {
        ConcurrentCallersRollOnce(kind, prev, targets[0], pushed, keys, targets, turns);
      }
    }
  }

  /** No complete interleaving closes more than one period. */
  ghost predicate NeverRollsTwice(r: Race) {
    forall turns: seq<Turn> :: AllReturned(Play(r, turns)) ==> |Play(r, turns).pushed| <= |r.pushed| + 1
  }

  ghost predicate NothingToDo(r: Race, active: nat) {
    && r.active == active
    && forall c :: 0 <= c < |r.callers| ==> r.callers[c] == Returned || r.callers[c] == Called(active)
  }

  /** Callers that ask for the active period do nothing. */
  lemma {:induction false} NothingToRoll(r: Race, turns: seq<Turn>)
    requires NothingToDo(r, r.active)
    ensures NothingToDo(Play(r, turns), r.active) && Play(r, turns).pushed == r.pushed
  {
    if turns != [] {
      NothingToRoll(r, turns[..|turns| - 1]);
    }
  }

  /** It keeps them from rolling twice exactly when they all ask for the same period, new or not. */
  lemma NeverRollsTwiceIffOneTarget(kind: Kind, prev: nat, pushed: seq<PeriodRecord>, keys: seq<Key>,
        targets: seq<nat>)
    requires prev != 0 && 0 !in targets && targets != []
    ensures NeverRollsTwice(Start(kind, prev, pushed, keys, targets)) <==> forall t <- targets :: t == targets[0]
  {
    var start := Start(kind, prev, pushed, keys, targets);
    if c :| 0 <= c < |targets| && targets[c] != targets[0] {
      var first, second := if targets[0] != prev then 0 else c, if targets[0] != prev then c else 0;
      var turns := TwoRolls(kind, prev, pushed, keys, targets, first, second);
      assert AllReturned(Play(start, turns)) && targets[c] in targets;
    } else if targets[0] == prev {
      forall turns: seq<Turn> ensures |Play(start, turns).pushed| == |pushed| {
        NothingToRoll(start, turns);
      }
    } else {
      RollsOnceIffOneTarget(kind, prev, pushed, keys, targets);
      assert AlwaysRollsOnce(start);
    }
  }

  /** A caller that still asks for a period already left rolls it back: both periods end up closed, the newer one
      while it lasts. */
  lemma StaleCallerRollsBack(kind: Kind, current: nat, next: nat, pushed: seq<PeriodRecord>, keys: seq<Key>)
    returns (turns: seq<Turn>)
    requires 0 < current < next
    ensures var r := Play(Start(kind, current, pushed, keys, [next, current]), turns);
            && AllReturned(r) && r.active == current
            && |r.pushed| == |pushed| + 2
            && r.pushed[|pushed|].period == current && r.pushed[|pushed| + 1].period == next
  {
    var start := Start(kind, current, pushed, keys, [next, current]);
    turns := CallAlone(start, 0);
    var more := CallAlone(Play(start, turns), 1);
    PlayConcat(start, turns, more);
    turns := turns + more;
  }
}
