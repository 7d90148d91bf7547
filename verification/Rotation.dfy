/** How the round-robin tickets share the load out among the keys that pass.

    `pass` says of each key whether it passes all of `select`'s tests.  A ticket is a value of
    the cursor; positions on the line of all tickets repeat every `|pass|`. */
module Rotation {
  import opened Cyclic
  import opened Upstreams

  predicate PassAt(pass: seq<bool>, x: nat)
    requires pass != []
  {
    pass[x % |pass|]
  }

  /** Whether the key `d` places before `k` on the ring passes. */
  predicate PassBefore(pass: seq<bool>, k: nat, d: nat)
    requires pass != [] && d <= |pass|
  {
    PassAt(pass, k + |pass| - d)
  }

  /** The first passing position at or after `t`, looking at most `left` positions further. */
  function NextPass(pass: seq<bool>, t: nat, left: nat): nat
    requires pass != []
    decreases left
  {
    if left == 0 || PassAt(pass, t) then t else NextPass(pass, t + 1, left - 1)
  }

  function Choice(pass: seq<bool>, ticket: nat): (k: nat)
    requires pass != []
    ensures k < |pass|
  {
    NextPass(pass, ticket, |pass|) % |pass|
  }

  /** With nothing to skip, `Choice` is what `select` does with its ticket. */
  lemma {:induction false} ChoiceIsSelection(keys: seq<Key>, ask: Ask, ticket: nat, off: nat, pass: seq<bool>)
    requires |pass| == |keys| > 0 && off <= |keys|
    requires forall i :: 0 <= i < |keys| ==> pass[i] == Eligible(keys, ask, i)
    requires FirstEligible(keys, ask, ticket, off).Some?
    ensures FirstEligible(keys, ask, ticket, off).value == NextPass(pass, ticket + off, |pass| - off) % |pass|
    decreases |keys| - off
  {
    if !pass[Slot(ticket, off, |keys|)] {
      ChoiceIsSelection(keys, ask, ticket, off + 1, pass);
    }
  }

  /** How many of the `count` tickets from `first` on choose key `k`. */
  function Picks(pass: seq<bool>, k: nat, first: nat, count: nat): nat
    requires pass != []
  {
    if count == 0 then 0 else
      Picks(pass, k, first, count - 1) + if Choice(pass, first + count - 1) == k then 1 else 0
  }

  /** Cyclic distance from the previous passing key to `k`, looking from distance `d` on; `n` if there is no other. */
  function Gap(pass: seq<bool>, k: nat, d: nat): (g: nat)
    requires k < |pass| && 1 <= d <= |pass|
    ensures d <= g <= |pass|
    ensures g == |pass| || PassBefore(pass, k, g)
    ensures forall e :: d <= e < g ==> !PassBefore(pass, k, e)
    decreases |pass| - d
  {
    if d == |pass| || PassBefore(pass, k, d) then d else Gap(pass, k, d + 1)
  }

  lemma {:induction false} NextPassIs(pass: seq<bool>, t: nat, y: nat, left: nat)
    requires pass != [] && t <= y <= t + left
    requires PassAt(pass, y)
    requires forall x :: t <= x < y ==> !PassAt(pass, x)
    ensures NextPass(pass, t, left) == y
    decreases left
  {
    if t < y {
      NextPassIs(pass, t + 1, y, left - 1);
    }
  }

  lemma {:induction false} NextPassAtMost(pass: seq<bool>, t: nat, y: nat, left: nat)
    requires pass != [] && t <= y && PassAt(pass, y)
    ensures t <= NextPass(pass, t, left) <= y
    decreases left
  {
    if left > 0 && t < y {
      NextPassAtMost(pass, t + 1, y, left - 1);
    }
  }

  lemma {:induction false} NextPassRepeats(pass: seq<bool>, t: nat, left: nat)
    requires pass != []
    ensures NextPass(pass, t + |pass|, left) == NextPass(pass, t, left) + |pass|
    decreases left
  {
    ModAddMultiple(t, |pass|);
    if left > 0 && !PassAt(pass, t) {
      NextPassRepeats(pass, t + 1, left - 1);
    }
  }

  lemma {:induction false} PicksSplit(pass: seq<bool>, k: nat, first: nat, m: nat, count: nat)
    requires pass != []
    ensures Picks(pass, k, first, m + count) == Picks(pass, k, first, m) + Picks(pass, k, first + m, count)
  {
    if count > 0 {
      PicksSplit(pass, k, first, m, count - 1);
    }
  }

  /** One turn of the ring picks a key equally often wherever the turn starts. */
  lemma {:induction false} TurnsAgree(pass: seq<bool>, k: nat, first: nat)
    requires pass != []
    ensures Picks(pass, k, first, |pass|) == Picks(pass, k, 0, |pass|)
  {
    if first > 0 {
      TurnsAgree(pass, k, first - 1);
      PicksSplit(pass, k, first - 1, 1, |pass|);
      assert Picks(pass, k, first - 1, |pass| + 1) == Picks(pass, k, first - 1, |pass|)
                + if Choice(pass, first - 1 + |pass|) == k then 1 else 0;
      NextPassRepeats(pass, first - 1, |pass|);
      ModAddMultiple(NextPass(pass, first - 1, |pass|), |pass|);
      assert Picks(pass, k, first - 1, 1) == Picks(pass, k, first - 1, 0)
                                               + if Choice(pass, first - 1) == k then 1 else 0;
    }
  }

  lemma {:induction false} AllPick(pass: seq<bool>, k: nat, first: nat, count: nat)
    requires pass != []
    requires forall t :: first <= t < first + count ==> Choice(pass, t) == k
    ensures Picks(pass, k, first, count) == count
  {
    if count > 0 {
      AllPick(pass, k, first, count - 1);
    }
  }

  lemma {:induction false} NonePicks(pass: seq<bool>, k: nat, first: nat, count: nat)
    requires pass != []
    requires forall t :: first <= t < first + count ==> Choice(pass, t) != k
    ensures Picks(pass, k, first, count) == 0
  {
    if count > 0 {
      NonePicks(pass, k, first, count - 1);
    }
  }

  lemma InGapChooses(pass: seq<bool>, k: nat, t: nat)
    requires k < |pass| && pass[k]
    requires k + |pass| - Gap(pass, k, 1) < t <= k + |pass|
    ensures Choice(pass, t) == k
  {
    var n := |pass|;
    DivModUnique(k + n, n, 1, k);
    forall x | t <= x < k + n ensures !PassAt(pass, x) {
      assert !PassBefore(pass, k, k + n - x);
    }
    NextPassIs(pass, t, k + n, n);
  }

  lemma PastGapChoosesAnother(pass: seq<bool>, k: nat, t: nat)
    requires k < |pass| && pass[k]
    requires k + |pass| < t <= k + 2 * |pass| - Gap(pass, k, 1)
    ensures Choice(pass, t) != k
  {
    var n, g := |pass|, Gap(pass, k, 1);
    DivModUnique(k, n, 0, k);
    ModAddMultiple(k, n);
    ModAddMultiple(k + n - g, n);
    assert PassBefore(pass, k, g);
    NextPassAtMost(pass, t, k + n - g + n, n);
    BetweenTurns(k, NextPass(pass, t, n), n);
  }

  /** Any `n` consecutive tickets choose each passing key exactly as often as its cyclic distance
      from the previous passing key, and the other keys never. */
  lemma ShareIsGap(pass: seq<bool>, k: nat, first: nat)
    requires k < |pass| && true in pass
    ensures Picks(pass, k, first, |pass|) == if pass[k] then Gap(pass, k, 1) else 0
  {
    var n := |pass|;
    TurnsAgree(pass, k, first);
    if pass[k] {
      var g := Gap(pass, k, 1);
      var start := k + n - g + 1;
      forall t | start <= t < start + g ensures Choice(pass, t) == k {
        InGapChooses(pass, k, t);
      }
      forall t | start + g <= t < start + n ensures Choice(pass, t) != k {
        PastGapChoosesAnother(pass, k, t);
      }
      AllPick(pass, k, start, g);
      NonePicks(pass, k, start + g, n - g);
      PicksSplit(pass, k, start, g, n - g);
      TurnsAgree(pass, k, start);
    } else {
      forall t: nat ensures Choice(pass, t) != k {
        ChoicePasses(pass, t);
      }
      NonePicks(pass, k, 0, n);
    }
  }

  lemma ChoicePasses(pass: seq<bool>, t: nat)
    requires true in pass
    ensures pass[Choice(pass, t)]
  {
    var j :| 0 <= j < |pass| && pass[j];
    var d := OffsetOf(t, j, |pass|);
    FoundWithin(pass, t, d, |pass|);
  }

  lemma {:induction false} FoundWithin(pass: seq<bool>, t: nat, d: nat, left: nat)
    requires pass != [] && d < left && PassAt(pass, t + d)
    ensures pass[NextPass(pass, t, left) % |pass|]
    decreases left
  {
    if !PassAt(pass, t) {
      FoundWithin(pass, t + 1, d - 1, left - 1);
    }
  }

  /** The choices of `count` tickets, counted key by key for the first `m` keys. */
  function PicksOfFirst(pass: seq<bool>, m: nat, first: nat, count: nat): nat
    requires pass != []
  {
    if m == 0 then 0 else PicksOfFirst(pass, m - 1, first, count) + Picks(pass, m - 1, first, count)
  }

  lemma {:induction false} TicketIsOnePick(pass: seq<bool>, m: nat, first: nat, count: nat)
    requires pass != [] && count > 0
    ensures PicksOfFirst(pass, m, first, count) == PicksOfFirst(pass, m, first, count - 1)
                                                     + if Choice(pass, first + count - 1) < m then 1 else 0
  {
    if m > 0 {
      TicketIsOnePick(pass, m - 1, first, count);
    }
  }

  lemma {:induction false} PicksAreTickets(pass: seq<bool>, first: nat, count: nat)
    requires pass != []
    ensures PicksOfFirst(pass, |pass|, first, count) == count
  {
    if count > 0 {
      PicksAreTickets(pass, first, count - 1);
      TicketIsOnePick(pass, |pass|, first, count);
    } else {
      NoTicketsNoPicks(pass, |pass|, first);
    }
  }

  lemma {:induction false} NoTicketsNoPicks(pass: seq<bool>, m: nat, first: nat)
    requires pass != []
    ensures PicksOfFirst(pass, m, first, 0) == 0
  {
    if m > 0 {
      NoTicketsNoPicks(pass, m - 1, first);
    }
  }

  function Shares(pass: seq<bool>, m: nat): nat
    requires m <= |pass|
  {
    if m == 0 then 0 else Shares(pass, m - 1) + if pass[m - 1] then Gap(pass, m - 1, 1) else 0
  }

  lemma {:induction false} SharesArePicks(pass: seq<bool>, m: nat)
    requires true in pass && m <= |pass|
    ensures Shares(pass, m) == PicksOfFirst(pass, m, 0, |pass|)
  {
    if m > 0 {
      SharesArePicks(pass, m - 1);
      ShareIsGap(pass, m - 1, 0);
    }
  }

  /** The shares of one turn account for every ticket of it. */
  lemma SharesSumToTurn(pass: seq<bool>)
    requires true in pass
    ensures Shares(pass, |pass|) == |pass|
  {
    SharesArePicks(pass, |pass|);
    PicksAreTickets(pass, 0, |pass|);
  }

  lemma {:induction false} PicksWhenAllPass(pass: seq<bool>, k: nat, count: nat)
    requires k < |pass| && false !in pass
    ensures Picks(pass, k, 0, count) == count / |pass| + if k < count % |pass| then 1 else 0
  {
    if count == 0 {
      DivModUnique(0, |pass|, 0, 0);
    } else {
      PicksWhenAllPass(pass, k, count - 1);
      NextQuotient(count - 1, |pass|);
      assert PassAt(pass, count - 1);
    }
  }
}
