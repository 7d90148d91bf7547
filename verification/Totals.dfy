/** Sums over the slots of a sequence. */
module Totals {

  function Total<T>(s: seq<T>, weight: T -> nat): nat {
    if s == [] then 0 else Total(s[..|s| - 1], weight) + weight(s[|s| - 1])
  }

  lemma {:induction false} TotalUpdate<T>(s: seq<T>, i: nat, x: T, weight: T -> nat)
    requires i < |s|
    ensures Total(s[i := x], weight) + weight(s[i]) == Total(s, weight) + weight(x)
  {
    var n := |s| - 1;
    if i == n {
      assert s[i := x][..n] == s[..n];
    } else {
      assert s[i := x][..n] == s[..n][i := x];
      TotalUpdate(s[..n], i, x, weight);
    }
  }

  lemma {:induction false} TotalAppend<T>(s: seq<T>, t: seq<T>, weight: T -> nat)
    ensures Total(s + t, weight) == Total(s, weight) + Total(t, weight)
  {
    if t == [] {
      assert s + t == s;
    } else {
      assert (s + t)[..|s + t| - 1] == s + t[..|t| - 1];
      TotalAppend(s, t[..|t| - 1], weight);
    }
  }

  lemma {:induction false} TotalZero<T>(s: seq<T>, weight: T -> nat)
    requires forall x <- s :: weight(x) == 0
    ensures Total(s, weight) == 0
  {
    if s != [] {
      TotalZero(s[..|s| - 1], weight);
    }
  }

  lemma {:induction false} TotalAtLeast<T>(s: seq<T>, i: nat, weight: T -> nat)
    requires i < |s|
    ensures Total(s, weight) >= weight(s[i])
  {
    if i < |s| - 1 {
      TotalAtLeast(s[..|s| - 1], i, weight);
    }
  }
}
