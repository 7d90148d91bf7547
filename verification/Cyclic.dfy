/** Arithmetic of cyclic positions. */
module Cyclic {

  /** The position `d` steps after ticket `base` on a ring of `n`. */
  function Slot(base: nat, d: nat, n: nat): (s: nat)
    requires n > 0
    ensures s < n
  {
    (base + d) % n
  }

  lemma DivModUnique(a: nat, n: nat, q: nat, r: nat)
    requires r < n && a == n * q + r
    ensures a / n == q && a % n == r
  {
    var q', r' := a / n, a % n;
    assert n * (q' - q) == r - r';
    if q' != q {
      MultipleIsFar(n, q' - q);
      assert false;
    }
  }

  lemma MultipleIsFar(n: nat, k: int)
    requires n > 0 && k != 0
    ensures n * k >= n || n * k + n <= 0
  {
    if k > 0 {
      MulAtLeast(n, k);
    } else {
      MulAtLeast(n, -k);
      assert n * k == -(n * -k);
    }
  }

  lemma MulAtLeast(n: nat, k: nat)
    requires k > 0
    ensures n * k >= n
  {
    assert n * k == n * (k - 1) + n;
  }

  lemma ModAddMultiple(a: nat, n: nat)
    requires n > 0
    ensures (a + n) % n == a % n && (a + n) / n == a / n + 1
  {
    assert a + n == n * (a / n + 1) + a % n;
    DivModUnique(a + n, n, a / n + 1, a % n);
  }

  /** Every position is reached within one turn of the ring. */
  lemma OffsetOf(base: nat, i: nat, n: nat) returns (d: nat)
    requires i < n
    ensures d < n && Slot(base, d, n) == i
  {
    var q, b := base / n, base % n;
    if b <= i {
      d := i - b;
      DivModUnique(base + d, n, q, i);
    } else {
      d := i + n - b;
      assert base + d == n * (q + 1) + i;
      DivModUnique(base + d, n, q + 1, i);
    }
  }

  /** Within one turn of the ring no position comes twice. */
  lemma SlotsDiffer(base: nat, a: nat, b: nat, n: nat)
    requires a < b < n
    ensures Slot(base, a, n) != Slot(base, b, n)
  {
    if Slot(base, a, n) == Slot(base, b, n) {
      var q, q' := (base + a) / n, (base + b) / n;
      assert n * (q' - q) == b - a;
      MultipleIsFar(n, q' - q);
      assert false;
    }
  }

  /** The positions of the first `m` steps. */
  function FirstSlots(base: nat, m: nat, n: nat): set<nat>
    requires n > 0
  {
    if m == 0 then {} else FirstSlots(base, m - 1, n) + {Slot(base, m - 1, n)}
  }

  lemma {:induction false} FirstSlotsCount(base: nat, m: nat, n: nat)
    requires 0 < n && m <= n
    ensures |FirstSlots(base, m, n)| == m
    ensures forall i :: i in FirstSlots(base, m, n) <==> exists d: nat :: d < m && Slot(base, d, n) == i
  {
    if m > 0 {
      FirstSlotsCount(base, m - 1, n);
      LastSlotIsNew(base, m, n);
      var before, last := FirstSlots(base, m - 1, n), Slot(base, m - 1, n);
      assert last !in before && FirstSlots(base, m, n) == before + {last};
    }
  }

  lemma LastSlotIsNew(base: nat, m: nat, n: nat)
    requires 0 < m <= n
    ensures forall d: nat :: d < m - 1 ==> Slot(base, d, n) != Slot(base, m - 1, n)
  {
    forall d: nat | d < m - 1 ensures Slot(base, d, n) != Slot(base, m - 1, n) {
      SlotsDiffer(base, d, m - 1, n);
    }
  }

  /** Strictly between two turns of `k` there is no further one. */
  lemma BetweenTurns(k: nat, y: nat, n: nat)
    requires k < n && k + n < y < k + 2 * n
    ensures y % n != k
  {
    if y < 2 * n {
      DivModUnique(y, n, 1, y - n);
    } else {
      DivModUnique(y, n, 2, y - 2 * n);
    }
  }

  lemma NextQuotient(a: nat, n: nat)
    requires n > 0
    ensures a % n + 1 < n ==> (a + 1) / n == a / n && (a + 1) % n == a % n + 1
    ensures a % n + 1 == n ==> (a + 1) / n == a / n + 1 && (a + 1) % n == 0
  {
    if a % n + 1 < n {
      DivModUnique(a + 1, n, a / n, a % n + 1);
    } else {
      assert a + 1 == n * (a / n + 1);
      DivModUnique(a + 1, n, a / n + 1, 0);
    }
  }
}
