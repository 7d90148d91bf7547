/** Rate-limit primitives: the shape of the per-class token buckets and the
    cooldown arithmetic.  Times are Unix milliseconds. */
module Ratelimit {

  const U64_MAX: nat := 0xFFFF_FFFF_FFFF_FFFF

  type u64 = n: nat | n <= U64_MAX

  /** Addition that stops at the largest 64-bit number. */
  function SaturatingAdd(a: nat, b: nat): nat {
    if a + b > U64_MAX then U64_MAX else a + b
  }

  /** Subtraction that stops at zero. */
  function SaturatingSub(a: nat, b: nat): nat {
    if a < b then 0 else a - b
  }

  datatype MethodClass = StandardRpc | SendTransaction | GetProgramAccounts | Das | Zk

  /** Requests per second for each class; 0 means unlimited. */
  datatype RpsConfig = RpsConfig(standardRpc: nat, sendTransaction: nat, getProgramAccounts: nat, das: nat, zk: nat) {
    function Of(kind: MethodClass): nat {
      match kind
      case StandardRpc => standardRpc
      case SendTransaction => sendTransaction
      case GetProgramAccounts => getProgramAccounts
      case Das => das
      case Zk => zk
    }
  }

  /** A bucket is its current number of tokens; a full one holds one second's worth. */
  type Limiters = map<MethodClass, nat>

  /** One full bucket for every class that is limited, none for the others. */
  function FullBuckets(rps: RpsConfig): Limiters {
    map kind: MethodClass | rps.Of(kind) != 0 :: rps.Of(kind)
  }

  /** Each class has the rate of its own name: a bucket that holds it, if it is not zero. */
  lemma BucketsByClass(rps: RpsConfig)
    ensures var m := FullBuckets(rps);
            && (StandardRpc in m <==> rps.standardRpc > 0) && (StandardRpc in m ==> m[StandardRpc] == rps.standardRpc)
            && (SendTransaction in m <==> rps.sendTransaction > 0)
            && (SendTransaction in m ==> m[SendTransaction] == rps.sendTransaction)
            && (GetProgramAccounts in m <==> rps.getProgramAccounts > 0)
            && (GetProgramAccounts in m ==> m[GetProgramAccounts] == rps.getProgramAccounts)
            && (Das in m <==> rps.das > 0) && (Das in m ==> m[Das] == rps.das)
            && (Zk in m <==> rps.zk > 0) && (Zk in m ==> m[Zk] == rps.zk)
  {
  }

  method BuildLimiters(rps: RpsConfig) returns (m: Limiters)
    ensures m == FullBuckets(rps)
  {
    m := map[];
    m := Insert(m, StandardRpc, rps.standardRpc);
    m := Insert(m, SendTransaction, rps.sendTransaction);
    m := Insert(m, GetProgramAccounts, rps.getProgramAccounts);
    m := Insert(m, Das, rps.das);
    m := Insert(m, Zk, rps.zk);
  }

  method Insert(m: Limiters, kind: MethodClass, rps: nat) returns (m': Limiters)
    ensures m' == if rps == 0 then m else m[kind := rps]
  {
    m' := m;
    if rps != 0 {
      m' := m'[kind := rps];
    }
  }

  function Pow2(n: nat): nat {
    if n == 0 then 1 else 2 * Pow2(n - 1)
  }

  /** One second, doubled with each of the first five steps, and 30 seconds at most. */
  function BackoffBase(step: nat): nat {
    var shifted := 1000 * Pow2(if step < 5 then step else 5);
    if shifted < 30_000 then shifted else 30_000
  }

  function BackoffWithJitter(step: nat, now: nat): nat {
    var base := BackoffBase(step);
    var span := base / 2;
    var jitter := if span == 0 then 0 else now % span - span / 2;
    ClampAtZero(base + jitter)
  }

  /** Negative values become zero. */
  function ClampAtZero(x: int): nat {
    if x < 0 then 0 else x
  }

  lemma BackoffBases(step: nat)
    ensures BackoffBase(step) ==
            if step == 0 then 1000 else if step == 1 then 2000 else if step == 2 then 4000
            else if step == 3 then 8000 else if step == 4 then 16_000 else 30_000
  {
    assert Pow2(1) == 2 && Pow2(2) == 4;
    assert Pow2(3) == 8 && Pow2(4) == 16;
    assert Pow2(5) == 32;
  }

  /** The window to the millisecond. */
  lemma ExactWindow(step: nat, now: nat)
    ensures BackoffWithJitter(step, now) ==
            if step == 0 then 750 + now % 500
            else if step == 1 then 1500 + now % 1000
            else if step == 2 then 3000 + now % 2000
            else if step == 3 then 6000 + now % 4000
            else if step == 4 then 12_000 + now % 8000
            else 22_500 + now % 15_000
  {
    BackoffBases(step);
  }

  /** Whatever the clock reads, the window stays within a quarter of its base. */
  lemma WindowBand(step: nat, now: nat)
    ensures 3 * BackoffBase(step) <= 4 * BackoffWithJitter(step, now) < 5 * BackoffBase(step)
    ensures 750 <= BackoffWithJitter(step, now) <= 37_499
  {
    BackoffBases(step);
  }

  /** A window is longer than the 30 seconds that cap its base exactly from step 5 on, in the upper half of the
      jitter; at its longest it has almost 7.5 seconds more. */
  lemma CapIsExceededByJitter(step: nat, now: nat)
    ensures BackoffWithJitter(step, now) > 30_000 <==> step >= 5 && now % 15_000 > 7_500
    ensures BackoffWithJitter(step, now) == 37_499 <==> step >= 5 && now % 15_000 == 14_999
  {
    BackoffBases(step);
  }

  /** Below the cap, one more step means a strictly longer window at any two clock readings. */
  lemma WindowsGrow(step: nat, now: nat, later: nat)
    requires step < 5
    ensures BackoffWithJitter(step, now) < BackoffWithJitter(step + 1, later)
  {
    WindowBand(step, now);
    WindowBand(step + 1, later);
    BackoffBases(step);
    BackoffBases(step + 1);
  }
}
