/** How far a full bucket goes. */
module Buckets {
  import opened Ratelimit
  import opened Upstreams
  import opened Wrappers

  /** What `select` answers to a series of asks while no token drips and nothing is charged. */
  function Answers(keys: seq<Key>, cursor: nat, asks: seq<Ask>): seq<Option<nat>>
    decreases |asks|
  {
    if asks == [] then [] else
      var choice := FirstEligible(keys, asks[0], cursor, 0);
      [choice] + Answers(Charged(keys, asks[0].kind, choice), cursor + 1, asks[1..])
  }

  /** Asks of one class for which the key has room, out of cooldown. */
  ghost predicate Suit(k: Key, kind: MethodClass, asks: seq<Ask>) {
    && k.enabled
    && forall i :: 0 <= i < |asks| ==> && asks[i].kind == kind && asks[i].skip == []
                                       && k.used + asks[i].cost <= k.cap && k.cooldownUntil <= asks[i].now
  }

  /** A key of `left` tokens of a class serves that many asks of it and no more. */
  lemma {:induction false} TokensServeAsks(k: Key, cursor: nat, kind: MethodClass, left: nat, asks: seq<Ask>)
    requires Suit(k, kind, asks) && kind in k.tokens && k.tokens[kind] == left
    ensures |Answers([k], cursor, asks)| == |asks|
    ensures forall i :: 0 <= i < |asks| ==>
              Answers([k], cursor, asks)[i] == if i < left then Some(0) else None
    decreases |asks|
  {
    if asks != [] {
      SelectionIsFit([k], asks[0], cursor);
      if left > 0 {
        var k' := k.(tokens := k.tokens[kind := left - 1]);
        assert Fit([k][0], 0, asks[0]) && Charged([k], kind, Some(0)) == [k'];
        TokensServeAsks(k', cursor + 1, kind, left - 1, asks[1..]);
      } else {
        TokensServeAsks(k, cursor + 1, kind, 0, asks[1..]);
      }
    }
  }

  lemma {:induction false} NoLimitServesAll(k: Key, cursor: nat, kind: MethodClass, asks: seq<Ask>)
    requires Suit(k, kind, asks) && kind !in k.tokens
    ensures |Answers([k], cursor, asks)| == |asks| && forall i :: 0 <= i < |asks| ==>
                                                                    Answers([k], cursor, asks)[i] == Some(0)
    decreases |asks|
  {
    if asks != [] {
      SelectionIsFit([k], asks[0], cursor);
      assert Fit([k][0], 0, asks[0]) && Charged([k], kind, Some(0)) == [k];
      NoLimitServesAll(k, cursor + 1, kind, asks[1..]);
    }
  }

  /** From a fresh pool of one enabled key, before any token drips: of the asks of a class whose rate is not zero
      exactly the first so many are answered, and of a class whose rate is zero all are. */
  lemma FullBucketServesItsRate(c: UpstreamConfig, rps: RpsConfig, kind: MethodClass, asks: seq<Ask>)
    requires c.enabled
    requires forall i :: 0 <= i < |asks| ==> asks[i].kind == kind && asks[i].skip == [] && asks[i].cost <= c.creditCap
    ensures var answers := Answers(FreshKeys([c], rps), 0, asks);
            var rate := match kind
                        case StandardRpc => rps.standardRpc
                        case SendTransaction => rps.sendTransaction
                        case GetProgramAccounts => rps.getProgramAccounts
                        case Das => rps.das
                        case Zk => rps.zk;
            && |answers| == |asks|
            && forall i :: 0 <= i < |asks| ==> answers[i] == if rate == 0 || i < rate then Some(0) else None
  {
    var k := KeyFromConfig(c, FullBuckets(rps));
    assert FreshKeys([c], rps) == [k];
    FreshKeyIsBlank(c, FullBuckets(rps));
    BucketsByClass(rps);
    if kind in k.tokens {
      TokensServeAsks(k, 0, kind, k.tokens[kind], asks);
    } else {
      NoLimitServesAll(k, 0, kind, asks);
    }
  }
}
