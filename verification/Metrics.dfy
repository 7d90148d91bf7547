/** The metrics recorder: counters that start at zero on every boot, and the remaining-credits gauge. */
module Metrics {

  datatype RequestOutcome = WasOk | WasRateLimited | WasError

  datatype Series =
    | CreditsConsumed(upstream: string)
    | Requests(upstream: string, outcome: RequestOutcome)
    | RateLimitHits(upstream: string)
    | UpstreamErrors(upstream: string)
    | AllExhausted
    | Keepalive(upstream: string)

  /** `rpc` holds the series that are labelled by method instead of by upstream. */
  datatype Prom = Prom(counters: map<Series, nat>, rpc: map<string, nat>, remaining: map<string, nat>) {
    function Get(s: Series): nat {
      if s in counters then counters[s] else 0
    }

    function Inc(s: Series, n: nat): Prom {
      this.(counters := counters[s := Get(s) + n])
    }

    function IncRpc(name: string, n: nat): Prom {
      this.(rpc := Bumped(rpc, name, n))
    }

    function SetRemaining(upstream: string, credits: nat): Prom {
      this.(remaining := remaining[upstream := credits])
    }
  }

  const BLANK := Prom(map[], map[], map[])

  function Bumped(tally: map<string, nat>, name: string, n: nat): map<string, nat> {
    tally[name := (if name in tally then tally[name] else 0) + n]
  }

  class Recorder {
    var counters: map<Series, nat>
    var rpc: map<string, nat>
    var remaining: map<string, nat>

    function View(): Prom
      reads this
    {
      Prom(counters, rpc, remaining)
    }

    constructor ()
      ensures View() == BLANK
    {
      counters, rpc, remaining := map[], map[], map[];
    }

    method Increment(s: Series, n: nat)
      modifies this`counters
      ensures View() == old(View()).Inc(s, n)
    {
      counters := counters[s := (if s in counters then counters[s] else 0) + n];
    }

    method IncrementRpc(name: string, n: nat)
      modifies this`rpc
      ensures View() == old(View()).IncRpc(name, n)
    {
      rpc := Bumped(rpc, name, n);
    }

    method SetRemaining(upstream: string, credits: nat)
      modifies this`remaining
      ensures View() == old(View()).SetRemaining(upstream, credits)
    {
      remaining := remaining[upstream := credits];
    }
  }
}
