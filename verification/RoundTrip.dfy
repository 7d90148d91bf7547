/** What a snapshot gives back when it is restored. */
module RoundTrip {
  import opened Metrics
  import opened Persistence
  import opened Ratelimit
  import opened Statistics
  import opened Upstreams
  import opened Wrappers

  ghost predicate DistinctNames(keys: seq<Key>) {
    forall i, j :: 0 <= i < j < |keys| ==> keys[i].name != keys[j].name
  }

  ghost predicate DistinctSnaps(snaps: seq<UpstreamSnap>) {
    forall i, j :: 0 <= i < j < |snaps| ==> snaps[i].name != snaps[j].name
  }

  lemma {:induction false} FindsItsEntry(snaps: seq<UpstreamSnap>, j: nat)
    requires j < |snaps| && forall i :: 0 <= i < j ==> snaps[i].name != snaps[j].name
    ensures Find(snaps, snaps[j].name) == Some(snaps[j])
  {
    if j > 0 {
      FindsItsEntry(snaps[1..], j - 1);
    }
  }

  /** A freshly booted application, before anything is restored into it. */
  function BlankApp(cfgs: seq<UpstreamConfig>, rps: RpsConfig): App {
    App(FreshKeys(cfgs, rps), 0, NO_STATS, BLANK)
  }

  /** What a boot makes of a snapshot of `app` in the snapshot's own month and day. */
  function Restored(app: App, now: nat, cfgs: seq<UpstreamConfig>, rps: RpsConfig, policy: ErrorPolicy,
        retention: nat): App {
    var snap := Capture(app.keys, app.global, now);
    RestoreInto(BlankApp(cfgs, rps), Holding(snap), policy, app.global.month, app.global.day, retention)
  }

  /** Names need not be distinct for this one: each configured key gets the entry of the first captured
      key of its name.  So a key comes back exactly if no earlier key of its name had other counters. */
  lemma FirstOfItsNameComesBack(app: App, now: nat, cfgs: seq<UpstreamConfig>, rps: RpsConfig, policy: ErrorPolicy,
                                retention: nat, i: nat, first: nat)
    requires i < |cfgs| && first < |app.keys| && cfgs[i].name == app.keys[first].name
    requires forall j :: 0 <= j < first ==> app.keys[j].name != cfgs[i].name
    ensures var back := Restored(app, now, cfgs, rps, policy, retention);
            i < |back.keys| && SnapOf(back.keys[i]) == SnapOf(app.keys[first])
  {
    FindsItsEntry(SnapsOf(app.keys), first);
  }

  lemma NothingElseComesBack(app: App, now: nat, cfgs: seq<UpstreamConfig>, rps: RpsConfig, policy: ErrorPolicy,
        retention: nat, i: nat)
    requires i < |cfgs|
    ensures var back, c := Restored(app, now, cfgs, rps, policy, retention), cfgs[i];
            && i < |back.keys|
            && var k := back.keys[i];
            && k.name == c.name && k.cap == c.creditCap && k.enabled == c.enabled
            && k.tokens == FullBuckets(rps) && k.epoch == app.global.month
            && k.cooldownUntil == k.backoffStep == k.inFlight == 0
  {
  }

  lemma RestoringAgainChangesNothing(app: App, now: nat, cfgs: seq<UpstreamConfig>, rps: RpsConfig,
        policy: ErrorPolicy, retention: nat)
    ensures var snap := Capture(app.keys, app.global, now);
            var back := Restored(app, now, cfgs, rps, policy, retention);
            && back.global == app.global && back.cursor == 0 && |back.keys| == |cfgs|
            && Rehydrate(back, Holding(snap), policy, app.global.month, app.global.day, retention) == back
  {
    var back := Restored(app, now, cfgs, rps, policy, retention);
    assert RestoreKeys(back.keys, Capture(app.keys, app.global, now), app.global.month) == back.keys;
  }

  /** Restoring a snapshot in its own month and day gives back every durable counter under its name,
      however the configuration orders the names, and nothing else; restoring it again changes nothing. */
  lemma SnapshotRoundTrips(app: App, now: nat, cfgs: seq<UpstreamConfig>, rps: RpsConfig, policy: ErrorPolicy,
        retention: nat)
    requires DistinctNames(app.keys)
    ensures var snap := Capture(app.keys, app.global, now);
            var back := RestoreInto(BlankApp(cfgs, rps), Holding(snap), policy, app.global.month, app.global.day,
                                    retention);
            && back.global == app.global && back.cursor == 0
            && |back.keys| == |cfgs|
            && (forall i, j :: 0 <= i < |cfgs| && 0 <= j < |app.keys| && cfgs[i].name == app.keys[j].name ==>
                                 SnapOf(back.keys[i]) == SnapOf(app.keys[j]))
            && (forall i :: 0 <= i < |cfgs| ==>
                              var k, c := back.keys[i], cfgs[i];
                              && k.name == c.name && k.cap == c.creditCap && k.enabled == c.enabled
                              && k.tokens == FullBuckets(rps) && k.epoch == app.global.month
                              && k.cooldownUntil == k.backoffStep == k.inFlight == 0)
            && Rehydrate(back, Holding(snap), policy, app.global.month, app.global.day, retention) == back
  {
    RestoringAgainChangesNothing(app, now, cfgs, rps, policy, retention);
    var back := Restored(app, now, cfgs, rps, policy, retention);
    forall i, j | 0 <= i < |cfgs| && 0 <= j < |app.keys| && cfgs[i].name == app.keys[j].name
      ensures SnapOf(back.keys[i]) == SnapOf(app.keys[j])
    {
      FirstOfItsNameComesBack(app, now, cfgs, rps, policy, retention, i, j);
    }
    forall i | 0 <= i < |cfgs| ensures back.keys[i].name == cfgs[i].name {
      NothingElseComesBack(app, now, cfgs, rps, policy, retention, i);
    }
  }

  /** With the configuration's order unchanged, a second capture is the first one. */
  lemma RecaptureIsIdentical(app: App, now: nat, cfgs: seq<UpstreamConfig>, rps: RpsConfig, policy: ErrorPolicy,
        retention: nat)
    requires DistinctNames(app.keys)
    requires |cfgs| == |app.keys| && forall i :: 0 <= i < |cfgs| ==> cfgs[i].name == app.keys[i].name
    ensures var snap := Capture(app.keys, app.global, now);
            var back := RestoreInto(BlankApp(cfgs, rps), Holding(snap), policy, app.global.month, app.global.day,
                                    retention);
            Capture(back.keys, back.global, now) == snap
  {
    SnapshotRoundTrips(app, now, cfgs, rps, policy, retention);
  }
}
