# Verified model of the 9helius key pool and its accounting

9helius is a gateway that spreads JSON-RPC traffic over a pool of upstream keys. Each key has a monthly credit
cap, a rate-limit cooldown and token buckets. The gateway selects a key, forwards, fails over, charges credits,
rolls months and days over, writes snapshots and restores them on boot. It keeps this state in separate atomics
with no lock across them, so what it promises about its counters is a claim about runs and interleavings. This
project states those claims in Dafny and proves them; where one is false as stated, it says exactly when it holds.

`dafny verify dfyconfig.toml` checks everything.

## How the model is built

**The code.** Every object whose fields the program updates is a class: `Upstreams.Upstream`, `Upstreams.Pool`,
`Statistics.Stats`, `Metrics.Recorder`, `Proxy.AppState`. They hold the source's fields and have its loops: the
scan of `select`, the retry loop of `proxy`, the rollover, restore, replay and ping loops. Every method is proved
equal to a function on plain values (`Key`, `Global`, `App`), and everything else is proved about those functions:
first what each of them does in terms of fields, numbers and bytes alone, then laws over runs.

**Three machines run over the same functions.**

- `Lifetimes` is the coarse one. Requests, pings, rollovers, saves, losses of the snapshot file, crashes and boots
  are single events, and the calendar may go back. A ledger beside the state remembers what the program forgets: all
  credits ever charged, those lost to crashes, the usage a boot assumed, the untrimmed daily log, what each key met
  since boot. `Lifetimes.RequestIsARun` and `Lifetimes.RoundIsARun` show that the retry loop and a round
  of pings are runs of this machine.
- `Interleaving` is the fine one. Any number of request and ping jobs, the month and the day roller and the
  snapshot writer interleave one atomic access at a time: the ticket, the read of the quota, the token, the reply,
  the backoff step, the cooldown store, the addition to the total, the addition to the month; a roll's read and its
  reset of each key; a day roll's read of each key, its load and its store of the new baseline; a save's reads of the
  epoch, of each key's month, total and baseline, of the history, of the day and of the daily log.
  `Schedules.ScanAloneIsSelection` shows that its scan, left alone, is `select`. `ExposureRace` lays over it the
  increments of the metrics, which a job makes one at a time after the counters in memory.
- `PeriodRace` is any number of callers racing for one rollover, monthly or daily, with charges between any two of
  their accesses.

`Query` and `Passthrough` model the query rewrite on bytes, with the form codec of sections 5.1 and 5.2 of the URL
Standard and lossy UTF-8 decoding; `FormCodec` proves the codec against the tables of the standards.

**Inputs.** The clock, the calendar, the outcome of each forward (serviced, rate-limited, failed, dropped), the
answer to each ping, what drips into the token buckets, and what the snapshot file holds.

## Where the code and its documentation disagree

The model follows the code.

- "Concurrent callers can't double-roll" (`src/stats.rs:80-82`) holds exactly when all of them ask for the same period
  (`PeriodRace.NeverRollsTwiceIffOneTarget`); a stale caller rolls the period back
  (`PeriodRace.StaleCallerRollsBack`).
- "Tracking exactly how many credits" (`README.md:24-25`): a commit that overlaps a roll can leave the monthly books
  (`Witnesses.LateCommitLeavesTheBooks`) or the daily ones (`Witnesses.LateChargeLeavesTheDays`), though never the
  lifetime total; by how much is exact (`MonthRace.RolloverLosesOnlyLateCommits`,
  `DayRace.DayRollLosesOnlyLateCharges`). And the cap can be overshot, by no more than
  `QuotaRace.OvershootIsBounded` allows and by exactly as much (`Overshoot.OvershootIsAttained`): it is kept in every
  run if and only if one request runs at a time and the cap is not the largest number
  (`Overshoot.CapIsKeptIffOneJob`).
- The counters are "snapshotted atomically" (`README.md:69-70`): only the replacement of the file is atomic. A save
  that a roll overtakes counts the closing month, or day, twice (`Witnesses.SaveAcrossRollCountsTwice`,
  `Witnesses.SaveAcrossDayRollCountsTwice`), and so does one that reads a key between the push of its record and its
  reset (`Witnesses.SaveBeforeResetCountsTwice`). A save between whose reads of a key's total and baseline a day roll
  comes in can write a baseline that is ahead of the total (`Witnesses.SavedBaselineIsAhead`). And a save that has
  read the epoch when a roll closes it makes the next boot close that month again (`Witnesses.MonthIsClosedTwice`).
  Under any other overlap the file's books stay within its total (`SaveRace.UntornSavesStayConsistent`,
  `DaySaves.UntornDaysStayConsistent`) and its periods in order (`ClosingOrder.PeriodsStayInOrder`).
- The query passes through "byte-for-byte" but for the `api-key` (`README.md:56-58`): it is decoded and encoded
  again, so this holds exactly if what is left of it without its `api-key` pairs is in the encoder's own form
  (`Passthrough.OthersPassThroughIffTidy`). The new `api-key` pair always moves to the end.
- Cooldowns are "capped 30s" (`src/ratelimit.rs:8-9`): the base is; with its jitter a window is longer exactly from
  step 5 on and in the upper half of the jitter, and reaches 37 499 ms (`Ratelimit.CapIsExceededByJitter`).
- The month epoch is said to be "guarding the lazy monthly reset" (`src/upstream.rs:62`): it is stored and never
  consulted.
- "`/metrics` resumes" (`README.md:69-72`), with two exceptions. Rate-limited pings reach the in-memory counters only
  (`src/keepalive.rs:55-58`), so until the next boot the exposed rate limits lag by them. And the series of upstream
  errors and of keep-alive pings have no durable counter and are not replayed (`src/stats.rs:191-213`): they restart
  at zero with every boot. `Exposure.MetricsRefineState` and `ExposureRace.MetricsRefineInterleavings` give the
  exact values.
- Configuration does not reject two keys of one name (`src/config.rs:158-180`); a restore then gives both what the
  first of them had (`RoundTrip.FirstOfItsNameComesBack`).

## Model

| member | source | states |
|---|---|---|
| Upstreams.QuotaCheckIsExact | src/upstream.rs:167-169 | The saturating quota check admits a cost exactly if usage plus cost stays within the cap, or the cap is the largest 64-bit number |
| Upstreams.FreshKeyIsBlank | src/upstream.rs:91-110 | A configured key has its name, cap, switch and buckets, and nothing on its books |
| Upstreams.Upstream.FromConfig | src/upstream.rs:91-110 | A key starts with its configured name, cap and switch, all counters zero, and a full bucket for every limited class |
| Upstreams.Upstream.TryAcquire | src/upstream.rs:183-188 | Takes one token if the class is limited and its bucket is not empty; a failed check takes none; an unlimited class always succeeds |
| Upstreams.Upstream.AddCredits | src/upstream.rs:173-176 | Both counters grow by the cost, nothing else changes, and the new monthly usage is returned |
| Upstreams.Upstream.TripCooldown | src/upstream.rs:201-205 | The window is computed from the step before the increment and starts at the given clock reading, even if that shortens a cooldown |
| Upstreams.TripIsExact | src/upstream.rs:201-205 | To the millisecond: which window each step opens after the given reading, whatever the cooldown was, and that nothing else changes but the step, by one |
| Upstreams.Upstream.NoteSuccess | src/upstream.rs:208-212 | The backoff step is zero afterwards and the cooldown is left alone |
| Upstreams.Upstream.RecordRateLimited | src/upstream.rs:153-156 | One rate-limited request and one hit, and nothing else |
| Upstreams.Upstream.RestoreMonthly | src/upstream.rs:216-225 | Only the month's usage and epoch change; lifetime counters are preserved |
| Upstreams.Upstream.RestoreLifetime | src/upstream.rs:228-242 | Each of the five lifetime counters gets its own value; month, day baseline and cooldown are untouched |
| Upstreams.Upstream.StartNewDay | src/upstream.rs:139-142 | The day baseline becomes the lifetime total |
| Upstreams.Pool.FromConfig | src/upstream.rs:289-297 | One distinct key per configuration entry, in order, with full buckets, and the rotor at zero |
| Upstreams.Pool.Select | src/upstream.rs:311-338 | The scan returns the first eligible key in cyclic order from its ticket and takes exactly one token of it; with none it takes none; an empty pool takes no ticket |
| Upstreams.SelectionIsFit | src/upstream.rs:323-337 | Field by field: what is selected is not skipped, switched on, has room under its cap, is past its cooldown and has a token left if its class is limited; nothing is selected only if no key is all that |
| Buckets.FullBucketServesItsRate | src/upstream.rs:183-188 | From a fresh pool of one enabled key, before any token drips, exactly the first asks of a class are answered, as many as its configured rate, the last token included; all of them if the rate is zero |
| Attempts.TurnedAwayIffSpent | src/upstream.rs:329-334 | In every reachable state of every interleaving, a job at a key past its cooldown is turned away if and only if the class is limited and all its tokens, those of the boot and those dripped since, are granted |
| Upstreams.FirstEligibleIsFirst | src/upstream.rs:323-337 | Nothing is found if and only if no key is eligible; no eligible key lies between the ticket and the choice |
| Upstreams.SomeEligibleIsFound | src/upstream.rs:307-338 | Wherever the ticket points, one eligible key anywhere is enough |
| Ratelimit.BuildLimiters | src/ratelimit.rs:25-39 | Exactly the classes with a positive rate get a bucket, full, of that rate; rate zero means unlimited |
| Ratelimit.BucketsByClass | src/ratelimit.rs:25-33 | Each class gets the rate configured under its own name, and a bucket only if that is not zero |
| Ratelimit.BackoffBases | src/ratelimit.rs:49-52 | The bases are 1, 2, 4, 8 and 16 seconds, and 30 from step 5 on |
| Ratelimit.ExactWindow | src/ratelimit.rs:51-60 | The window in milliseconds, as a number and a remainder of the clock, for each step |
| Ratelimit.WindowBand | src/ratelimit.rs:49-60 | Whatever the clock reads, a window is at least three quarters and less than five quarters of its base, and within 750 to 37 499 ms |
| Ratelimit.CapIsExceededByJitter | src/ratelimit.rs:49-60 | A window exceeds 30 s if and only if the step is at least 5 and the clock is in the upper half of the jitter, and is 37 499 ms if and only if it is at its end |
| Ratelimit.WindowsGrow | src/ratelimit.rs:51-60 | Below the cap one more step means a strictly longer window, at any two clock readings |
| Cooldown.WindowsFollowSteps | src/upstream.rs:201-212 | Over any run without a success, the i-th rate limit opens the window of step i at its own clock reading |
| Cooldown.BackoffGrowsOverRuns | src/upstream.rs:201-212 | From step 0, after r rate limits with no success between them the step is r, every window keeps to its band, and each of the first six outgrows the one before |
| Cooldown.SoonestIsLeast | src/upstream.rs:341-346 | The minimum is absent if and only if no key cools; otherwise some cooling key ends just then and none earlier |
| Cooldown.HintIsTight | src/upstream.rs:341-348 | The hint against the cooldowns themselves: absent if and only if none is past the reading; else some key is out after it, and a second earlier all still cool |
| Cooldown.RunsAreTrippedBy | src/upstream.rs:201-212 | Any run of key operations whose rate limits are at readings up to now leaves a cooldown that is a window opened by then |
| Cooldown.RetryAfterIsTight | src/upstream.rs:341-348 | For keys whose cooldowns are windows opened by now: the hint is absent if and only if no key cools, else 1 to 38 seconds; barring new rate limits some cooling key is out by then, and one second earlier none is |
| KeyRuns.LivesAreKeyOps | src/upstream.rs:139-225 | Whatever requests, pings and rollovers do to a key between two crashes is a run of key operations, with a success only for a serviced reply on the key and exactly one trip for each rate limit it meets, at a reading of the clock |
| KeyRuns.UnservedKeysBackOff | src/upstream.rs:201-212 | So over any life from step 0, until a reply is serviced on the key: its step is the number of rate limits met, and its cooldowns are that many windows, each in its band and each of the first six longer than the one before |
| BackoffRace.StepCountsSinceService | src/upstream.rs:201-212 | In every interleaving, with the step taken, the cooldown stored and the limit counted in three accesses: the step is the number of rate-limited replies since the last serviced one, counted and about to be |
| BackoffRace.StepCountsRateLimits | src/proxy.rs:107-109 | The law behind it, from any state |
| BackoffRace.CooldownIsOfItsReply | src/upstream.rs:201-205 | Whatever comes between the step's increment and the cooldown's store, the cooldown is the window of the step found at the reply, from the reading before forwarding |
| KeyRuns.LivesAreTrippedBy | src/upstream.rs:201-205 | In every state of every life the keys meet the premise of the hint theorem |
| KeyRuns.InterleavedTripsAreReadBy | src/upstream.rs:201-205 | So they do in every interleaving, with the step's increment and the cooldown's store two separate accesses |
| Rotation.ChoiceIsSelection | src/upstream.rs:322-335 | The position-based choice the rotation theorems speak of is what the scan returns |
| Rotation.ShareIsGap | src/upstream.rs:318-337 | Any n consecutive tickets choose each passing key exactly as often as its cyclic distance from the previous passing key, and the others never |
| Rotation.SharesSumToTurn | src/upstream.rs:318-337 | The shares of one turn add up to n |
| Rotation.PicksWhenAllPass | src/upstream.rs:322-337 | With every key passing, the exact number of times any key is chosen by the first T tickets |
| FairShares.InterleavedScansShareEvenly | src/upstream.rs:322-337 | In every interleaving of the fine machine, crashes included: while requests inside select skip nothing and find the same keys passing, finished selections are what the tickets say; with every key passing two counts differ by at most one |
| Statistics.Stats.RecordExhausted | src/stats.rs:66-69 | One more exhaustion, in memory and exposed |
| Statistics.Stats.RecordMethods | src/stats.rs:72-78 | Each method of a batch is tallied once, in memory and exposed alike |
| Statistics.TallyCounts | src/stats.rs:72-78 | A batch raises each method by the number of times it occurs in it, and no other |
| Statistics.Stats.RollMonthIfChanged | src/stats.rs:83-103 | A new month closes the old one as captured before the resets, unless it was zero, resets every key and its gauge, and keeps lifetime totals; the same month changes nothing |
| Statistics.RollMonthCloses | src/stats.rs:83-103 | Rolling from an initialized month to another appends exactly one record, of the month that was active, with each key's name and usage and their sum, and leaves every key at zero in the new month; from none it closes nothing; to the same one it does nothing |
| Statistics.RollDayCloses | src/stats.rs:107-125 | Likewise a day, with what each key's total has grown by since its baseline, which becomes that total |
| Statistics.Stats.RollDayIfChanged | src/stats.rs:107-125 | A new day closes the old one, trimmed to retention, and re-baselines every key after the capture |
| Statistics.Stats.PushDaily | src/stats.rs:128-155 | The newest records up to retention are kept; zero keeps all |
| Statistics.TrimFront | src/stats.rs:149-155 | What is kept is the end of the list, of length the smaller of its own and the limit; limit zero keeps all |
| Statistics.CreditsAddUp | src/stats.rs:158-177 | The total of a closed period is the sum over its points |
| Logs.TrimmingForgetsOnlyTheOldest | src/stats.rs:150-155 | Trimming after every push leaves the same suffix as trimming the whole log once |
| Logs.CapturedMonthLogs | src/stats.rs:158-187 | With distinct names, a closed month holds under each name just what that key used |
| Logs.CapturedDayLogs | src/stats.rs:169-187 | Likewise for a closed day and the day's usage |
| Logs.SnapshotMonthLogs | src/persistence.rs:193-205 | Likewise for a month closed from a snapshot |
| Persistence.RestoreOnBoot | src/persistence.rs:125-151 | The whole boot: a readable, absent or unreadable file is applied, then the active periods are stored, then the metrics are replayed |
| Restart.BootRestoresFirstEntry | src/persistence.rs:162-226 | Field by field, for any file: a key that the file knows gets the counters of the first entry of its name; its month goes on or starts at zero, its day goes on or starts from its total; what is not durable is as configured |
| Restart.BootStartsUnknownAfresh | src/persistence.rs:162-189 | A key that the file does not know starts with nothing |
| Restart.BootWithoutFile | src/persistence.rs:131-146 | Without a readable file nothing was charged and the month starts at zero, but at the whole cap if the file is unreadable and the policy says so |
| Restart.BootClosesWhatIsOver | src/persistence.rs:174-226 | A boot restores the logs and closes the file's month and day, under their own numbers and with what they held, exactly if they are over and were initialized |
| FailClosed.UnreadableFileFailsClosed | src/persistence.rs:137-145 | After a boot that assumes the cap, in every interleaving and until a month roll resets the key or the next boot, nothing is charged to it and no request or ping that costs anything reaches it |
| Restart.CaptureIsComplete | src/persistence.rs:70-95 | A snapshot holds every durable counter of every key, all global state, the version, its reading and the active periods |
| Persistence.ApplyTo | src/persistence.rs:153-227 | Lifetime counters by first matching name, global state, month continued or closed, day continued or closed, in this order |
| Persistence.RestoreLifetimes | src/persistence.rs:162-173 | Each key takes the counters and day baseline of the first entry of its name, or keeps its own |
| Persistence.RestoreMonths | src/persistence.rs:180-189 | In the snapshot's own month usage is restored, zero for unknown names; otherwise it is zero |
| Persistence.RestoreStats | src/persistence.rs:174-205 | Global counters, tallies and both histories are replaced, and the snapshot's month is closed if it is over and was initialized |
| Persistence.CloseSnapshotDay | src/persistence.rs:217-226 | The snapshot's day is closed from restored baselines, if it is over, before the keys are re-baselined |
| Persistence.StartAll | src/persistence.rs:131-145 | Without a readable snapshot the month starts at zero, or at the cap if the file is unreadable and the policy says so |
| Persistence.ReplayToPrometheus | src/stats.rs:191-219 | Every counter is incremented by its total and every gauge set, key by key |
| Persistence.ReplayTallies | src/stats.rs:206-208 | In whatever order the tallies are visited, each exposed series grows by its own count |
| RoundTrip.SnapshotRoundTrips | src/persistence.rs:70-95 | Capturing and restoring within the same periods gives back every durable counter, tally and history under its name, in any configured order, leaves cooldown, backoff, in-flight and rotor initial, and is idempotent |
| RoundTrip.FirstOfItsNameComesBack | src/persistence.rs:162-189 | Without assuming distinct names: each configured key gets what the first captured key of its name had |
| RoundTrip.NothingElseComesBack | src/persistence.rs:153-189 | What is not durable is as freshly configured |
| RoundTrip.RecaptureIsIdentical | src/persistence.rs:70-95 | With the configured order unchanged, a second capture equals the first |
| Proxy.AppState.ForwardOnce | src/proxy.rs:155-194 | The in-flight count is unchanged by a forward that ends, and one higher for good after a dropped one |
| Proxy.AppState.CommitCredits | src/proxy.rs:222-229 | Key, consumed counter, gauge and tallies move together |
| Proxy.AppState.Attempt | src/proxy.rs:104-140 | Each outcome's effect on the key, the tallies and the exposed series |
| Proxy.AppState.Exhaust | src/proxy.rs:147-152 | One exhaustion is counted and the hint is computed at the given clock reading |
| Proxy.AppState.Proxy | src/proxy.rs:97-143 | The retry loop, with its growing skip list, equals the recursive specification the theorems below are about |
| Accounting.RefusalHintIsTight | src/proxy.rs:97-152 | A refused request, whether its retries ran out or no key was fit any more, is answered for the reading after its last attempt: no hint if and only if no key cools then; else some cooling key is out when it has passed, and a second earlier all still cool |
| Accounting.OneRequestIsAccountedExactly | src/proxy.rs:97-152 | For all outcomes: distinct keys, at most retries and n of them; served means the cost charged to the last key only; exhausted means nobody charged and one exhaustion; each earlier key has one record of its failure, with cooldown if and only if it was a rate limit; all other books untouched |
| Accounting.FailoverIsComplete | src/proxy.rs:97-143 | If some key passes all tests and would serve, and retries outnumber the failing keys, the request is served within failing keys + 1 forwards |
| Accounting.FailingKeysUseUpRetries | src/proxy.rs:98-143 | For any rotor, pool and number of retries: if the first keys in turn, as many as retries, pass and fail, the request is refused after them, whatever other keys would answer |
| Accounting.FailoverNeedsMoreRetriesThanFailures | src/proxy.rs:97-143 | While all keys pass, every choice of f failing keys out of n > f is made up for if and only if the retries exceed f |
| Accounting.AttemptsAreKeyOps | src/proxy.rs:106-140 | An attempt, dropped ones included, is a run of key operations, so the backoff theorem covers it: only service resets, only a rate limit trips, at the clock read before forwarding |
| KeepAlive.PingAll | src/keepalive.rs:39-71 | The ping loop equals its specification on keys and metrics |
| KeepAlive.RoundTreatsEachKeyOnce | src/keepalive.rs:43-70 | Field by field: a round pings each key once if it is switched on, past its cooldown and has room for the cost; an answer charges it, a refusal puts it on cooldown from the reading and counts; no token is taken and no backoff reset |
| KeepAlive.PingsAreKeyOps | src/keepalive.rs:43-70 | So is a ping: none resets, and only a rate limit trips, at the clock read before the ping |
| Lifetimes.LivesBalance | src/persistence.rs:153-215 | Over any run of events, crashes, lost or unreadable files and calendars that go back included: lifetime total = closed months + usage - usage assumed by the error policy = untrimmed days + day's usage, baseline within total, and all credits ever charged = total + what was in no readable file at each crash |
| Lifetimes.LivesStoreTheLastDays | src/stats.rs:127-155 | Over any such run the stored days are the last ones of the untrimmed log, as many as retention allows, in memory and on disk |
| Lifetimes.LivesLabelMonths | src/stats.rs:83-97 | Over any such run each month left behind by a roll or a boot is recorded once, in order and under its own number, in memory and on disk |
| Lifetimes.RequestIsARun | src/proxy.rs:97-143 | What the retry loop does is a run of the lifetime machine |
| Lifetimes.RoundIsARun | src/keepalive.rs:39-71 | What a round of pings does is one too |
| Lifetimes.RestoredDayBalances | src/persistence.rs:217-226 | Closing the snapshot's day on boot keeps the daily books balanced |
| Restart.BootHistory | src/persistence.rs:179-215 | Whether a boot closes the snapshot's month or goes on with it, a key's books hold what they held on disk |
| Periods.NoPeriodIsClosedTwice | src/persistence.rs:191-215 | With saves and rolls that do not overlap and a clock that never goes back, closed periods are strictly ascending and before the active one, in memory and on disk, through any crashes and losses of the file; each record's total is the sum of its points |
| Periods.FileDatesNeverGoBack | src/persistence.rs:110-121 | In such lives the file's month and day never go back while it is not lost |
| ClosingOrder.PeriodsStayInOrder | src/persistence.rs:70-95 | The same of every interleaving: closed periods ascend and lie before the active one, in memory, in saves and on disk, unless a roll closes the save's epoch before it reads the history, or its day before it reads the days |
| ClosingOrder.SavedMonthsInOrderIff | src/persistence.rs:73-91 | One save: the months it writes ascend and lie before its epoch if and only if no roll closes that epoch between the two reads |
| Growth.FileNeverGoesBack | src/persistence.rs:110-121 | Whatever the calendar does, from any point of any life on, while the file is not lost: its lifetime counters and tallies never decrease, and each saved history and untrimmed daily log extends the earlier ones |
| Exposure.ReplayExposes | src/stats.rs:191-213 | Replayed into a fresh recorder, every replayed series shows exactly the restored state, and the series of upstream errors and keep-alive pings read zero |
| Exposure.BootExposes | src/persistence.rs:125-151 | So it is after every boot, whatever the file |
| Exposure.MetricsRefineState | src/stats.rs:189-213 | After any life, whatever the calendar and the file do, the exposed counters equal the in-memory ones, except that rate limits lag by exactly the rate-limited pings since boot; upstream errors and keep-alive pings read what happened since boot; the gauge reads the remaining credits |
| ExposureRace.MetricsRefineInterleavings | src/proxy.rs:106-139 | In every interleaving, with each increment its own access: shown + owed = in memory, but for charges still to be added and rate-limited pings; so whenever nothing is owed the series show the counters |
| ExposureRace.ActsAreARun | src/proxy.rs:106-139 | Without the increments these are runs of the interleaved machine |
| MonthRace.RolloverLosesOnlyLateCommits | src/stats.rs:83-103 | Under all interleavings, whenever no roll or commit is half done, total = opening difference + history + usage + exactly the credits added between a roll's read and its reset |
| MonthRace.RunKeepsMonthBooks | src/upstream.rs:173-176 | The invariant behind it, in every reachable state, half-done rolls and commits included |
| DayRace.DayRollLosesOnlyLateCharges | src/stats.rs:107-125 | Under all interleavings and from any file, whenever no day roll is half done: total = opening difference + untrimmed days + day's usage + the credits added between a roll's read of the key and its load of the new baseline + those added while the total was behind a baseline that was ahead at boot, of which there are no more than it was ahead |
| DaySaves.UntornDaysStayConsistent | src/persistence.rs:75-93 | Over any life, crashes, unreadable files and overlapping day rolls included: unless a roll tears an entry in one of three exact ways, no file and no boot has a baseline ahead of the total or stored days beyond the baseline |
| SaveRace.UntornSavesStayConsistent | src/persistence.rs:75-95 | Over any life, crashes and overlapping rolls included: unless a record is pushed after the save read the key's month, or that month is read between the push and the key's reset, every file and every boot has history + usage within the total (unless an unreadable file makes boots assume the cap) |
| SaveRace.TornSnapshotIsConsistent | src/persistence.rs:75-88 | A save interleaved with any commits and any such rolls records history + usage within the total and misses no commit finished before it began, in its month only if a roll reset the key |
| SaveRace.SavedExcess | src/persistence.rs:75-91 | Torn or not: by exactly how much a file's history + usage exceeds its total |
| SaveRace.SoundFileBootsSound | src/persistence.rs:125-151 | A file that is consistent boots consistent, in its own or a later month |
| QuotaRace.OvershootIsBounded | src/upstream.rs:167-176 | With at most K outstanding requests and pings on a key, each costing at most C, usage + outstanding cost never exceeds cap + (K-1)*C in any reachable state, restarts included; with K = 1 the cap holds whatever they cost; for every cap that the check can refuse |
| Overshoot.OvershootIsAttained | src/proxy.rs:100-122 | For every K, pool and rotor some run reaches usage = cap + (K-1)*C |
| Overshoot.LargestCapBoundsNothing | src/upstream.rs:167-169 | The largest cap is never refused, so one job with requests of cost 2^63 exceeds any limit |
| Overshoot.UsageIsLimitedIff | src/upstream.rs:167-176 | A key's usage has any limit over all runs of any number of jobs if and only if its cap is not the largest 64-bit number |
| Overshoot.CapIsKeptIffOneJob | src/proxy.rs:97-122 | On a fresh deployment of any pool, an enabled key's cap holds in every run if and only if one job runs at a time and the cap is not the largest number |
| QuotaRace.MoveFitsQuota | src/proxy.rs:98-122 | Each atomic access either admits a cost for which the key has quota or leaves usage plus outstanding cost no higher |
| Attempts.AttemptsAndTokensAreConserved | src/upstream.rs:311-337 | In every reachable state: selections = outcomes recorded - rate-limited pings + unsettled + dropped; in-flight = flying + dropped; each bucket = opening + dripped - granted, with one token per selection |
| PeriodRace.ConcurrentCallersRollOnce | src/stats.rs:83-125 | Any number of callers with one new target: every complete interleaving pushes one record, of the previous period, treats every key once and ends on the target |
| PeriodRace.RollsOnceIffOneTarget | src/stats.rs:80-125 | Every complete interleaving closes exactly one period if and only if all callers ask for the same new one |
| PeriodRace.NeverRollsTwiceIffOneTarget | src/stats.rs:80-125 | No complete interleaving closes two periods if and only if all callers ask for the same one, new or not |
| PeriodRace.StaleCallerRollsBack | src/stats.rs:84-94 | A caller with the previous period as target reopens it after it was closed |
| Query.LossyIsText | src/proxy.rs:265-273 | What decoding yields is well-formed text, whatever the bytes |
| Query.BuildUpstreamQuery | src/proxy.rs:265-282 | The loop over the preserved pairs builds the specified query |
| FormCodec.EncodingOfByte | src/proxy.rs:276-281 | Letters, digits and `*-._` stay, a space becomes a plus sign, every other byte a percent sign and two upper-case digits |
| FormCodec.KeyComesLastInPlain | src/proxy.rs:276-281 | Every forwarded query ends in the bytes of `api-key=` and the key, if that is made of such bytes, at its start or after an ampersand |
| FormCodec.DecodingOfFirst | src/proxy.rs:268 | Plus signs, percent escapes of either case, and everything else, read as the standard says |
| FormCodec.ReadingOfPiece | src/proxy.rs:268 | A piece splits at its first equals sign; without one its value is empty |
| FormCodec.ReadingOfQuery | src/proxy.rs:268 | Pieces lie between ampersands, and empty ones are nothing |
| FormCodec.TextIsUtf8 | src/proxy.rs:268-271 | Decoded text is exactly the UTF-8 forms of scalar values, one after the other |
| FormCodec.IllFormedIsReplaced | src/proxy.rs:268-271 | Where no character starts, the longest beginning of one, or else one byte, becomes one U+FFFD |
| Query.ParseSerialized | src/proxy.rs:268-281 | The codec round-trips every list of text pairs, empty names and values included |
| Query.RewriteRoundTrips | src/proxy.rs:259-284 | Decoding the rewritten query gives the original pairs in order without any api-key pair, then exactly one with the upstream's key |
| Query.LastRewriteWins | src/proxy.rs:259-284 | Rewriting with one key and then another equals rewriting with the other |
| Passthrough.ClientKeyIsIgnored | src/proxy.rs:265-273 | Whatever api-key pairs the client sent, and wherever, the forwarded query is that of the query without them |
| Passthrough.OthersPassThroughIffTidy | src/proxy.rs:259-284 | Every other byte of the client's query survives, in order and followed by the new pair, if and only if the rest is in the encoder's own form |
| Passthrough.BytesPassThroughIffTidy | src/proxy.rs:259-284 | The whole query survives with the pair appended if and only if it is in that form and had no api-key pair |
| Passthrough.NothingToStrip | src/proxy.rs:265-273 | A query without api-key pairs is its own rest, byte for byte |
| Passthrough.FlagIsRewritten | src/proxy.rs:265-282 | The query `a` is forwarded as `a=` |
| Witnesses.SaveAcrossRollCountsTwice | src/persistence.rs:75-91 | From any balanced one-key state, a save overtaken by a roll writes books that exceed the total by the whole closing month |
| Witnesses.SaveBeforeResetCountsTwice | src/stats.rs:95-99 | So does a save that reads the key between the push and the reset |
| Witnesses.LateCommitLeavesTheBooks | src/stats.rs:95-99 | From any balanced one-key state with a commit half done, the commit can vanish from the monthly books |
| Witnesses.MonthIsClosedTwice | src/persistence.rs:73-91 | Though no entry is torn and the clock only goes forward, a roll that overtakes a save after its read of the epoch makes a boot close that month a second time |
| Witnesses.SaveAcrossDayRollCountsTwice | src/persistence.rs:86-93 | From any balanced one-key state, a save overtaken by a day roll writes daily books that exceed the total by the whole closing day |
| Witnesses.SavedBaselineIsAhead | src/persistence.rs:81-86 | A charge and a day roll between the reads of total and baseline make a save write a baseline ahead of the total by the charge |
| Witnesses.LateChargeLeavesTheDays | src/stats.rs:119-124 | From any balanced one-key state, a charge between a day roll's read and its load is in no day |
| Schedules.ScanAloneIsSelection | src/upstream.rs:322-337 | The interleaved scan, left alone, ends where the selection specification says, with one token taken and one selection counted |

## Left out

- Wrap-around of the 64-bit counters, the 32-bit backoff step, the rotor and the sum of clock and window: they are natural numbers here. Saturating operations are modelled.
- QuotaRace.OvershootIsBounded: says nothing of a cap of 2^64 - 1, where usage has no bound as a natural number; the program's counter would wrap around.
- Lifetimes.LivesBalance: assumes distinct, unchanging names, and takes a save or a roll as one event; what overlaps do to months and days is in the modules on the interleaved machine.
- Periods.NoPeriodIsClosedTwice: assumes a nondecreasing calendar, one writer, and saves that no roll overlaps; otherwise a month can be closed twice, and the interleaved machine says when.
- Growth.FileNeverGoesBack: assumes one writer and saves that no roll overlaps.
- Exposure.MetricsRefineState: is about states where nothing is half done; concurrent updates of a gauge can leave it stale.
- ExposureRace.MetricsRefineInterleavings: leaves out the gauge and the per-method series.
- DayRace.DayRollLosesOnlyLateCharges: is about the log as it would be without trimming since boot.
- Interleaving: the two rollers are independent tasks, which allows more orders than the program's single ticker. A save's reads of counters that no order matters for share a step with the read next to them.
- Interleaving: the enabled and quota checks share a step, and so do the cooldown check and the token, so nothing interleaves between the two reads of such a pair.
- Interleaving: the load and the store of a backoff reset share a step, as do the two additions of a recorded rate limit and a serviced reply's in-flight, success and ok updates; no property here depends on their order.
- Interleaving: there is one roller of each kind and one writer. The final save on shutdown can overlap the periodic one and shares its temporary file.
- Accounting.FailoverIsComplete: excludes clients that go away mid-request.
- Token buckets: a bucket is a number of tokens that a successful check lowers by one and time raises; its burst limit and timing are not modelled, so a bucket may hold more than one second's worth.
- Request parsing, credit tables and class choice: cost, class and method names of a request are inputs.
- Recognizing a rate limit in a response: the verdict is an input.
- HTTP, TLS, header filtering, gateway authentication, body limits, error statuses and logging.
- The path and host of the upstream URL: only its query is modelled.
- Reading and writing JSON, and durability below the rename: a snapshot file is absent, unreadable or a typed value, and is replaced atomically.
- The in-flight gauge and the latency histogram.
- Configuration loading and checks, the real clock and calendar, scheduling of the tasks.
- The read-only views: health, per-key statistics, history and lookup by name.
