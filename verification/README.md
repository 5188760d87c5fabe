# Verification of the notification platform's sending decisions

The project models the part of the platform that decides whether, how often and how many times a
notification is sent, and proves what those decisions keep over whole runs. Time is an integer clock; a
call reads it once.

| file | what it models |
|---|---|
| `Redis.dfy` | Integer keys with expiries: GET, EXISTS, INCR, EXPIRE, SET EX, DEL; a pipeline is one step |
| `FrequencyCap.dfy` | The hour, day and week caps per user and channel, with callers interleaved between the read and the increment pipeline |
| `FrequencyRolling.dfy` | The same caps over rolling windows |
| `SpecFrequencyCap.dfy` | The four-dimensional caps with bypasses and cooldown, served one call at a time |
| `SpecRolling.dfy` | The same caps over any window of time |
| `SpecRace.dfy` | The same caps with callers interleaved between their read and their increments |
| `RateLimit.dfy` | The HTTP rate limiter |
| `CircuitBreaker.dfy` | The provider circuit breaker |
| `Compliance.dfy` | Quiet hours, and the registry check with its cached answers |
| `OptOut.dfy` | The opt-out list, joined when written and split when read |
| `Delivery.dfy` | One notification row as a step system: event transaction, send workers, retry task, sweep, manual retry, cancel, receipts, clean-up |
| `DeliverySkips.dfy` | What all those steps leave of a skipped row |
| `DeliveryWrites.dfy` | What overlapping attempts write to the row, and how a report finds it |
| `DeliveryTasks.dfy` | The same code run from start to end, each method proved to be a run of those steps |
| `SerialDelivery.dfy` | One notification with one outstanding message, attempted until it is settled |
| `EventHandler.dfy` | From an event to its rows: factory, gate, transaction; as functions |
| `EventService.dfy` | The same as a class over the caps and registry services, proved equal to those functions |
| `EventReplay.dfy` | Replays, and distinct keys |
| `EventRules.dfy` | The rules of an event in its own terms: which rows it stores, with which fields, and why a row is skipped |
| `EventVerdict.dfy` | Which check decides a row, from the state the event found, and how the row enters the delivery system |
| `EventBudget.dfy` | What a batch costs |
| `EventBreakdown.dfy` | What a breakdown leaves behind, and what a redelivery makes of it |
| `EventRace.dfy` | Several handlers at work at once, meeting at the unique column |
| `EventExamples.dfy` | Two events that show what the platform does not promise |
| `Analytics.dfy` | The daily fold and its upsert |
| `Counting.dfy`, `Wrappers.dfy` | Counting the elements of a sequence; `Option` |

Objects that the platform updates in place (the Redis server, the services on it, the breaker, the row store with
its queues, the event handler, the analytics records) are classes. Every method is proved to produce exactly the
state and the answer of a function; the lemmas are about runs of those functions.

## Where the code does not do what it says

- A cap of 0 falls back to the configured default (app/redis/frequency_cap.py:23-25); a unit test's name says it
  means unlimited (tests/unit/test_frequency_cap.py:69). The model follows the code.
- The header of app/redis/frequency_cap_v2.py speaks of at most 12 in a rolling 24 h; the code counts in UTC days. A
  window can hold more than the cap iff a bucket ends inside it (`SpecRolling.OverfullIffBucketEnds`), then twice the
  cap is reached (`SpecRolling.TwiceIsReached`), and a window of a bucket's length holds no more than that
  (`SpecRolling.RollingSends`). A reset gives the whole cap again (`SpecRolling.WindowSends`).
- The weekly key of app/redis/client.py:109-113 rests on a format token for the week. If the token also writes the
  day of the week, the key changes every day and the default weekly cap is never full:
  `FrequencyCap.DayLongWeekIsNeverFull`.
- The breaker's comment says that HALF_OPEN allows one test request (app/rabbitmq/circuit_breaker.py:42); it
  lets every request through until a result is recorded: `CircuitBreaker.HalfOpenBlocksNothing`, in a state that
  `CircuitBreaker.HalfOpenIsReachable` reaches.
- A notification can be sent again after it was delivered: `Delivery.DeliveryIsLastCallIffQuiet` says exactly when it
  cannot, and `Delivery.OneMessageTwoCalls` gives a run.
- A cancellation is not final: `Delivery.CancelIsFinalIffQuiet` says exactly when it is, and
  `Delivery.LoudCancelIsReachable` reaches one that is not.
- A retry count can pass its limit: `Delivery.CountIsSafeIffAtRest` says exactly from which states it cannot, and
  `Delivery.SpentPickIsReachable` reaches one from which it can.
- An event whose own key contains a colon can be dropped because of another event's rows:
  `EventReplay.OthersBlockIffBareKeyStored` says exactly when, and `EventExamples.ColonKeyIsDropped` gives two events.
- The registry may be asked again within a day if it answered null: `Compliance.AskedIffStale` says exactly when it is
  asked, and `Compliance.NullIsAskedAgain` gives two checks.
- The first entry of the retry schedule, 60 s, is never used: `SerialDelivery.WaitsNeverDecrease`.
- A handling that breaks down may leave messages and counts behind, and a redelivery then sends again:
  `EventBreakdown.BreakdownIsUndoneIffNothingAdmissible` and `EventBreakdown.RedeliveryIsCleanIffNothingAdmissible`
  say exactly when it does not, and `EventExamples.FailedCommitThenReplaySendsTwice` gives an event.

## Model

| member | source | states |
|---|---|---|
| `Redis.BumpCounts` | app/redis/frequency_cap.py:58-65 | INCR followed by EXPIRE: a later reader sees one more until the refreshed deadline and 0 from then on, and no other key moves |
| `Redis.Server.IncrKey` | app/redis/frequency_cap.py:59 | INCR returns the new count, starts an absent or expired key at 1 without an expiry, and keeps a live key's deadline |
| `Redis.Server.ExpireKey` | app/redis/frequency_cap.py:60 | EXPIRE sets the deadline of a live key only |
| `FrequencyCap.IncrementAllCounts` | app/redis/frequency_cap.py:58-65 | The second pipeline adds one to the three counters the caller read, for as long as each window's time-to-live, and to nothing else |
| `FrequencyCap.FrequencyCapService.GetCounts` | app/redis/frequency_cap.py:67-78 | The three live counters of the current buckets, 0 for a missing one |
| `FrequencyCap.FrequencyCapService.ReadAndCheck` | app/redis/frequency_cap.py:23-55 | For each window, a caller with no cap or a cap of 0 is refused from the default on if that is positive, one with a positive cap from that cap on, one with a negative cap never; a refusal names the shortest full window with its count and that limit |
| `FrequencyCap.FrequencyCapService.Increment` | app/redis/frequency_cap.py:57-65 | Every counter at every later time after the second pipeline |
| `FrequencyCap.FrequencyCapService.CheckAndIncrement` | app/redis/frequency_cap.py:15-65 | One uninterrupted call: refuses on the same terms, counts exactly when it admits, changes nothing when it refuses |
| `FrequencyCap.FrequencyCapService.Reset` | app/redis/frequency_cap.py:80-86 | Removes exactly the user and channel's three current keys |
| `FrequencyCap.NextAgreesWithLog` | app/redis/frequency_cap.py:34-65 | Each step of any caller keeps every counter equal to the log's admits |
| `FrequencyCap.CountersAgreeWithLog` | app/redis/frequency_cap.py:30-65 | After every interleaving with drop-outs and resets, a counter read inside its own bucket equals the admits logged for it since its last reset: no key expires inside its bucket |
| `FrequencyCap.VerdictIsLogVerdict` | app/redis/frequency_cap.py:34-55 | A reader's verdict is the verdict of the full log |
| `FrequencyCap.OvershootIsBounded` | app/redis/frequency_cap.py:34-65 | With at most K callers between the pipelines, no hour, day or week bucket admits more than limit + K - 1 since the last reset; for K = 1 the cap is exact |
| `FrequencyCap.CallersCapsAreKept` | app/redis/frequency_cap.py:23-55 | In a run whose callers bring their own caps, a window with no cap or a cap of 0 admits at most its default + K - 1, one with a positive cap that cap + K - 1 |
| `FrequencyCap.OvershootIsReached` | app/redis/frequency_cap.py:34-65 | Wherever limit - 1 serial admits fit in one bucket of a window and leave room at some reading, a run with at most K callers in the gap admits exactly limit + K - 1 in that bucket, for every K |
| `FrequencyCap.AttainableIsReached` | app/redis/frequency_cap.py:34-65 | On any calendar, in a bucket of full length, every crowd reaches the bound of a window whose cap no other cap is too tight for; a tighter hour cap does not keep a day or week from its bound |
| `FrequencyCap.EveryCrowdReachesIffAttainable` | app/redis/frequency_cap.py:34-65 | Where longer buckets are made of whole shorter ones, such as weeks from any day on, every K reaches limit + K - 1 in window w iff a serial caller reaches the limit, and iff w's cap is at most each longer cap in force and at most each shorter cap times the shorter buckets in one of w |
| `FrequencyCap.DefaultBoundsAreReached` | app/core/config.py:114-116 | On any calendar, the configured caps 10, 50 and 200 reach their bound in each window that has a bucket as long as its key lives |
| `FrequencyCap.PeriodicIsNested` | app/redis/client.py:97-113 | Hours, days and weeks that repeat at any offset, each beginning where a shorter one begins, are made of whole shorter ones |
| `FrequencyCap.DayLongWeekIsNeverFull` | app/redis/client.py:109-113 | If the weekly key changes every day, the default weekly cap is never reached, as the daily one is too tight for it |
| `FrequencyRolling.RollingWindowAdmits` | app/redis/client.py:97-113 | Where buckets of one length follow one another, a window of that length admits at most twice limit + K - 1 in a run without resets |
| `FrequencyRolling.SerialRollingAdmits` | app/redis/client.py:97-113 | Served one at a time, such a window admits at most twice the limit in a run without resets |
| `FrequencyRolling.RollingBoundIsReached` | app/redis/frequency_cap.py:34-65 | Between any two readings in different buckets, and with room under the other caps, a run with at most K callers in the gap and no reset admits exactly twice limit + K - 1 |
| `RateLimit.RateLimiter.Handle` | app/middleware/rate_limit.py:10-56 | A request for one of the five exempt paths, or with the limiter off or Redis down, passes and leaves every counter alone; any other is counted, refused or not, and refused iff its minute or hour count passes the limit; every later reading of every counter |
| `RateLimit.CounterIsStreak` | app/middleware/rate_limit.py:25-33 | A counter read at any later moment is the length of the address's current run of counted requests whose gaps are under the span |
| `RateLimit.PassesIffStreaksShort` | app/middleware/rate_limit.py:35-49 | A counted request passes iff its minute run and its hour run, itself included, are within their limits; the minute is named first |
| `RateLimit.EveryWindowIsLimited` | app/middleware/rate_limit.py:35-49 | In every window of 60 s (3600 s), aligned or not, at most the per-minute (per-hour) limit of one address's counted requests pass |
| `RateLimit.MinuteLimitHolds` | app/middleware/rate_limit.py:17-41 | With the limiter on, among one address's requests in any 60 s that reach Redis and ask for none of the five exempt paths, at most the per-minute limit pass |
| `RateLimit.HourLimitHolds` | app/middleware/rate_limit.py:17-49 | Likewise 3600 s and the per-hour limit |
| `RateLimit.ExemptLeavesNoTrace` | app/middleware/rate_limit.py:11-18 | A request that is exempt, or made with the limiter off or Redis down, passes, and every later answer is the same without it |
| `RateLimit.NextStreak` | app/middleware/rate_limit.py:26-29 | The next request of the address extends the run, or starts a new one of length 1 if the gap is as long as the span |
| `RateLimit.AnswerAfterGap` | app/middleware/rate_limit.py:25-49 | The exact answer to the address's next counted request, after a gap of any length |
| `RateLimit.RefusedUntilGap` | app/middleware/rate_limit.py:35-49 | A client over a limit stays over it and is refused at every counted request until it leaves a gap of that limit's span |
| `CircuitBreaker.CircuitBreaker.CheckOpen` | app/rabbitmq/circuit_breaker.py:33-42 | New fields and answer of `is_open`: half-opens when the timeout has passed, blocks otherwise while open |
| `CircuitBreaker.CircuitBreaker.RecordSuccess` | app/rabbitmq/circuit_breaker.py:44-50 | New fields after a success in each of the three states |
| `CircuitBreaker.CircuitBreaker.RecordFailure` | app/rabbitmq/circuit_breaker.py:52-63 | New fields after a failure in each of the three states |
| `CircuitBreaker.CircuitBreaker.CleanupOldFailures` | app/rabbitmq/circuit_breaker.py:87-89 | Keeps, in order, exactly the failure times after the cutoff |
| `CircuitBreaker.StepSimulates` | app/rabbitmq/circuit_breaker.py:33-89 | One call keeps the pruned breaker in step with one that never forgets a failure, and its failure count is the ledger's count in the window |
| `CircuitBreaker.PruningIsInvisible` | app/rabbitmq/circuit_breaker.py:33-89 | On every call sequence with a non-decreasing clock, both breakers take the same decision at every call |
| `CircuitBreaker.OpensIffWindowIsFull` | app/rabbitmq/circuit_breaker.py:52-63 | From CLOSED a failure opens the breaker iff at least the threshold of failures since the last close lie in the current window |
| `CircuitBreaker.OpensIffEnoughFailures` | app/rabbitmq/circuit_breaker.py:52-89 | In terms of the calls: a closed breaker opens on a failure iff, with it, at least the threshold of failures lie strictly inside the window and after the last close |
| `CircuitBreaker.OpeningsAreSpaced` | app/rabbitmq/circuit_breaker.py:33-69 | Consecutive openings are at least the timeout apart |
| `CircuitBreaker.OpeningsAreRare` | app/rabbitmq/circuit_breaker.py:33-69 | n openings within a span L satisfy (n - 1) * timeout <= L |
| `CircuitBreaker.StaysOpenUntilTimeout` | app/rabbitmq/circuit_breaker.py:33-63 | Before the timeout no calls move an open breaker or its opening time, and a check blocks iff it comes before the timeout |
| `CircuitBreaker.HalfOpenBlocksNothing` | app/rabbitmq/circuit_breaker.py:42 | Any number of checks pass a half-open breaker and leave it as it is |
| `CircuitBreaker.HalfOpenIsReachable` | app/rabbitmq/circuit_breaker.py:33-63 | A fresh breaker opens after a threshold of failures at once and half-opens at the first check after the timeout |
| `CircuitBreaker.HalfOpenHistory` | app/rabbitmq/circuit_breaker.py:37-50 | A half-open breaker has a call that half-opened it, no failure since, and a success count equal to the successes since |
| `CircuitBreaker.ClosesAfterSuccesses` | app/rabbitmq/circuit_breaker.py:44-48 | The breaker closes only on a success that completes the success threshold since it half-opened, with no failure in between |
| `SpecFrequencyCap.CategoryIsPrefix` | app/redis/frequency_cap_v2.py:54-56 | The category has no dash and is the code itself or what comes before its first dash |
| `SpecFrequencyCap.SpecFrequencyCapService.CheckAndIncrement` | app/redis/frequency_cap_v2.py:23-133 | One call in numbers: critical bypasses all caps, mandatory the channel cap; 12 a day, then 5, 8, 3, 5, 50 or 10 by channel, then 3 an hour, then the cooldown, each refusal named; an admission gives the three counts; counted unless refused |
| `SpecFrequencyCap.SpecFrequencyCapService.Increment` | app/redis/frequency_cap_v2.py:135-158 | The three counters of the user, channel and category go up by one and live for a day, a day and an hour, the cooldown for 900 s; every other key stays |
| `SpecFrequencyCap.SpecFrequencyCapService.ResetUserCaps` | app/redis/frequency_cap_v2.py:188-196 | Removes every key of the user and no other |
| `SpecFrequencyCap.CountersAgreeWithLog` | app/redis/frequency_cap_v2.py:76-158 | Over any serial run with resets each counter is the number of its sends in the log, and a cooldown is on exactly while its code was sent less than 900 s ago |
| `SpecFrequencyCap.EveryRunKeepsCaps` | app/redis/frequency_cap_v2.py:102-124 | Over any run: per user and day at most 12 non-critical sends, per category and hour at most 3, per channel and day at most its cap of sends neither critical nor mandatory, and the cooldown before each non-critical send |
| `SpecFrequencyCap.SpacedPairs` | app/redis/frequency_cap_v2.py:120-124 | A non-critical send comes at least 900 s after every earlier send of its user and code, critical or not |
| `SpecFrequencyCap.RefusalsAreDue` | app/redis/frequency_cap_v2.py:76-124 | A request is refused iff it is not critical and the log really fills one of the caps that apply to it |
| `SpecFrequencyCap.GlobalIsSumOfChannels` | app/redis/frequency_cap_v2.py:126-147 | On the current day a user's global counter is the sum of the user's channel counters, after any run with bypasses, refusals and resets |
| `Compliance.QuietHoursAreAnArc` | app/services/compliance_service.py:36-41 | For hours of the day, quiet hours are the arc of the clock face from start up to, without, end; equal ends are no quiet hours |
| `SpecRolling.EverythingIsPaidFor` | app/redis/frequency_cap_v2.py:102-118 | After any run, a bucket's sends in each counted dimension, kept through resets, are at most a cap more than a cap for each reset of the user in it |
| `SpecRolling.WindowSends` | app/redis/frequency_cap_v2.py:102-118 | Any window holds at most a cap for each bucket it meets and one for each reset of the user in those, per user, channel and category; a channel's cap counts as at most 12 |
| `SpecRolling.RollingSends` | app/redis/frequency_cap_v2.py:32-47 | Without a reset of the user, a rolling day holds at most 24 non-critical sends of a user and twice a channel's cap (at most 24) of unmandated ones, and a rolling hour at most 6 of a category |
| `SpecRolling.TwiceIsReached` | app/redis/frequency_cap_v2.py:102-124 | Between any two readings in different buckets a run without resets sends exactly twice the cap, in every dimension |
| `SpecRolling.OverfullIffBucketEnds` | app/redis/frequency_cap_v2.py:1-13 | On any calendar, some run without resets puts more than the cap into a window iff a bucket ends inside the window (and the category is one that events can have) |
| `SpecRace.TakeAgrees` | app/redis/frequency_cap_v2.py:88-158 | Each step of any interleaved caller keeps counters and cooldowns equal to the log, although the increments name their own buckets |
| `SpecRace.RaceOvershootIsBounded` | app/redis/frequency_cap_v2.py:88-158 | With at most K capped callers between read and increments, no day or hour exceeds its cap by more than K - 1 since the user's last reset, in each of the three counted dimensions; a channel's cap counts as at most 12, because the user's cap binds first |
| `SpecRace.RaceOvershootIsReached` | app/redis/frequency_cap_v2.py:88-158 | For every K a run with at most K capped callers in the gap reaches that bound in each dimension whose requests exist |
| `SpecRace.CooldownCrowd` | app/redis/frequency_cap_v2.py:120-156 | With at most K callers of one user and code in the gap, no 900 s hold more than K non-critical sends of the code since the user's last reset |
| `SpecRace.CooldownCrowdIsReached` | app/redis/frequency_cap_v2.py:120-156 | For every K, code and channel a run with at most K such callers in the gap makes K sends of the code at once |
| `Compliance.ComplianceService.CheckDnd` | app/services/compliance_service.py:49-74 | An exempt or disabled check is clear, asks nothing and caches nothing; any other finds the phone registered iff the live cached answer, or for want of one the registry's reply, is `true`, and caches the reply for 86400 s |
| `Compliance.ComplianceService.CacheGet` | app/redis/client.py:37-44 | A cached null and an expired key both read as nothing |
| `Compliance.ComplianceService.QueryRegistry` | app/services/compliance_service.py:76-91 | No configuration, an error and a status other than 200 are answered "not registered" |
| `Compliance.VerdictIsRecentAnswer` | app/services/compliance_service.py:49-74 | Every verdict of a check that is not skipped is a registry answer for that phone obtained less than 86400 s earlier, evictions included |
| `Compliance.RegisteredIffRepliedTrue` | app/services/compliance_service.py:49-91 | Over any run with evictions: a check that is neither exempt nor disabled finds the phone registered iff a query for that phone less than a day before, or its own, was replied `true`; a failed or unconfigured lookup counts as `false` |
| `Compliance.AskedIffStale` | app/services/compliance_service.py:60-71 | Without evictions the registry is asked iff its last answer for the phone is missing, a day old or null |
| `Compliance.QueriesAreDayApart` | app/services/compliance_service.py:60-71 | Each query follows the phone's previous one by at least a day unless that one was answered null |
| `Compliance.AnyTwoQueriesAreDayApart` | app/services/compliance_service.py:60-71 | When every answer is a flag, any two queries for one phone are at least 86400 s apart |
| `Compliance.NullIsAskedAgain` | app/services/compliance_service.py:60-71 | Two checks of one phone a second apart are both passed to the registry when the first is answered null |
| `OptOut.UserPreference.Update` | app/api/v1/endpoints/preferences.py:49-60 | An absent list leaves the column alone, a given one is stored joined, and a list of names reads back as itself |
| `OptOut.SplitOfJoin` | app/models/user_preference.py:45-48 | Splitting the joined list gives the list back, for every list of non-empty, trimmed, comma-free names |
| `OptOut.JoinOfSplit` | app/models/user_preference.py:45-48 | Whatever string is stored, joining what was read from it and reading again gives the same list |
| `OptOut.DisabledIffStanding` | app/models/user_preference.py:45-48 | A name is on the list iff it stands in the stored string between commas, or an end, with nothing but blanks around it |
| `DeliveryWrites.ProviderIdComesFromDelivery` | app/celery/tasks.py:90-99 | In every step of every actor a stored row gets its provider id from the worker whose call the provider accepted, and from nobody else |
| `DeliveryWrites.DeliveredRowCanBounce` | app/services/delivery_tracking_service.py:38-67 | Whoever wrote the row in between, an accepted call leaves it DELIVERED with its id and its count, limit and retry time as they were, and a bounce reported under that id makes it FAILED |
| `DeliveryWrites.ConcurrentFailuresCountOnce` | app/celery/tasks.py:102-131 | Two workers that read a row at the same count and both fail leave a count of one failure more and two log lines with one number |
| `DeliverySkips.RunIsSkipSafe` | app/celery/tasks.py:48-59 | Every run of all actors keeps a skipped row untouched, and a row that is still being built without messages |
| `DeliverySkips.SkippedIsNeverHandedOver` | app/services/notification_dispatcher.py:36-106 | In every interleaving a row ever SKIPPED has, then and ever after, no provider call, message, worker or provider id, and stays SKIPPED or CANCELLED until removed |
| `DeliverySkips.OnlyCancelLeavesSkipped` | app/api/v1/endpoints/notifications.py:165-183 | The only step that changes a skipped row's status is a cancellation; clean-up may remove it |
| `Delivery.RunIsRetrySafe` | app/celery/tasks.py:104-160 | Every run keeps a RETRYING row within the sweep's query, and every worker's view of the row's retry limit right |
| `Delivery.RetryingIsSweepable` | app/repositories/notification_repository.py:33-46 | In every reachable state a RETRYING row has its retry time set and 0 < retry_count < max_retries, so it meets the sweep's query exactly from that time on |
| `Delivery.StepLogsDelivery` | app/celery/tasks.py:72-100 | Every step keeps the log append-only and a delivered row's log line in it |
| `Delivery.DeliveredIsLogged` | app/services/delivery_tracking_service.py:49-80 | In every reachable state a DELIVERED row has a Delivered line in its log, whether a worker or a receipt put it there |
| `Delivery.LockHasOneHolder` | app/celery/tasks.py:59-101 | Where every writer waits for the row's lock, at most one worker at a time is between its PROCESSING update and its commit |
| `Delivery.CancelIsFinalIffQuiet` | app/api/v1/endpoints/notifications.py:165-183 | A cancellation survives every continuation, or every one that waits for the row's lock, iff at that moment no send task is running, no retry task or manual retry is pending and the row has no provider id |
| `Delivery.LoudCancelIsUndone` | app/celery/tasks.py:174-188 | Otherwise some continuation that waits for the lock undoes the cancellation |
| `Delivery.LoudCancelIsReachable` | app/celery/tasks.py:48-59 | A reachable cancellation with a worker that has read the row before it |
| `Delivery.DeliveryIsLastCallIffQuiet` | app/celery/tasks.py:56-68 | A delivered notification is handed to a provider again in no continuation, and likewise in none that waits for the lock, iff at that moment no send task is running, no retry task or manual retry is pending and the row has no provider id |
| `Delivery.LoudDeliveryIsResent` | app/services/delivery_tracking_service.py:52-67 | Otherwise, in each of the cases, some continuation makes another provider call, by way of a running worker, the retry task, a manual retry, or a bounced receipt and a manual retry |
| `Delivery.CountKeepsLimit` | app/celery/tasks.py:103-131 | A run in which no worker picks a row whose attempts are used up keeps the retry count within max(1, max_retries) |
| `Delivery.SpentPickBreaksLimit` | app/celery/tasks.py:56-59 | Wherever a worker can pick such a row, one failed call takes its count past the limit |
| `Delivery.CountIsSafeIffAtRest` | app/celery/tasks.py:56-131 | From a reachable state with a stored row no continuation, or none that waits for the lock, takes the count past max(1, max_retries) iff it is within it, nothing can come that writes without looking at the status (a running send task, a retry task, a manual retry, a receipt for its provider id), and the row is delivered, skipped or cancelled or has no message or sweep on its way |
| `Delivery.SpentPickIsReachable` | app/celery/tasks.py:103-117 | A reachable row with its attempts used up whose unacknowledged message a second worker can pick |
| `Delivery.OneMessageTwoCalls` | app/celery/tasks.py:29-36 | A run that waits for the row's lock: one queued message, delivered to two workers that both read the row first, makes two provider calls, the second after the delivery |
| `DeliveryTasks.Platform.UpdateStatus` | app/repositories/notification_repository.py:101-113 | Rewrites the row of that id and nothing when there is none |
| `DeliveryTasks.Platform.AddDeliveryLog` | app/repositories/notification_repository.py:115-119 | Appends one line to the row's log |
| `DeliveryTasks.Platform.RecoverFromException` | app/celery/tasks.py:140-161 | The row is read again and set RETRYING with its count up, or DEAD with its count as it was; no retry task; other rows untouched |
| `DeliveryTasks.Platform.RecordResult` | app/celery/tasks.py:70-138 | What is committed and scheduled after the provider answered: a delivery stores the provider's id and leaves the rest of the row, a failure leaves the id; the log line is numbered by the attempt |
| `DeliveryTasks.Platform.SendNotification` | app/celery/tasks.py:41-161 | One uninterrupted send task for each behaviour of provider and infrastructure: its answer in every case, the committed row field by field with the provider's id and the wait in seconds, and that other rows keep theirs |
| `DeliveryTasks.SendIsRun` | app/celery/tasks.py:41-161 | That closed form is a run of the steps that workers interleave |
| `DeliveryTasks.Platform.RetryNotification` | app/celery/tasks.py:174-188 | Sets PENDING whatever the status and enqueues one message; nothing for a missing row |
| `DeliveryTasks.Platform.GetPendingRetries` | app/repositories/notification_repository.py:33-46 | Only due RETRYING rows with attempts left, each once, at most the limit, and all of them when there is room |
| `DeliveryTasks.Platform.RetryFailed` | app/celery/scheduled_tasks.py:43-61 | One more message for each row the query gives, at most 100, rows unchanged, every other row untouched |
| `DeliveryTasks.Platform.CleanupOldNotifications` | app/celery/scheduled_tasks.py:69-94 | Removes exactly the expired rows in the four final statuses, with their logs |
| `DeliveryTasks.Platform.RetryEndpoint` | app/api/v1/endpoints/notifications.py:141-162 | 404 without a row, 400 unless FAILED or DEAD, else PENDING with count 0 and one message; a run of the check, enqueue and commit steps |
| `DeliveryTasks.Platform.CancelEndpoint` | app/api/v1/endpoints/notifications.py:165-183 | 404 without a row, 400 if DELIVERED or SENT, else CANCELLED; a run of the check and commit steps |
| `DeliveryTasks.Platform.HandleDeliveryReceipt` | app/services/delivery_tracking_service.py:27-88 | Takes effect iff exactly one row holds the provider id; that row becomes DELIVERED, FAILED (failed, bounced) or stays, and gets its log line; all others stay |
| `DeliveryTasks.DeliverThenReport` | app/services/delivery_tracking_service.py:27-88 | A send delivered under an id that no other row holds, and the provider's report under that id: the report takes effect on exactly this row |
| `SerialDelivery.RoundIsRun` | app/celery/tasks.py:133-138 | A round (send task, acknowledgement, retry task or sweep) is a run of the interleaved steps |
| `SerialDelivery.RoundSpec` | app/celery/tasks.py:80-161 | A round settles the row and leaves no message, or leaves one message and a higher count; how calls, log and waiting time move |
| `SerialDelivery.EveryDeliverySettles` | app/celery/tasks.py:80-161 | From count 0 with one message, for any limit m and any outcomes: at most max(1, m) provider calls, then DELIVERED or DEAD with no message left |
| `SerialDelivery.CalmDeliveryIsLogged` | app/celery/tasks.py:72-117 | If nothing raises, the log numbers the calls 1..k without gaps, all but the last failed, and DEAD means exactly max(1, m) failures |
| `SerialDelivery.WaitsNeverDecrease` | app/core/constants.py:182 | Whatever the provider answers or raises, the waits never decrease and lie between the second and the last entry of the schedule |
| `SerialDelivery.TotalWait` | app/core/constants.py:182 | When all calls fail and m >= 5 the waits total 12000 + 7200 * (m - 5) seconds |
| `EventService.NotificationEventHandler.GetByIdempotencyKey` | app/repositories/notification_repository.py:19-23 | Found iff some stored row has the key |
| `EventService.NotificationEventHandler.BuildRow` | app/services/notification_factory.py:82-160 | The row of one channel: the checks in their order, the reason of a skip, no row without a template |
| `EventService.NotificationEventHandler.BuildNotifications` | app/services/notification_factory.py:59-80 | One row per channel in order; a duplicate key raises and undoes the build |
| `EventService.NotificationEventHandler.CheckQuietHours` | app/services/compliance_service.py:22-47 | A critical event, or a user without quiet hours, is neither quiet nor raises; otherwise an unknown zone raises, and a known one is quiet iff the local hour lies from start to end, across midnight if start is later |
| `EventService.NotificationEventHandler.CheckRegistry` | app/services/notification_dispatcher.py:69-72 | Only SMS and WhatsApp of a user with a phone are checked; the answer and the cache afterwards |
| `EventService.NotificationEventHandler.AdmitRow` | app/services/notification_dispatcher.py:74-106 | The caps decide; an admitted row is counted, queued and gets one message, and a breakdown in between leaves only the count |
| `EventService.NotificationEventHandler.DispatchRow` | app/services/notification_dispatcher.py:36-106 | One row through the gate: rows, messages, counters and cached answers afterwards |
| `EventService.NotificationEventHandler.DispatchAll` | app/kafka/handlers.py:53-55 | Rows are gated in order until one raises |
| `EventService.NotificationEventHandler.Handle` | app/kafka/handlers.py:25-61 | One event: duplicate check, build all, gate all, commit or roll back; stored rows stay as a prefix, messages and admits only grow, a failed commit stores nothing, and without a breakdown each new row is QUEUED or SKIPPED as the state before decides |
| `EventReplay.ConflictStays` | app/models/notification.py:84 | An event that violated the unique column once does so again for as long as no key is removed |
| `EventReplay.StoredRowBlocks` | app/services/notification_factory.py:67-80 | Once the key of an event's first row is stored, building the event again fails at that row |
| `EventReplay.BadZoneRaisesFirst` | app/services/notification_dispatcher.py:58-67 | With an unknown time zone the first row that is not skipped raises, before anything is counted or sent |
| `EventReplay.GateDecides` | app/services/notification_dispatcher.py:36-106 | Otherwise, and without a breakdown, every row gets a verdict |
| `EventReplay.ReplayChangesNothing` | app/kafka/handlers.py:35-61 | After one handling without breakdown, any later handling of the same keyed payload changes nothing at all: rows, messages, counters, cached answers, whatever happened in between and even if it breaks down |
| `EventReplay.ReplaysCanBeStruck` | app/kafka/handlers.py:35-61 | In any stream of events such a replay can be struck out without changing the end state |
| `EventReplay.StoredKeyIsInjective` | app/services/notification_factory.py:75 | `key:channel` determines key and channel, whatever the keys contain |
| `EventReplay.OthersBlockIffBareKeyStored` | app/kafka/handlers.py:36-40 | With distinct channels, rows of other events keep an event from being built iff its bare key is one of their stored keys, which takes a colon in it |
| `EventRules.StoredRowIsForTarget` | app/services/notification_factory.py:59-80 | A stored row is for a known active user and one of the requested channels, or else of the priority's own |
| `EventRules.EveryTargetHasItsRow` | app/services/notification_factory.py:67-80 | Every channel asked for has its row, but for those the user wants whose template does not render |
| `EventRules.StoredRowIsAddressed` | app/services/notification_factory.py:125-183 | The recipient of each channel, with the e-mail address in place of a missing one, the key with the channel's name, and the retries of the channel |
| `EventRules.WishRule` | app/services/notification_factory.py:92-118 | CHANNEL_DISABLED iff the preferences leave the channel out, USER_OPT_OUT iff not that and the event is on the list, INVALID_CONTACT iff neither and the address is missing; QUEUED iff no reason |
| `EventRules.QuietRule` | app/services/compliance_service.py:30-47 | Of the other rows, one of the five critical events is never skipped for quiet hours; another is iff they are on and the local hour lies in them |
| `EventRules.QuietRuleOnTheClock` | app/services/compliance_service.py:33-41 | Such a row is skipped iff `(hour - start) % 24 < (end - start) % 24` |
| `EventRules.CriticalEventIgnoresTheClock` | app/services/compliance_service.py:30-31 | Nothing about the handling of a critical event depends on the local hour or on the time zone, whatever breaks down |
| `EventRules.RegistryRule` | app/services/compliance_service.py:49-74 | Of the rows left, one is skipped as registered iff it is a text message to a phone, of none of the three exempt events, with checking on, and the cached answer or else the reply is `true` |
| `EventRules.CapRule` | app/services/notification_dispatcher.py:74-88 | Of the rows left, one is skipped as capped iff in some window the counter and the event's rows queued before on the channel reach the user's cap, or the default where that is 0 or there are no preferences |
| `EventRules.NothingComesOfIt` | app/kafka/handlers.py:25-51 | Without a known active user, with a value that does not parse, or with a key that is stored already, nothing changes at all |
| `EventVerdict.EveryRowGetsItsVerdict` | app/services/notification_dispatcher.py:57-106 | The checks of a batch do not disturb each other: each row's verdict follows from the state before the batch, the caps charged with the rows queued earlier on its channel |
| `EventVerdict.EveryStoredRowIsDecided` | app/services/notification_factory.py:92-140 | A stored row is QUEUED iff its user is active and wants the channel and the event, has an address, is outside quiet hours, is not registered and has room under every cap; otherwise its reason is the first of these that failed |
| `EventVerdict.StoredRowsEnterDelivery` | app/kafka/handlers.py:43-57 | Each stored row, with the messages the event sent for it, is the result of a run of the delivery system's own steps |
| `EventBudget.GateConservesBudget` | app/services/notification_dispatcher.py:57-106 | A batch for an existing user leaves each row QUEUED or SKIPPED; the queued rows are exactly the new admits and messages, and each counter moves by the rows queued on its channel, so refused rows cost nothing |
| `EventBudget.OneMessagePerQueuedRow` | app/services/notification_dispatcher.py:97-106 | With distinct ids, a queued row has exactly one message of the batch and a skipped one none |
| `EventBreakdown.AdmitsIffWouldAdmit` | app/services/notification_dispatcher.py:57-106 | Whatever breaks down where, the gate counts some row iff it reaches a row that passes every check in the state it started from |
| `EventBreakdown.BreakdownIsUndoneIffNothingAdmissible` | app/kafka/handlers.py:59-61 | A handling that breaks down stores no row, and its messages and counters are as before iff in the state before the call no row it reaches would pass every check |
| `EventBreakdown.FailedCommitLeavesItsMessages` | app/kafka/handlers.py:53-61 | A commit that fails leaves all messages, counters and cached answers of the handling without its rows |
| `EventBreakdown.RedeliveryIsCleanIffNothingAdmissible` | app/kafka/handlers.py:53-61 | A redelivery after a breakdown leaves the messages and counters of a single handling iff in the state before the first call no row reached would pass every check, and then also the same rows |
| `EventBreakdown.HandleKeepsNatural` | app/redis/frequency_cap.py:58-65 | No handling makes a counter negative, as the redelivery result assumes |
| `EventRace.NextIsExclusive` | app/models/notification.py:84 | Each step of each of any number of interleaved handlers keeps stored keys distinct, and what one open handler has inserted apart from what is stored and from what others own |
| `EventRace.OneHandlingStores` | app/kafka/handlers.py:35-57 | However handlers interleave, of several handlings of one keyed payload at most one stores rows |
| `EventRace.StoredQueuedIffSent` | app/services/notification_dispatcher.py:97-106 | However handlers interleave, a row that a handling has stored is QUEUED iff its message was sent |
| `EventRace.SecondMessageTakesBreakdown` | app/kafka/handlers.py:53-61 | Two messages for rows with one key come from two handlings, one of which broke down after it had sent |
| `EventRace.RefusedHasSentNothing` | app/kafka/handlers.py:43-55 | A handling that is refused, at its check or at an insert, has sent nothing |
| `EventRace.WaiterFollows` | app/models/notification.py:84 | A handler whose next key another one holds can do nothing, is refused once that one has committed, and goes on once that one has broken down |
| `EventRace.CommitIsSerial` | app/services/notification_factory.py:67-80 | The rows a handling has inserted amid others are those the factory builds from what is stored at the commit, so commits can be taken one handling at a time |
| `EventRace.RefusalIsSerial` | app/services/notification_factory.py:67-80 | A handling refused at an insert would be refused alone on what is then stored |
| `EventRace.BuildIffFresh` | app/services/notification_factory.py:67-80 | The build goes through iff the key of each row it makes is free, and then gives all of them |
| `EventRace.AloneIsHandle` | app/kafka/handlers.py:25-61 | With nobody in between, the steps store what the handler stores |
| `EventExamples.FailedCommitThenReplaySendsTwice` | app/kafka/handlers.py:53-61 | An event whose commit fails and is redelivered: one row stored, two messages sent |
| `EventExamples.ColonKeyIsDropped` | app/kafka/handlers.py:36-40 | An event keyed "k" and one keyed "k:email": the second is dropped, though alone it would be stored |
| `Analytics.AnalyticsService.Aggregate` | app/services/analytics_service.py:105-151 | The loop computes the fold, with the keys in the order first seen |
| `Analytics.AnalyticsService.UpsertDailyAggregates` | app/services/analytics_service.py:86-174 | The stored records after the day's upsert |
| `Analytics.FoldIsOneByOneCount` | app/services/analytics_service.py:105-148 | For any order of the grouped rows, each counter is the number of that day's notifications counted one by one, and a key has counters iff it has notifications |
| `Analytics.FoldAddsUp` | app/services/analytics_service.py:126-155 | Sent + failed + skipped + retried + dead is the group less its rows in other statuses; delivered within sent; the four skip reasons within skips; the rate is within 0..100 and missing iff nothing was sent, failed or skipped |
| `Analytics.CountersAreCounts` | app/services/analytics_service.py:126-148 | Sent counts the notifications that are SENT or DELIVERED, and delivered, failed, skipped, retried and dead those in that status |
| `Analytics.SkipsAreCounts` | app/services/analytics_service.py:134-144 | The four skip counters count the SKIPPED notifications of their reason |
| `Analytics.RateIsShareDelivered` | app/services/analytics_service.py:153-155 | The rate times sent, failed and skipped is 100 times delivered |
| `Analytics.UpsertIsIdempotent` | app/services/analytics_service.py:153-172 | The upsert keeps (date, event, channel) unique, leaves other days, keys and columns alone, stores the fold under every key, and changes nothing the second time |

## Left out

- FrequencyCap: the week bucket rests on an arrow format token, so buckets of all three windows are a parameter; it is required only that they are contiguous and no longer than the key's time-to-live.
- FrequencyCap.EveryCrowdReachesIffAttainable: which caps are not reached where buckets do not nest depends on how they overlap. A given crowd of more than one caller can also reach caps beyond the condition, by overshooting the shorter windows.
- FrequencyRolling.RollingWindowAdmits: counts a run without resets; a reset gives the cap again.
- SpecFrequencyCap: one clock reading per call or pipeline; the key builders each take their own.
- SpecFrequencyCap.SpecFrequencyCapService.ResetUserCaps: the glob pattern is taken as "all keys of the user"; user ids that contain glob characters or colons are not modelled.
- Redis keys are structured values, so two different keys never share a string.
- Delivery: rows of different notifications are independent machines; that a receipt's provider id names one row is a parameter of its step, decided by the lookup in `DeliveryTasks`.
- Delivery: of the database's row locks only the long one is modelled, which a worker holds from its PROCESSING update through the provider call; the short ones inside a request or a task are not, and runs that ignore all locks are allowed in the safety results.
- Delivery: each row has its own event transaction in the step system; that rows of one event commit together is modelled in `EventHandler`.
- Delivery: the Kafka retry topic (app/kafka/handlers.py:72-107) has no publisher and the dead-letter endpoints act on entries that nothing writes; both are outside the step system.
- DeliveryTasks.Platform.CleanupOldNotifications: the 90-day cutoff is a parameter that names the expired rows.
- EventBreakdown.RedeliveryIsCleanIffNothingAdmissible: compares with one handling at the redelivery's time that finds the registry answers the breakdown cached; row ids are fresh and distinct, as UUIDs are.
- EventReplay.ReplayChangesNothing: users, preferences, event types and templates are the same at both handlings, and rows with the event's keys have not been cleaned up in between.
- EventRace: the bare-key check is made once and not repeated at the commit, as in the code; that it sees rows of other events is part of `EventReplay` alone. Handlers that wait for each other in a circle stop until the database breaks one of them off, which is the breakdown step.
- EventHandler, EventService: one event is handled at a time; `EventRace` interleaves handlers with the gate's decisions left open.
- EventHandler: subjects, bodies, locales, the 255-character limit of the key column and publishing to the dead-letter topic are not modelled; whether a template renders is a parameter.
- Compliance: a registry answer is true, false or null; other JSON values are not modelled. A check is one step.
- Time zones and date formatting: the local hour, and whether a zone name is known, are parameters.
- CircuitBreaker: the registry of breakers per provider and the status report are plain look-ups.
- Analytics: rounding of the rate to two digits, the dashboard queries, and the average latency (which depends on the row order) are not part of the results.
- The RabbitMQ path sends fresh ids that name no stored row; the event taxonomy is static data; page arithmetic, read marks, rendering, authentication and metrics do not bear on whether, how often or how many times a notification is sent.
