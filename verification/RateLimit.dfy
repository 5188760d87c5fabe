/**
 The HTTP rate limiter (app/middleware/rate_limit.py).

 Every request that reaches Redis increments a minute key and an hour key of its client address and
 refreshes both expiries, refused or not. So a counter does not count an aligned minute: it counts the
 run of requests whose gaps never let the key expire.
 */
module RateLimit {
  import Redis
  import Counting

  datatype Key = MinuteKey(ip: string) | HourKey(ip: string)

  datatype Span = Minute | Hour

  function Seconds(span: Span): int {
    match span
    case Minute => 60
    case Hour => 3600
  }

  function KeyFor(span: Span, ip: string): Key {
    match span
    case Minute => MinuteKey(ip)
    case Hour => HourKey(ip)
  }

  datatype Settings = Settings(enabled: bool, perMinute: int, perHour: int) {
    function Limit(span: Span): int {
      match span
      case Minute => perMinute
      case Hour => perHour
    }
  }

  /** redisUp == false is a request during which the pipeline raised. */
  datatype Request = Request(ip: string, path: string, at: int, redisUp: bool)

  datatype Outcome = Passed | Refused(span: Span)

  const EXEMPT_PATHS := {"/health", "/metrics", "/docs", "/openapi.json", "/redoc"}

  /** The requests the limiter counts; all others pass untouched. */
  predicate Counted(cfg: Settings, r: Request) {
    cfg.enabled && r.path !in EXEMPT_PATHS && r.redisUp
  }

  function Touch(s: Redis.Store<Key, int>, r: Request): Redis.Store<Key, int> {
    Redis.Bump(Redis.Bump(s, MinuteKey(r.ip), 60, r.at), HourKey(r.ip), 3600, r.at)
  }

  function After(cfg: Settings, s: Redis.Store<Key, int>, r: Request): Redis.Store<Key, int> {
    if Counted(cfg, r) then Touch(s, r) else s
  }

  /** The minute limit is looked at first. */
  function Verdict(cfg: Settings, s: Redis.Store<Key, int>, r: Request): Outcome {
    if !Counted(cfg, r) then Passed
    else if Redis.Count(s, MinuteKey(r.ip), r.at) + 1 > cfg.perMinute then Refused(Minute)
    else if Redis.Count(s, HourKey(r.ip), r.at) + 1 > cfg.perHour then Refused(Hour)
    else Passed
  }

  class RateLimiter {
    const redis: Redis.Server<Key>
    const settings: Settings

    constructor (redis: Redis.Server<Key>, settings: Settings)
      ensures this.redis == redis && this.settings == settings
    {
      this.redis := redis;
      this.settings := settings;
    }

    /** A failure of Redis lets the request through. */
    method Handle(r: Request) returns (outcome: Outcome)
      modifies redis
      ensures outcome == Verdict(settings, old(redis.store), r)
      ensures redis.store == After(settings, old(redis.store), r)
      ensures !settings.enabled || !r.redisUp ||
              r.path in {"/health", "/metrics", "/docs", "/openapi.json", "/redoc"} ==>
                outcome == Passed && redis.store == old(redis.store)
      ensures settings.enabled && r.redisUp &&
              r.path !in {"/health", "/metrics", "/docs", "/openapi.json", "/redoc"} ==>
                var minute := old(Redis.Count(redis.store, MinuteKey(r.ip), r.at)) + 1;
                var hour := old(Redis.Count(redis.store, HourKey(r.ip), r.at)) + 1;
                && outcome == (if minute > settings.perMinute then Refused(Minute)
                               else if hour > settings.perHour then Refused(Hour) else Passed)
                && (forall ip, t :: Redis.Count(redis.store, MinuteKey(ip), t) ==
                      if ip != r.ip then old(Redis.Count(redis.store, MinuteKey(ip), t))
                      else if t < r.at + 60 then minute else 0)
                && (forall ip, t :: Redis.Count(redis.store, HourKey(ip), t) ==
                      if ip != r.ip then old(Redis.Count(redis.store, HourKey(ip), t))
                      else if t < r.at + 3600 then hour else 0)
    {
      forall ip: string, t: int
        ensures Redis.Count(Touch(redis.store, r), MinuteKey(ip), t) ==
                if ip != r.ip then Redis.Count(redis.store, MinuteKey(ip), t)
                else if t < r.at + 60 then Redis.Count(redis.store, MinuteKey(ip), r.at) + 1 else 0
        ensures Redis.Count(Touch(redis.store, r), HourKey(ip), t) ==
                if ip != r.ip then Redis.Count(redis.store, HourKey(ip), t)
                else if t < r.at + 3600 then Redis.Count(redis.store, HourKey(ip), r.at) + 1 else 0
      {
        TouchCounts(redis.store, r, ip, Minute, t);
        TouchCounts(redis.store, r, ip, Hour, t);
      }
      if !settings.enabled {
        return Passed;
      }
      if r.path in EXEMPT_PATHS {
        return Passed;
      }
      if r.redisUp {
        var minuteCount := redis.IncrKey(MinuteKey(r.ip), r.at);
        redis.ExpireKey(MinuteKey(r.ip), 60, r.at);
        var hourCount := redis.IncrKey(HourKey(r.ip), r.at);
        redis.ExpireKey(HourKey(r.ip), 3600, r.at);
        Redis.BumpCounts(old(redis.store), MinuteKey(r.ip), 60, r.at, HourKey(r.ip), r.at);
        if minuteCount > settings.perMinute {
          return Refused(Minute);
        }
        if hourCount > settings.perHour {
          return Refused(Hour);
        }
      }
      return Passed;
    }
  }

  // ---------------------------------------------------------------------------------------------
  // Runs
  // ---------------------------------------------------------------------------------------------

  predicate Ordered(rs: seq<Request>) {
    forall i, j :: 0 <= i <= j < |rs| ==> rs[i].at <= rs[j].at
  }

  /** The key space after the first n requests of a run that starts on an empty one. */
  function StoreAfter(cfg: Settings, rs: seq<Request>, n: nat): Redis.Store<Key, int>
    requires n <= |rs|
  {
    if n == 0 then map[] else After(cfg, StoreAfter(cfg, rs, n - 1), rs[n - 1])
  }

  /** The answer to request i. */
  function Answer(cfg: Settings, rs: seq<Request>, i: nat): Outcome
    requires i < |rs|
  {
    Verdict(cfg, StoreAfter(cfg, rs, i), rs[i])
  }

  /** When the limiter counted a request of this address, among the first n, oldest first. */
  function Times(cfg: Settings, rs: seq<Request>, n: nat, ip: string): seq<int>
    requires n <= |rs|
  {
    if n == 0 then []
    else
      var r, earlier := rs[n - 1], Times(cfg, rs, n - 1, ip);
      if Counted(cfg, r) && r.ip == ip then earlier + [r.at] else earlier
  }

  /** The length of the last run of times whose consecutive gaps are all shorter than the span. */
  function Streak(ts: seq<int>, span: int): nat {
    if ts == [] then 0
    else if |ts| == 1 || ts[|ts| - 1] - ts[|ts| - 2] >= span then 1
    else Streak(ts[..|ts| - 1], span) + 1
  }

  /** The streak that a request arriving at `now` would extend. */
  function OpenStreak(ts: seq<int>, span: int, now: int): nat {
    if ts == [] || now - ts[|ts| - 1] >= span then 0 else Streak(ts, span)
  }

  lemma {:induction false} TimesAreOrdered(cfg: Settings, rs: seq<Request>, n: nat, ip: string)
    requires Ordered(rs) && n <= |rs|
    ensures var ts := Times(cfg, rs, n, ip);
            && (forall i, j :: 0 <= i <= j < |ts| ==> ts[i] <= ts[j])
            && (ts != [] ==> n > 0 && ts[|ts| - 1] <= rs[n - 1].at)
  {
    if n > 0 {
      TimesAreOrdered(cfg, rs, n - 1, ip);
    }
  }

  lemma StreakSnoc(ts: seq<int>, t: int, span: int)
    ensures Streak(ts + [t], span) == OpenStreak(ts, span, t) + 1
  {
    assert (ts + [t])[..|ts|] == ts;
  }

  /** What one counted request does to a later reading of a counter. */
  lemma TouchCounts(s: Redis.Store<Key, int>, r: Request, ip: string, span: Span, t: int)
    ensures Redis.Count(Touch(s, r), KeyFor(span, ip), t) ==
            if ip != r.ip then Redis.Count(s, KeyFor(span, ip), t)
            else if t < r.at + Seconds(span) then Redis.Count(s, KeyFor(span, ip), r.at) + 1
            else 0
  {
    var k := KeyFor(span, ip);
    var s1 := Redis.Bump(s, MinuteKey(r.ip), 60, r.at);
    Redis.BumpCounts(s, MinuteKey(r.ip), 60, r.at, k, t);
    Redis.BumpCounts(s, MinuteKey(r.ip), 60, r.at, k, r.at);
    Redis.BumpCounts(s1, HourKey(r.ip), 3600, r.at, k, t);
  }

  /** Each counter is the length of the address's current streak, read at any later moment. */
  lemma {:induction false} CounterIsStreak(cfg: Settings, rs: seq<Request>, n: nat, ip: string, span: Span, now: int)
    requires Ordered(rs) && n <= |rs| && (n > 0 ==> rs[n - 1].at <= now)
    ensures Redis.Count(StoreAfter(cfg, rs, n), KeyFor(span, ip), now) ==
            OpenStreak(Times(cfg, rs, n, ip), Seconds(span), now)
  {
    if n > 0 {
      var r := rs[n - 1];
      CounterIsStreak(cfg, rs, n - 1, ip, span, now);
      CounterIsStreak(cfg, rs, n - 1, ip, span, r.at);
      if Counted(cfg, r) {
        TouchCounts(StoreAfter(cfg, rs, n - 1), r, ip, span, now);
        StreakSnoc(Times(cfg, rs, n - 1, ip), r.at, Seconds(span));
      }
    }
  }

  /** The streak that counted request i completes, itself included. */
  function StreakAt(cfg: Settings, rs: seq<Request>, i: nat, span: Span): nat
    requires i < |rs|
  {
    Streak(Times(cfg, rs, i + 1, rs[i].ip), Seconds(span))
  }

  lemma CounterAtRequest(cfg: Settings, rs: seq<Request>, i: nat, span: Span)
    requires Ordered(rs) && i < |rs| && Counted(cfg, rs[i])
    ensures Redis.Count(StoreAfter(cfg, rs, i), KeyFor(span, rs[i].ip), rs[i].at) + 1 == StreakAt(cfg, rs, i, span)
  {
    CounterIsStreak(cfg, rs, i, rs[i].ip, span, rs[i].at);
    StreakSnoc(Times(cfg, rs, i, rs[i].ip), rs[i].at, Seconds(span));
  }

  /**
   A counted request passes iff, itself included, its minute streak and its hour streak are both within their limits.
   */
  lemma PassesIffStreaksShort(cfg: Settings, rs: seq<Request>, i: nat)
    requires Ordered(rs) && i < |rs| && Counted(cfg, rs[i])
    ensures Answer(cfg, rs, i) ==
            if StreakAt(cfg, rs, i, Minute) > cfg.Limit(Minute) then Refused(Minute)
            else if StreakAt(cfg, rs, i, Hour) > cfg.Limit(Hour) then Refused(Hour)
            else Passed
  {
    CounterAtRequest(cfg, rs, i, Minute);
    CounterAtRequest(cfg, rs, i, Hour);
  }

  // ---------------------------------------------------------------------------------------------
  // Any window, not just aligned ones
  // ---------------------------------------------------------------------------------------------

  /** Request i is a counted request of this address, inside [from, from + span), that was let through. */
  predicate PassedWithin(cfg: Settings, rs: seq<Request>, i: nat, ip: string, from: int, span: Span)
    requires i < |rs|
  {
    && Counted(cfg, rs[i]) && rs[i].ip == ip
    && from <= rs[i].at < from + Seconds(span)
    && Answer(cfg, rs, i).Passed?
  }

  /** How many of the first n requests passed inside the window. */
  function PassCount(cfg: Settings, rs: seq<Request>, n: nat, ip: string, from: int, span: Span): nat
    requires n <= |rs|
  {
    if n == 0 then 0
    else PassCount(cfg, rs, n - 1, ip, from, span) + (if PassedWithin(cfg, rs, n - 1, ip, from, span) then 1 else 0)
  }

  /** How many of the times lie at or after `from`, for times in order. */
  function Since(ts: seq<int>, from: int): nat {
    if ts == [] || ts[|ts| - 1] < from then 0 else Since(ts[..|ts| - 1], from) + 1
  }

  lemma SinceSnoc(ts: seq<int>, t: int, from: int)
    ensures Since(ts + [t], from) == if t < from then 0 else Since(ts, from) + 1
  {
    assert (ts + [t])[..|ts|] == ts;
  }

  lemma {:induction false} StreakCoversWindow(ts: seq<int>, from: int, span: int)
    requires forall i, j :: 0 <= i <= j < |ts| ==> ts[i] <= ts[j]
    requires ts != [] ==> ts[|ts| - 1] < from + span
    ensures Since(ts, from) <= Streak(ts, span)
  {
    if ts != [] {
      StreakCoversWindow(ts[..|ts| - 1], from, span);
    }
  }

  /**
   A request that passes inside the window completes a streak that covers every counted request of the window so far.
   */
  lemma PassedSinceIsLimited(cfg: Settings, rs: seq<Request>, i: nat, from: int, span: Span)
    requires Ordered(rs) && i < |rs| && PassedWithin(cfg, rs, i, rs[i].ip, from, span)
    ensures Since(Times(cfg, rs, i + 1, rs[i].ip), from) <= cfg.Limit(span)
  {
    PassesIffStreaksShort(cfg, rs, i);
    TimesAreOrdered(cfg, rs, i + 1, rs[i].ip);
    StreakCoversWindow(Times(cfg, rs, i + 1, rs[i].ip), from, Seconds(span));
  }

  /** Inside the window, the requests that passed are among those counted. */
  lemma {:induction false} PassesAreCounted(cfg: Settings, rs: seq<Request>, n: nat, ip: string, from: int, span: Span)
    requires Ordered(rs) && n <= |rs|
    ensures n > 0 && rs[n - 1].at < from + Seconds(span) ==>
            PassCount(cfg, rs, n, ip, from, span) <= Since(Times(cfg, rs, n, ip), from)
  {
    if n > 0 && rs[n - 1].at < from + Seconds(span) {
      PassesAreCounted(cfg, rs, n - 1, ip, from, span);
      assert n > 1 ==> rs[n - 2].at <= rs[n - 1].at;
      TimesAreOrdered(cfg, rs, n - 1, ip);
      SinceSnoc(Times(cfg, rs, n - 1, ip), rs[n - 1].at, from);
    }
  }

  lemma {:induction false} PassesStayBelowLimit(cfg: Settings, rs: seq<Request>, n: nat, ip: string, from: int,
                                                span: Span)
    requires Ordered(rs) && n <= |rs|
    ensures PassCount(cfg, rs, n, ip, from, span) <= (if cfg.Limit(span) < 0 then 0 else cfg.Limit(span))
  {
    if n > 0 {
      PassesStayBelowLimit(cfg, rs, n - 1, ip, from, span);
      if PassedWithin(cfg, rs, n - 1, ip, from, span) {
        PassedSinceIsLimited(cfg, rs, n - 1, from, span);
        PassesAreCounted(cfg, rs, n, ip, from, span);
      }
    }
  }

  /**
   In every window of 60 s, aligned or not, at most the per-minute limit of one address's counted requests pass;
   likewise 3600 s.
   */
  lemma EveryWindowIsLimited(cfg: Settings, rs: seq<Request>, ip: string, from: int, span: Span)
    requires Ordered(rs) && cfg.Limit(span) >= 0
    ensures PassCount(cfg, rs, |rs|, ip, from, span) <= cfg.Limit(span)
  {
    PassesStayBelowLimit(cfg, rs, |rs|, ip, from, span);
  }

  /** Picking out requests of the window that passed, in their order, gives no more than there are. */
  lemma {:induction false} PickedArePassed(cfg: Settings, rs: seq<Request>, n: nat, picked: seq<nat>, ip: string,
                                           from: int, span: Span)
    requires n <= |rs| && forall a, b :: 0 <= a < b < |picked| ==> picked[a] < picked[b]
    requires forall a :: 0 <= a < |picked| ==> picked[a] < n && PassedWithin(cfg, rs, picked[a], ip, from, span)
    ensures |picked| <= PassCount(cfg, rs, n, ip, from, span)
  {
    if picked != [] {
      var m := |picked| - 1;
      assert picked[m] < n;
      PickedArePassed(cfg, rs, n - 1, if picked[m] == n - 1 then picked[..m] else picked, ip, from, span);
    }
  }

  /**
   The minute limit in terms of the requests alone: of one address's requests that arrive within 60 s, reach Redis
   and ask for none of the exempt paths, no more than the limit pass.
   */
  lemma MinuteLimitHolds(cfg: Settings, rs: seq<Request>, passed: seq<nat>, ip: string, from: int)
    requires Ordered(rs) && cfg.enabled && forall a, b :: 0 <= a < b < |passed| ==> passed[a] < passed[b]
    requires forall a :: 0 <= a < |passed| ==> passed[a] < |rs|
    requires forall a :: 0 <= a < |passed| ==>
               var r := rs[passed[a]];
               && r.ip == ip && from <= r.at < from + 60 && r.redisUp
               && r.path !in {"/health", "/metrics", "/docs", "/openapi.json", "/redoc"}
               && Answer(cfg, rs, passed[a]) == Passed
    ensures |passed| <= if cfg.perMinute < 0 then 0 else cfg.perMinute
  {
    forall a | 0 <= a < |passed| ensures PassedWithin(cfg, rs, passed[a], ip, from, Minute) {
      assert Counted(cfg, rs[passed[a]]);
    }
    PickedArePassed(cfg, rs, |rs|, passed, ip, from, Minute);
    PassesStayBelowLimit(cfg, rs, |rs|, ip, from, Minute);
  }

  /** And the hour limit, within 3600 s. */
  lemma HourLimitHolds(cfg: Settings, rs: seq<Request>, passed: seq<nat>, ip: string, from: int)
    requires Ordered(rs) && cfg.enabled && forall a, b :: 0 <= a < b < |passed| ==> passed[a] < passed[b]
    requires forall a :: 0 <= a < |passed| ==> passed[a] < |rs|
    requires forall a :: 0 <= a < |passed| ==>
               var r := rs[passed[a]];
               && r.ip == ip && from <= r.at < from + 3600 && r.redisUp
               && r.path !in {"/health", "/metrics", "/docs", "/openapi.json", "/redoc"}
               && Answer(cfg, rs, passed[a]) == Passed
    ensures |passed| <= if cfg.perHour < 0 then 0 else cfg.perHour
  {
    forall a | 0 <= a < |passed| ensures PassedWithin(cfg, rs, passed[a], ip, from, Hour) {
      assert Counted(cfg, rs[passed[a]]);
    }
    PickedArePassed(cfg, rs, |rs|, passed, ip, from, Hour);
    PassesStayBelowLimit(cfg, rs, |rs|, ip, from, Hour);
  }

  lemma {:induction false} StrikeOne(cfg: Settings, rs: seq<Request>, i: nat, n: nat)
    requires i < n <= |rs| && After(cfg, StoreAfter(cfg, rs, i), rs[i]) == StoreAfter(cfg, rs, i)
    ensures StoreAfter(cfg, Counting.Without(rs, i), n - 1) == StoreAfter(cfg, rs, n)
    decreases n
  {
    if n == i + 1 {
      SamePrefix(cfg, rs, Counting.Without(rs, i), i);
    } else {
      StrikeOne(cfg, rs, i, n - 1);
      assert Counting.Without(rs, i)[n - 2] == rs[n - 1];
    }
  }

  lemma {:induction false} SamePrefix(cfg: Settings, rs: seq<Request>, qs: seq<Request>, n: nat)
    requires n <= |rs| && n <= |qs| && rs[..n] == qs[..n]
    ensures StoreAfter(cfg, rs, n) == StoreAfter(cfg, qs, n)
  {
    if n > 0 {
      assert rs[..n - 1] == rs[..n][..n - 1] && qs[..n - 1] == qs[..n][..n - 1];
      assert rs[n - 1] == rs[..n][n - 1] && qs[n - 1] == qs[..n][n - 1];
      SamePrefix(cfg, rs, qs, n - 1);
    }
  }

  /**
   A request that is exempt, or made with the limiter off or Redis down, passes; and without it every later request
   gets the same answer.
   */
  lemma ExemptLeavesNoTrace(cfg: Settings, rs: seq<Request>, i: nat, j: nat)
    requires i < |rs|
    requires !cfg.enabled || !rs[i].redisUp || rs[i].path in {"/health", "/metrics", "/docs", "/openapi.json", "/redoc"}
    ensures Answer(cfg, rs, i) == Passed
    ensures i < j < |rs| ==> Answer(cfg, Counting.Without(rs, i), j - 1) == Answer(cfg, rs, j)
  {
    if i < j < |rs| {
      StrikeOne(cfg, rs, i, j);
    }
  }

  /** Requests i and j are counted requests of one address with no counted request of it in between. */
  predicate Consecutive(cfg: Settings, rs: seq<Request>, i: nat, j: nat) {
    && i < j < |rs| && rs[i].ip == rs[j].ip && Counted(cfg, rs[i]) && Counted(cfg, rs[j])
    && (forall k :: i < k < j ==> !(Counted(cfg, rs[k]) && rs[k].ip == rs[i].ip))
  }

  lemma {:induction false} TimesUnchanged(cfg: Settings, rs: seq<Request>, i: nat, j: nat, ip: string)
    requires i <= j <= |rs| && forall k :: i <= k < j ==> !(Counted(cfg, rs[k]) && rs[k].ip == ip)
    ensures Times(cfg, rs, j, ip) == Times(cfg, rs, i, ip)
    decreases j
  {
    if i < j {
      TimesUnchanged(cfg, rs, i, j - 1, ip);
    }
  }

  /** The next request extends the streak unless the gap is as long as the span. */
  lemma NextStreak(cfg: Settings, rs: seq<Request>, i: nat, j: nat, span: Span)
    requires Ordered(rs) && Consecutive(cfg, rs, i, j)
    ensures StreakAt(cfg, rs, j, span) == if rs[j].at - rs[i].at >= Seconds(span) then 1
            else StreakAt(cfg, rs, i, span) + 1
  {
    var ip := rs[i].ip;
    TimesUnchanged(cfg, rs, i + 1, j, ip);
    StreakSnoc(Times(cfg, rs, j, ip), rs[j].at, Seconds(span));
  }

  /** The answer to the next counted request, whatever the gap before it. */
  lemma AnswerAfterGap(cfg: Settings, rs: seq<Request>, i: nat, j: nat)
    requires Ordered(rs) && Consecutive(cfg, rs, i, j)
    ensures var gap := rs[j].at - rs[i].at;
            var minute := if gap >= 60 then 1 else StreakAt(cfg, rs, i, Minute) + 1;
            var hour := if gap >= 3600 then 1 else StreakAt(cfg, rs, i, Hour) + 1;
            Answer(cfg, rs, j) ==
            if minute > cfg.perMinute then Refused(Minute) else if hour > cfg.perHour then Refused(Hour) else Passed
  {
    PassesIffStreaksShort(cfg, rs, j);
    NextStreak(cfg, rs, i, j, Minute);
    NextStreak(cfg, rs, i, j, Hour);
  }

  /** From request i to request j the address never pauses for as long as the span. */
  ghost predicate NeverPauses(cfg: Settings, rs: seq<Request>, i: nat, j: nat, span: Span)
    requires j < |rs|
  {
    forall a: nat, b: nat :: i <= a && b <= j && Consecutive(cfg, rs, a, b) && rs[a].ip == rs[j].ip ==>
      rs[b].at - rs[a].at < Seconds(span)
  }

  lemma {:induction false} PreviousCounted(cfg: Settings, rs: seq<Request>, i: nat, k: nat, j: nat) returns (p: nat)
    requires i < k <= j < |rs| && Counted(cfg, rs[i]) && Counted(cfg, rs[j]) && rs[i].ip == rs[j].ip
    requires forall m :: k <= m < j ==> !(Counted(cfg, rs[m]) && rs[m].ip == rs[j].ip)
    ensures i <= p && Consecutive(cfg, rs, p, j)
    decreases k
  {
    p := k - 1;
    if !(Counted(cfg, rs[p]) && rs[p].ip == rs[j].ip) {
      p := PreviousCounted(cfg, rs, i, p, j);
    }
  }

  /** A client over a limit stays over it, and is refused, for as long as it leaves no gap of that limit's span. */
  lemma {:induction false} RefusedUntilGap(cfg: Settings, rs: seq<Request>, i: nat, j: nat, span: Span)
    requires Ordered(rs) && i <= j < |rs| && Counted(cfg, rs[i]) && Counted(cfg, rs[j]) && rs[i].ip == rs[j].ip
    requires StreakAt(cfg, rs, i, span) > cfg.Limit(span) && NeverPauses(cfg, rs, i, j, span)
    ensures StreakAt(cfg, rs, j, span) > cfg.Limit(span) && Answer(cfg, rs, j).Refused?
    decreases j
  {
    if i < j {
      var p := PreviousCounted(cfg, rs, i, j, j);
      RefusedUntilGap(cfg, rs, i, p, span);
      NextStreak(cfg, rs, p, j, span);
    }
    PassesIffStreaksShort(cfg, rs, j);
  }
}
