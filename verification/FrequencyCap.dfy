/**
 The three-window frequency cap (app/redis/frequency_cap.py).

 A call reads the hour, day and week counters of one user and channel in one pipeline and increments
 them in a second one. Other callers run between the two, so the caps are modelled as a step system
 over the shared key space, next to the log of everything that was ever admitted.
 */
module FrequencyCap {
  import opened Wrappers
  import opened Counting
  import Redis

  datatype Window = Hour | Day | Week

  datatype Key = Key(user: string, channel: string, window: Window, bucket: int)

  function Ttl(w: Window): int {
    match w
    case Hour => 3600
    case Day => 86400
    case Week => 604800
  }

  /** Which bucket of each window a clock reading falls in; the date formatting behind it is not modelled. */
  datatype Calendar = Calendar(index: (Window, int) -> int) {
    function Bucket(w: Window, t: int): int {
      index(w, t)
    }

    /** Buckets are contiguous, and no longer than the time-to-live of the keys named after them. */
    ghost predicate Valid() {
      forall w: Window, t: int, u: int :: t <= u ==>
        Bucket(w, t) <= Bucket(w, u) && (Bucket(w, t) == Bucket(w, u) ==> u - t < Ttl(w))
    }
  }

  datatype Limits = Limits(hour: int, day: int, week: int) {
    function Of(w: Window): int {
      match w
      case Hour => hour
      case Day => day
      case Week => week
    }
  }

  /** The caller's own caps. A missing cap and a cap of 0 both fall back to the configured default. */
  datatype Caps = Caps(hour: Option<int>, day: Option<int>, week: Option<int>)

  function OrDefault(cap: Option<int>, default: int): int {
    if cap == None || cap.value == 0 then default else cap.value
  }

  function Effective(caps: Caps, defaults: Limits): Limits {
    Limits(OrDefault(caps.hour, defaults.hour), OrDefault(caps.day, defaults.day), OrDefault(caps.week, defaults.week))
  }

  /** A caller that holds its three keys, named after the clock reading of its first pipeline. */
  datatype Ticket = Ticket(user: string, channel: string, at: int)

  function KeyOf(cal: Calendar, tk: Ticket, w: Window): Key {
    Key(tk.user, tk.channel, w, cal.Bucket(w, tk.at))
  }

  /** A limit that is not positive caps nothing. */
  predicate Full(limit: int, count: int) {
    limit > 0 && count >= limit
  }

  predicate Admits(cal: Calendar, s: Redis.Store<Key, int>, limits: Limits, tk: Ticket, now: int) {
    forall w: Window :: !Full(limits.Of(w), Redis.Count(s, KeyOf(cal, tk, w), now))
  }

  function IncrementAll(cal: Calendar, s: Redis.Store<Key, int>, tk: Ticket, now: int): Redis.Store<Key, int> {
    Redis.Bump(
      Redis.Bump(Redis.Bump(s, KeyOf(cal, tk, Hour), Ttl(Hour), now), KeyOf(cal, tk, Day), Ttl(Day), now),
      KeyOf(cal, tk, Week), Ttl(Week), now)
  }

  function DeleteAll(cal: Calendar, s: Redis.Store<Key, int>, tk: Ticket): Redis.Store<Key, int> {
    s - {KeyOf(cal, tk, Hour)} - {KeyOf(cal, tk, Day)} - {KeyOf(cal, tk, Week)}
  }

  /** Which caps refuse, from the caller's own caps and the defaults: a negative cap is none. */
  lemma CapsInForce(cal: Calendar, s: Redis.Store<Key, int>, caps: Caps, defaults: Limits, user: string,
                    channel: string, now: int)
    ensures Admits(cal, s, Effective(caps, defaults), Ticket(user, channel, now), now) <==> forall w: Window ::
              var own := match w case Hour => caps.hour case Day => caps.day case Week => caps.week;
              var default := match w case Hour => defaults.hour case Day => defaults.day case Week => defaults.week;
              var count := Redis.Count(s, Key(user, channel, w, cal.Bucket(w, now)), now);
              if own == None || own == Some(0) then default <= 0 || count < default
              else own.value < 0 || count < own.value
  {
    hide Redis.Count;
    var tk, limits := Ticket(user, channel, now), Effective(caps, defaults);
    forall w: Window
      ensures KeyOf(cal, tk, w) == Key(user, channel, w, cal.Bucket(w, now))
      ensures limits.Of(w) == match w
                case Hour => OrDefault(caps.hour, defaults.hour)
                case Day => OrDefault(caps.day, defaults.day)
                case Week => OrDefault(caps.week, defaults.week)
    {
    }
  }

  lemma DeleteAllCounts(cal: Calendar, s: Redis.Store<Key, int>, tk: Ticket, j: Key, t: int)
    ensures Redis.Count(DeleteAll(cal, s, tk), j, t) ==
            if j == Key(tk.user, tk.channel, j.window, cal.Bucket(j.window, tk.at)) then 0 else Redis.Count(s, j, t)
  {
    match j.window
    case Hour =>
    case Day =>
    case Week =>
  }

  lemma IncrementAllCounts(cal: Calendar, s: Redis.Store<Key, int>, tk: Ticket, now: int, j: Key, t: int)
    ensures Redis.Count(IncrementAll(cal, s, tk, now), j, t) ==
            if KeyOf(cal, tk, j.window) != j then Redis.Count(s, j, t)
            else if t < now + Ttl(j.window) then Redis.Count(s, j, now) + 1
            else 0
  {
    var h, d, w := KeyOf(cal, tk, Hour), KeyOf(cal, tk, Day), KeyOf(cal, tk, Week);
    var s1 := Redis.Bump(s, h, Ttl(Hour), now);
    var s2 := Redis.Bump(s1, d, Ttl(Day), now);
    Redis.BumpCounts(s, h, Ttl(Hour), now, j, t);
    Redis.BumpCounts(s, h, Ttl(Hour), now, j, now);
    Redis.BumpCounts(s1, d, Ttl(Day), now, j, t);
    Redis.BumpCounts(s1, d, Ttl(Day), now, j, now);
    Redis.BumpCounts(s2, w, Ttl(Week), now, j, t);
  }

  // ---------------------------------------------------------------------------------------------
  // The service
  // ---------------------------------------------------------------------------------------------

  datatype Outcome = Admitted | Refused(window: Window, count: int, limit: int)

  class FrequencyCapService {
    const redis: Redis.Server<Key>
    const calendar: Calendar
    const defaults: Limits

    constructor (redis: Redis.Server<Key>, calendar: Calendar, defaults: Limits)
      ensures this.redis == redis && this.calendar == calendar && this.defaults == defaults
    {
      this.redis := redis;
      this.calendar := calendar;
      this.defaults := defaults;
    }

    method GetCounts(user: string, channel: string, now: int) returns (hour: int, day: int, week: int)
      ensures hour == Redis.Count(redis.store, Key(user, channel, Hour, calendar.Bucket(Hour, now)), now)
      ensures day == Redis.Count(redis.store, Key(user, channel, Day, calendar.Bucket(Day, now)), now)
      ensures week == Redis.Count(redis.store, Key(user, channel, Week, calendar.Bucket(Week, now)), now)
    {
      hour := redis.GetCount(KeyOf(calendar, Ticket(user, channel, now), Hour), now);
      day := redis.GetCount(KeyOf(calendar, Ticket(user, channel, now), Day), now);
      week := redis.GetCount(KeyOf(calendar, Ticket(user, channel, now), Week), now);
    }

    /** The first pipeline and the three checks, hour first. */
    method ReadAndCheck(user: string, channel: string, caps: Caps, now: int) returns (outcome: Outcome)
      ensures outcome.Admitted? <==> forall w: Window ::
                var own := match w case Hour => caps.hour case Day => caps.day case Week => caps.week;
                var default := match w case Hour => defaults.hour case Day => defaults.day case Week => defaults.week;
                var count := Redis.Count(redis.store, Key(user, channel, w, calendar.Bucket(w, now)), now);
                if own == None || own == Some(0) then default <= 0 || count < default
                else own.value < 0 || count < own.value
      ensures outcome.Refused? ==>
                var w := outcome.window;
                var own := match w case Hour => caps.hour case Day => caps.day case Week => caps.week;
                var default := match w case Hour => defaults.hour case Day => defaults.day case Week => defaults.week;
                && outcome.limit == (if own == None || own == Some(0) then default else own.value)
                && outcome.count == Redis.Count(redis.store, Key(user, channel, w, calendar.Bucket(w, now)), now)
                && outcome.count >= outcome.limit > 0
      ensures outcome.Admitted? <==>
              Admits(calendar, redis.store, Effective(caps, defaults), Ticket(user, channel, now), now)
      ensures outcome.Refused? ==>
                && outcome.limit == Effective(caps, defaults).Of(outcome.window)
                && outcome.count ==
                    Redis.Count(redis.store, KeyOf(calendar, Ticket(user, channel, now), outcome.window), now)
                && Full(outcome.limit, outcome.count)
                && forall w: Window :: Ttl(w) < Ttl(outcome.window) ==>
                     !Full(Effective(caps, defaults).Of(w),
                         Redis.Count(redis.store, KeyOf(calendar, Ticket(user, channel, now), w), now))
    {
      var hourlyLimit := OrDefault(caps.hour, defaults.hour);
      var dailyLimit := OrDefault(caps.day, defaults.day);
      var weeklyLimit := OrDefault(caps.week, defaults.week);
      var hour, day, week := GetCounts(user, channel, now);
      ghost var limits := Effective(caps, defaults);
      CapsInForce(calendar, redis.store, caps, defaults, user, channel, now);
      assert limits.Of(Hour) == hourlyLimit && limits.Of(Day) == dailyLimit && limits.Of(Week) == weeklyLimit;
      if hourlyLimit > 0 && hour >= hourlyLimit {
        return Refused(Hour, hour, hourlyLimit);
      }
      if dailyLimit > 0 && day >= dailyLimit {
        return Refused(Day, day, dailyLimit);
      }
      if weeklyLimit > 0 && week >= weeklyLimit {
        return Refused(Week, week, weeklyLimit);
      }
      return Admitted;
    }

    /** The second pipeline, on the keys the ticket was issued for. */
    method Increment(tk: Ticket, now: int)
      modifies redis
      ensures redis.store == IncrementAll(calendar, old(redis.store), tk, now)
      ensures forall j: Key, t: int :: Redis.Count(redis.store, j, t) ==
                var ttl := match j.window case Hour => 3600 case Day => 86400 case Week => 604800;
                if j != Key(tk.user, tk.channel, j.window, calendar.Bucket(j.window, tk.at)) then
                  old(Redis.Count(redis.store, j, t))
                else if t < now + ttl then old(Redis.Count(redis.store, j, now)) + 1
                else 0
    {
      ghost var before := redis.store;
      var _ := redis.IncrKey(KeyOf(calendar, tk, Hour), now);
      redis.ExpireKey(KeyOf(calendar, tk, Hour), Ttl(Hour), now);
      var _ := redis.IncrKey(KeyOf(calendar, tk, Day), now);
      redis.ExpireKey(KeyOf(calendar, tk, Day), Ttl(Day), now);
      var _ := redis.IncrKey(KeyOf(calendar, tk, Week), now);
      redis.ExpireKey(KeyOf(calendar, tk, Week), Ttl(Week), now);
      forall j: Key, t: int
        ensures Redis.Count(redis.store, j, t) ==
                if KeyOf(calendar, tk, j.window) != j then Redis.Count(before, j, t)
                else if t < now + Ttl(j.window) then Redis.Count(before, j, now) + 1
                else 0
      {
        IncrementAllCounts(calendar, before, tk, now, j, t);
      }
    }

    /** Both pipelines at one clock reading, with nobody in between. */
    method CheckAndIncrement(user: string, channel: string, caps: Caps, now: int) returns (outcome: Outcome)
      modifies redis
      ensures outcome.Admitted? <==> forall w: Window ::
                var own := match w case Hour => caps.hour case Day => caps.day case Week => caps.week;
                var default := match w case Hour => defaults.hour case Day => defaults.day case Week => defaults.week;
                var count := old(Redis.Count(redis.store, Key(user, channel, w, calendar.Bucket(w, now)), now));
                if own == None || own == Some(0) then default <= 0 || count < default
                else own.value < 0 || count < own.value
      ensures outcome.Admitted? <==>
              Admits(calendar, old(redis.store), Effective(caps, defaults), Ticket(user, channel, now), now)
      ensures redis.store == if outcome.Admitted? then
              IncrementAll(calendar, old(redis.store), Ticket(user, channel, now), now)
                             else old(redis.store)
    {
      outcome := ReadAndCheck(user, channel, caps, now);
      if outcome.Admitted? {
        Increment(Ticket(user, channel, now), now);
      }
    }

    method Reset(user: string, channel: string, now: int)
      modifies redis
      ensures redis.store == DeleteAll(calendar, old(redis.store), Ticket(user, channel, now))
      ensures forall j: Key, t: int :: Redis.Count(redis.store, j, t) ==
                if j == Key(user, channel, j.window, calendar.Bucket(j.window, now)) then 0
                else old(Redis.Count(redis.store, j, t))
    {
      forall j: Key, t: int
        ensures Redis.Count(DeleteAll(calendar, redis.store, Ticket(user, channel, now)), j, t) ==
                if j == Key(user, channel, j.window, calendar.Bucket(j.window, now)) then 0
                else Redis.Count(redis.store, j, t)
      {
        DeleteAllCounts(calendar, redis.store, Ticket(user, channel, now), j, t);
      }
      redis.DeleteKey(KeyOf(calendar, Ticket(user, channel, now), Hour));
      redis.DeleteKey(KeyOf(calendar, Ticket(user, channel, now), Day));
      redis.DeleteKey(KeyOf(calendar, Ticket(user, channel, now), Week));
    }
  }

  // ---------------------------------------------------------------------------------------------
  // Interleaved callers
  // ---------------------------------------------------------------------------------------------

  datatype LogEntry = Admit(ticket: Ticket) | Cleared(user: string, channel: string, at: int)

  /** waiting holds the callers between their two pipelines. */
  datatype State = State(store: Redis.Store<Key, int>, now: int, waiting: seq<Ticket>, log: seq<LogEntry>)

  datatype Config = Config(calendar: Calendar, limits: (string, string) -> Limits)

  datatype Step =
    | Read(user: string, channel: string, at: int)
    | Increment(caller: nat, at: int)
    | GiveUp(caller: nat)
    | ResetCaps(user: string, channel: string, at: int)

  /** A step that names a past clock reading or an absent caller does nothing. */
  function Next(cfg: Config, st: State, step: Step): State {
    match step
    case Read(u, c, at) =>
      if at < st.now then st
      else if Admits(cfg.calendar, st.store, cfg.limits(u, c), Ticket(u, c, at), at) then
        st.(now := at, waiting := st.waiting + [Ticket(u, c, at)])
      else st.(now := at)
    case Increment(i, at) =>
      if at < st.now || i >= |st.waiting| then st
      else State(IncrementAll(cfg.calendar, st.store, st.waiting[i], at), at,
                 Without(st.waiting, i), st.log + [Admit(st.waiting[i])])
    case GiveUp(i) =>
      if i >= |st.waiting| then st else st.(waiting := Without(st.waiting, i))
    case ResetCaps(u, c, at) =>
      if at < st.now then st
      else st.(store := DeleteAll(cfg.calendar, st.store, Ticket(u, c, at)), now := at,
          log := st.log + [Cleared(u, c, at)])
  }

  function Run(cfg: Config, st: State, steps: seq<Step>): State
    decreases |steps|
  {
    if steps == [] then st else Run(cfg, Next(cfg, st, steps[0]), steps[1..])
  }

  function Init(now: int): State {
    State(map[], now, [], [])
  }

  /** The admits the log holds for a key since the key was last reset. */
  function AdmitsLogged(cal: Calendar, log: seq<LogEntry>, k: Key): nat {
    if log == [] then 0
    else
      var rest := log[..|log| - 1];
      match log[|log| - 1]
      case Admit(tk) => AdmitsLogged(cal, rest, k) + (if KeyOf(cal, tk, k.window) == k then 1 else 0)
      case Cleared(u, c, at) => if KeyOf(cal, Ticket(u, c, at), k.window) == k then 0 else AdmitsLogged(cal, rest, k)
  }

  function ForKey(cal: Calendar, k: Key): Ticket -> bool {
    (tk: Ticket) => KeyOf(cal, tk, k.window) == k
  }

  function ForCaller(u: string, c: string): Ticket -> bool {
    (tk: Ticket) => tk.user == u && tk.channel == c
  }

  /** Every counter, at any reading inside its own bucket, is the number of admits in the log. */
  ghost predicate AgreesWithLog(cal: Calendar, st: State) {
    && (forall i :: 0 <= i < |st.waiting| ==> st.waiting[i].at <= st.now)
    && (forall k: Key, t: int :: st.now <= t && cal.Bucket(k.window, t) == k.bucket ==>
          Redis.Count(st.store, k, t) == AdmitsLogged(cal, st.log, k))
  }

  lemma IncrementAgreesWithLog(cal: Calendar, st: State, i: nat, at: int, k: Key, t: int)
    requires cal.Valid() && AgreesWithLog(cal, st) && i < |st.waiting| && st.now <= at <= t &&
             cal.Bucket(k.window, t) == k.bucket
    ensures Redis.Count(IncrementAll(cal, st.store, st.waiting[i], at), k, t) ==
            AdmitsLogged(cal, st.log + [Admit(st.waiting[i])], k)
  {
    var tk := st.waiting[i];
    assert (st.log + [Admit(tk)])[..|st.log|] == st.log;
    IncrementAllCounts(cal, st.store, tk, at, k, t);
    assert cal.Bucket(k.window, tk.at) <= cal.Bucket(k.window, at) <= cal.Bucket(k.window, t);
  }

  lemma ResetAgreesWithLog(cal: Calendar, st: State, tk: Ticket, k: Key, t: int)
    requires AgreesWithLog(cal, st) && st.now <= t && cal.Bucket(k.window, t) == k.bucket
    ensures Redis.Count(DeleteAll(cal, st.store, tk), k, t) ==
            AdmitsLogged(cal, st.log + [Cleared(tk.user, tk.channel, tk.at)], k)
  {
    assert (st.log + [Cleared(tk.user, tk.channel, tk.at)])[..|st.log|] == st.log;
    var s' := DeleteAll(cal, st.store, tk);
    if KeyOf(cal, tk, k.window) == k {
      assert k !in s' by {
        match k.window
        case Hour => assert k == KeyOf(cal, tk, Hour);
        case Day => assert k == KeyOf(cal, tk, Day);
        case Week => assert k == KeyOf(cal, tk, Week);
      }
    } else {
      assert Redis.Count(s', k, t) == Redis.Count(st.store, k, t);
    }
  }

  lemma NextAgreesWithLog(cfg: Config, st: State, step: Step)
    requires cfg.calendar.Valid() && AgreesWithLog(cfg.calendar, st)
    ensures AgreesWithLog(cfg.calendar, Next(cfg, st, step))
  {
    var cal, st' := cfg.calendar, Next(cfg, st, step);
    if st' != st {
      forall k: Key, t: int | st'.now <= t && cal.Bucket(k.window, t) == k.bucket
        ensures Redis.Count(st'.store, k, t) == AdmitsLogged(cal, st'.log, k)
      {
        match step
        case Increment(i, at) => IncrementAgreesWithLog(cal, st, i, at, k, t);
        case ResetCaps(u, c, at) => ResetAgreesWithLog(cal, st, Ticket(u, c, at), k, t);
        case _ =>
      }
    }
  }

  /** Counters and log agree after every interleaving of readers, writers, drop-outs and resets. */
  lemma {:induction false} CountersAgreeWithLog(cfg: Config, st: State, steps: seq<Step>)
    requires cfg.calendar.Valid() && AgreesWithLog(cfg.calendar, st)
    ensures AgreesWithLog(cfg.calendar, Run(cfg, st, steps))
    decreases |steps|
  {
    if steps != [] {
      NextAgreesWithLog(cfg, st, steps[0]);
      CountersAgreeWithLog(cfg, Next(cfg, st, steps[0]), steps[1..]);
    }
  }

  /** The verdict a reader gets is the verdict of the full log, whatever ran before it. */
  lemma VerdictIsLogVerdict(cfg: Config, start: int, steps: seq<Step>, u: string, c: string, at: int)
    requires cfg.calendar.Valid() && Run(cfg, Init(start), steps).now <= at
    ensures var st := Run(cfg, Init(start), steps);
            Admits(cfg.calendar, st.store, cfg.limits(u, c), Ticket(u, c, at), at) <==>
            forall w: Window :: !Full(cfg.limits(u, c).Of(w),
                AdmitsLogged(cfg.calendar, st.log, KeyOf(cfg.calendar, Ticket(u, c, at), w)))
  {
    CountersAgreeWithLog(cfg, Init(start), steps);
    var st := Run(cfg, Init(start), steps);
    var tk := Ticket(u, c, at);
    forall w: Window
      ensures Redis.Count(st.store, KeyOf(cfg.calendar, tk, w), at) ==
              AdmitsLogged(cfg.calendar, st.log, KeyOf(cfg.calendar, tk, w))
    {
    }
  }

  // ---------------------------------------------------------------------------------------------
  // The overshoot of the split read and increment
  // ---------------------------------------------------------------------------------------------

  /** At no moment of the run do more than `most` callers of this user and channel sit between their pipelines. */
  predicate AtMostWaiting(cfg: Config, st: State, steps: seq<Step>, u: string, c: string, most: nat)
    decreases |steps|
  {
    && CountIf(st.waiting, ForCaller(u, c)) <= most
    && (steps != [] ==> AtMostWaiting(cfg, Next(cfg, st, steps[0]), steps[1..], u, c, most))
  }

  /** Admitted and waiting callers of a bucket together stay below the cap plus the crowd. */
  ghost predicate WithinOvershoot(cfg: Config, st: State, u: string, c: string, most: nat) {
    forall k: Key :: k.user == u && k.channel == c && cfg.limits(u, c).Of(k.window) > 0 ==>
      AdmitsLogged(cfg.calendar, st.log, k) + CountIf(st.waiting, ForKey(cfg.calendar, k)) <=
          cfg.limits(u, c).Of(k.window) + most - 1
  }

  /** Only a read can raise the sum of a bucket's admitted and waiting callers. */
  lemma NonReadMovesNoSum(cfg: Config, st: State, step: Step, k: Key)
    requires !step.Read?
    ensures var cal, st' := cfg.calendar, Next(cfg, st, step);
            AdmitsLogged(cal, st'.log, k) + CountIf(st'.waiting, ForKey(cal, k)) <=
            AdmitsLogged(cal, st.log, k) + CountIf(st.waiting, ForKey(cal, k))
  {
    var st' := Next(cfg, st, step);
    if st' != st {
      match step
      case Increment(i, _) =>
        CountIfWithout(st.waiting, i, ForKey(cfg.calendar, k));
        assert st'.log[..|st.log|] == st.log;
      case GiveUp(i) =>
        CountIfWithout(st.waiting, i, ForKey(cfg.calendar, k));
      case ResetCaps(_, _, _) =>
        assert st'.log[..|st.log|] == st.log;
    }
  }

  lemma ReadWithinOvershoot(cfg: Config, st: State, u: string, c: string, at: int, most: nat, w: Window)
    requires AgreesWithLog(cfg.calendar, st) && st.now <= at && cfg.limits(u, c).Of(w) > 0
    requires Admits(cfg.calendar, st.store, cfg.limits(u, c), Ticket(u, c, at), at)
    requires CountIf(st.waiting + [Ticket(u, c, at)], ForCaller(u, c)) <= most
    ensures var k := KeyOf(cfg.calendar, Ticket(u, c, at), w);
            AdmitsLogged(cfg.calendar, st.log, k) + CountIf(st.waiting + [Ticket(u, c, at)], ForKey(cfg.calendar, k))
            <= cfg.limits(u, c).Of(w) + most - 1
  {
    var tk := Ticket(u, c, at);
    var k := KeyOf(cfg.calendar, tk, w);
    CountIfWeaker(st.waiting + [tk], ForKey(cfg.calendar, k), ForCaller(u, c));
    assert Redis.Count(st.store, k, at) == AdmitsLogged(cfg.calendar, st.log, k);
  }

  lemma NextWithinOvershoot(cfg: Config, st: State, step: Step, u: string, c: string, most: nat)
    requires cfg.calendar.Valid() && AgreesWithLog(cfg.calendar, st) && most >= 1
    requires WithinOvershoot(cfg, st, u, c, most)
    requires CountIf(Next(cfg, st, step).waiting, ForCaller(u, c)) <= most
    ensures WithinOvershoot(cfg, Next(cfg, st, step), u, c, most)
  {
    var cal, st' := cfg.calendar, Next(cfg, st, step);
    forall k: Key | k.user == u && k.channel == c && cfg.limits(u, c).Of(k.window) > 0
      ensures AdmitsLogged(cal, st'.log, k) + CountIf(st'.waiting, ForKey(cal, k)) <= cfg.limits(u, c).Of(k.window) +
              most - 1
    {
      match step
      case Read(ru, rc, at) =>
        if st'.waiting != st.waiting {
          CountIfSnoc(st.waiting, Ticket(ru, rc, at), ForKey(cal, k));
          if ForKey(cal, k)(Ticket(ru, rc, at)) {
            ReadWithinOvershoot(cfg, st, u, c, at, most, k.window);
          }
        }
      case _ => NonReadMovesNoSum(cfg, st, step, k);
    }
  }

  lemma {:induction false} RunWithinOvershoot(cfg: Config, st: State, steps: seq<Step>, u: string, c: string, most: nat)
    requires cfg.calendar.Valid() && AgreesWithLog(cfg.calendar, st) && most >= 1
    requires WithinOvershoot(cfg, st, u, c, most)
    requires AtMostWaiting(cfg, st, steps, u, c, most)
    ensures WithinOvershoot(cfg, Run(cfg, st, steps), u, c, most)
    decreases |steps|
  {
    if steps != [] {
      NextAgreesWithLog(cfg, st, steps[0]);
      NextWithinOvershoot(cfg, st, steps[0], u, c, most);
      RunWithinOvershoot(cfg, Next(cfg, st, steps[0]), steps[1..], u, c, most);
    }
  }

  /** With at most `most` callers in the gap, no bucket of any window admits more than its cap plus most - 1. */
  lemma OvershootIsBounded(cfg: Config, start: int, steps: seq<Step>, u: string, c: string, most: nat, k: Key)
    requires cfg.calendar.Valid() && most >= 1
    requires AtMostWaiting(cfg, Init(start), steps, u, c, most)
    requires k.user == u && k.channel == c && cfg.limits(u, c).Of(k.window) > 0
    ensures AdmitsLogged(cfg.calendar, Run(cfg, Init(start), steps).log, k) <= cfg.limits(u, c).Of(k.window) + most - 1
  {
    RunWithinOvershoot(cfg, Init(start), steps, u, c, most);
  }

  /** The step system whose callers bring their own caps. */
  function Serving(cal: Calendar, caps: (string, string) -> Caps, defaults: Limits): Config {
    Config(cal, (u: string, c: string) => Effective(caps(u, c), defaults))
  }

  /** In terms of what the callers bring: a cap of 0, or none, is the default; a positive one is kept as it is. */
  lemma CallersCapsAreKept(cal: Calendar, caps: (string, string) -> Caps, defaults: Limits, start: int,
                           steps: seq<Step>, u: string, c: string, most: nat, k: Key)
    requires cal.Valid() && most >= 1 && k.user == u && k.channel == c
    requires AtMostWaiting(Serving(cal, caps, defaults), Init(start), steps, u, c, most)
    ensures var mine := caps(u, c);
            var own := match k.window case Hour => mine.hour case Day => mine.day case Week => mine.week;
            var default := match k.window
                           case Hour => defaults.hour
                           case Day => defaults.day
                           case Week => defaults.week;
            var admits := AdmitsLogged(cal, Run(Serving(cal, caps, defaults), Init(start), steps).log, k);
            && ((own == None || own == Some(0)) && default > 0 ==> admits <= default + most - 1)
            && (own != None && own.value > 0 ==> admits <= own.value + most - 1)
  {
    var cfg := Serving(cal, caps, defaults);
    if cfg.limits(u, c).Of(k.window) > 0 {
      OvershootIsBounded(cfg, start, steps, u, c, most, k);
    }
  }

  // ---------------------------------------------------------------------------------------------
  // The bound is reached
  // ---------------------------------------------------------------------------------------------

  /** Callers served one at a time at their own times, then a crowd of readers at the last time, then its increments. */
  function Serve(u: string, c: string, times: seq<int>, j: nat, most: nat): seq<Step>
    requires j < |times|
    decreases |times| - j
  {
    if j < |times| - 1 then [Read(u, c, times[j]), Increment(0, times[j])] + Serve(u, c, times, j + 1, most)
    else Rush(u, c, times[j], most, 0)
  }

  function Rush(u: string, c: string, t: int, readers: nat, writers: nat): seq<Step>
    decreases readers, writers
  {
    if readers > 0 then [Read(u, c, t)] + Rush(u, c, t, readers - 1, writers + 1)
    else if writers > 0 then [Increment(0, t)] + Rush(u, c, t, 0, writers - 1)
    else []
  }

  /** The log of serial admits at the first j times. */
  function Served(u: string, c: string, times: seq<int>, j: nat): seq<LogEntry>
    requires j <= |times|
  {
    if j == 0 then [] else Served(u, c, times, j - 1) + [Admit(Ticket(u, c, times[j - 1]))]
  }

  /** Everyone waiting holds the same ticket, and its bucket of window w has logged `admits`. */
  ghost predicate Crowd(cfg: Config, st: State, tk: Ticket, w: Window, admits: nat) {
    && AgreesWithLog(cfg.calendar, st)
    && st.now <= tk.at
    && (forall i :: 0 <= i < |st.waiting| ==> st.waiting[i] == tk)
    && AdmitsLogged(cfg.calendar, st.log, KeyOf(cfg.calendar, tk, w)) == admits
  }

  /** The log leaves room in every window of the ticket. */
  ghost predicate Room(cfg: Config, log: seq<LogEntry>, tk: Ticket) {
    forall v: Window :: !Full(cfg.limits(tk.user, tk.channel).Of(v),
        AdmitsLogged(cfg.calendar, log, KeyOf(cfg.calendar, tk, v)))
  }

  lemma ReadWithRoom(cfg: Config, st: State, tk: Ticket)
    requires AgreesWithLog(cfg.calendar, st) && st.now <= tk.at && Room(cfg, st.log, tk)
    ensures Next(cfg, st, Read(tk.user, tk.channel, tk.at)) == st.(now := tk.at, waiting := st.waiting + [tk])
  {
    forall v: Window
      ensures !Full(cfg.limits(tk.user, tk.channel).Of(v), Redis.Count(st.store, KeyOf(cfg.calendar, tk, v), tk.at))
    {
      assert Redis.Count(st.store, KeyOf(cfg.calendar, tk, v), tk.at) ==
          AdmitsLogged(cfg.calendar, st.log, KeyOf(cfg.calendar, tk, v));
    }
  }

  lemma CrowdRead(cfg: Config, st: State, tk: Ticket, w: Window, admits: nat)
    requires cfg.calendar.Valid() && Crowd(cfg, st, tk, w, admits) && Room(cfg, st.log, tk)
    ensures var st' := Next(cfg, st, Read(tk.user, tk.channel, tk.at));
            Crowd(cfg, st', tk, w, admits) && st'.waiting == st.waiting + [tk] && st'.log == st.log
  {
    ReadWithRoom(cfg, st, tk);
    NextAgreesWithLog(cfg, st, Read(tk.user, tk.channel, tk.at));
  }

  lemma CrowdIncrement(cfg: Config, st: State, tk: Ticket, w: Window, admits: nat)
    requires cfg.calendar.Valid() && Crowd(cfg, st, tk, w, admits) && st.waiting != []
    ensures var st' := Next(cfg, st, Increment(0, tk.at));
            && Crowd(cfg, st', tk, w, admits + 1)
            && st'.waiting == st.waiting[1..] && st'.log == st.log + [Admit(tk)] && st'.now == tk.at
  {
    var st' := Next(cfg, st, Increment(0, tk.at));
    NextAgreesWithLog(cfg, st, Increment(0, tk.at));
    assert st'.log == st.log + [Admit(tk)];
    assert st'.log[..|st.log|] == st.log;
    assert st'.waiting == st.waiting[1..];
  }

  /** Taking one step and then the rest, for the run and for the crowd bound. */
  lemma StepThen(cfg: Config, st: State, step: Step, rest: seq<Step>, u: string, c: string, most: nat)
    requires |st.waiting| <= most && AtMostWaiting(cfg, Next(cfg, st, step), rest, u, c, most)
    ensures AtMostWaiting(cfg, st, [step] + rest, u, c, most)
    ensures Run(cfg, st, [step] + rest) == Run(cfg, Next(cfg, st, step), rest)
  {
    CountIfWeaker(st.waiting, ForCaller(u, c), ForCaller(u, c));
    assert ([step] + rest)[1..] == rest;
  }

  lemma NoMoreSteps(cfg: Config, st: State, u: string, c: string, most: nat)
    requires |st.waiting| <= most
    ensures AtMostWaiting(cfg, st, [], u, c, most) && Run(cfg, st, []) == st
  {
    CountIfWeaker(st.waiting, ForCaller(u, c), ForCaller(u, c));
  }

  /** The steps keep the crowd bound and end with this many admits in the ticket's bucket of window w. */
  ghost predicate Reaches(cfg: Config, st: State, steps: seq<Step>, tk: Ticket, w: Window, most: nat, admits: nat) {
    && AtMostWaiting(cfg, st, steps, tk.user, tk.channel, most)
    && AdmitsLogged(cfg.calendar, Run(cfg, st, steps).log, KeyOf(cfg.calendar, tk, w)) == admits
  }

  lemma {:induction false} RushOfWriters(cfg: Config, st: State, tk: Ticket, w: Window, admits: nat, writers: nat,
                                         most: nat)
    requires cfg.calendar.Valid() && Crowd(cfg, st, tk, w, admits) && |st.waiting| == writers <= most
    ensures Reaches(cfg, st, Rush(tk.user, tk.channel, tk.at, 0, writers), tk, w, most, admits + writers)
    decreases writers
  {
    if writers == 0 {
      NoMoreSteps(cfg, st, tk.user, tk.channel, most);
    } else {
      var step, rest := Increment(0, tk.at), Rush(tk.user, tk.channel, tk.at, 0, writers - 1);
      CrowdIncrement(cfg, st, tk, w, admits);
      RushOfWriters(cfg, Next(cfg, st, step), tk, w, admits + 1, writers - 1, most);
      StepThen(cfg, st, step, rest, tk.user, tk.channel, most);
    }
  }

  lemma {:induction false} RushOfReaders(cfg: Config, st: State, tk: Ticket, w: Window, admits: nat, readers: nat,
                                         writers: nat, most: nat)
    requires cfg.calendar.Valid() && Crowd(cfg, st, tk, w, admits) && |st.waiting| == writers &&
             writers + readers <= most
    requires Room(cfg, st.log, tk)
    ensures Reaches(cfg, st, Rush(tk.user, tk.channel, tk.at, readers, writers), tk, w, most,
            admits + readers + writers)
    decreases readers
  {
    if readers == 0 {
      RushOfWriters(cfg, st, tk, w, admits, writers, most);
    } else {
      var step, rest := Read(tk.user, tk.channel, tk.at), Rush(tk.user, tk.channel, tk.at, readers - 1, writers + 1);
      CrowdRead(cfg, st, tk, w, admits);
      RushOfReaders(cfg, Next(cfg, st, step), tk, w, admits, readers - 1, writers + 1, most);
      StepThen(cfg, st, step, rest, tk.user, tk.channel, most);
    }
  }

  predicate Increasing(times: seq<int>) {
    forall i, j :: 0 <= i <= j < |times| ==> times[i] <= times[j]
  }

  /**
   Each time finds room in every window after serial admits at the times before it, and all lie in one bucket of w.
   */
  ghost predicate Fits(cfg: Config, u: string, c: string, w: Window, times: seq<int>) {
    && Increasing(times)
    && (forall j :: 0 <= j < |times| ==> Room(cfg, Served(u, c, times, j), Ticket(u, c, times[j])))
    && (forall j :: 0 <= j < |times| ==> cfg.calendar.Bucket(w, times[j]) == cfg.calendar.Bucket(w, times[0]))
  }

  lemma {:induction false} AllServedInBucket(cfg: Config, u: string, c: string, w: Window, times: seq<int>, j: nat,
                                             k: Key)
    requires j <= |times| && k.user == u && k.channel == c && k.window == w
    requires forall i :: 0 <= i < |times| ==> cfg.calendar.Bucket(w, times[i]) == k.bucket
    ensures AdmitsLogged(cfg.calendar, Served(u, c, times, j), k) == j
  {
    if j > 0 {
      AllServedInBucket(cfg, u, c, w, times, j - 1, k);
      assert Served(u, c, times, j)[..j - 1] == Served(u, c, times, j - 1) by {
        ServedLength(u, c, times, j - 1);
      }
      ServedLength(u, c, times, j);
    }
  }

  lemma {:induction false} ServedLength(u: string, c: string, times: seq<int>, j: nat)
    requires j <= |times|
    ensures |Served(u, c, times, j)| == j
  {
    if j > 0 {
      ServedLength(u, c, times, j - 1);
    }
  }

  /** Two steps and then the rest. */
  lemma TwoStepsThen(cfg: Config, st: State, first: Step, second: Step, rest: seq<Step>, u: string, c: string,
                     most: nat)
    requires |st.waiting| <= most && |Next(cfg, st, first).waiting| <= most
    requires AtMostWaiting(cfg, Next(cfg, Next(cfg, st, first), second), rest, u, c, most)
    ensures AtMostWaiting(cfg, st, [first, second] + rest, u, c, most)
    ensures Run(cfg, st, [first, second] + rest) == Run(cfg, Next(cfg, Next(cfg, st, first), second), rest)
  {
    StepThen(cfg, Next(cfg, st, first), second, rest, u, c, most);
    StepThen(cfg, st, first, [second] + rest, u, c, most);
    assert [first, second] + rest == [first] + ([second] + rest);
  }

  /** A reader and its increment, with nobody else waiting. */
  lemma ServeOne(cfg: Config, st: State, tk: Ticket)
    requires cfg.calendar.Valid() && AgreesWithLog(cfg.calendar, st) && st.now <= tk.at && st.waiting == []
    requires Room(cfg, st.log, tk)
    ensures var st1 := Next(cfg, st, Read(tk.user, tk.channel, tk.at));
            var st2 := Next(cfg, st1, Increment(0, tk.at));
            && st1.waiting == [tk] && st1.log == st.log
            && AgreesWithLog(cfg.calendar, st2) && st2.now == tk.at && st2.waiting == [] &&
                st2.log == st.log + [Admit(tk)]
  {
    var admits := AdmitsLogged(cfg.calendar, st.log, KeyOf(cfg.calendar, tk, Hour));
    CrowdRead(cfg, st, tk, Hour, admits);
    CrowdIncrement(cfg, Next(cfg, st, Read(tk.user, tk.channel, tk.at)), tk, Hour, admits);
  }

  lemma {:induction false} ServeReaches(cfg: Config, u: string, c: string, w: Window, times: seq<int>, j: nat,
                                        st: State, most: nat)
    requires cfg.calendar.Valid() && Fits(cfg, u, c, w, times) && j < |times| && most >= 1
    requires AgreesWithLog(cfg.calendar, st) && st.now <= times[j] && st.waiting == [] &&
             st.log == Served(u, c, times, j)
    ensures Reaches(cfg, st, Serve(u, c, times, j, most), Ticket(u, c, times[0]), w, most, |times| - 1 + most)
    decreases |times| - j
  {
    var tk := Ticket(u, c, times[j]);
    if j == |times| - 1 {
      AllServedInBucket(cfg, u, c, w, times, j, KeyOf(cfg.calendar, tk, w));
      RushOfReaders(cfg, st, tk, w, j, most, 0, most);
    } else {
      var read, incr := Read(u, c, times[j]), Increment(0, times[j]);
      ServeOne(cfg, st, tk);
      ServeReaches(cfg, u, c, w, times, j + 1, Next(cfg, Next(cfg, st, read), incr), most);
      TwoStepsThen(cfg, st, read, incr, Serve(u, c, times, j + 1, most), u, c, most);
    }
  }

  lemma InitAgrees(cal: Calendar, start: int)
    ensures AgreesWithLog(cal, Init(start))
  {
  }

  /**
   Wherever limit - 1 serial admits fit in one bucket of a window and still leave room at some reading, a crowd of any
   size admits exactly the limit plus the crowd, less one, in that bucket.
   */
  lemma OvershootIsReached(cfg: Config, u: string, c: string, w: Window, times: seq<int>, most: nat)
      returns (steps: seq<Step>)
    requires cfg.calendar.Valid() && Fits(cfg, u, c, w, times) && most >= 1
    requires |times| == cfg.limits(u, c).Of(w) > 0
    ensures Reaches(cfg, Init(times[0]), steps, Ticket(u, c, times[0]), w, most, cfg.limits(u, c).Of(w) + most - 1)
  {
    steps := Serve(u, c, times, 0, most);
    InitAgrees(cfg.calendar, times[0]);
    ServeReaches(cfg, u, c, w, times, 0, Init(times[0]), most);
  }

  // ---------------------------------------------------------------------------------------------
  // Which limits are reached
  // ---------------------------------------------------------------------------------------------

  /**
   How long the buckets of each window are; never longer than their keys live, but a calendar may cut them shorter.
   */
  type Lengths = Window -> int

  /** How many buckets of window v a full bucket of window w is made of, or one that it lies in. */
  function Slots(len: Lengths, w: Window, v: Window): int {
    if 0 < len(v) <= len(w) then len(w) / len(v) else 1
  }

  /** No other cap in force is too tight to let a bucket of w fill up one caller at a time. */
  predicate Attainable(len: Lengths, l: Limits, w: Window) {
    forall v: Window :: l.Of(v) <= 0 || l.Of(w) <= Slots(len, w, v) * l.Of(v)
  }

  ghost predicate Divides(len: Lengths) {
    && (forall w: Window :: 0 < len(w))
    && (forall v: Window, w: Window :: len(v) <= len(w) ==> len(w) == Slots(len, w, v) * len(v))
  }

  /** No bucket is longer than this. */
  ghost predicate Bounded(cal: Calendar, len: Lengths) {
    forall w: Window, t: int, u: int :: t <= u && cal.Bucket(w, t) == cal.Bucket(w, u) ==> u - t < len(w)
  }

  /** n readings spread evenly over a bucket of this length that begins at start. */
  function Spread(start: int, length: int, n: nat): seq<int>
    requires n > 0
  {
    seq(n, j => start + j * length / n)
  }

  /** Readings j - i apart lie at least a short bucket apart once j - i reaches n / slots. */
  lemma SpreadApart(start: int, length: int, n: nat, short: int, slots: int, i: nat, j: nat, cap: nat)
    requires n > 0 && i <= j < n && length == slots * short && short > 0 && slots > 0 && n <= slots * cap &&
             j - i >= cap
    ensures Spread(start, length, n)[j] - Spread(start, length, n)[i] >= short
  {
    ProductOrder(0, slots, short);
    QuotientOfSum(i * length, (j - i) * length, n);
    assert i * length + (j - i) * length == j * length;
    ProductOrder(cap, j - i, length);
    assert cap * length == (slots * cap) * short;
    ProductOrder(n, slots * cap, short);
    QuotientAtLeast((j - i) * length, n, short);
  }

  lemma ProductOrder(a: int, b: int, x: int)
    requires a <= b && x >= 0
    ensures a * x <= b * x
  {
    assert (b - a) * x >= 0;
  }

  lemma QuotientAtLeast(a: int, n: int, q: int)
    requires n > 0 && n * q <= a
    ensures a / n >= q
  {
    assert a == n * (a / n) + a % n;
    if a / n < q {
      ProductOrder(a / n + 1, q, n);
    }
  }

  lemma QuotientOfSum(a: int, b: int, n: int)
    requires n > 0
    ensures (a + b) / n >= a / n + b / n
  {
    var qa, qb := a / n, b / n;
    assert a == n * qa + a % n && b == n * qb + b % n;
    assert n * (qa + qb) == n * qa + n * qb;
    QuotientAtLeast(a + b, n, qa + qb);
  }

  lemma SpreadOrder(start: int, length: int, n: nat, i: nat, j: nat)
    requires n > 0 && i <= j < n && length > 0
    ensures start <= Spread(start, length, n)[i] <= Spread(start, length, n)[j] < start + length
  {
    SharesOrder(length, n, i, j);
  }

  lemma SharesOrder(len: int, n: int, i: int, j: int)
    requires len > 0 && 0 <= i <= j < n
    ensures 0 <= i * len / n <= j * len / n < len
  {
    ProductOrder(0, i, len);
    ProductOrder(i, j, len);
    ProductOrder(j + 1, n, len);
    QuotientsOrdered(0, i * len, n);
    QuotientsOrdered(i * len, j * len, n);
    QuotientBelow(j * len, n, len);
  }

  lemma QuotientBelow(a: int, n: int, q: int)
    requires n > 0 && a < n * q
    ensures a / n < q
  {
    assert a == n * (a / n) + a % n;
    if a / n >= q {
      ProductOrder(q, a / n, n);
    }
  }

  /**
   If the key's bucket has nothing of the times before the last m, the log of those times holds at most m of its
   admits.
   */
  lemma {:induction false} ServedRecently(cfg: Config, u: string, c: string, times: seq<int>, j: nat, k: Key, m: nat)
    requires j <= |times| && forall i :: 0 <= i < j - m ==> cfg.calendar.Bucket(k.window, times[i]) != k.bucket
    ensures AdmitsLogged(cfg.calendar, Served(u, c, times, j), k) <= m
  {
    ServedLength(u, c, times, j);
    if j > 0 {
      ServedLength(u, c, times, j - 1);
      assert Served(u, c, times, j)[..j - 1] == Served(u, c, times, j - 1);
      if m == 0 {
        ServedRecently(cfg, u, c, times, j - 1, k, 0);
      } else {
        ServedRecently(cfg, u, c, times, j - 1, k, m - 1);
      }
    }
  }

  /** The spread readings fit: any Of(v) + 1 of them in a row are longer than a bucket of v. */
  lemma SpreadHasRoom(cfg: Config, len: Lengths, u: string, c: string, w: Window, start: int, j: nat, v: Window)
    requires Bounded(cfg.calendar, len) && Divides(len)
    requires Attainable(len, cfg.limits(u, c), w) && j < cfg.limits(u, c).Of(w)
    ensures var times := Spread(start, len(w), cfg.limits(u, c).Of(w));
            !Full(cfg.limits(u, c).Of(v),
                  AdmitsLogged(cfg.calendar, Served(u, c, times, j), KeyOf(cfg.calendar, Ticket(u, c, times[j]), v)))
  {
    var n, cap := cfg.limits(u, c).Of(w), cfg.limits(u, c).Of(v);
    var times := Spread(start, len(w), n);
    var k := KeyOf(cfg.calendar, Ticket(u, c, times[j]), v);
    if cap > 0 {
      forall i | 0 <= i < j - (cap - 1)
        ensures cfg.calendar.Bucket(v, times[i]) != k.bucket
      {
        SpreadOrder(start, len(w), n, i, j);
        LongerBucketsHoldAll(len, cfg.limits(u, c), w, v, i, j);
        ProductOrder(1, Slots(len, w, v), len(v));
        SpreadApart(start, len(w), n, len(v), Slots(len, w, v), i, j, cap);
      }
      ServedRecently(cfg, u, c, times, j, k, cap - 1);
    }
  }

  /** Only a window with buckets no longer than w's can have room for fewer than all of them. */
  lemma LongerBucketsHoldAll(len: Lengths, l: Limits, w: Window, v: Window, i: nat, j: nat)
    requires Divides(len) && Attainable(len, l, w) && l.Of(v) > 0 && j < l.Of(w) && j - i >= l.Of(v)
    ensures len(v) <= len(w) && Slots(len, w, v) > 0
  {
    if len(v) <= len(w) {
      assert len(w) == Slots(len, w, v) * len(v);
      if Slots(len, w, v) <= 0 {
        ProductOrder(Slots(len, w, v), 0, len(v));
      }
    }
  }

  lemma SpreadFits(cfg: Config, len: Lengths, u: string, c: string, w: Window, start: int)
    requires cfg.calendar.Valid() && Bounded(cfg.calendar, len) && Divides(len)
    requires Attainable(len, cfg.limits(u, c), w) && cfg.limits(u, c).Of(w) > 0
    requires cfg.calendar.Bucket(w, start) == cfg.calendar.Bucket(w, start + len(w) - 1)
    ensures Fits(cfg, u, c, w, Spread(start, len(w), cfg.limits(u, c).Of(w)))
  {
    var n := cfg.limits(u, c).Of(w);
    var times := Spread(start, len(w), n);
    forall i, j | 0 <= i <= j < |times| ensures times[i] <= times[j] {
      SpreadOrder(start, len(w), n, i, j);
    }
    forall j | 0 <= j < |times|
      ensures Room(cfg, Served(u, c, times, j), Ticket(u, c, times[j]))
      ensures cfg.calendar.Bucket(w, times[j]) == cfg.calendar.Bucket(w, start)
    {
      forall v: Window {
        SpreadHasRoom(cfg, len, u, c, w, start, j, v);
      }
      SpreadOrder(start, len(w), n, j, j);
    }
  }

  /** Some run with at most `most` callers in the gap takes some bucket of w to the bound. */
  ghost predicate BoundIsReached(cfg: Config, u: string, c: string, w: Window, most: nat) {
    exists start: int, steps: seq<Step>, k: Key ::
      && k.user == u && k.channel == c && k.window == w
      && AtMostWaiting(cfg, Init(start), steps, u, c, most)
      && AdmitsLogged(cfg.calendar, Run(cfg, Init(start), steps).log, k) == cfg.limits(u, c).Of(w) + most - 1
  }

  /**
   In every window whose cap the other caps let fill up, every crowd reaches its bound, in any bucket of full length.
   */
  lemma AttainableIsReached(cfg: Config, len: Lengths, u: string, c: string, w: Window, start: int, most: nat)
    requires cfg.calendar.Valid() && Bounded(cfg.calendar, len) && Divides(len)
    requires Attainable(len, cfg.limits(u, c), w) && cfg.limits(u, c).Of(w) > 0 && most >= 1
    requires cfg.calendar.Bucket(w, start) == cfg.calendar.Bucket(w, start + len(w) - 1)
    ensures BoundIsReached(cfg, u, c, w, most)
  {
    var times := Spread(start, len(w), cfg.limits(u, c).Of(w));
    SpreadFits(cfg, len, u, c, w, start);
    var steps := OvershootIsReached(cfg, u, c, w, times, most);
    var k := KeyOf(cfg.calendar, Ticket(u, c, times[0]), w);
    assert k.user == u && k.channel == c && k.window == w;
    assert AtMostWaiting(cfg, Init(times[0]), steps, u, c, most);
  }

  /** The configured defaults. */
  const DEFAULT_LIMITS := Limits(10, 50, 200)

  /** Under the defaults every window reaches its bound in any bucket as long as its key lives. */
  lemma DefaultBoundsAreReached(cfg: Config, u: string, c: string, w: Window, start: int, most: nat)
    requires cfg.calendar.Valid() && cfg.limits(u, c) == DEFAULT_LIMITS && most >= 1
    requires cfg.calendar.Bucket(w, start) == cfg.calendar.Bucket(w, start + Ttl(w) - 1)
    ensures BoundIsReached(cfg, u, c, w, most)
  {
    assert Attainable(Ttl, DEFAULT_LIMITS, w);
    AttainableIsReached(cfg, Ttl, u, c, w, start, most);
  }

  // A cap that is not attainable is not reached, not even by callers served one at a time.

  /** first(w, v, b) is where the buckets of v begin that bucket b of w is made of. */
  type Firsts = (Window, Window, int) -> int

  /** Every bucket of w is exactly Slots(w, v) consecutive buckets of v, for each v whose buckets are no longer. */
  ghost predicate Nested(cal: Calendar, len: Lengths, first: Firsts) {
    forall w: Window, v: Window, b: int, t: int :: len(v) <= len(w) ==>
      (cal.Bucket(w, t) == b <==> first(w, v, b) <= cal.Bucket(v, t) < first(w, v, b) + Slots(len, w, v))
  }

  /** Buckets of one length, one after the other from an offset. */
  ghost predicate Repeats(cal: Calendar, len: Lengths, off: Lengths, w: Window) {
    0 < len(w) <= Ttl(w) && forall t: int :: cal.Bucket(w, t) == (t - off(w)) / len(w)
  }

  /** Buckets that repeat and lie in each other, such as UTC hours, UTC days and weeks from Monday. */
  ghost predicate Periodic(cal: Calendar, len: Lengths, off: Lengths) {
    && (forall w: Window :: Repeats(cal, len, off, w))
    && (forall w: Window, v: Window :: 0 < len(v) <= len(w) ==>
          len(w) % len(v) == 0 && (off(w) - off(v)) % len(v) == 0)
  }

  lemma RepeatsIsOrdered(cal: Calendar, len: Lengths, off: Lengths, w: Window, t: int, u: int)
    requires Repeats(cal, len, off, w) && t <= u
    ensures cal.Bucket(w, t) <= cal.Bucket(w, u)
    ensures cal.Bucket(w, t) == cal.Bucket(w, u) ==> u - t < len(w) <= Ttl(w)
    ensures cal.Bucket(w, off(w)) == cal.Bucket(w, off(w) + len(w) - 1)
  {
    QuotientsOrdered(t - off(w), u - off(w), len(w));
    QuotientIs(0, len(w), 0);
    QuotientIs(len(w) - 1, len(w), 0);
  }

  lemma PeriodicIsValid(cal: Calendar, len: Lengths, off: Lengths)
    requires Periodic(cal, len, off)
    ensures cal.Valid() && Bounded(cal, len) && Divides(len)
    ensures forall w: Window :: cal.Bucket(w, off(w)) == cal.Bucket(w, off(w) + len(w) - 1)
  {
    forall w: Window, t: int, u: int | t <= u
      ensures cal.Bucket(w, t) <= cal.Bucket(w, u)
      ensures cal.Bucket(w, t) == cal.Bucket(w, u) ==> u - t < len(w) <= Ttl(w)
    {
      assert Repeats(cal, len, off, w);
      RepeatsIsOrdered(cal, len, off, w, t, u);
    }
    forall w: Window ensures 0 < len(w) && cal.Bucket(w, off(w)) == cal.Bucket(w, off(w) + len(w) - 1) {
      assert Repeats(cal, len, off, w);
      RepeatsIsOrdered(cal, len, off, w, off(w), off(w));
    }
    forall w: Window, v: Window | len(v) <= len(w) ensures len(w) == Slots(len, w, v) * len(v) {
      WholeSlots(cal, len, off, w, v);
    }
  }

  lemma PeriodicIsNested(cal: Calendar, len: Lengths, off: Lengths) returns (first: Firsts)
    requires Periodic(cal, len, off)
    ensures Nested(cal, len, first)
  {
    hide Periodic, Slots, Shift;
    first := (w: Window, v: Window, b: int) => b * Slots(len, w, v) + Shift(len, off, w, v);
    forall w: Window, v: Window, b: int, t: int | len(v) <= len(w)
      ensures cal.Bucket(w, t) == b <==> first(w, v, b) <= cal.Bucket(v, t) < first(w, v, b) + Slots(len, w, v)
    {
      SlotOf(cal, len, off, w, v, b, t);
    }
  }

  /** How many buckets of v lie between the beginnings of the two windows' buckets 0. */
  function Shift(len: Lengths, off: Lengths, w: Window, v: Window): int {
    if len(v) <= 0 then 0 else (off(w) - off(v)) / len(v)
  }

  lemma WholeSlots(cal: Calendar, len: Lengths, off: Lengths, w: Window, v: Window)
    requires Periodic(cal, len, off) && len(v) <= len(w)
    ensures Repeats(cal, len, off, v) && Repeats(cal, len, off, w)
    ensures len(w) == Slots(len, w, v) * len(v) && Slots(len, w, v) > 0
    ensures off(w) - off(v) == Shift(len, off, w, v) * len(v)
  {
    assert Repeats(cal, len, off, v) && Repeats(cal, len, off, w);
    WholeQuotient(len(w), len(v));
    WholeQuotient(off(w) - off(v), len(v));
    QuotientAtLeast(len(w), len(v), 1);
  }

  lemma WholeQuotient(a: int, b: int)
    requires b > 0 && a % b == 0
    ensures a == (a / b) * b
  {
    assert a == b * (a / b) + a % b;
  }

  lemma QuotientsOrdered(t: int, u: int, len: int)
    requires len > 0 && t <= u
    ensures t / len <= u / len && (t / len == u / len ==> u - t < len)
  {
    var p, q := t / len, u / len;
    assert t == len * p + t % len && u == len * q + u % len;
    if q < p {
      ProductOrder(q + 1, p, len);
    }
  }

  function EntryTime(e: LogEntry): int {
    match e
    case Admit(tk) => tk.at
    case Cleared(_, _, at) => at
  }

  /** The admits of n consecutive buckets of v. */
  function SumOver(cal: Calendar, log: seq<LogEntry>, u: string, c: string, v: Window, first: int, n: nat): nat {
    if n == 0 then 0
    else SumOver(cal, log, u, c, v, first, n - 1) + AdmitsLogged(cal, log, Key(u, c, v, first + n - 1))
  }

  lemma {:induction false} SumOverAdmit(cal: Calendar, log: seq<LogEntry>, tk: Ticket, u: string, c: string,
                                        v: Window, first: int, n: nat)
    ensures var inside := tk.user == u && tk.channel == c && first <= cal.Bucket(v, tk.at) < first + n;
            SumOver(cal, log + [Admit(tk)], u, c, v, first, n) == SumOver(cal, log, u, c, v, first, n) +
                (if inside then 1 else 0)
  {
    if n > 0 {
      SumOverAdmit(cal, log, tk, u, c, v, first, n - 1);
      assert (log + [Admit(tk)])[..|log|] == log;
    }
  }

  lemma {:induction false} SumOverCleared(cal: Calendar, log: seq<LogEntry>, e: LogEntry, u: string, c: string,
                                          v: Window, first: int, n: nat)
    requires e.Cleared? && !(e.user == u && e.channel == c && first <= cal.Bucket(v, e.at) < first + n)
    ensures SumOver(cal, log + [e], u, c, v, first, n) == SumOver(cal, log, u, c, v, first, n)
  {
    if n > 0 {
      SumOverCleared(cal, log, e, u, c, v, first, n - 1);
      assert (log + [e])[..|log|] == log;
    }
  }

  /** A bucket of w is made of Slots(w, v) buckets of a shorter window v. */
  lemma SlotOf(cal: Calendar, len: Lengths, off: Lengths, w: Window, v: Window, b: int, t: int)
    requires Periodic(cal, len, off) && len(v) <= len(w)
    ensures var lo := b * Slots(len, w, v) + Shift(len, off, w, v);
            cal.Bucket(w, t) == b <==> lo <= cal.Bucket(v, t) < lo + Slots(len, w, v)
  {
    hide Periodic, Slots, Shift;
    WholeSlots(cal, len, off, w, v);
    SlotOfReading(t, off(w), off(v), len(w), len(v), Slots(len, w, v), Shift(len, off, w, v), b);
  }

  lemma SlotOfReading(t: int, offW: int, offV: int, lenW: int, lenV: int, slots: int, shift: int, b: int)
    requires lenV > 0 && lenW > 0 && slots > 0 && lenW == slots * lenV && offW - offV == shift * lenV
    ensures (t - offW) / lenW == b <==> b * slots + shift <= (t - offV) / lenV < b * slots + shift + slots
  {
    var q := (t - offW) / lenV;
    assert t - offV == t - offW + shift * lenV;
    ShiftedQuotient(t - offW, shift, lenV);
    assert (t - offV) / lenV == q + shift;
    NestedQuotient(t - offW, lenV, slots);
    assert (t - offW) / lenW == q / slots;
    QuotientIff(q, slots, b);
    assert (b + 1) * slots == b * slots + slots;
  }

  lemma ShiftedQuotient(t: int, shift: int, len: int)
    requires len > 0
    ensures (t + shift * len) / len == t / len + shift
  {
    var q := t / len;
    assert t == len * q + t % len && 0 <= t % len < len;
    assert (q + shift) * len == len * q + shift * len;
    assert (q + shift + 1) * len == (q + shift) * len + len;
    QuotientIs(t + shift * len, len, q + shift);
  }

  lemma QuotientIff(q: int, slots: int, b: int)
    requires slots > 0
    ensures q / slots == b <==> b * slots <= q < (b + 1) * slots
  {
    assert q == slots * (q / slots) + q % slots;
    assert (q / slots + 1) * slots == slots * (q / slots) + slots;
    if b * slots <= q < (b + 1) * slots {
      QuotientIs(q, slots, b);
    }
  }

  lemma NestedQuotient(t: int, len: int, slots: int)
    requires len > 0 && slots > 0
    ensures slots * len > 0 && t / (slots * len) == (t / len) / slots
  {
    ProductOrder(1, slots, len);
    var q := t / len;
    var r := q / slots;
    assert t == len * q + t % len && q == slots * r + q % slots;
    assert len * q == len * (slots * r) + len * (q % slots);
    assert len * (slots * r) == r * (slots * len);
    ProductOrder(q % slots, slots - 1, len);
    ProductOrder(0, q % slots, len);
    QuotientIs(t, slots * len, r);
  }

  /** One more entry keeps a bucket's admits within those of the n buckets of v that it is made of. */
  lemma EntryInSlots(cal: Calendar, rest: seq<LogEntry>, e: LogEntry, k: Key, v: Window, lo: int, n: nat)
    requires cal.Bucket(k.window, EntryTime(e)) == k.bucket <==> lo <= cal.Bucket(v, EntryTime(e)) < lo + n
    requires AdmitsLogged(cal, rest, k) <= SumOver(cal, rest, k.user, k.channel, v, lo, n)
    ensures AdmitsLogged(cal, rest + [e], k) <= SumOver(cal, rest + [e], k.user, k.channel, v, lo, n)
  {
    assert (rest + [e])[..|rest|] == rest;
    match e
    case Admit(tk) => SumOverAdmit(cal, rest, tk, k.user, k.channel, v, lo, n);
    case Cleared(u, c, at) =>
      if KeyOf(cal, Ticket(u, c, at), k.window) != k {
        SumOverCleared(cal, rest, e, k.user, k.channel, v, lo, n);
      }
  }

  lemma {:induction false} BucketIsMadeOfSlots(cal: Calendar, log: seq<LogEntry>, k: Key, v: Window, lo: int, n: nat)
    requires forall t: int :: cal.Bucket(k.window, t) == k.bucket <==> lo <= cal.Bucket(v, t) < lo + n
    ensures AdmitsLogged(cal, log, k) <= SumOver(cal, log, k.user, k.channel, v, lo, n)
  {
    if log != [] {
      var rest, e := log[..|log| - 1], log[|log| - 1];
      BucketIsMadeOfSlots(cal, rest, k, v, lo, n);
      EntryInSlots(cal, rest, e, k, v, lo, n);
      assert log == rest + [e];
    }
  }

  lemma {:induction false} SumOverBounded(cal: Calendar, log: seq<LogEntry>, u: string, c: string, v: Window,
                                          first: int, n: nat, cap: nat)
    requires forall b: int :: AdmitsLogged(cal, log, Key(u, c, v, b)) <= cap
    ensures SumOver(cal, log, u, c, v, first, n) <= n * cap
  {
    if n > 0 {
      SumOverBounded(cal, log, u, c, v, first, n - 1, cap);
      assert n * cap == (n - 1) * cap + cap;
    }
  }

  /** Served one at a time, a bucket admits no more than the caps of its shorter windows let through. */
  lemma SerialWithinShorter(cfg: Config, len: Lengths, first: Firsts, start: int, steps: seq<Step>, u: string,
                            c: string,
                            v: Window, k: Key)
    requires cfg.calendar.Valid() && Nested(cfg.calendar, len, first) && Divides(len)
    requires k.user == u && k.channel == c && len(v) <= len(k.window)
    requires AtMostWaiting(cfg, Init(start), steps, u, c, 1) && cfg.limits(u, c).Of(v) > 0
    ensures AdmitsLogged(cfg.calendar, Run(cfg, Init(start), steps).log, k) <=
            Slots(len, k.window, v) * cfg.limits(u, c).Of(v)
  {
    var log, slots, lo := Run(cfg, Init(start), steps).log, Slots(len, k.window, v), first(k.window, v, k.bucket);
    if slots < 0 {
      ProductOrder(slots, 0, len(v));
    }
    forall b: int ensures AdmitsLogged(cfg.calendar, log, Key(u, c, v, b)) <= cfg.limits(u, c).Of(v) {
      OvershootIsBounded(cfg, start, steps, u, c, 1, Key(u, c, v, b));
    }
    BucketIsMadeOfSlots(cfg.calendar, log, k, v, lo, slots);
    SumOverBounded(cfg.calendar, log, u, c, v, lo, slots, cfg.limits(u, c).Of(v));
  }

  /** No admit in the log was read after a later reset. */
  ghost predicate Chronological(log: seq<LogEntry>) {
    forall i, j :: 0 <= i < j < |log| && log[i].Admit? && log[j].Cleared? ==> log[i].ticket.at <= log[j].at
  }

  ghost predicate Past(st: State) {
    && Chronological(st.log)
    && (forall i :: 0 <= i < |st.log| ==> EntryTime(st.log[i]) <= st.now)
    && (forall i :: 0 <= i < |st.waiting| ==> st.waiting[i].at <= st.now)
  }

  lemma NextIsPast(cfg: Config, st: State, step: Step)
    requires Past(st)
    ensures Past(Next(cfg, st, step))
  {
  }

  lemma {:induction false} NoneLogged(cal: Calendar, log: seq<LogEntry>, k: Key)
    requires forall i :: 0 <= i < |log| && log[i].Admit? ==> KeyOf(cal, log[i].ticket, k.window) != k
    ensures AdmitsLogged(cal, log, k) == 0
  {
    if log != [] {
      NoneLogged(cal, log[..|log| - 1], k);
    }
  }

  /** Each bucket of w lies in one bucket of v. */
  ghost predicate Inside(cal: Calendar, w: Window, v: Window) {
    forall t: int, at: int :: cal.Bucket(w, t) == cal.Bucket(w, at) ==> cal.Bucket(v, t) == cal.Bucket(v, at)
  }

  lemma NestedIsInside(cal: Calendar, len: Lengths, first: Firsts, w: Window, v: Window)
    requires Nested(cal, len, first) && len(w) <= len(v)
    ensures Inside(cal, w, v)
  {
    forall t: int, at: int | cal.Bucket(w, t) == cal.Bucket(w, at) ensures cal.Bucket(v, t) == cal.Bucket(v, at) {
      var b := cal.Bucket(v, at);
      assert cal.Bucket(v, at) == b <==> first(v, w, b) <= cal.Bucket(w, at) < first(v, w, b) + Slots(len, v, w);
      assert cal.Bucket(v, t) == b <==> first(v, w, b) <= cal.Bucket(w, t) < first(v, w, b) + Slots(len, v, w);
    }
  }

  /** While a bucket is current, its admits are among those of the longer window's current bucket. */
  lemma {:induction false} CurrentWithinLonger(cal: Calendar, log: seq<LogEntry>, u: string, c: string, w: Window,
                                               v: Window, at: int)
    requires cal.Valid() && Inside(cal, w, v) && Chronological(log)
    requires forall i :: 0 <= i < |log| ==> EntryTime(log[i]) <= at
    ensures AdmitsLogged(cal, log, KeyOf(cal, Ticket(u, c, at), w)) <=
            AdmitsLogged(cal, log, KeyOf(cal, Ticket(u, c, at), v))
  {
    if log != [] {
      var rest, e, k := log[..|log| - 1], log[|log| - 1], KeyOf(cal, Ticket(u, c, at), w);
      CurrentWithinLonger(cal, rest, u, c, w, v, at);
      if e.Cleared? && cal.Bucket(w, e.at) != cal.Bucket(w, at) {
        forall i | 0 <= i < |rest| && rest[i].Admit? ensures KeyOf(cal, rest[i].ticket, w) != k {
          assert log[i] == rest[i] && log[|rest|] == e;
          assert cal.Bucket(w, rest[i].ticket.at) <= cal.Bucket(w, e.at) <= cal.Bucket(w, at);
        }
        NoneLogged(cal, rest, k);
      }
    }
  }

  /** With one caller at a time, admitted and waiting callers of any bucket of w stay within the longer window's cap. */
  ghost predicate WithinLonger(cfg: Config, st: State, u: string, c: string, w: Window, v: Window) {
    forall k: Key :: k.user == u && k.channel == c && k.window == w ==>
      AdmitsLogged(cfg.calendar, st.log, k) + CountIf(st.waiting, ForKey(cfg.calendar, k)) <= cfg.limits(u, c).Of(v)
  }

  lemma ReadStaysWithinLonger(cfg: Config, st: State, u: string, c: string, w: Window, v: Window, at: int, k: Key)
    requires cfg.calendar.Valid() && AgreesWithLog(cfg.calendar, st) && Past(st) && st.now <= at
    requires Inside(cfg.calendar, w, v) && cfg.limits(u, c).Of(v) > 0
    requires Admits(cfg.calendar, st.store, cfg.limits(u, c), Ticket(u, c, at), at)
    requires CountIf(st.waiting + [Ticket(u, c, at)], ForCaller(u, c)) <= 1
    requires k == KeyOf(cfg.calendar, Ticket(u, c, at), w)
    ensures AdmitsLogged(cfg.calendar, st.log, k) + CountIf(st.waiting + [Ticket(u, c, at)], ForKey(cfg.calendar, k)) <=
            cfg.limits(u, c).Of(v)
  {
    var cal, tk := cfg.calendar, Ticket(u, c, at);
    CurrentWithinLonger(cal, st.log, u, c, w, v, at);
    assert Redis.Count(st.store, KeyOf(cal, tk, v), at) == AdmitsLogged(cal, st.log, KeyOf(cal, tk, v));
    CountIfWeaker(st.waiting + [tk], ForKey(cal, k), ForCaller(u, c));
  }

  lemma NextWithinLonger(cfg: Config, st: State, step: Step, u: string, c: string, w: Window, v: Window)
    requires cfg.calendar.Valid() && AgreesWithLog(cfg.calendar, st) && Past(st)
    requires Inside(cfg.calendar, w, v) && cfg.limits(u, c).Of(v) > 0
    requires WithinLonger(cfg, st, u, c, w, v) && CountIf(Next(cfg, st, step).waiting, ForCaller(u, c)) <= 1
    ensures WithinLonger(cfg, Next(cfg, st, step), u, c, w, v)
  {
    var cal, st' := cfg.calendar, Next(cfg, st, step);
    forall k: Key | k.user == u && k.channel == c && k.window == w
      ensures AdmitsLogged(cal, st'.log, k) + CountIf(st'.waiting, ForKey(cal, k)) <= cfg.limits(u, c).Of(v)
    {
      match step
      case Read(ru, rc, at) =>
        if st'.waiting != st.waiting {
          var tk := Ticket(ru, rc, at);
          CountIfSnoc(st.waiting, tk, ForKey(cal, k));
          if ForKey(cal, k)(tk) {
            ReadStaysWithinLonger(cfg, st, u, c, w, v, at, k);
          }
        }
      case _ => NonReadMovesNoSum(cfg, st, step, k);
    }
  }

  lemma {:induction false} RunWithinLonger(cfg: Config, st: State, steps: seq<Step>, u: string, c: string, w: Window,
                                           v: Window)
    requires cfg.calendar.Valid() && AgreesWithLog(cfg.calendar, st) && Past(st)
    requires Inside(cfg.calendar, w, v) && cfg.limits(u, c).Of(v) > 0
    requires WithinLonger(cfg, st, u, c, w, v) && AtMostWaiting(cfg, st, steps, u, c, 1)
    ensures WithinLonger(cfg, Run(cfg, st, steps), u, c, w, v)
    decreases |steps|
  {
    if steps != [] {
      NextAgreesWithLog(cfg, st, steps[0]);
      NextIsPast(cfg, st, steps[0]);
      NextWithinLonger(cfg, st, steps[0], u, c, w, v);
      RunWithinLonger(cfg, Next(cfg, st, steps[0]), steps[1..], u, c, w, v);
    }
  }

  lemma ReachedIsAttainable(cfg: Config, len: Lengths, first: Firsts, u: string, c: string, w: Window, v: Window)
    requires cfg.calendar.Valid() && Nested(cfg.calendar, len, first) && Divides(len)
    requires cfg.limits(u, c).Of(v) > 0 && BoundIsReached(cfg, u, c, w, 1)
    ensures cfg.limits(u, c).Of(w) <= Slots(len, w, v) * cfg.limits(u, c).Of(v)
  {
    var start: int, steps: seq<Step>, k: Key :|
      && k.user == u && k.channel == c && k.window == w
      && AtMostWaiting(cfg, Init(start), steps, u, c, 1)
      && AdmitsLogged(cfg.calendar, Run(cfg, Init(start), steps).log, k) == cfg.limits(u, c).Of(w) + 1 - 1;
    if len(v) <= len(w) {
      SerialWithinShorter(cfg, len, first, start, steps, u, c, v, k);
    } else {
      InitAgrees(cfg.calendar, start);
      NestedIsInside(cfg.calendar, len, first, w, v);
      RunWithinLonger(cfg, Init(start), steps, u, c, w, v);
    }
  }

  /**
   With buckets that nest, one of w of full length: every crowd takes some bucket of w to its bound iff a serial caller
   does, and iff no other cap in force is too tight for it, counting the shorter buckets that make up one of w.
   */
  lemma EveryCrowdReachesIffAttainable(cfg: Config, len: Lengths, first: Firsts, u: string, c: string, w: Window,
                                       start: int)
    requires cfg.calendar.Valid() && Bounded(cfg.calendar, len) && Divides(len) && Nested(cfg.calendar, len, first)
    requires cfg.calendar.Bucket(w, start) == cfg.calendar.Bucket(w, start + len(w) - 1)
    requires cfg.limits(u, c).Of(w) > 0
    ensures Attainable(len, cfg.limits(u, c), w) <==> BoundIsReached(cfg, u, c, w, 1)
    ensures Attainable(len, cfg.limits(u, c), w) <==> forall most: nat | most >= 1 :: BoundIsReached(cfg, u, c, w, most)
  {
    if Attainable(len, cfg.limits(u, c), w) {
      forall most: nat | most >= 1 ensures BoundIsReached(cfg, u, c, w, most) {
        AttainableIsReached(cfg, len, u, c, w, start, most);
      }
    }
    if BoundIsReached(cfg, u, c, w, 1) {
      forall v: Window | cfg.limits(u, c).Of(v) > 0
        ensures cfg.limits(u, c).Of(w) <= Slots(len, w, v) * cfg.limits(u, c).Of(v)
      {
        ReachedIsAttainable(cfg, len, first, u, c, w, v);
      }
    }
  }

  /**
   If the week token cuts weeks into days, the default weekly cap is never filled: the daily one is too tight for it.
   */
  lemma DayLongWeekIsNeverFull(cfg: Config, len: Lengths, off: Lengths, u: string, c: string)
    requires Periodic(cfg.calendar, len, off) && len(Day) == len(Week) && cfg.limits(u, c) == DEFAULT_LIMITS
    ensures !BoundIsReached(cfg, u, c, Week, 1)
  {
    var first := PeriodicIsNested(cfg.calendar, len, off);
    PeriodicIsValid(cfg.calendar, len, off);
    assert Slots(len, Week, Day) == 1 by {
      assert 0 < len(Day);
      QuotientIs(len(Week), len(Day), 1);
    }
    assert !Attainable(len, DEFAULT_LIMITS, Week) by {
      assert DEFAULT_LIMITS.Of(Day) == 50 && DEFAULT_LIMITS.Of(Week) == 200;
    }
    EveryCrowdReachesIffAttainable(cfg, len, first, u, c, Week, off(Week));
  }

  lemma TwoBuckets(from: int, t: int, len: int)
    requires len > 0 && from <= t < from + len
    ensures t / len == from / len || t / len == from / len + 1
  {
    var q, r := from / len, from % len;
    assert from == q * len + r && 0 <= r < len;
    if t < (q + 1) * len {
      QuotientIs(t, len, q);
    } else {
      assert (q + 2) * len == q * len + 2 * len;
      QuotientIs(t, len, q + 1);
    }
  }

  lemma QuotientIs(t: int, len: int, q: int)
    requires len > 0 && q * len <= t < (q + 1) * len
    ensures t / len == q
  {
    var p := t / len;
    assert t == p * len + t % len;
    ProductStep(p, q, len);
    ProductStep(q, p, len);
  }

  lemma ProductStep(a: int, b: int, len: int)
    requires len > 0
    ensures a < b ==> (a + 1) * len <= b * len
  {
    if a < b {
      assert (b - (a + 1)) * len >= 0;
    }
  }
}
