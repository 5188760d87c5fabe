/**
 The four-dimensional frequency cap (app/redis/frequency_cap_v2.py): per user and day, per channel and
 day, per event category and hour, and a cooldown per event code. Critical events bypass every cap and
 mandatory ones the channel cap; both still move every counter.
 */
module SpecFrequencyCap {
  import opened Counting
  import Redis
  import FC = FrequencyCap

  const GLOBAL_DAILY_CAP := 12
  const CATEGORY_HOURLY_CAP := 3
  const SAME_TYPE_COOLDOWN_SECONDS := 900

  function ChannelDailyCap(channel: string): int {
    if channel == "sms" then 5
    else if channel == "push" then 8
    else if channel == "email" then 3
    else if channel == "whatsapp" then 5
    else if channel == "in_app" then 50
    else 10
  }

  /** The part of an event code before its first dash, or all of it. */
  function Category(code: string): string {
    if code == "" || code[0] == '-' then "" else [code[0]] + Category(code[1..])
  }

  lemma {:induction false} CategoryIsPrefix(code: string)
    ensures '-' !in Category(code)
    ensures Category(code) <= code && (Category(code) == code || code[|Category(code)|] == '-')
  {
    if code != "" && code[0] != '-' {
      CategoryIsPrefix(code[1..]);
      assert code == [code[0]] + code[1..];
    }
  }

  datatype Key =
    | Global(user: string, day: int)
    | Channel(user: string, channel: string, day: int)
    | InCategory(user: string, category: string, hour: int)
    | Cooldown(user: string, code: string)

  datatype Request = Request(user: string, channel: string, code: string, critical: bool, mandatory: bool, at: int)

  datatype Cap = GlobalDaily | ChannelDaily | CategoryHourly | SameType

  datatype Outcome =
    | Bypassed
    | Allowed(globalCount: int, channelCount: int, categoryCount: int)
    | Refused(cap: Cap)

  function GlobalKey(cal: FC.Calendar, r: Request): Key {
    Global(r.user, cal.Bucket(FC.Day, r.at))
  }

  function ChannelKey(cal: FC.Calendar, r: Request): Key {
    Channel(r.user, r.channel, cal.Bucket(FC.Day, r.at))
  }

  function CategoryKey(cal: FC.Calendar, r: Request): Key {
    InCategory(r.user, Category(r.code), cal.Bucket(FC.Hour, r.at))
  }

  function CooldownKey(r: Request): Key {
    Cooldown(r.user, r.code)
  }

  function IncrementAll(cal: FC.Calendar, s: Redis.Store<Key, int>, r: Request): Redis.Store<Key, int> {
    Redis.SetEx(
      Redis.Bump(
        Redis.Bump(Redis.Bump(s, GlobalKey(cal, r), 86400, r.at), ChannelKey(cal, r), 86400, r.at),
        CategoryKey(cal, r), 3600, r.at),
      CooldownKey(r), 1, SAME_TYPE_COOLDOWN_SECONDS, r.at)
  }

  /** Which keys a send refreshes, and for how long. */
  lemma LiveAfterIncrement(cal: FC.Calendar, s: Redis.Store<Key, int>, r: Request, k: Key, t: int)
    ensures Redis.Live(IncrementAll(cal, s, r), k, t) ==
            if k == Cooldown(r.user, r.code) then t < r.at + 900
            else if k == Global(r.user, cal.Bucket(FC.Day, r.at)) then t < r.at + 86400
            else if k == Channel(r.user, r.channel, cal.Bucket(FC.Day, r.at)) then t < r.at + 86400
            else if k == InCategory(r.user, Category(r.code), cal.Bucket(FC.Hour, r.at)) then t < r.at + 3600
            else Redis.Live(s, k, t)
  {
    hide Category;
  }

  /** Which counters it moves. */
  lemma CountAfterIncrement(cal: FC.Calendar, s: Redis.Store<Key, int>, r: Request, k: Key, t: int)
    requires !k.Cooldown? && Redis.Live(IncrementAll(cal, s, r), k, t)
    ensures Redis.Count(IncrementAll(cal, s, r), k, t) ==
            if k == Global(r.user, cal.Bucket(FC.Day, r.at))
               || k == Channel(r.user, r.channel, cal.Bucket(FC.Day, r.at))
               || k == InCategory(r.user, Category(r.code), cal.Bucket(FC.Hour, r.at))
            then Redis.Count(s, k, r.at) + 1 else Redis.Count(s, k, t)
  {
    hide Category;
  }

  function Verdict(cal: FC.Calendar, s: Redis.Store<Key, int>, r: Request): Outcome {
    var g := Redis.Count(s, GlobalKey(cal, r), r.at);
    var c := Redis.Count(s, ChannelKey(cal, r), r.at);
    var k := Redis.Count(s, CategoryKey(cal, r), r.at);
    if r.critical then Bypassed
    else if g >= GLOBAL_DAILY_CAP then Refused(GlobalDaily)
    else if !r.mandatory && c >= ChannelDailyCap(r.channel) then Refused(ChannelDaily)
    else if k >= CATEGORY_HOURLY_CAP then Refused(CategoryHourly)
    else if Redis.Live(s, CooldownKey(r), r.at) then Refused(SameType)
    else Allowed(g + 1, c + 1, k + 1)
  }

  function WithoutUser(s: Redis.Store<Key, int>, user: string): Redis.Store<Key, int> {
    map k | k in s && k.user != user :: s[k]
  }

  class SpecFrequencyCapService {
    const redis: Redis.Server<Key>
    const calendar: FC.Calendar

    constructor (redis: Redis.Server<Key>, calendar: FC.Calendar)
      ensures this.redis == redis && this.calendar == calendar
    {
      this.redis := redis;
      this.calendar := calendar;
    }

    method CheckAndIncrement(r: Request) returns (outcome: Outcome)
      modifies redis
      ensures outcome == Verdict(calendar, old(redis.store), r)
      ensures redis.store == if outcome.Refused? then old(redis.store) else IncrementAll(calendar, old(redis.store), r)
      ensures var day, hour := calendar.Bucket(FC.Day, r.at), calendar.Bucket(FC.Hour, r.at);
              var sent := old(Redis.Count(redis.store, Global(r.user, day), r.at));
              var onChannel := old(Redis.Count(redis.store, Channel(r.user, r.channel, day), r.at));
              var inCategory := old(Redis.Count(redis.store, InCategory(r.user, Category(r.code), hour), r.at));
              var channelCap := if r.channel == "sms" || r.channel == "whatsapp" then 5
                                else if r.channel == "push" then 8
                                else if r.channel == "email" then 3
                                else if r.channel == "in_app" then 50
                                else 10;
              outcome == if r.critical then Bypassed
                         else if sent >= 12 then Refused(GlobalDaily)
                         else if !r.mandatory && onChannel >= channelCap then Refused(ChannelDaily)
                         else if inCategory >= 3 then Refused(CategoryHourly)
                         else if old(Redis.Live(redis.store, Cooldown(r.user, r.code), r.at)) then Refused(SameType)
                         else Allowed(sent + 1, onChannel + 1, inCategory + 1)
    {
      if r.critical {
        Increment(r);
        return Bypassed;
      }
      var globalCount := redis.GetCount(GlobalKey(calendar, r), r.at);
      var channelCount := redis.GetCount(ChannelKey(calendar, r), r.at);
      var categoryCount := redis.GetCount(CategoryKey(calendar, r), r.at);
      var inCooldown := redis.Exists(CooldownKey(r), r.at);
      if globalCount >= GLOBAL_DAILY_CAP {
        return Refused(GlobalDaily);
      }
      if !r.mandatory && channelCount >= ChannelDailyCap(r.channel) {
        return Refused(ChannelDaily);
      }
      if categoryCount >= CATEGORY_HOURLY_CAP {
        return Refused(CategoryHourly);
      }
      if inCooldown {
        return Refused(SameType);
      }
      Increment(r);
      return Allowed(globalCount + 1, channelCount + 1, categoryCount + 1);
    }

    method Increment(r: Request)
      modifies redis
      ensures redis.store == IncrementAll(calendar, old(redis.store), r)
      ensures forall k: Key, t: int :: Redis.Live(redis.store, k, t) ==
                if k == Cooldown(r.user, r.code) then t < r.at + 900
                else if k == Global(r.user, calendar.Bucket(FC.Day, r.at)) then t < r.at + 86400
                else if k == Channel(r.user, r.channel, calendar.Bucket(FC.Day, r.at)) then t < r.at + 86400
                else if k == InCategory(r.user, Category(r.code), calendar.Bucket(FC.Hour, r.at)) then t < r.at + 3600
                else old(Redis.Live(redis.store, k, t))
      ensures forall k: Key, t: int :: !k.Cooldown? && Redis.Live(redis.store, k, t) ==>
                Redis.Count(redis.store, k, t) ==
                if k == Global(r.user, calendar.Bucket(FC.Day, r.at))
                   || k == Channel(r.user, r.channel, calendar.Bucket(FC.Day, r.at))
                   || k == InCategory(r.user, Category(r.code), calendar.Bucket(FC.Hour, r.at))
                then old(Redis.Count(redis.store, k, r.at)) + 1 else old(Redis.Count(redis.store, k, t))
    {
      forall k: Key, t: int
        ensures Redis.Live(IncrementAll(calendar, redis.store, r), k, t) ==
                if k == Cooldown(r.user, r.code) then t < r.at + 900
                else if k == Global(r.user, calendar.Bucket(FC.Day, r.at)) then t < r.at + 86400
                else if k == Channel(r.user, r.channel, calendar.Bucket(FC.Day, r.at)) then t < r.at + 86400
                else if k == InCategory(r.user, Category(r.code), calendar.Bucket(FC.Hour, r.at)) then t < r.at + 3600
                else Redis.Live(redis.store, k, t)
      {
        LiveAfterIncrement(calendar, redis.store, r, k, t);
      }
      forall k: Key, t: int | !k.Cooldown? && Redis.Live(IncrementAll(calendar, redis.store, r), k, t)
        ensures Redis.Count(IncrementAll(calendar, redis.store, r), k, t) ==
                if k == Global(r.user, calendar.Bucket(FC.Day, r.at))
                   || k == Channel(r.user, r.channel, calendar.Bucket(FC.Day, r.at))
                   || k == InCategory(r.user, Category(r.code), calendar.Bucket(FC.Hour, r.at))
                then Redis.Count(redis.store, k, r.at) + 1 else Redis.Count(redis.store, k, t)
      {
        CountAfterIncrement(calendar, redis.store, r, k, t);
      }
      var _ := redis.IncrKey(GlobalKey(calendar, r), r.at);
      redis.ExpireKey(GlobalKey(calendar, r), 86400, r.at);
      var _ := redis.IncrKey(ChannelKey(calendar, r), r.at);
      redis.ExpireKey(ChannelKey(calendar, r), 86400, r.at);
      var _ := redis.IncrKey(CategoryKey(calendar, r), r.at);
      redis.ExpireKey(CategoryKey(calendar, r), 3600, r.at);
      redis.SetKeyEx(CooldownKey(r), 1, SAME_TYPE_COOLDOWN_SECONDS, r.at);
    }

    /** Deletes every key of the user, whatever its day or hour. */
    method ResetUserCaps(user: string)
      modifies redis
      ensures redis.store == WithoutUser(old(redis.store), user)
    {
      var keys := set k | k in redis.store && k.user == user;
      if keys != {} {
        redis.DeleteKeys(keys);
      }
      assert forall k :: k in old(redis.store) && k.user == user ==> k in keys;
      assert redis.store.Keys == WithoutUser(old(redis.store), user).Keys;
    }
  }

  // ---------------------------------------------------------------------------------------------
  // Runs of the serial service
  // ---------------------------------------------------------------------------------------------

  datatype Event = Send(request: Request) | ResetUser(user: string, at: int)

  function At(e: Event): int {
    match e
    case Send(r) => r.at
    case ResetUser(_, at) => at
  }

  predicate Ordered(es: seq<Event>) {
    forall i, j :: 0 <= i <= j < |es| ==> At(es[i]) <= At(es[j])
  }

  /** log holds what was sent, critical or not, to each user since that user's last reset. */
  datatype State = State(store: Redis.Store<Key, int>, log: seq<Request>)

  function DropUser(log: seq<Request>, user: string): seq<Request> {
    if log == [] then []
    else
      var rest, r := DropUser(log[..|log| - 1], user), log[|log| - 1];
      if r.user == user then rest else rest + [r]
  }

  function Next(cal: FC.Calendar, st: State, e: Event): State {
    match e
    case Send(r) =>
      if Verdict(cal, st.store, r).Refused? then st
      else State(IncrementAll(cal, st.store, r), st.log + [r])
    case ResetUser(u, _) => State(WithoutUser(st.store, u), DropUser(st.log, u))
  }

  /** The state after the first n events of a run that starts on an empty key space. */
  function After(cal: FC.Calendar, es: seq<Event>, n: nat): State
    requires n <= |es|
  {
    if n == 0 then State(map[], []) else Next(cal, After(cal, es, n - 1), es[n - 1])
  }

  /** The sends a counter key is about. */
  function On(cal: FC.Calendar, k: Key): Request -> bool {
    (r: Request) =>
      match k
      case Global(_, _) => GlobalKey(cal, r) == k
      case Channel(_, _, _) => ChannelKey(cal, r) == k
      case InCategory(_, _, _) => CategoryKey(cal, r) == k
      case Cooldown(_, _) => CooldownKey(r) == k
  }

  /** t lies in the day or hour the key is named after. */
  predicate Current(cal: FC.Calendar, k: Key, t: int) {
    match k
    case Global(_, day) => cal.Bucket(FC.Day, t) == day
    case Channel(_, _, day) => cal.Bucket(FC.Day, t) == day
    case InCategory(_, _, hour) => cal.Bucket(FC.Hour, t) == hour
    case Cooldown(_, _) => false
  }

  /** Counters count the log, and a cooldown is on exactly while its code was sent less than 900 s ago. */
  ghost predicate AgreesWithLog(cal: FC.Calendar, st: State, now: int) {
    && (forall r :: r in st.log ==> r.at <= now)
    && (forall k: Key,
          t: int :: now <= t && Current(cal, k, t) ==> Redis.Count(st.store, k, t) == CountIf(st.log, On(cal, k)))
    && (forall k: Key, t: int :: now <= t && k.Cooldown? ==>
          (Redis.Live(st.store, k, t) <==>
              exists r :: r in st.log && CooldownKey(r) == k && t < r.at + SAME_TYPE_COOLDOWN_SECONDS))
  }

  lemma IncrementAllCounts(cal: FC.Calendar, s: Redis.Store<Key, int>, r: Request, k: Key, t: int)
    requires cal.Valid() && r.at <= t
    ensures Current(cal, k, t) ==>
              Redis.Count(IncrementAll(cal, s, r), k, t) ==
              if On(cal, k)(r) then Redis.Count(s, k, r.at) + 1 else Redis.Count(s, k, t)
    ensures k.Cooldown? ==>
              (Redis.Live(IncrementAll(cal, s, r), k, t) <==>
               if k == CooldownKey(r) then t < r.at + SAME_TYPE_COOLDOWN_SECONDS else Redis.Live(s, k, t))
  {
    var g, c, y := GlobalKey(cal, r), ChannelKey(cal, r), CategoryKey(cal, r);
    var s1 := Redis.Bump(s, g, 86400, r.at);
    var s2 := Redis.Bump(s1, c, 86400, r.at);
    Redis.BumpCounts(s, g, 86400, r.at, k, t);
    Redis.BumpCounts(s, g, 86400, r.at, k, r.at);
    Redis.BumpCounts(s1, c, 86400, r.at, k, t);
    Redis.BumpCounts(s1, c, 86400, r.at, k, r.at);
    Redis.BumpCounts(s2, y, 3600, r.at, k, t);
    assert FC.Ttl(FC.Day) == 86400 && FC.Ttl(FC.Hour) == 3600;
    assert cal.Bucket(FC.Day, t) == cal.Bucket(FC.Day, r.at) ==> t - r.at < 86400;
    assert cal.Bucket(FC.Hour, t) == cal.Bucket(FC.Hour, r.at) ==> t - r.at < 3600;
  }

  lemma {:induction false} DropUserCounts(log: seq<Request>, user: string, p: Request -> bool)
    requires (forall r :: p(r) ==> r.user == user) || (forall r :: p(r) ==> r.user != user)
    ensures CountIf(DropUser(log, user), p) == if forall r :: p(r) ==> r.user != user then CountIf(log, p) else 0
  {
    if log != [] {
      var rest, r := DropUser(log[..|log| - 1], user), log[|log| - 1];
      DropUserCounts(log[..|log| - 1], user, p);
      CountIfSnoc(rest, r, p);
    }
  }

  lemma {:induction false} DropUserKeeps(log: seq<Request>, user: string, r: Request)
    ensures r in DropUser(log, user) <==> r in log && r.user != user
  {
    if log != [] {
      DropUserKeeps(log[..|log| - 1], user, r);
    }
  }

  lemma SendAgreesWithLog(cal: FC.Calendar, st: State, now: int, r: Request)
    requires cal.Valid() && AgreesWithLog(cal, st, now) && now <= r.at
    ensures AgreesWithLog(cal, State(IncrementAll(cal, st.store, r), st.log + [r]), r.at)
  {
    var s', log' := IncrementAll(cal, st.store, r), st.log + [r];
    forall k: Key, t: int | r.at <= t && Current(cal, k, t)
      ensures Redis.Count(s', k, t) == CountIf(log', On(cal, k))
    {
      IncrementAllCounts(cal, st.store, r, k, t);
      CountIfSnoc(st.log, r, On(cal, k));
    }
    forall k: Key, t: int | r.at <= t && k.Cooldown?
      ensures Redis.Live(s', k, t) <==>
              exists q :: q in log' && CooldownKey(q) == k && t < q.at + SAME_TYPE_COOLDOWN_SECONDS
    {
      IncrementAllCounts(cal, st.store, r, k, t);
      assert r in log';
    }
  }

  lemma ResetAgreesWithLog(cal: FC.Calendar, st: State, now: int, user: string, at: int)
    requires AgreesWithLog(cal, st, now) && now <= at
    ensures AgreesWithLog(cal, State(WithoutUser(st.store, user), DropUser(st.log, user)), at)
  {
    var s', log' := WithoutUser(st.store, user), DropUser(st.log, user);
    forall r ensures r in log' <==> r in st.log && r.user != user {
      DropUserKeeps(st.log, user, r);
    }
    forall k: Key, t: int | at <= t && Current(cal, k, t)
      ensures Redis.Count(s', k, t) == CountIf(log', On(cal, k))
    {
      assert forall r :: On(cal, k)(r) ==> r.user == k.user;
      DropUserCounts(st.log, user, On(cal, k));
      if k.user != user {
        assert Redis.Count(st.store, k, t) == CountIf(st.log, On(cal, k));
      } else if CountIf(log', On(cal, k)) != 0 {
        CountIfNone(log', On(cal, k));
      }
    }
    forall k: Key, t: int | at <= t && k.Cooldown?
      ensures Redis.Live(s', k, t) <==>
              exists q :: q in log' && CooldownKey(q) == k && t < q.at + SAME_TYPE_COOLDOWN_SECONDS
    {
      if k.user != user {
        assert Redis.Live(st.store, k, t) == Redis.Live(s', k, t);
      }
    }
  }

  lemma AgreesLater(cal: FC.Calendar, st: State, now: int, later: int)
    requires AgreesWithLog(cal, st, now) && now <= later
    ensures AgreesWithLog(cal, st, later)
  {
  }

  lemma NothingAgrees(cal: FC.Calendar, now: int)
    ensures AgreesWithLog(cal, State(map[], []), now)
  {
  }

  lemma {:induction false} CountersAgreeWithLog(cal: FC.Calendar, es: seq<Event>, n: nat, now: int)
    requires cal.Valid() && Ordered(es) && n <= |es| && (n > 0 ==> At(es[n - 1]) <= now)
    ensures AgreesWithLog(cal, After(cal, es, n), now)
  {
    hide AgreesWithLog, Verdict, IncrementAll, WithoutUser, DropUser;
    if n == 0 {
      NothingAgrees(cal, now);
    } else {
      var e, st := es[n - 1], After(cal, es, n - 1);
      CountersAgreeWithLog(cal, es, n - 1, At(e));
      match e {
        case Send(r) => SendAgreesWithLog(cal, st, r.at, r);
        case ResetUser(u, at) => ResetAgreesWithLog(cal, st, at, u, at);
      }
      AgreesLater(cal, After(cal, es, n), At(e), now);
    }
  }

  // ---------------------------------------------------------------------------------------------
  // The caps
  // ---------------------------------------------------------------------------------------------

  function NonCritical(cal: FC.Calendar, k: Key): Request -> bool {
    (r: Request) => On(cal, k)(r) && !r.critical
  }

  function Plain(cal: FC.Calendar, k: Key): Request -> bool {
    (r: Request) => On(cal, k)(r) && !r.critical && !r.mandatory
  }

  /** Every non-critical send comes at least the cooldown after every earlier send of its code, critical or not. */
  ghost predicate Spaced(log: seq<Request>)
  {
    log != [] ==>
      var rest, r := log[..|log| - 1], log[|log| - 1];
      && Spaced(rest)
      && (!r.critical ==> forall q :: q in rest && CooldownKey(q) == CooldownKey(r) ==>
            r.at >= q.at + SAME_TYPE_COOLDOWN_SECONDS)
  }

  ghost predicate CapsHold(cal: FC.Calendar, log: seq<Request>) {
    && (forall k: Key :: k.Global? ==> CountIf(log, NonCritical(cal, k)) <= GLOBAL_DAILY_CAP)
    && (forall k: Key :: k.InCategory? ==> CountIf(log, NonCritical(cal, k)) <= CATEGORY_HOURLY_CAP)
    && (forall k: Key :: k.Channel? ==> CountIf(log, Plain(cal, k)) <= ChannelDailyCap(k.channel))
    && Spaced(log)
  }

  lemma SendKeepsCaps(cal: FC.Calendar, st: State, r: Request)
    requires cal.Valid() && AgreesWithLog(cal, st, r.at) && CapsHold(cal, st.log)
    requires !Verdict(cal, st.store, r).Refused?
    ensures CapsHold(cal, st.log + [r])
  {
    forall k: Key
      ensures k.Global? ==> CountIf(st.log + [r], NonCritical(cal, k)) <= GLOBAL_DAILY_CAP
      ensures k.InCategory? ==> CountIf(st.log + [r], NonCritical(cal, k)) <= CATEGORY_HOURLY_CAP
      ensures k.Channel? ==> CountIf(st.log + [r], Plain(cal, k)) <= ChannelDailyCap(k.channel)
    {
      CountIfSnoc(st.log, r, NonCritical(cal, k));
      CountIfSnoc(st.log, r, Plain(cal, k));
      CountIfWeaker(st.log, NonCritical(cal, k), On(cal, k));
      CountIfWeaker(st.log, Plain(cal, k), On(cal, k));
      if On(cal, k)(r) && !k.Cooldown? {
        assert Redis.Count(st.store, k, r.at) == CountIf(st.log, On(cal, k));
      }
    }
    assert (st.log + [r])[..|st.log|] == st.log;
    if !r.critical {
      assert !Redis.Live(st.store, CooldownKey(r), r.at);
    }
  }

  lemma {:induction false} DropUserSpaced(log: seq<Request>, user: string)
    requires Spaced(log)
    ensures Spaced(DropUser(log, user))
  {
    if log != [] {
      var init, r := log[..|log| - 1], log[|log| - 1];
      DropUserSpaced(init, user);
      var rest := DropUser(init, user);
      assert (rest + [r])[..|rest|] == rest;
      forall q ensures q in rest ==> q in init {
        DropUserKeeps(init, user, q);
      }
    }
  }

  lemma ResetKeepsCaps(cal: FC.Calendar, log: seq<Request>, user: string)
    requires CapsHold(cal, log)
    ensures CapsHold(cal, DropUser(log, user))
  {
    forall k: Key
      ensures CountIf(DropUser(log, user), NonCritical(cal, k)) <= CountIf(log, NonCritical(cal, k))
      ensures CountIf(DropUser(log, user), Plain(cal, k)) <= CountIf(log, Plain(cal, k))
    {
      assert forall r :: On(cal, k)(r) ==> r.user == k.user;
      DropUserCounts(log, user, NonCritical(cal, k));
      DropUserCounts(log, user, Plain(cal, k));
    }
    DropUserSpaced(log, user);
  }

  lemma NothingKeepsCaps(cal: FC.Calendar)
    ensures CapsHold(cal, [])
  {
  }

  lemma NextKeepsCaps(cal: FC.Calendar, st: State, e: Event)
    requires cal.Valid() && AgreesWithLog(cal, st, At(e)) && CapsHold(cal, st.log)
    ensures CapsHold(cal, Next(cal, st, e).log)
  {
    hide CapsHold, IncrementAll, WithoutUser, AgreesWithLog;
    match e
    case Send(r) =>
      if !Verdict(cal, st.store, r).Refused? {
        SendKeepsCaps(cal, st, r);
      }
    case ResetUser(u, _) => ResetKeepsCaps(cal, st.log, u);
  }

  /**
   Over any run: per user and UTC day at most 12 non-critical sends, per category and hour at most 3, per
   channel and day at most the channel's cap of sends that are neither critical nor mandatory, and 900 s
   of cooldown before each non-critical one; all counted since the user's last reset.
   */
  lemma {:induction false} EveryRunKeepsCaps(cal: FC.Calendar, es: seq<Event>, n: nat)
    requires cal.Valid() && Ordered(es) && n <= |es|
    ensures CapsHold(cal, After(cal, es, n).log)
  {
    hide CapsHold, AgreesWithLog, Next;
    if n == 0 {
      NothingKeepsCaps(cal);
    } else {
      EveryRunKeepsCaps(cal, es, n - 1);
      CountersAgreeWithLog(cal, es, n - 1, At(es[n - 1]));
      NextKeepsCaps(cal, After(cal, es, n - 1), es[n - 1]);
    }
  }

  /** Spaced, read as a statement about any two sends. */
  lemma {:induction false} SpacedPairs(log: seq<Request>, i: nat, j: nat)
    requires Spaced(log) && i < j < |log| && !log[j].critical
    requires log[i].user == log[j].user && log[i].code == log[j].code
    ensures log[j].at - log[i].at >= SAME_TYPE_COOLDOWN_SECONDS
  {
    if j == |log| - 1 {
      assert log[i] == log[..|log| - 1][i];
    } else {
      SpacedPairs(log[..|log| - 1], i, j);
    }
  }

  /** And the caps are not stricter than that: a refusal names a cap that the log really fills. */
  lemma RefusalsAreDue(cal: FC.Calendar, es: seq<Event>, n: nat)
    requires cal.Valid() && Ordered(es) && n < |es| && es[n].Send?
    ensures var log, r := After(cal, es, n).log, es[n].request;
            Verdict(cal, After(cal, es, n).store, r).Refused? <==>
            && !r.critical
            && (|| CountIf(log, On(cal, GlobalKey(cal, r))) >= GLOBAL_DAILY_CAP
                || (!r.mandatory && CountIf(log, On(cal, ChannelKey(cal, r))) >= ChannelDailyCap(r.channel))
                || CountIf(log, On(cal, CategoryKey(cal, r))) >= CATEGORY_HOURLY_CAP
                || SentRecently(log, r))
  {
    var st, r := After(cal, es, n), es[n].request;
    CountersAgreeWithLog(cal, es, n, r.at);
    CounterIsCount(cal, st, GlobalKey(cal, r), r.at);
    CounterIsCount(cal, st, ChannelKey(cal, r), r.at);
    CounterIsCount(cal, st, CategoryKey(cal, r), r.at);
    CooldownIsRecentSend(cal, st, r);
  }

  /** The user was sent something with this code less than the cooldown ago. */
  ghost predicate SentRecently(log: seq<Request>, r: Request) {
    exists q :: q in log && q.user == r.user && q.code == r.code && r.at - q.at < SAME_TYPE_COOLDOWN_SECONDS
  }

  lemma CounterIsCount(cal: FC.Calendar, st: State, k: Key, now: int)
    requires AgreesWithLog(cal, st, now) && Current(cal, k, now)
    ensures Redis.Count(st.store, k, now) == CountIf(st.log, On(cal, k))
  {
  }

  lemma CooldownIsRecentSend(cal: FC.Calendar, st: State, r: Request)
    requires AgreesWithLog(cal, st, r.at)
    ensures Redis.Live(st.store, CooldownKey(r), r.at) <==> SentRecently(st.log, r)
  {
    forall q ensures CooldownKey(q) == CooldownKey(r) <==> q.user == r.user && q.code == r.code {
    }
  }

  // ---------------------------------------------------------------------------------------------
  // The global counter and the channel counters
  // ---------------------------------------------------------------------------------------------

  ghost function Sum(cs: set<string>, f: string -> int): int {
    if cs == {} then 0 else var c :| c in cs; f(c) + Sum(cs - {c}, f)
  }

  lemma {:induction false} SumPick(cs: set<string>, f: string -> int, x: string)
    requires x in cs
    ensures Sum(cs, f) == f(x) + Sum(cs - {x}, f)
    decreases |cs|
  {
    var c :| c in cs && Sum(cs, f) == f(c) + Sum(cs - {c}, f);
    if c != x {
      SumPick(cs - {c}, f, x);
      SumPick(cs - {x}, f, c);
      assert cs - {c} - {x} == cs - {x} - {c};
    }
  }

  lemma {:induction false} SumOneMore(cs: set<string>, f: string -> int, g: string -> int, x: string)
    requires forall c :: c in cs ==> g(c) == f(c) + (if c == x then 1 else 0)
    ensures Sum(cs, g) == Sum(cs, f) + (if x in cs then 1 else 0)
    decreases |cs|
  {
    if cs != {} {
      var c :| c in cs;
      SumPick(cs, f, c);
      SumPick(cs, g, c);
      SumOneMore(cs - {c}, f, g, x);
    }
  }

  function LoggedOn(cal: FC.Calendar, log: seq<Request>, user: string, day: int): string -> int {
    (c: string) => CountIf(log, On(cal, Channel(user, c, day)))
  }

  function CountedOn(s: Redis.Store<Key, int>, user: string, day: int, now: int): string -> int {
    (c: string) => Redis.Count(s, Channel(user, c, day), now)
  }

  lemma {:induction false} SumEqual(cs: set<string>, f: string -> int, g: string -> int)
    requires forall c :: c in cs ==> f(c) == g(c)
    ensures Sum(cs, f) == Sum(cs, g)
    decreases |cs|
  {
    if cs != {} {
      var c :| c in cs;
      SumPick(cs, f, c);
      SumPick(cs, g, c);
      SumEqual(cs - {c}, f, g);
    }
  }

  lemma {:induction false} SumZero(cs: set<string>, f: string -> int)
    requires forall c :: c in cs ==> f(c) == 0
    ensures Sum(cs, f) == 0
    decreases |cs|
  {
    if cs != {} {
      var c :| c in cs && Sum(cs, f) == f(c) + Sum(cs - {c}, f);
      SumZero(cs - {c}, f);
    }
  }

  lemma {:induction false} LogSplitsByChannel(cal: FC.Calendar, log: seq<Request>, user: string, day: int,
                                              cs: set<string>)
    requires forall r :: r in log && On(cal, Global(user, day))(r) ==> r.channel in cs
    ensures CountIf(log, On(cal, Global(user, day))) == Sum(cs, LoggedOn(cal, log, user, day))
  {
    if log == [] {
      SumZero(cs, LoggedOn(cal, log, user, day));
    } else {
      var init, r := log[..|log| - 1], log[|log| - 1];
      LogSplitsByChannel(cal, init, user, day, cs);
      if On(cal, Global(user, day))(r) {
        SumOneMore(cs, LoggedOn(cal, init, user, day), LoggedOn(cal, log, user, day), r.channel);
      } else {
        SumEqual(cs, LoggedOn(cal, init, user, day), LoggedOn(cal, log, user, day));
      }
    }
  }

  lemma {:induction false} CountIfSome<T>(s: seq<T>, x: T, p: T -> bool)
    requires x in s && p(x)
    ensures CountIf(s, p) > 0
  {
    if s[|s| - 1] != x {
      CountIfSome(s[..|s| - 1], x, p);
    }
  }

  /**
   On the current day a user's global counter is the sum of the user's channel counters, bypasses and refusals
   included.
   */
  lemma GlobalIsSumOfChannels(cal: FC.Calendar, es: seq<Event>, n: nat, now: int, user: string, cs: set<string>)
    requires cal.Valid() && Ordered(es) && n <= |es| && (n > 0 ==> At(es[n - 1]) <= now)
    requires forall c: string :: CountedOn(After(cal, es, n).store, user, cal.Bucket(FC.Day, now), now)(c) != 0 ==>
             c in cs
    ensures Redis.Count(After(cal, es, n).store, Global(user, cal.Bucket(FC.Day, now)), now)
            == Sum(cs, CountedOn(After(cal, es, n).store, user, cal.Bucket(FC.Day, now), now))
  {
    var st, day := After(cal, es, n), cal.Bucket(FC.Day, now);
    CountersAgreeWithLog(cal, es, n, now);
    forall c: string
      ensures CountedOn(st.store, user, day, now)(c) == LoggedOn(cal, st.log, user, day)(c)
    {
      CounterIsCount(cal, st, Channel(user, c, day), now);
    }
    forall r | r in st.log && On(cal, Global(user, day))(r)
      ensures r.channel in cs
    {
      CountIfSome(st.log, r, On(cal, Channel(user, r.channel, day)));
      assert LoggedOn(cal, st.log, user, day)(r.channel) != 0;
    }
    LogSplitsByChannel(cal, st.log, user, day, cs);
    SumEqual(cs, CountedOn(st.store, user, day, now), LoggedOn(cal, st.log, user, day));
    CounterIsCount(cal, st, Global(user, day), now);
  }

  // ---------------------------------------------------------------------------------------------
  // The three counted caps alike
  // ---------------------------------------------------------------------------------------------

  /** What a cap counts. */
  datatype Dimension =
    | PerUser(user: string)
    | PerChannel(user: string, channel: string)
    | PerCategory(user: string, category: string)

  /** A channel cap above the user's never binds. */
  function Limit(d: Dimension): int {
    match d
    case PerUser(_) => GLOBAL_DAILY_CAP
    case PerChannel(_, c) => if ChannelDailyCap(c) < GLOBAL_DAILY_CAP then ChannelDailyCap(c) else GLOBAL_DAILY_CAP
    case PerCategory(_, _) => CATEGORY_HOURLY_CAP
  }

  lemma LimitIsPositive(d: Dimension)
    ensures 0 < Limit(d) <= GLOBAL_DAILY_CAP
  {
  }

  function WindowOf(d: Dimension): FC.Window {
    if d.PerCategory? then FC.Hour else FC.Day
  }

  function KeyIn(d: Dimension, bucket: int): Key {
    match d
    case PerUser(u) => Global(u, bucket)
    case PerChannel(u, c) => Channel(u, c, bucket)
    case PerCategory(u, y) => InCategory(u, y, bucket)
  }

  /** The requests the cap applies to: critical ones never, mandatory ones not for a channel. */
  function Capped(d: Dimension): Request -> bool {
    (r: Request) =>
      r.user == d.user && !r.critical &&
      match d
      case PerUser(_) => true
      case PerChannel(_, c) => r.channel == c && !r.mandatory
      case PerCategory(_, y) => Category(r.code) == y
  }

  function CappedIn(cal: FC.Calendar, d: Dimension, bucket: int): Request -> bool {
    (r: Request) => Capped(d)(r) && cal.Bucket(WindowOf(d), r.at) == bucket
  }

  // ---------------------------------------------------------------------------------------------
  // Requests that only one cap is about
  // ---------------------------------------------------------------------------------------------

  /** Codes that differ from one another and from each other's category. */
  function Code(i: nat): string {
    if i == 0 then "" else Code(i - 1) + "a"
  }

  lemma {:induction false} CodeIsPlain(i: nat)
    ensures |Code(i)| == i && '-' !in Code(i)
  {
    if i > 0 {
      CodeIsPlain(i - 1);
    }
  }

  lemma CodesDiffer(i: nat, j: nat)
    requires i != j
    ensures Code(i) != Code(j) && Category(Code(i)) != Category(Code(j))
  {
    CodeIsPlain(i);
    CodeIsPlain(j);
    WholeCategory(Code(i));
    WholeCategory(Code(j));
  }

  lemma {:induction false} WholeCategory(code: string)
    requires '-' !in code
    ensures Category(code) == code
  {
    if code != "" {
      WholeCategory(code[1..]);
      assert code == [code[0]] + code[1..];
    }
  }

  /** A request that the cap applies to, with a code of its own. */
  function Sample(d: Dimension, i: nat, at: int): Request {
    Request(d.user, if d.PerChannel? then d.channel else "in_app",
            if d.PerCategory? then d.category + "-" + Code(i) else Code(i), false, false, at)
  }

  /** The first n samples, each at its own time. */
  function Samples(d: Dimension, n: nat, when: nat -> int): seq<Request> {
    if n == 0 then [] else Samples(d, n - 1, when) + [Sample(d, n - 1, when(n - 1))]
  }

  lemma {:induction false} CategoryBeforeDash(y: string, rest: string)
    requires '-' !in y
    ensures Category(y + "-" + rest) == y
  {
    if y == "" {
      assert y + "-" + rest == "-" + rest;
    } else {
      CategoryBeforeDash(y[1..], rest);
      assert (y + "-" + rest)[1..] == y[1..] + "-" + rest;
      assert y == [y[0]] + y[1..];
    }
  }

  /** No request has a category with a dash in it. */
  predicate Nameable(d: Dimension) {
    d.PerCategory? ==> '-' !in d.category
  }

  lemma SampleTime(d: Dimension, i: nat, at: int)
    ensures Sample(d, i, at).at == at
  {
  }

  lemma SampleIsCapped(d: Dimension, i: nat, at: int)
    requires Nameable(d)
    ensures Capped(d)(Sample(d, i, at))
  {
    if d.PerCategory? {
      CategoryBeforeDash(d.category, Code(i));
    }
  }

  /** Distinct samples have distinct codes, and but for a category of their own, distinct categories. */
  lemma SamplesDiffer(d: Dimension, i: nat, t: int, j: nat, u: int)
    requires i != j
    ensures Sample(d, i, t).code != Sample(d, j, u).code
    ensures !d.PerCategory? ==> Category(Sample(d, i, t).code) != Category(Sample(d, j, u).code)
  {
    CodesDiffer(i, j);
    if d.PerCategory? {
      DifferBehind(d.category + "-", Code(i), Code(j));
    }
  }

  lemma DifferBehind(s: string, a: string, b: string)
    requires a != b
    ensures s + a != s + b
  {
    assert (s + a)[|s|..] == a;
    assert (s + b)[|s|..] == b;
  }

  lemma {:induction false} SamplesAre(d: Dimension, n: nat, when: nat -> int)
    ensures |Samples(d, n, when)| == n
    ensures forall i: nat :: i < n ==> Samples(d, n, when)[i] == Sample(d, i, when(i))
  {
    hide Sample;
    if n > 0 {
      SamplesAre(d, n - 1, when);
    }
  }

  /** What it takes for a counter to be about a send. */
  lemma OnKeys(cal: FC.Calendar, r: Request, other: string, bucket: int)
    ensures On(cal, Global(r.user, bucket))(r) <==> cal.Bucket(FC.Day, r.at) == bucket
    ensures On(cal, Channel(r.user, other, bucket))(r) <==> r.channel == other && cal.Bucket(FC.Day, r.at) == bucket
    ensures On(cal, InCategory(r.user, other, bucket))(r) <==>
            Category(r.code) == other && cal.Bucket(FC.Hour, r.at) == bucket
  {
  }

  /** None of the first n samples has the code of a later one, nor counts for its category but by the cap's own. */
  lemma LaterSampleIsNew(cal: FC.Calendar, d: Dimension, n: nat, when: nat -> int, j: nat, at: int)
    requires n <= j
    ensures !SentRecently(Samples(d, n, when), Sample(d, j, at))
    ensures !d.PerCategory? ==> CountIf(Samples(d, n, when), On(cal, CategoryKey(cal, Sample(d, j, at)))) == 0
  {
    hide Sample, On, CountIf;
    var r, log := Sample(d, j, at), Samples(d, n, when);
    SamplesAre(d, n, when);
    forall i: nat | i < n
      ensures log[i].code != r.code && (!d.PerCategory? ==> !On(cal, CategoryKey(cal, r))(log[i]))
    {
      SamplesDiffer(d, i, when(i), j, at);
      SameUser(d, i, when(i), j, at);
      OnKeys(cal, log[i], Category(r.code), cal.Bucket(FC.Hour, r.at));
    }
    if !d.PerCategory? {
      CountIfNone(log, On(cal, CategoryKey(cal, r)));
    }
  }

  lemma SameUser(d: Dimension, i: nat, t: int, j: nat, u: int)
    ensures Sample(d, i, t).user == Sample(d, j, u).user && Sample(d, i, t).channel == Sample(d, j, u).channel
  {
  }

  /** What the four caps ask of a request that is neither critical nor mandatory. */
  ghost predicate HasRoom(cal: FC.Calendar, log: seq<Request>, r: Request) {
    && CountIf(log, On(cal, GlobalKey(cal, r))) < GLOBAL_DAILY_CAP
    && CountIf(log, On(cal, ChannelKey(cal, r))) < ChannelDailyCap(r.channel)
    && CountIf(log, On(cal, CategoryKey(cal, r))) < CATEGORY_HOURLY_CAP
    && !SentRecently(log, r)
  }

  /** While the samples logged leave room under their own cap, and are fewer than 12 of one category, all caps do. */
  lemma SampleHasRoom(cal: FC.Calendar, d: Dimension, n: nat, when: nat -> int, j: nat, at: int)
    requires Nameable(d) && n <= j && (d.PerCategory? ==> n < GLOBAL_DAILY_CAP)
    requires CountIf(Samples(d, n, when), CappedIn(cal, d, cal.Bucket(WindowOf(d), at))) < Limit(d)
    ensures HasRoom(cal, Samples(d, n, when), Sample(d, j, at))
  {
    hide SentRecently, Samples, CountIf;
    var r, log, p := Sample(d, j, at), Samples(d, n, when), CappedIn(cal, d, cal.Bucket(WindowOf(d), at));
    LaterSampleIsNew(cal, d, n, when, j, at);
    SamplesAre(d, n, when);
    forall i: nat | i < n ensures Capped(d)(log[i]) {
      SampleIsCapped(d, i, when(i));
    }
    SampleIsCapped(d, j, at);
    if d.PerCategory? {
      CountIfWeaker(log, On(cal, GlobalKey(cal, r)), On(cal, GlobalKey(cal, r)));
      CountIfWeaker(log, On(cal, ChannelKey(cal, r)), On(cal, GlobalKey(cal, r)));
      CountIfWeaker(log, On(cal, CategoryKey(cal, r)), p);
    } else {
      CountIfWeaker(log, On(cal, GlobalKey(cal, r)), p);
      CountIfWeaker(log, On(cal, ChannelKey(cal, r)), p);
    }
  }
}
