/**
 Quiet hours and the do-not-disturb check with its cached registry answers
 (app/services/compliance_service.py, and RedisCache of app/redis/client.py).
 */
module Compliance {
  import opened Wrappers
  import Redis

  // ---------------------------------------------------------------------------------------------
  // Quiet hours
  // ---------------------------------------------------------------------------------------------

  /** Whether sending at this local hour must wait. Critical events never wait. */
  predicate InQuietHours(critical: bool, start: int, end: int, hour: int) {
    !critical && if start > end then hour >= start || hour < end else start <= hour < end
  }

  /** Hours on the clock face: quiet hours are the arc from start up to, and without, end; equal ends are no arc. */
  lemma QuietHoursAreAnArc(start: int, end: int, hour: int)
    requires 0 <= start < 24 && 0 <= end < 24 && 0 <= hour < 24
    ensures InQuietHours(false, start, end, hour) <==> (hour - start) % 24 < (end - start) % 24
  {
    assert (hour - start) % 24 == if hour >= start then hour - start else hour - start + 24;
    assert (end - start) % 24 == if end >= start then end - start else end - start + 24;
  }

  // ---------------------------------------------------------------------------------------------
  // The registry check
  // ---------------------------------------------------------------------------------------------

  const DND_CACHE_TTL := 86400

  /** What the registry's JSON says; None is a null, which the API may send in place of a flag. */
  type Answer = Option<bool>

  datatype Lookup = Unconfigured | Failed | Answered(answer: Answer)

  /** A missing configuration, an error and any status but 200 all read as "not registered". */
  function AnswerOf(l: Lookup): Answer {
    match l
    case Unconfigured => Some(false)
    case Failed => Some(false)
    case Answered(a) => a
  }

  datatype Config = Config(enabled: bool, cached: bool)

  datatype Check = Check(phone: string, exempt: bool, at: int, lookup: Lookup)

  datatype Verdict = Clear | Registered

  datatype Query = Query(phone: string, at: int, answer: Answer)

  /** The cache, and every query the registry has answered. */
  datatype State = State(cache: Redis.Store<string, Answer>, queries: seq<Query>)

  function VerdictOn(a: Answer): Verdict {
    if a == Some(true) then Registered else Clear
  }

  predicate Skipped(cfg: Config, c: Check) {
    c.exempt || !cfg.enabled
  }

  /** The usable cached answer: a cached null reads like a missing key. */
  function Cached(cfg: Config, st: State, c: Check): Answer {
    if !cfg.cached then None
    else
      match Redis.Get(st.cache, c.phone, c.at)
      case None => None
      case Some(a) => a
  }

  predicate Asks(cfg: Config, st: State, c: Check) {
    !Skipped(cfg, c) && Cached(cfg, st, c) == None
  }

  function Next(cfg: Config, st: State, c: Check): State {
    if !Asks(cfg, st, c) then st
    else
      var a := AnswerOf(c.lookup);
      State(if cfg.cached then Redis.SetEx(st.cache, c.phone, a, DND_CACHE_TTL, c.at) else st.cache,
            st.queries + [Query(c.phone, c.at, a)])
  }

  function Decide(cfg: Config, st: State, c: Check): Verdict {
    if Skipped(cfg, c) then Clear
    else if Asks(cfg, st, c) then VerdictOn(AnswerOf(c.lookup))
    else VerdictOn(Cached(cfg, st, c))
  }

  class ComplianceService {
    const config: Config
    var cache: map<string, Redis.Entry<Answer>>
    var queries: seq<Query>

    constructor (config: Config)
      ensures this.config == config && cache == map[] && queries == []
    {
      this.config := config;
      cache, queries := map[], [];
    }

    method CheckDnd(c: Check) returns (verdict: Verdict)
      modifies this
      ensures verdict == Decide(config, old(State(cache, queries)), c)
      ensures State(cache, queries) == Next(config, old(State(cache, queries)), c)
      ensures c.exempt || !config.enabled ==> verdict == Clear && cache == old(cache) && queries == old(queries)
      ensures !c.exempt && config.enabled ==>
                var answered := config.cached && Redis.Live(old(cache), c.phone, c.at) &&
                                old(cache)[c.phone].value != None;
                var answer := if c.lookup.Answered? then c.lookup.answer else Some(false);
                && (verdict == Registered <==>
                    if answered then old(cache)[c.phone].value == Some(true) else c.lookup == Answered(Some(true)))
                && queries == old(queries) + (if answered then [] else [Query(c.phone, c.at, answer)])
                && cache == if answered || !config.cached then old(cache)
                            else old(cache)[c.phone := Redis.Entry(answer, Some(c.at + 86400))]
    {
      if c.exempt {
        return Clear;
      }
      if !config.enabled {
        return Clear;
      }
      if config.cached {
        var cached := CacheGet(c.phone, c.at);
        if cached.Some? {
          return if cached.value then Registered else Clear;
        }
      }
      var isDnd := QueryRegistry(c.phone, c.at, c.lookup);
      if config.cached {
        cache := cache[c.phone := Redis.Entry(isDnd, Some(c.at + DND_CACHE_TTL))];
      }
      verdict := if isDnd == Some(true) then Registered else Clear;
    }

    method CacheGet(phone: string, now: int) returns (a: Answer)
      ensures a == match Redis.Get(cache, phone, now) case None => None case Some(v) => v
    {
      a := None;
      if phone in cache && (cache[phone].deadline == None || now < cache[phone].deadline.value) {
        a := cache[phone].value;
      }
    }

    method QueryRegistry(phone: string, now: int, lookup: Lookup) returns (a: Answer)
      modifies this`queries
      ensures a == AnswerOf(lookup)
      ensures queries == old(queries) + [Query(phone, now, a)]
    {
      a := if lookup.Answered? then lookup.answer else Some(false);
      queries := queries + [Query(phone, now, a)];
    }
  }

  // ---------------------------------------------------------------------------------------------
  // Runs
  // ---------------------------------------------------------------------------------------------

  /** Redis may drop a cached answer before its time. */
  datatype Event = Do(check: Check) | Evict(phone: string, at: int)

  function At(e: Event): int {
    match e
    case Do(c) => c.at
    case Evict(_, at) => at
  }

  predicate Ordered(es: seq<Event>) {
    forall i, j :: 0 <= i <= j < |es| ==> At(es[i]) <= At(es[j])
  }

  /** The state after the first n events of a run that starts with an empty cache. */
  function After(cfg: Config, es: seq<Event>, n: nat): State
    requires n <= |es|
  {
    if n == 0 then State(map[], [])
    else
      var st := After(cfg, es, n - 1);
      match es[n - 1]
      case Do(c) => Next(cfg, st, c)
      case Evict(p, _) => st.(cache := Redis.Delete(st.cache, p))
  }

  /** Every cached answer is one the registry gave, cached since then. */
  ghost predicate CacheIsHonest(st: State, now: int) {
    && (forall q :: q in st.queries ==> q.at <= now)
    && (forall p :: p in st.cache ==>
          st.cache[p].deadline.Some? &&
              Query(p, st.cache[p].deadline.value - DND_CACHE_TTL, st.cache[p].value) in st.queries)
  }

  lemma {:induction false} CacheStaysHonest(cfg: Config, es: seq<Event>, n: nat, now: int)
    requires Ordered(es) && n <= |es| && (n > 0 ==> At(es[n - 1]) <= now)
    ensures CacheIsHonest(After(cfg, es, n), now)
  {
    if n > 0 {
      var st := After(cfg, es, n - 1);
      CacheStaysHonest(cfg, es, n - 1, At(es[n - 1]));
      if es[n - 1].Do? && Asks(cfg, st, es[n - 1].check) {
        var c := es[n - 1].check;
        var st' := Next(cfg, st, c);
        assert st'.queries[|st.queries|] == Query(c.phone, c.at, AnswerOf(c.lookup));
        assert forall q :: q in st.queries ==> q in st'.queries;
      }
    }
  }

  /** Every verdict is the registry's own answer for that phone, obtained less than 86400 s earlier. */
  lemma VerdictIsRecentAnswer(cfg: Config, es: seq<Event>, n: nat) returns (q: Query)
    requires Ordered(es) && n < |es| && es[n].Do? && !Skipped(cfg, es[n].check)
    ensures var c := es[n].check;
            && q in After(cfg, es, n + 1).queries && q.phone == c.phone
            && 0 <= c.at - q.at < DND_CACHE_TTL
            && Decide(cfg, After(cfg, es, n), c) == VerdictOn(q.answer)
  {
    var st, c := After(cfg, es, n), es[n].check;
    CacheStaysHonest(cfg, es, n, c.at);
    if Asks(cfg, st, c) {
      q := Query(c.phone, c.at, AnswerOf(c.lookup));
      assert Next(cfg, st, c).queries[|st.queries|] == q;
    } else {
      q := Query(c.phone, st.cache[c.phone].deadline.value - DND_CACHE_TTL, st.cache[c.phone].value);
    }
  }

  /** Check m got through to the registry, which is why it is on record. */
  ghost predicate Recorded(cfg: Config, es: seq<Event>, m: nat, q: Query) {
    && m < |es| && es[m].Do?
    && var c := es[m].check;
       && Asks(cfg, After(cfg, es, m), c)
       && q == Query(c.phone, c.at, if c.lookup.Answered? then c.lookup.answer else Some(false))
  }

  lemma {:induction false} QueryHasLookup(cfg: Config, es: seq<Event>, n: nat, q: Query) returns (m: nat)
    requires n <= |es| && q in After(cfg, es, n).queries
    ensures m < n && Recorded(cfg, es, m, q)
  {
    m := n - 1;
    if q in After(cfg, es, n - 1).queries {
      m := QueryHasLookup(cfg, es, n - 1, q);
    }
  }

  /**
   In terms of the registry's replies: a check that is made finds the phone registered iff the registry, asked for that
   phone by a check less than a day before, or by this one, replied `true`; a check that is not made is always clear.
   */
  lemma RegisteredIffRepliedTrue(cfg: Config, es: seq<Event>, n: nat) returns (m: nat)
    requires Ordered(es) && n < |es| && es[n].Do?
    ensures es[n].check.exempt || !cfg.enabled ==> Decide(cfg, After(cfg, es, n), es[n].check) == Clear
    ensures !es[n].check.exempt && cfg.enabled ==>
              && m <= n && es[m].Do?
              && var c, asked := es[n].check, es[m].check;
                 && asked.phone == c.phone && !asked.exempt && 0 <= c.at - asked.at < 86400
                 && |After(cfg, es, m + 1).queries| == |After(cfg, es, m).queries| + 1
                 && (Decide(cfg, After(cfg, es, n), c) == Registered <==> asked.lookup == Answered(Some(true)))
  {
    m := n;
    if !es[n].check.exempt && cfg.enabled {
      var q := VerdictIsRecentAnswer(cfg, es, n);
      m := QueryHasLookup(cfg, es, n + 1, q);
    }
  }

  // ---------------------------------------------------------------------------------------------
  // How often the registry is asked
  // ---------------------------------------------------------------------------------------------

  function LastQuery(qs: seq<Query>, phone: string): Option<Query> {
    if qs == [] then None
    else if qs[|qs| - 1].phone == phone then Some(qs[|qs| - 1])
    else LastQuery(qs[..|qs| - 1], phone)
  }

  predicate NeverEvicted(es: seq<Event>) {
    forall i :: 0 <= i < |es| ==> es[i].Do?
  }

  /** What the cache holds for a phone whose last query was `last`. */
  function Remembered(last: Option<Query>, now: int): Option<Answer> {
    if last.None? || now - last.value.at >= DND_CACHE_TTL then None else Some(last.value.answer)
  }

  lemma {:induction false} CacheHoldsLastQuery(cfg: Config, es: seq<Event>, n: nat, phone: string, now: int)
    requires cfg.cached && Ordered(es) && NeverEvicted(es) && n <= |es| && (n > 0 ==> At(es[n - 1]) <= now)
    ensures var st := After(cfg, es, n);
            Redis.Get(st.cache, phone, now) == Remembered(LastQuery(st.queries, phone), now)
  {
    if n > 0 {
      CacheHoldsLastQuery(cfg, es, n - 1, phone, now);
      var st, c := After(cfg, es, n - 1), es[n - 1].check;
      if Asks(cfg, st, c) {
        var st' := Next(cfg, st, c);
        assert st'.queries[..|st.queries|] == st.queries;
      }
    }
  }

  /**
   Without evictions the registry is asked exactly when its last answer for the phone is a day old, missing, or null.
   */
  lemma AskedIffStale(cfg: Config, es: seq<Event>, n: nat)
    requires cfg.cached && Ordered(es) && NeverEvicted(es) && n < |es| && !Skipped(cfg, es[n].check)
    ensures var c := es[n].check;
            var last := LastQuery(After(cfg, es, n).queries, c.phone);
            Asks(cfg, After(cfg, es, n), c) <==>
            last.None? || c.at - last.value.at >= DND_CACHE_TTL || last.value.answer == None
  {
    CacheHoldsLastQuery(cfg, es, n, es[n].check.phone, es[n].check.at);
  }

  /** Each query follows the previous one for its phone by at least a day, unless that one was answered null. */
  ghost predicate DayApart(qs: seq<Query>) {
    qs != [] ==>
      var rest, q := qs[..|qs| - 1], qs[|qs| - 1];
      && DayApart(rest)
      && (var last := LastQuery(rest, q.phone);
          last.Some? && last.value.answer.Some? ==> q.at - last.value.at >= DND_CACHE_TTL)
  }

  lemma {:induction false} QueriesAreDayApart(cfg: Config, es: seq<Event>, n: nat)
    requires cfg.cached && Ordered(es) && NeverEvicted(es) && n <= |es|
    ensures DayApart(After(cfg, es, n).queries)
  {
    if n > 0 {
      QueriesAreDayApart(cfg, es, n - 1);
      var st, c := After(cfg, es, n - 1), es[n - 1].check;
      if Asks(cfg, st, c) {
        AskedIffStale(cfg, es, n - 1);
        var st' := Next(cfg, st, c);
        assert st'.queries[..|st.queries|] == st.queries;
      }
    }
  }

  /** With flags for answers, any two queries for one phone are at least a day apart. */
  lemma {:induction false} AnyTwoQueriesAreDayApart(qs: seq<Query>, i: nat, j: nat)
    requires DayApart(qs) && i < j < |qs| && qs[i].phone == qs[j].phone
    requires forall k :: 0 <= k < |qs| ==> qs[k].answer.Some?
    ensures qs[j].at - qs[i].at >= 86400
    decreases |qs|
  {
    var rest := qs[..|qs| - 1];
    if j < |qs| - 1 {
      AnyTwoQueriesAreDayApart(rest, i, j);
    } else {
      var k := LastQueryAt(rest, i);
      if k != i {
        AnyTwoQueriesAreDayApart(rest, i, k);
      }
    }
  }

  lemma {:induction false} LastQueryAt(qs: seq<Query>, i: nat) returns (k: nat)
    requires i < |qs|
    ensures i <= k < |qs| && qs[k].phone == qs[i].phone && LastQuery(qs, qs[i].phone) == Some(qs[k])
    decreases |qs|
  {
    k := |qs| - 1;
    if qs[k].phone != qs[i].phone {
      k := LastQueryAt(qs[..k], i);
    }
  }

  /** The exception happens: two checks a second apart, the first answered null, are both passed on to the registry. */
  lemma NullIsAskedAgain()
    ensures var cfg := Config(true, true);
            var check := (at: int) => Check("p", false, at, Answered(None));
            var st := After(cfg, [Do(check(0)), Do(check(1))], 2);
            st.queries == [Query("p", 0, None), Query("p", 1, None)]
  {
    var cfg, first, second := Config(true, true), Check("p", false, 0, Answered(None)),
        Check("p", false, 1, Answered(None));
    var es := [Do(first), Do(second)];
    assert After(cfg, es, 0) == State(map[], []);
    assert After(cfg, es, 1) == Next(cfg, State(map[], []), first);
    assert After(cfg, es, 2) == Next(cfg, After(cfg, es, 1), second);
  }
}
