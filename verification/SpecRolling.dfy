/**
 The four-dimensional caps over any window of time. The header of app/redis/frequency_cap_v2.py speaks of a rolling
 24 hours, but the counters are per UTC day and hour: a window gets the cap once for every bucket it meets, and once
 more for every reset of its user.
 */
module SpecRolling {
  import opened Counting
  import opened SpecFrequencyCap
  import FC = FrequencyCap

  /** Everything sent in the first n events, kept through resets. */
  function Sends(cal: FC.Calendar, es: seq<Event>, n: nat): seq<Request>
    requires n <= |es|
  {
    if n == 0 then []
    else
      var rest, e := Sends(cal, es, n - 1), es[n - 1];
      if e.Send? && !Verdict(cal, After(cal, es, n - 1).store, e.request).Refused? then rest + [e.request] else rest
  }

  /** A send that the cap applies to, in one of these buckets. */
  function CappedAmong(cal: FC.Calendar, d: Dimension, lo: int, hi: int): Request -> bool {
    (r: Request) => Capped(d)(r) && lo <= cal.Bucket(WindowOf(d), r.at) <= hi
  }

  /** A reset of the cap's user in one of these buckets. */
  function ResetAmong(cal: FC.Calendar, d: Dimension, lo: int, hi: int): Event -> bool {
    (e: Event) => e.ResetUser? && e.user == d.user && lo <= cal.Bucket(WindowOf(d), e.at) <= hi
  }

  /** A send that the cap applies to, inside [from, from + span). */
  function CappedWithin(d: Dimension, from: int, span: int): Request -> bool {
    (r: Request) => Capped(d)(r) && from <= r.at < from + span
  }

  // ---------------------------------------------------------------------------------------------
  // One bucket
  // ---------------------------------------------------------------------------------------------

  lemma CappedHere(cal: FC.Calendar, d: Dimension, b: int, r: Request)
    requires CappedIn(cal, d, b)(r)
    ensures r.user == d.user && cal.Bucket(WindowOf(d), r.at) == b
    ensures d.PerChannel? ==> Plain(cal, KeyIn(d, b))(r) && NonCritical(cal, Global(d.user, b))(r)
    ensures !d.PerChannel? ==> NonCritical(cal, KeyIn(d, b))(r)
  {
    assert Capped(d)(r);
    match d
    case PerUser(_) =>
      OnKeys(cal, r, "", b);
    case PerChannel(_, c) =>
      OnKeys(cal, r, c, b);
    case PerCategory(_, y) =>
      OnKeys(cal, r, y, b);
  }

  /** The caps in the terms of what they count. */
  lemma LogKeepsLimit(cal: FC.Calendar, es: seq<Event>, n: nat, d: Dimension, b: int)
    requires cal.Valid() && Ordered(es) && n <= |es|
    ensures CountIf(After(cal, es, n).log, CappedIn(cal, d, b)) <= Limit(d)
  {
    hide After, CountIf, CappedIn, NonCritical, Plain;
    var log, p := After(cal, es, n).log, CappedIn(cal, d, b);
    EveryRunKeepsCaps(cal, es, n);
    forall i | 0 <= i < |log| && p(log[i])
      ensures d.PerChannel? ==> Plain(cal, KeyIn(d, b))(log[i]) && NonCritical(cal, Global(d.user, b))(log[i])
      ensures !d.PerChannel? ==> NonCritical(cal, KeyIn(d, b))(log[i])
    {
      CappedHere(cal, d, b, log[i]);
    }
    if d.PerChannel? {
      CountIfWeaker(log, p, Plain(cal, KeyIn(d, b)));
      CountIfWeaker(log, p, NonCritical(cal, Global(d.user, b)));
    } else {
      CountIfWeaker(log, p, NonCritical(cal, KeyIn(d, b)));
    }
  }

  /** A reset empties the log of what the user's caps count, and no other. */
  lemma ResetEmpties(cal: FC.Calendar, log: seq<Request>, user: string, d: Dimension, b: int)
    ensures CountIf(DropUser(log, user), CappedIn(cal, d, b)) ==
            if user == d.user then 0 else CountIf(log, CappedIn(cal, d, b))
  {
    hide CappedIn, DropUser, CountIf;
    var p := CappedIn(cal, d, b);
    forall r ensures p(r) ==> r.user == d.user {
      if p(r) {
        CappedHere(cal, d, b, r);
      }
    }
    DropUserCounts(log, user, p);
    if user == d.user && forall r :: p(r) ==> r.user != user {
      CountIfNone(log, p);
    }
  }

  /** Before its bucket nothing is counted. */
  lemma NothingYet(cal: FC.Calendar, es: seq<Event>, n: nat, d: Dimension, b: int)
    requires cal.Valid() && Ordered(es) && n < |es| && cal.Bucket(WindowOf(d), At(es[n])) < b
    ensures CountIf(After(cal, es, n).log, CappedIn(cal, d, b)) == 0
  {
    hide After, CountIf;
    var log := After(cal, es, n).log;
    CountersAgreeWithLog(cal, es, n, At(es[n]));
    forall i | 0 <= i < |log| ensures !CappedIn(cal, d, b)(log[i]) {
      assert log[i] in log;
      assert cal.Bucket(WindowOf(d), log[i].at) <= cal.Bucket(WindowOf(d), At(es[n]));
    }
    CountIfNone(log, CappedIn(cal, d, b));
  }

  /** A cap's worth for each reset of the bucket. */
  function Returned(cal: FC.Calendar, es: seq<Event>, n: nat, d: Dimension, b: int): int
    requires n <= |es|
  {
    CountIf(es[..n], ResetAmong(cal, d, b, b)) * Limit(d)
  }

  lemma ReturnedNext(cal: FC.Calendar, es: seq<Event>, n: nat, d: Dimension, b: int)
    requires n < |es|
    ensures Returned(cal, es, n + 1, d, b) ==
            Returned(cal, es, n, d, b) + if ResetAmong(cal, d, b, b)(es[n]) then Limit(d) else 0
  {
    hide ResetAmong, Limit;
    assert es[..n + 1] == es[..n] + [es[n]];
    CountIfSnoc(es[..n], es[n], ResetAmong(cal, d, b, b));
  }

  /** The run has moved beyond the bucket. */
  predicate Passed(cal: FC.Calendar, es: seq<Event>, n: nat, d: Dimension, b: int)
    requires n <= |es|
  {
    n > 0 && cal.Bucket(WindowOf(d), At(es[n - 1])) > b
  }

  /** The bucket's sends are those of the log and the ones its resets took from the log, at most a cap each. */
  ghost predicate PaidFor(cal: FC.Calendar, es: seq<Event>, n: nat, d: Dimension, b: int)
    requires n <= |es|
  {
    var sends := CountIf(Sends(cal, es, n), CappedIn(cal, d, b));
    && sends <= Returned(cal, es, n, d, b) + Limit(d)
    && (Passed(cal, es, n, d, b) ||
        sends <= Returned(cal, es, n, d, b) + CountIf(After(cal, es, n).log, CappedIn(cal, d, b)))
  }

  lemma SendIsPaidFor(cal: FC.Calendar, es: seq<Event>, n: nat, d: Dimension, b: int)
    requires cal.Valid() && Ordered(es) && n < |es| && es[n].Send? && PaidFor(cal, es, n, d, b)
    ensures PaidFor(cal, es, n + 1, d, b)
  {
    hide Verdict, IncrementAll, CappedIn, CountIf, Limit, Returned;
    var w, r, p := WindowOf(d), es[n].request, CappedIn(cal, d, b);
    ReturnedNext(cal, es, n, d, b);
    CountIfSnoc(Sends(cal, es, n), r, p);
    CountIfSnoc(After(cal, es, n).log, r, p);
    LogKeepsLimit(cal, es, n + 1, d, b);
    if p(r) {
      CappedHere(cal, d, b, r);
    }
    assert n > 0 ==> cal.Bucket(w, At(es[n - 1])) <= cal.Bucket(w, At(es[n]));
  }

  lemma ResetIsPaidFor(cal: FC.Calendar, es: seq<Event>, n: nat, d: Dimension, b: int)
    requires cal.Valid() && Ordered(es) && n < |es| && es[n].ResetUser? && PaidFor(cal, es, n, d, b)
    ensures PaidFor(cal, es, n + 1, d, b)
  {
    hide CappedIn, CountIf, Limit, Returned, WithoutUser, DropUser;
    var w, log, p := WindowOf(d), After(cal, es, n).log, CappedIn(cal, d, b);
    ReturnedNext(cal, es, n, d, b);
    LogKeepsLimit(cal, es, n, d, b);
    ResetEmpties(cal, log, es[n].user, d, b);
    assert n > 0 ==> cal.Bucket(w, At(es[n - 1])) <= cal.Bucket(w, At(es[n]));
    if cal.Bucket(w, At(es[n])) < b {
      NothingYet(cal, es, n, d, b);
    }
    assert Limit(d) >= 0 by {
      LimitIsPositive(d);
    }
  }

  lemma {:induction false} EverythingIsPaidFor(cal: FC.Calendar, es: seq<Event>, n: nat, d: Dimension, b: int)
    requires cal.Valid() && Ordered(es) && n <= |es|
    ensures PaidFor(cal, es, n, d, b)
  {
    if n > 0 {
      hide PaidFor;
      EverythingIsPaidFor(cal, es, n - 1, d, b);
      if es[n - 1].Send? {
        SendIsPaidFor(cal, es, n - 1, d, b);
      } else {
        ResetIsPaidFor(cal, es, n - 1, d, b);
      }
    }
  }

  // ---------------------------------------------------------------------------------------------
  // Any window
  // ---------------------------------------------------------------------------------------------

  /** Over neighbouring buckets, a cap for each bucket and for each reset in them. */
  lemma {:induction false} SendsAmong(cal: FC.Calendar, es: seq<Event>, n: nat, d: Dimension, lo: int, hi: int)
    requires cal.Valid() && Ordered(es) && n <= |es| && lo <= hi + 1
    ensures CountIf(Sends(cal, es, n), CappedAmong(cal, d, lo, hi)) <=
            (hi - lo + 1 + CountIf(es[..n], ResetAmong(cal, d, lo, hi))) * Limit(d)
    decreases hi - lo
  {
    hide Sends, Capped, CountIf, Limit;
    var sends, all := Sends(cal, es, n), CappedAmong(cal, d, lo, hi);
    if lo > hi {
      CountIfNone(sends, all);
      CountIfNone(es[..n], ResetAmong(cal, d, lo, hi));
    } else {
      var m1 := CountIf(es[..n], ResetAmong(cal, d, lo, hi - 1));
      var m2 := CountIf(es[..n], ResetAmong(cal, d, hi, hi));
      SendsAmong(cal, es, n, d, lo, hi - 1);
      EverythingIsPaidFor(cal, es, n, d, hi);
      CountIfCover(sends, all, CappedAmong(cal, d, lo, hi - 1), CappedIn(cal, d, hi));
      CountIfApart(es[..n], ResetAmong(cal, d, lo, hi), ResetAmong(cal, d, lo, hi - 1), ResetAmong(cal, d, hi, hi));
      assert Returned(cal, es, n, d, hi) == m2 * Limit(d);
      OneMoreBucket(hi - lo, m1, m2, CountIf(es[..n], ResetAmong(cal, d, lo, hi)), d);
    }
  }

  lemma OneMoreBucket(buckets: nat, m1: nat, m2: nat, m: nat, d: Dimension)
    requires m1 + m2 <= m
    ensures (buckets + m1) * Limit(d) + m2 * Limit(d) + Limit(d) <= (buckets + 1 + m) * Limit(d)
  {
    assert Limit(d) * (m - m1 - m2) >= 0;
  }

  /** Any window holds at most the cap for each bucket that it meets, and for each reset of the user in those. */
  lemma WindowSends(cal: FC.Calendar, es: seq<Event>, n: nat, d: Dimension, from: int, span: nat)
    requires cal.Valid() && Ordered(es) && n <= |es| && span > 0
    ensures var lo, hi := cal.Bucket(WindowOf(d), from), cal.Bucket(WindowOf(d), from + span - 1);
            CountIf(Sends(cal, es, n), CappedWithin(d, from, span)) <=
            (hi - lo + 1 + CountIf(es[..n], ResetAmong(cal, d, lo, hi))) * Limit(d)
  {
    hide Sends, CountIf, Limit;
    var w, sends := WindowOf(d), Sends(cal, es, n);
    var lo, hi := cal.Bucket(w, from), cal.Bucket(w, from + span - 1);
    SendsAmong(cal, es, n, d, lo, hi);
    forall i | 0 <= i < |sends| && CappedWithin(d, from, span)(sends[i])
      ensures CappedAmong(cal, d, lo, hi)(sends[i])
    {
      assert cal.Bucket(w, from) <= cal.Bucket(w, sends[i].at) <= cal.Bucket(w, from + span - 1);
    }
    CountIfWeaker(sends, CappedWithin(d, from, span), CappedAmong(cal, d, lo, hi));
  }

  ghost predicate NeverReset(es: seq<Event>, user: string) {
    forall i :: 0 <= i < |es| && es[i].ResetUser? ==> es[i].user != user
  }

  lemma WindowSendsWithoutReset(cal: FC.Calendar, es: seq<Event>, n: nat, d: Dimension, from: int, span: nat)
    requires cal.Valid() && Ordered(es) && n <= |es| && span > 0 && NeverReset(es, d.user)
    ensures CountIf(Sends(cal, es, n), CappedWithin(d, from, span)) <=
            (cal.Bucket(WindowOf(d), from + span - 1) - cal.Bucket(WindowOf(d), from) + 1) * Limit(d)
  {
    hide Sends, CountIf, CappedWithin, Limit;
    var lo, hi := cal.Bucket(WindowOf(d), from), cal.Bucket(WindowOf(d), from + span - 1);
    WindowSends(cal, es, n, d, from, span);
    CountIfNone(es[..n], ResetAmong(cal, d, lo, hi));
  }

  /** Where buckets of one length follow one another, a window of that length holds at most twice the cap. */
  lemma RollingSends(cal: FC.Calendar, len: FC.Lengths, off: FC.Lengths, es: seq<Event>, n: nat, d: Dimension,
                     from: int)
    requires cal.Valid() && FC.Repeats(cal, len, off, WindowOf(d))
    requires Ordered(es) && n <= |es| && NeverReset(es, d.user)
    ensures CountIf(Sends(cal, es, n), CappedWithin(d, from, len(WindowOf(d)))) <= 2 * Limit(d)
  {
    hide Sends, CountIf, CappedWithin, Limit, NeverReset;
    var w := WindowOf(d);
    assert 0 < len(w);
    FC.TwoBuckets(from - off(w), from + len(w) - 1 - off(w), len(w));
    WindowSendsWithoutReset(cal, es, n, d, from, len(w));
    LimitIsPositive(d);
    AtMostTwice(cal.Bucket(w, from + len(w) - 1) - cal.Bucket(w, from) + 1, Limit(d));
  }

  lemma AtMostTwice(buckets: int, limit: nat)
    requires buckets <= 2
    ensures buckets * limit <= 2 * limit
  {
  }

  // ---------------------------------------------------------------------------------------------
  // Twice the cap, wherever a bucket ends
  // ---------------------------------------------------------------------------------------------

  /** The cap's fill of samples at one time, and again at another. */
  function Twice(d: Dimension, t: int, u: int): nat -> int {
    (i: nat) => if i < Limit(d) then t else u
  }

  function TwiceSend(d: Dimension, t: int, u: int, i: nat): Event {
    Send(Sample(d, i, Twice(d, t, u)(i)))
  }

  function TwiceRun(d: Dimension, t: int, u: int): seq<Event> {
    seq(2 * Limit(d), (i: nat) => TwiceSend(d, t, u, i))
  }

  /** Fewer than the cap of the samples before the next one share its bucket. */
  lemma BeforeNextSample(cal: FC.Calendar, d: Dimension, t: int, u: int, n: nat)
    requires n < 2 * Limit(d) && cal.Bucket(WindowOf(d), t) != cal.Bucket(WindowOf(d), u)
    ensures CountIf(Samples(d, n, Twice(d, t, u)), CappedIn(cal, d, cal.Bucket(WindowOf(d), Twice(d, t, u)(n)))) <
            Limit(d)
  {
    hide Samples, CountIf, Limit, Sample, Capped;
    var when, k := Twice(d, t, u), if n < Limit(d) then 0 else Limit(d);
    var log, p := Samples(d, n, when), CappedIn(cal, d, cal.Bucket(WindowOf(d), when(n)));
    SamplesAre(d, n, when);
    forall i | 0 <= i < k ensures !p(log[i]) {
      SampleTime(d, i, when(i));
    }
    assert log == log[..k] + log[k..];
    CountIfConcat(log[..k], log[k..], p);
    CountIfNone(log[..k], p);
    CountIfWeaker(log[k..], p, p);
  }

  lemma TwiceRunIs(d: Dimension, t: int, u: int)
    ensures |TwiceRun(d, t, u)| == 2 * Limit(d)
    ensures forall i: nat :: i < 2 * Limit(d) ==> TwiceRun(d, t, u)[i] == Send(Sample(d, i, Twice(d, t, u)(i)))
  {
    hide Limit, Sample, Twice;
    LimitIsPositive(d);
    forall i: nat | i < 2 * Limit(d) ensures TwiceRun(d, t, u)[i] == TwiceSend(d, t, u, i) {
    }
  }

  lemma TwiceIsOrdered(d: Dimension, t: int, u: int)
    requires t <= u
    ensures Ordered(TwiceRun(d, t, u)) && NeverReset(TwiceRun(d, t, u), d.user)
  {
    hide Limit, TwiceRun;
    TwiceRunIs(d, t, u);
  }

  lemma NextIsSent(cal: FC.Calendar, es: seq<Event>, n: nat)
    requires n < |es| && es[n].Send? && !Verdict(cal, After(cal, es, n).store, es[n].request).Refused?
    ensures Sends(cal, es, n + 1) == Sends(cal, es, n) + [es[n].request]
    ensures After(cal, es, n + 1).log == After(cal, es, n).log + [es[n].request]
  {
    hide Verdict, IncrementAll;
  }

  lemma NextSampleIsSent(cal: FC.Calendar, d: Dimension, t: int, u: int, n: nat)
    requires cal.Valid() && Nameable(d) && t <= u && cal.Bucket(WindowOf(d), t) != cal.Bucket(WindowOf(d), u)
    requires n < |TwiceRun(d, t, u)|
    requires Sends(cal, TwiceRun(d, t, u), n) == After(cal, TwiceRun(d, t, u), n).log == Samples(d, n, Twice(d, t, u))
    ensures Sends(cal, TwiceRun(d, t, u), n + 1) == After(cal, TwiceRun(d, t, u), n + 1).log ==
            Samples(d, n + 1, Twice(d, t, u))
  {
    hide TwiceRun, Twice, HasRoom, Verdict, Sample, CappedIn, Ordered, Sends, After, CountIf;
    var es, when := TwiceRun(d, t, u), Twice(d, t, u);
    TwiceRunIs(d, t, u);
    TwiceIsOrdered(d, t, u);
    BeforeNextSample(cal, d, t, u, n);
    assert d.PerCategory? ==> n < GLOBAL_DAILY_CAP;
    hide Limit;
    SampleHasRoom(cal, d, n, when, n, when(n));
    RoomIsAdmission(cal, es, n);
    NextIsSent(cal, es, n);
  }

  lemma {:induction false} TwiceIsSent(cal: FC.Calendar, d: Dimension, t: int, u: int, n: nat)
    requires cal.Valid() && Nameable(d) && t <= u && cal.Bucket(WindowOf(d), t) != cal.Bucket(WindowOf(d), u)
    requires n <= |TwiceRun(d, t, u)|
    ensures Sends(cal, TwiceRun(d, t, u), n) == After(cal, TwiceRun(d, t, u), n).log ==
            Samples(d, n, Twice(d, t, u))
  {
    hide TwiceRun, Twice, Next, Limit, Verdict, Sample, Nameable;
    if n > 0 {
      hide Sends, After, Samples;
      TwiceIsSent(cal, d, t, u, n - 1);
      NextSampleIsSent(cal, d, t, u, n - 1);
    }
  }

  /** The verdict on a sample, from the log. */
  lemma RoomIsAdmission(cal: FC.Calendar, es: seq<Event>, n: nat)
    requires cal.Valid() && Ordered(es) && n < |es| && es[n].Send?
    requires HasRoom(cal, After(cal, es, n).log, es[n].request)
    ensures !Verdict(cal, After(cal, es, n).store, es[n].request).Refused?
  {
    hide After, On, CountIf, SentRecently;
    RefusalsAreDue(cal, es, n);
  }

  /** Between two readings in different buckets a run without resets sends twice the cap. */
  lemma TwiceIsReached(cal: FC.Calendar, d: Dimension, t: int, u: int)
    requires cal.Valid() && Nameable(d) && t <= u && cal.Bucket(WindowOf(d), t) != cal.Bucket(WindowOf(d), u)
    ensures var es := TwiceRun(d, t, u);
            && Ordered(es) && NeverReset(es, d.user)
            && CountIf(Sends(cal, es, |es|), CappedWithin(d, t, u - t + 1)) == 2 * Limit(d)
  {
    hide Sends, After, CountIf, Capped, Sample, Samples, Ordered;
    TwiceRunIs(d, t, u);
    TwiceIsOrdered(d, t, u);
    var n, when, p := 2 * Limit(d), Twice(d, t, u), CappedWithin(d, t, u - t + 1);
    TwiceIsSent(cal, d, t, u, n);
    SamplesAre(d, n, when);
    forall i: nat | i < n ensures p(Samples(d, n, when)[i]) {
      SampleIsCapped(d, i, when(i));
      SampleTime(d, i, when(i));
    }
    CountIfAll(Samples(d, n, when), p);
  }

  /** Some run without resets of the user sends more than the cap inside [from, from + span). */
  ghost predicate CanBeOverfull(cal: FC.Calendar, d: Dimension, from: int, span: nat) {
    exists es: seq<Event> :: Ordered(es) && Overfull(cal, es, d, from, span)
  }

  ghost predicate Overfull(cal: FC.Calendar, es: seq<Event>, d: Dimension, from: int, span: nat) {
    NeverReset(es, d.user) && CountIf(Sends(cal, es, |es|), CappedWithin(d, from, span)) > Limit(d)
  }

  /** A category with a dash in it is nobody's. */
  lemma NobodysCategory(d: Dimension, sends: seq<Request>, p: Request -> bool)
    requires !Nameable(d) && forall r :: p(r) ==> Capped(d)(r)
    ensures CountIf(sends, p) == 0
  {
    forall i | 0 <= i < |sends| ensures !p(sends[i]) {
      CategoryIsPrefix(sends[i].code);
    }
    CountIfNone(sends, p);
  }

  lemma CappedWithinIsCapped(d: Dimension, from: int, span: int)
    ensures forall r :: CappedWithin(d, from, span)(r) ==> Capped(d)(r)
  {
  }

  /** A window can hold more than the cap iff a bucket ends inside it; and never if nobody can be capped. */
  lemma OverfullIffBucketEnds(cal: FC.Calendar, d: Dimension, from: int, span: nat)
    requires cal.Valid() && span > 0
    ensures CanBeOverfull(cal, d, from, span) <==>
            Nameable(d) && cal.Bucket(WindowOf(d), from) < cal.Bucket(WindowOf(d), from + span - 1)
  {
    hide Sends, CountIf, CappedWithin, NeverReset, Limit, TwiceRun;
    var w, t, u := WindowOf(d), from, from + span - 1;
    LimitIsPositive(d);
    assert cal.Bucket(w, t) <= cal.Bucket(w, u);
    if !Nameable(d) {
      forall es | Ordered(es) ensures !Overfull(cal, es, d, from, span) {
        CappedWithinIsCapped(d, from, span);
        NobodysCategory(d, Sends(cal, es, |es|), CappedWithin(d, from, span));
      }
    } else if cal.Bucket(w, t) < cal.Bucket(w, u) {
      TwiceIsReached(cal, d, t, u);
      assert Overfull(cal, TwiceRun(d, t, u), d, from, span);
    } else {
      forall es | Ordered(es) ensures !Overfull(cal, es, d, from, span) {
        if NeverReset(es, d.user) {
          WindowSendsWithoutReset(cal, es, |es|, d, from, span);
        }
      }
    }
  }
}
