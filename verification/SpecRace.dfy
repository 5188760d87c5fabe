/**
 The four-dimensional caps with callers interleaved between their read and their increments
 (app/redis/frequency_cap_v2.py). Unlike the three-window caps, the second pipeline names its keys after its own
 clock reading, so a caller may read in one bucket and count in the next.
 */
module SpecRace {
  import opened Counting
  import opened SpecFrequencyCap
  import Redis
  import FC = FrequencyCap

  /** log holds what was counted, each send at its increment, since its user's last reset. */
  datatype Shared = Shared(store: Redis.Store<Key, int>, now: int, waiting: seq<Request>, log: seq<Request>)

  datatype Step = Read(request: Request) | Increment(caller: nat, at: int) | GiveUp(caller: nat) | Reset(user: string,
      at: int)

  /** A critical caller reads nothing and waits all the same. A step in the past or of an absent caller does nothing. */
  function Take(cal: FC.Calendar, st: Shared, step: Step): Shared {
    match step
    case Read(r) =>
      if r.at < st.now then st
      else if Verdict(cal, st.store, r).Refused? then st.(now := r.at)
      else st.(now := r.at, waiting := st.waiting + [r])
    case Increment(i, at) =>
      if at < st.now || i >= |st.waiting| then st
      else
        var r := st.waiting[i].(at := at);
        Shared(SpecFrequencyCap.IncrementAll(cal, st.store, r), at, Without(st.waiting, i), st.log + [r])
    case GiveUp(i) =>
      if i >= |st.waiting| then st else st.(waiting := Without(st.waiting, i))
    case Reset(u, at) =>
      if at < st.now then st else Shared(WithoutUser(st.store, u), at, st.waiting, DropUser(st.log, u))
  }

  function Run(cal: FC.Calendar, st: Shared, steps: seq<Step>): Shared
    decreases |steps|
  {
    if steps == [] then st else Run(cal, Take(cal, st, steps[0]), steps[1..])
  }

  function Start(now: int): Shared {
    Shared(map[], now, [], [])
  }

  ghost predicate Agrees(cal: FC.Calendar, st: Shared) {
    AgreesWithLog(cal, State(st.store, st.log), st.now)
  }

  lemma TakeAgrees(cal: FC.Calendar, st: Shared, step: Step)
    requires cal.Valid() && Agrees(cal, st)
    ensures Agrees(cal, Take(cal, st, step))
  {
    var before := State(st.store, st.log);
    match step
    case Read(r) =>
      if st.now <= r.at {
        AgreesLater(cal, before, st.now, r.at);
      }
    case Increment(i, at) =>
      if st.now <= at && i < |st.waiting| {
        SendAgreesWithLog(cal, before, st.now, st.waiting[i].(at := at));
      }
    case GiveUp(_) =>
    case Reset(u, at) =>
      if st.now <= at {
        ResetAgreesWithLog(cal, before, st.now, u, at);
      }
  }

  // ---------------------------------------------------------------------------------------------
  // The three counted caps
  // ---------------------------------------------------------------------------------------------

  /** At no moment do more than `most` callers that the cap applies to sit between their read and their increments. */
  predicate AtMostWaiting(cal: FC.Calendar, st: Shared, steps: seq<Step>, p: Request -> bool, most: nat)
    decreases |steps|
  {
    && CountIf(st.waiting, p) <= most
    && (steps != [] ==> AtMostWaiting(cal, Take(cal, st, steps[0]), steps[1..], p, most))
  }

  /** No bucket is over the bound, and the current one not even with all who wait. */
  ghost predicate Within(cal: FC.Calendar, st: Shared, d: Dimension, bound: int) {
    && (forall b: int :: CountIf(st.log, CappedIn(cal, d, b)) <= bound)
    && CountIf(st.log, CappedIn(cal, d, cal.Bucket(WindowOf(d), st.now))) + CountIf(st.waiting, Capped(d)) <= bound
  }

  /** When the clock moves into a new bucket, only those who wait can fill it. */
  lemma ClockMoves(cal: FC.Calendar, st: Shared, d: Dimension, bound: int, at: int)
    requires cal.Valid() && Agrees(cal, st) && st.now <= at && Within(cal, st, d, bound) &&
             CountIf(st.waiting, Capped(d)) <= bound
    ensures Within(cal, st.(now := at), d, bound)
  {
    var w := WindowOf(d);
    if cal.Bucket(w, at) != cal.Bucket(w, st.now) {
      forall i | 0 <= i < |st.log| ensures !CappedIn(cal, d, cal.Bucket(w, at))(st.log[i]) {
        assert st.log[i] in st.log;
        assert cal.Bucket(w, st.log[i].at) <= cal.Bucket(w, st.now) <= cal.Bucket(w, at);
      }
      CountIfNone(st.log, CappedIn(cal, d, cal.Bucket(w, at)));
    }
  }

  /** A read that is not refused found room under the cap. */
  lemma ReadFindsRoom(cal: FC.Calendar, st: Shared, r: Request, d: Dimension)
    requires Agrees(cal, st) && st.now <= r.at && Capped(d)(r) && !Verdict(cal, st.store, r).Refused?
    ensures CountIf(st.log, CappedIn(cal, d, cal.Bucket(WindowOf(d), r.at))) < Limit(d)
  {
    var b := cal.Bucket(WindowOf(d), r.at);
    AgreesLater(cal, State(st.store, st.log), st.now, r.at);
    CounterIsCount(cal, State(st.store, st.log), KeyIn(d, b), r.at);
    CountIfWeaker(st.log, CappedIn(cal, d, b), On(cal, KeyIn(d, b)));
    if d.PerChannel? {
      CounterIsCount(cal, State(st.store, st.log), Global(r.user, b), r.at);
      CountIfWeaker(st.log, CappedIn(cal, d, b), On(cal, Global(r.user, b)));
    }
  }

  lemma ReadWithin(cal: FC.Calendar, st: Shared, r: Request, d: Dimension, most: nat)
    requires cal.Valid() && Agrees(cal, st) && most >= 1 && st.now <= r.at
    requires Within(cal, st, d, Limit(d) + most - 1) && CountIf(st.waiting, Capped(d)) <= most
    requires CountIf(Take(cal, st, Read(r)).waiting, Capped(d)) <= most
    ensures Within(cal, Take(cal, st, Read(r)), d, Limit(d) + most - 1)
  {
    ClockMoves(cal, st, d, Limit(d) + most - 1, r.at);
    if !Verdict(cal, st.store, r).Refused? {
      CountIfSnoc(st.waiting, r, Capped(d));
      if Capped(d)(r) {
        ReadFindsRoom(cal, st, r, d);
      }
    }
  }

  lemma IncrementWithin(cal: FC.Calendar, st: Shared, i: nat, at: int, d: Dimension, bound: int)
    requires cal.Valid() && Agrees(cal, st) && st.now <= at && i < |st.waiting|
    requires Within(cal, st, d, bound) && CountIf(st.waiting, Capped(d)) <= bound
    ensures Within(cal, Take(cal, st, Increment(i, at)), d, bound)
  {
    var r := st.waiting[i].(at := at);
    ClockMoves(cal, st, d, bound, at);
    CountIfWithout(st.waiting, i, Capped(d));
    assert Capped(d)(r) <==> Capped(d)(st.waiting[i]);
    forall b: int ensures CountIf(st.log + [r], CappedIn(cal, d, b)) ==
                          CountIf(st.log, CappedIn(cal, d, b)) + (if CappedIn(cal, d, b)(r) then 1 else 0) {
      CountIfSnoc(st.log, r, CappedIn(cal, d, b));
    }
  }

  lemma {:induction false} DropUserLess(log: seq<Request>, user: string, p: Request -> bool)
    ensures CountIf(DropUser(log, user), p) <= CountIf(log, p)
  {
    if log != [] {
      var init, r := log[..|log| - 1], log[|log| - 1];
      DropUserLess(init, user, p);
      CountIfSnoc(DropUser(init, user), r, p);
    }
  }

  lemma TakeWithin(cal: FC.Calendar, st: Shared, step: Step, d: Dimension, most: nat)
    requires cal.Valid() && Agrees(cal, st) && most >= 1
    requires Within(cal, st, d, Limit(d) + most - 1) && CountIf(st.waiting, Capped(d)) <= most
    requires CountIf(Take(cal, st, step).waiting, Capped(d)) <= most
    ensures Within(cal, Take(cal, st, step), d, Limit(d) + most - 1)
  {
    var bound := Limit(d) + most - 1;
    match step
    case Read(r) =>
      if st.now <= r.at {
        ReadWithin(cal, st, r, d, most);
      }
    case Increment(i, at) =>
      if st.now <= at && i < |st.waiting| {
        IncrementWithin(cal, st, i, at, d, bound);
      }
    case GiveUp(i) =>
      if i < |st.waiting| {
        CountIfWithout(st.waiting, i, Capped(d));
      }
    case Reset(u, at) =>
      if st.now <= at {
        ClockMoves(cal, st, d, bound, at);
        forall b: int ensures CountIf(DropUser(st.log, u), CappedIn(cal, d, b)) <=
            CountIf(st.log, CappedIn(cal, d, b)) {
          DropUserLess(st.log, u, CappedIn(cal, d, b));
        }
      }
  }

  lemma {:induction false} RunWithin(cal: FC.Calendar, st: Shared, steps: seq<Step>, d: Dimension, most: nat)
    requires cal.Valid() && Agrees(cal, st) && most >= 1
    requires Within(cal, st, d, Limit(d) + most - 1) && AtMostWaiting(cal, st, steps, Capped(d), most)
    ensures Within(cal, Run(cal, st, steps), d, Limit(d) + most - 1)
    decreases |steps|
  {
    if steps != [] {
      TakeAgrees(cal, st, steps[0]);
      TakeWithin(cal, st, steps[0], d, most);
      RunWithin(cal, Take(cal, st, steps[0]), steps[1..], d, most);
    }
  }

  /**
   With at most K callers between read and increments, a user gets at most 12 + K - 1 non-critical sends a day, a
   channel its cap + K - 1 a day, and a category 3 + K - 1 an hour; K = 1 gives the caps themselves.
   */
  lemma RaceOvershootIsBounded(cal: FC.Calendar, start: int, steps: seq<Step>, d: Dimension, most: nat, bucket: int)
    requires cal.Valid() && most >= 1 && AtMostWaiting(cal, Start(start), steps, Capped(d), most)
    ensures CountIf(Run(cal, Start(start), steps).log, CappedIn(cal, d, bucket)) <= Limit(d) + most - 1
  {
    RunWithin(cal, Start(start), steps, d, most);
  }

  // ---------------------------------------------------------------------------------------------
  // The bound is reached
  // ---------------------------------------------------------------------------------------------

  /** The verdict on a non-critical request, from the log. */
  lemma RoomIsVerdict(cal: FC.Calendar, st: Shared, r: Request)
    requires Agrees(cal, st) && st.now <= r.at && HasRoom(cal, st.log, r)
    ensures !Verdict(cal, st.store, r).Refused?
  {
    hide On, CountIf, SentRecently;
    var s := State(st.store, st.log);
    AgreesLater(cal, s, st.now, r.at);
    CounterIsCount(cal, s, GlobalKey(cal, r), r.at);
    CounterIsCount(cal, s, ChannelKey(cal, r), r.at);
    CounterIsCount(cal, s, CategoryKey(cal, r), r.at);
    CooldownIsRecentSend(cal, s, r);
  }

  function Always(at: int): nat -> int {
    (_: nat) => at
  }

  /** With fewer samples logged than the limit, one with a code not among them is not refused. */
  lemma SampleFindsRoom(cal: FC.Calendar, st: Shared, d: Dimension, n: nat, j: nat, at: int)
    requires Agrees(cal, st) && st.now <= at && n < Limit(d) && n <= j && Nameable(d)
    requires st.log == Samples(d, n, Always(at))
    ensures !Verdict(cal, st.store, Sample(d, j, at)).Refused?
  {
    hide HasRoom, CountIf, Verdict, Agrees, Samples, CappedIn;
    var p := CappedIn(cal, d, cal.Bucket(WindowOf(d), at));
    SamplesAre(d, n, Always(at));
    CountIfWeaker(st.log, p, p);
    SampleHasRoom(cal, d, n, Always(at), j, at);
    RoomIsVerdict(cal, st, Sample(d, j, at));
  }

  /** n samples served one at a time, then `crowd` readers of fresh samples, then the increments of everyone waiting. */
  function Rush(d: Dimension, at: int, n: nat, limit: nat, crowd: nat, waiting: nat): seq<Step>
    decreases limit - n, crowd, waiting
  {
    if n < limit then
      [Read(Sample(d, n, at)), Increment(0, at)] + Rush(d, at, n + 1, limit, crowd, waiting)
    else if crowd > 0 then [Read(Sample(d, n + waiting, at))] + Rush(d, at, n, limit, crowd - 1, waiting + 1)
    else if waiting > 0 then [Increment(0, at)] + Rush(d, at, n, limit, 0, waiting - 1)
    else []
  }

  /** The steps keep the crowd bound on p and end with this many counted for which q holds. */
  ghost predicate Reaches(cal: FC.Calendar, st: Shared, steps: seq<Step>, p: Request -> bool, q: Request -> bool,
                          most: nat, count: int) {
    AtMostWaiting(cal, st, steps, p, most) && CountIf(Run(cal, st, steps).log, q) == count
  }

  lemma StepThen(cal: FC.Calendar, st: Shared, step: Step, rest: seq<Step>, p: Request -> bool, q: Request -> bool,
                 most: nat, count: int)
    requires |st.waiting| <= most && Reaches(cal, Take(cal, st, step), rest, p, q, most, count)
    ensures Reaches(cal, st, [step] + rest, p, q, most, count)
  {
    CountIfWeaker(st.waiting, p, p);
    assert ([step] + rest)[1..] == rest;
  }

  lemma NobodyWaits(cal: FC.Calendar, st: Shared, p: Request -> bool, q: Request -> bool, most: nat)
    requires st.waiting == []
    ensures Reaches(cal, st, [], p, q, most, CountIf(st.log, q))
  {
  }

  ghost predicate AllCapped(st: Shared, d: Dimension) {
    forall i :: 0 <= i < |st.waiting| ==> Capped(d)(st.waiting[i])
  }

  /** The first of those waiting counts in the bucket of its increment. */
  lemma FirstIsCounted(cal: FC.Calendar, st: Shared, d: Dimension, at: int)
    requires st.now <= at && st.waiting != [] && AllCapped(st, d)
    ensures var st', p := Take(cal, st, Increment(0, at)), CappedIn(cal, d, cal.Bucket(WindowOf(d), at));
            && st'.now == at && |st'.waiting| == |st.waiting| - 1 && AllCapped(st', d)
            && CountIf(st'.log, p) == CountIf(st.log, p) + 1
  {
    hide Verdict, IncrementAll;
    var r, st' := st.waiting[0].(at := at), Take(cal, st, Increment(0, at));
    assert st'.waiting == st.waiting[1..];
    assert Capped(d)(r) by {
      assert Capped(d)(st.waiting[0]);
    }
    CountIfSnoc(st.log, r, CappedIn(cal, d, cal.Bucket(WindowOf(d), at)));
  }

  lemma {:induction false} RushOfWriters(cal: FC.Calendar, st: Shared, d: Dimension, at: int, n: nat, most: nat)
    requires st.now <= at && |st.waiting| <= most && AllCapped(st, d)
    ensures var q := CappedIn(cal, d, cal.Bucket(WindowOf(d), at));
            Reaches(cal, st, Rush(d, at, n, n, 0, |st.waiting|), Capped(d), q, most, CountIf(st.log, q) + |st.waiting|)
    decreases |st.waiting|
  {
    hide Take, Sample, Capped, CappedIn, AllCapped, CountIf, Reaches;
    var p, q := Capped(d), CappedIn(cal, d, cal.Bucket(WindowOf(d), at));
    if st.waiting == [] {
      NobodyWaits(cal, st, p, q, most);
    } else {
      var step := Increment(0, at);
      var st' := Take(cal, st, step);
      FirstIsCounted(cal, st, d, at);
      RushOfWriters(cal, st', d, at, n, most);
      StepThen(cal, st, step, Rush(d, at, n, n, 0, |st'.waiting|), p, q, most, CountIf(st.log, q) + |st.waiting|);
    }
  }

  lemma SampleIsRead(cal: FC.Calendar, st: Shared, d: Dimension, n: nat, j: nat, at: int)
    requires cal.Valid() && Agrees(cal, st) && st.now <= at && n < Limit(d) && n <= j &&
             Nameable(d)
    requires st.log == Samples(d, n, Always(at))
    ensures var st' := Take(cal, st, Read(Sample(d, j, at)));
            st' == st.(now := at, waiting := st.waiting + [Sample(d, j, at)]) && Agrees(cal, st')
  {
    SampleFindsRoom(cal, st, d, n, j, at);
    TakeAgrees(cal, st, Read(Sample(d, j, at)));
  }

  lemma SamplesInBucket(cal: FC.Calendar, d: Dimension, n: nat, at: int)
    requires Nameable(d)
    ensures CountIf(Samples(d, n, Always(at)), CappedIn(cal, d, cal.Bucket(WindowOf(d), at))) == n
  {
    hide Samples, Sample, CountIf;
    var log, p := Samples(d, n, Always(at)), CappedIn(cal, d, cal.Bucket(WindowOf(d), at));
    SamplesAre(d, n, Always(at));
    forall i | 0 <= i < n ensures p(log[i]) {
      SampleIsCapped(d, i, at);
      SampleTime(d, i, at);
    }
    CountIfAll(log, p);
  }

  lemma {:induction false} RushOfReaders(cal: FC.Calendar, st: Shared, d: Dimension, at: int, n: nat, crowd: nat,
                                         most: nat)
    requires cal.Valid() && Agrees(cal, st) && st.now <= at && n < Limit(d) && Nameable(d)
    requires st.log == Samples(d, n, Always(at)) && |st.waiting| + crowd <= most && AllCapped(st, d)
    ensures var q := CappedIn(cal, d, cal.Bucket(WindowOf(d), at));
            Reaches(cal, st, Rush(d, at, n, n, crowd, |st.waiting|), Capped(d), q, most, n + |st.waiting| + crowd)
    decreases crowd
  {
    var p, q := Capped(d), CappedIn(cal, d, cal.Bucket(WindowOf(d), at));
    hide Take, Sample, Samples, Capped, CappedIn, Agrees, AgreesWithLog, Limit, Reaches;
    if crowd == 0 {
      SamplesInBucket(cal, d, n, at);
      RushOfWriters(cal, st, d, at, n, most);
    } else {
      var j := n + |st.waiting|;
      var step := Read(Sample(d, j, at));
      SampleIsRead(cal, st, d, n, j, at);
      SampleIsCapped(d, j, at);
      RushOfReaders(cal, Take(cal, st, step), d, at, n, crowd - 1, most);
      StepThen(cal, st, step, Rush(d, at, n, n, crowd - 1, |st.waiting| + 1), p, q, most,
          n + |st.waiting| + crowd);
    }
  }

  lemma SampleIsServed(cal: FC.Calendar, st: Shared, d: Dimension, n: nat, at: int)
    requires cal.Valid() && Agrees(cal, st) && st.now <= at && n < Limit(d) && Nameable(d)
    requires st.log == Samples(d, n, Always(at)) && st.waiting == []
    ensures var read := Take(cal, st, Read(Sample(d, n, at)));
            var done := Take(cal, read, Increment(0, at));
            |read.waiting| == 1 && done.waiting == [] && done.now == at && done.log == Samples(d, n + 1, Always(at)) &&
                Agrees(cal, done)
  {
    var read := Take(cal, st, Read(Sample(d, n, at)));
    SampleIsRead(cal, st, d, n, n, at);
    assert read.waiting == [Sample(d, n, at)];
    assert Sample(d, n, at).(at := at) == Sample(d, n, at);
    TakeAgrees(cal, read, Increment(0, at));
  }

  lemma {:induction false} RushReaches(cal: FC.Calendar, st: Shared, d: Dimension, at: int, n: nat, most: nat)
    requires cal.Valid() && Agrees(cal, st) && st.now <= at && n < Limit(d) && Nameable(d)
    requires st.log == Samples(d, n, Always(at)) && st.waiting == [] && most >= 1
    ensures var q := CappedIn(cal, d, cal.Bucket(WindowOf(d), at));
            Reaches(cal, st, Rush(d, at, n, Limit(d) - 1, most, 0), Capped(d), q, most, Limit(d) + most - 1)
    decreases Limit(d) - n
  {
    var p, q, count := Capped(d), CappedIn(cal, d, cal.Bucket(WindowOf(d), at)), Limit(d) + most - 1;
    hide Take, Sample, Samples, Capped, CappedIn, Agrees, AgreesWithLog, Limit, Reaches;
    if n == Limit(d) - 1 {
      RushOfReaders(cal, st, d, at, n, most, most);
    } else {
      var read, incr, rest := Read(Sample(d, n, at)), Increment(0, at), Rush(d, at, n + 1, Limit(d) - 1, most, 0);
      SampleIsServed(cal, st, d, n, at);
      RushReaches(cal, Take(cal, Take(cal, st, read), incr), d, at, n + 1, most);
      StepThen(cal, Take(cal, st, read), incr, rest, p, q, most, count);
      StepThen(cal, st, read, [incr] + rest, p, q, most, count);
      assert [read, incr] + rest == [read] + ([incr] + rest);
    }
  }

  lemma StartAgrees(cal: FC.Calendar, start: int)
    ensures Agrees(cal, Start(start))
  {
  }

  /**
   For every crowd size some run reaches the bound, in every dimension; no request has a category with a dash in it.
   */
  lemma RaceOvershootIsReached(cal: FC.Calendar, start: int, d: Dimension, most: nat) returns (steps: seq<Step>)
    requires cal.Valid() && most >= 1 && Nameable(d)
    ensures AtMostWaiting(cal, Start(start), steps, Capped(d), most)
    ensures CountIf(Run(cal, Start(start), steps).log, CappedIn(cal, d, cal.Bucket(WindowOf(d), start))) == Limit(d) +
            most - 1
  {
    steps := Rush(d, start, 0, Limit(d) - 1, most, 0);
    StartAgrees(cal, start);
    RushReaches(cal, Start(start), d, start, 0, most);
  }

  // ---------------------------------------------------------------------------------------------
  // The cooldown
  // ---------------------------------------------------------------------------------------------

  function Same(user: string, code: string): Request -> bool {
    (r: Request) => r.user == user && r.code == code && !r.critical
  }

  /** A non-critical send of the code counted inside the cooldown's length from `from`. */
  function SameFrom(user: string, code: string, from: int): Request -> bool {
    (r: Request) => r.user == user && r.code == code && !r.critical && from <= r.at < from + SAME_TYPE_COOLDOWN_SECONDS
  }

  /** Something with the code was counted at or after `from`. */
  ghost predicate SentSince(log: seq<Request>, user: string, code: string, from: int) {
    exists r :: r in log && r.user == user && r.code == code && from <= r.at
  }

  /**
   No window of the cooldown's length is over the bound, and one that is open and has a send in it not even with all
   who wait.
   */
  ghost predicate Cooled(st: Shared, user: string, code: string, most: nat) {
    forall from: int ::
      && CountIf(st.log, SameFrom(user, code, from)) <= most
      && (st.now < from + SAME_TYPE_COOLDOWN_SECONDS && SentSince(st.log, user, code, from) ==>
            CountIf(st.log, SameFrom(user, code, from)) + CountIf(st.waiting, Same(user, code)) <= most)
  }

  /** A read that is not refused closes every open window that has a send in it. */
  lemma ReadIsCool(cal: FC.Calendar, st: Shared, r: Request, from: int)
    requires Agrees(cal, st) && st.now <= r.at && !r.critical && !Verdict(cal, st.store, r).Refused?
    ensures !(r.at < from + SAME_TYPE_COOLDOWN_SECONDS && SentSince(st.log, r.user, r.code, from))
  {
    AgreesLater(cal, State(st.store, st.log), st.now, r.at);
    CooldownIsRecentSend(cal, State(st.store, st.log), r);
  }

  lemma NothingSince(st: Shared, user: string, code: string, from: int)
    requires !SentSince(st.log, user, code, from)
    ensures CountIf(st.log, SameFrom(user, code, from)) == 0
  {
    forall i | 0 <= i < |st.log| ensures !SameFrom(user, code, from)(st.log[i]) {
      var r := st.log[i];
      assert r in st.log;
      assert SameFrom(user, code, from)(r) ==> r.user == user && r.code == code && from <= r.at;
    }
    CountIfNone(st.log, SameFrom(user, code, from));
  }

  lemma IncrementIsCool(cal: FC.Calendar, st: Shared, i: nat, at: int, user: string, code: string, most: nat, from: int)
    requires Agrees(cal, st) && Cooled(st, user, code, most) && st.now <= at && i < |st.waiting|
    requires CountIf(st.waiting, Same(user, code)) <= most
    ensures var st' := Take(cal, st, Increment(i, at));
            && CountIf(st'.log, SameFrom(user, code, from)) <= most
            && (at < from + SAME_TYPE_COOLDOWN_SECONDS && SentSince(st'.log, user, code, from) ==>
                  CountIf(st'.log, SameFrom(user, code, from)) + CountIf(st'.waiting, Same(user, code)) <= most)
  {
    var r := st.waiting[i].(at := at);
    CountIfWithout(st.waiting, i, Same(user, code));
    CountIfSnoc(st.log, r, SameFrom(user, code, from));
    assert Same(user, code)(r) <==> Same(user, code)(st.waiting[i]);
    if !SentSince(st.log, user, code, from) {
      NothingSince(st, user, code, from);
    }
  }

  lemma TakeIsCool(cal: FC.Calendar, st: Shared, step: Step, user: string, code: string, most: nat)
    requires cal.Valid() && Agrees(cal, st) && Cooled(st, user, code, most) &&
             CountIf(st.waiting, Same(user, code)) <= most
    ensures Cooled(Take(cal, st, step), user, code, most)
  {
    var st' := Take(cal, st, step);
    forall from: int
      ensures CountIf(st'.log, SameFrom(user, code, from)) <= most
      ensures st'.now < from + SAME_TYPE_COOLDOWN_SECONDS && SentSince(st'.log, user, code, from) ==>
                CountIf(st'.log, SameFrom(user, code, from)) + CountIf(st'.waiting, Same(user, code)) <= most
    {
      match step
      case Read(r) =>
        if st'.waiting != st.waiting {
          CountIfSnoc(st.waiting, r, Same(user, code));
          if Same(user, code)(r) {
            ReadIsCool(cal, st, r, from);
          }
        }
      case Increment(i, at) =>
        if st.now <= at && i < |st.waiting| {
          IncrementIsCool(cal, st, i, at, user, code, most, from);
        }
      case GiveUp(i) =>
        if i < |st.waiting| {
          CountIfWithout(st.waiting, i, Same(user, code));
        }
      case Reset(u, at) =>
        if st.now <= at {
          DropUserLess(st.log, u, SameFrom(user, code, from));
          forall r ensures r in DropUser(st.log, u) ==> r in st.log {
            DropUserKeeps(st.log, u, r);
          }
        }
    }
  }

  lemma {:induction false} RunIsCool(cal: FC.Calendar, st: Shared, steps: seq<Step>, user: string, code: string,
                                     most: nat)
    requires cal.Valid() && Agrees(cal, st) && Cooled(st, user, code, most) &&
             AtMostWaiting(cal, st, steps, Same(user, code), most)
    ensures Cooled(Run(cal, st, steps), user, code, most)
    decreases |steps|
  {
    if steps != [] {
      TakeAgrees(cal, st, steps[0]);
      TakeIsCool(cal, st, steps[0], user, code, most);
      RunIsCool(cal, Take(cal, st, steps[0]), steps[1..], user, code, most);
    }
  }

  /**
   With at most K callers between read and increments, no 900 s hold more than K non-critical sends of one code to one
   user.
   */
  lemma CooldownCrowd(cal: FC.Calendar, start: int, steps: seq<Step>, user: string, code: string, most: nat, from: int)
    requires cal.Valid() && AtMostWaiting(cal, Start(start), steps, Same(user, code), most)
    ensures CountIf(Run(cal, Start(start), steps).log, SameFrom(user, code, from)) <= most
  {
    RunIsCool(cal, Start(start), steps, user, code, most);
  }

  /** So many read the same request, and then everyone is counted. */
  function Stampede(r: Request, readers: nat, writers: nat): seq<Step>
    decreases readers, writers
  {
    if readers > 0 then [Read(r)] + Stampede(r, readers - 1, writers + 1)
    else if writers > 0 then [Increment(0, r.at)] + Stampede(r, 0, writers - 1)
    else []
  }

  ghost predicate AllWaitWith(st: Shared, r: Request) {
    st.now <= r.at && forall i :: 0 <= i < |st.waiting| ==> st.waiting[i] == r
  }

  lemma StampedeCounts(cal: FC.Calendar, st: Shared, r: Request)
    requires AllWaitWith(st, r) && st.waiting != [] && !r.critical
    ensures var st', q := Take(cal, st, Increment(0, r.at)), SameFrom(r.user, r.code, r.at);
            && AllWaitWith(st', r) && |st'.waiting| == |st.waiting| - 1
            && CountIf(st'.log, q) == CountIf(st.log, q) + 1
  {
    hide Verdict, IncrementAll;
    assert r.(at := r.at) == r;
    CountIfSnoc(st.log, r, SameFrom(r.user, r.code, r.at));
  }

  lemma {:induction false} StampedeOfWriters(cal: FC.Calendar, st: Shared, r: Request, most: nat)
    requires AllWaitWith(st, r) && |st.waiting| <= most && !r.critical
    ensures var q := SameFrom(r.user, r.code, r.at);
            Reaches(cal, st, Stampede(r, 0, |st.waiting|), Same(r.user, r.code), q, most,
                    CountIf(st.log, q) + |st.waiting|)
    decreases |st.waiting|
  {
    hide Take, AllWaitWith, Same, SameFrom, CountIf, Reaches;
    var p, q := Same(r.user, r.code), SameFrom(r.user, r.code, r.at);
    if st.waiting == [] {
      NobodyWaits(cal, st, p, q, most);
    } else {
      var step := Increment(0, r.at);
      StampedeCounts(cal, st, r);
      StampedeOfWriters(cal, Take(cal, st, step), r, most);
      StepThen(cal, st, step, Stampede(r, 0, |st.waiting| - 1), p, q, most, CountIf(st.log, q) + |st.waiting|);
    }
  }

  lemma FirstReadIsAdmitted(cal: FC.Calendar, st: Shared, r: Request)
    requires st.store == map[] && AllWaitWith(st, r) && !r.critical
    ensures Take(cal, st, Read(r)) == st.(now := r.at, waiting := st.waiting + [r])
    ensures AllWaitWith(Take(cal, st, Read(r)), r)
  {
  }

  lemma {:induction false} StampedeOfReaders(cal: FC.Calendar, st: Shared, r: Request, readers: nat, most: nat)
    requires st.store == map[] && st.log == [] && AllWaitWith(st, r) && |st.waiting| + readers <= most && !r.critical
    ensures Reaches(cal, st, Stampede(r, readers, |st.waiting|), Same(r.user, r.code),
                    SameFrom(r.user, r.code, r.at), most, |st.waiting| + readers)
    decreases readers
  {
    hide Take, AllWaitWith, Same, SameFrom, Reaches;
    if readers == 0 {
      StampedeOfWriters(cal, st, r, most);
    } else {
      FirstReadIsAdmitted(cal, st, r);
      StampedeOfReaders(cal, Take(cal, st, Read(r)), r, readers - 1, most);
      StepThen(cal, st, Read(r), Stampede(r, readers - 1, |st.waiting| + 1), Same(r.user, r.code),
               SameFrom(r.user, r.code, r.at), most, |st.waiting| + readers);
    }
  }

  /** And K callers in the gap do get K sends of one code at once. */
  lemma CooldownCrowdIsReached(cal: FC.Calendar, user: string, channel: string, code: string, mandatory: bool,
                               at: int, most: nat) returns (steps: seq<Step>)
    ensures AtMostWaiting(cal, Start(at), steps, Same(user, code), most)
    ensures CountIf(Run(cal, Start(at), steps).log, SameFrom(user, code, at)) == most
  {
    var r := Request(user, channel, code, false, mandatory, at);
    steps := Stampede(r, most, 0);
    StampedeOfReaders(cal, Start(at), r, most, most);
  }
}
