/**
 The three-window caps over rolling windows (app/redis/frequency_cap.py): a window as long as the buckets it is
 about meets two of them, so it may admit twice what a bucket admits, and does.
 */
module FrequencyRolling {
  import opened Counting
  import opened FrequencyCap

  predicate NeverCleared(log: seq<LogEntry>) {
    forall i :: 0 <= i < |log| ==> log[i].Admit?
  }

  function AdmitOf(cal: Calendar, k: Key): LogEntry -> bool {
    (e: LogEntry) => e.Admit? && KeyOf(cal, e.ticket, k.window) == k
  }

  /** An admit of this user and channel whose call began inside [from, from + span). */
  function AdmitWithin(u: string, c: string, from: int, span: int): LogEntry -> bool {
    (e: LogEntry) => e.Admit? && e.ticket.user == u && e.ticket.channel == c && from <= e.ticket.at < from + span
  }

  lemma {:induction false} UnclearedLogCounts(cal: Calendar, log: seq<LogEntry>, k: Key)
    requires NeverCleared(log)
    ensures AdmitsLogged(cal, log, k) == CountIf(log, AdmitOf(cal, k))
  {
    if log != [] {
      UnclearedLogCounts(cal, log[..|log| - 1], k);
    }
  }

  lemma {:induction false} NoResetNeverClears(cfg: Config, st: State, steps: seq<Step>)
    requires NeverCleared(st.log) && forall i :: 0 <= i < |steps| ==> !steps[i].ResetCaps?
    ensures NeverCleared(Run(cfg, st, steps).log)
    decreases |steps|
  {
    if steps != [] {
      NoResetNeverClears(cfg, Next(cfg, st, steps[0]), steps[1..]);
    }
  }

  /** Where buckets of one length follow one another, a rolling window of that length meets two of them. */
  lemma RollingWindowAdmits(cfg: Config, len: Lengths, off: Lengths, start: int, steps: seq<Step>, u: string, c: string,
                            most: nat, w: Window, from: int)
    requires cfg.calendar.Valid() && Repeats(cfg.calendar, len, off, w) && most >= 1
    requires AtMostWaiting(cfg, Init(start), steps, u, c, most)
    requires forall i :: 0 <= i < |steps| ==> !steps[i].ResetCaps?
    requires cfg.limits(u, c).Of(w) > 0
    ensures CountIf(Run(cfg, Init(start), steps).log, AdmitWithin(u, c, from, len(w))) <=
            2 * (cfg.limits(u, c).Of(w) + most - 1)
  {
    var cal, log, b := cfg.calendar, Run(cfg, Init(start), steps).log, cfg.calendar.Bucket(w, from);
    var k1, k2 := Key(u, c, w, b), Key(u, c, w, b + 1);
    NoResetNeverClears(cfg, Init(start), steps);
    UnclearedLogCounts(cal, log, k1);
    UnclearedLogCounts(cal, log, k2);
    OvershootIsBounded(cfg, start, steps, u, c, most, k1);
    OvershootIsBounded(cfg, start, steps, u, c, most, k2);
    forall i | 0 <= i < |log| && AdmitWithin(u, c, from, len(w))(log[i])
      ensures AdmitOf(cal, k1)(log[i]) || AdmitOf(cal, k2)(log[i])
    {
      TwoBuckets(from - off(w), log[i].ticket.at - off(w), len(w));
    }
    CountIfCover(log, AdmitWithin(u, c, from, len(w)), AdmitOf(cal, k1), AdmitOf(cal, k2));
  }

  /** Served one at a time, a user and channel get at most twice the cap in any rolling hour, and in any rolling day. */
  lemma SerialRollingAdmits(cfg: Config, len: Lengths, off: Lengths, start: int, steps: seq<Step>, u: string, c: string,
                            w: Window, from: int)
    requires cfg.calendar.Valid() && Repeats(cfg.calendar, len, off, w)
    requires AtMostWaiting(cfg, Init(start), steps, u, c, 1)
    requires forall i :: 0 <= i < |steps| ==> !steps[i].ResetCaps?
    requires cfg.limits(u, c).Of(w) > 0
    ensures CountIf(Run(cfg, Init(start), steps).log, AdmitWithin(u, c, from, len(w))) <= 2 * cfg.limits(u, c).Of(w)
  {
    RollingWindowAdmits(cfg, len, off, start, steps, u, c, 1, w, from);
  }

  // ---------------------------------------------------------------------------------------------
  // Twice the bound is reached
  // ---------------------------------------------------------------------------------------------

  function Copies(tk: Ticket, n: nat): seq<LogEntry> {
    if n == 0 then [] else [Admit(tk)] + Copies(tk, n - 1)
  }

  /** The steps keep the crowd bound, reset nothing, and admit the ticket n times, with nobody left waiting. */
  ghost predicate Leads(cfg: Config, st: State, steps: seq<Step>, tk: Ticket, most: nat, n: nat) {
    && AtMostWaiting(cfg, st, steps, tk.user, tk.channel, most)
    && (forall i :: 0 <= i < |steps| ==> !steps[i].ResetCaps?)
    && var st' := Run(cfg, st, steps);
       AgreesWithLog(cfg.calendar, st') && st'.now <= tk.at && st'.waiting == [] && st'.log == st.log + Copies(tk, n)
  }

  lemma LeadsVia(cfg: Config, st: State, step: Step, rest: seq<Step>, tk: Ticket, most: nat, n: nat, counted: bool)
    requires |st.waiting| <= most && !step.ResetCaps?
    requires Next(cfg, st, step).log == if counted then st.log + [Admit(tk)] else st.log
    requires Leads(cfg, Next(cfg, st, step), rest, tk, most, n)
    ensures Leads(cfg, st, [step] + rest, tk, most, if counted then n + 1 else n)
  {
    hide Next, Run, AtMostWaiting, AgreesWithLog;
    StepThen(cfg, st, step, rest, tk.user, tk.channel, most);
    assert counted ==> st.log + [Admit(tk)] + Copies(tk, n) == st.log + Copies(tk, n + 1);
  }

  lemma LeadsNowhere(cfg: Config, st: State, tk: Ticket, most: nat)
    requires AgreesWithLog(cfg.calendar, st) && st.now <= tk.at && st.waiting == []
    ensures Leads(cfg, st, [], tk, most, 0)
  {
    NoMoreSteps(cfg, st, tk.user, tk.channel, most);
  }

  /** Everyone waiting with this ticket is counted. */
  lemma {:induction false} Writers(cfg: Config, st: State, tk: Ticket, most: nat) returns (steps: seq<Step>)
    requires cfg.calendar.Valid() && AgreesWithLog(cfg.calendar, st) && st.now <= tk.at && |st.waiting| <= most
    requires forall i :: 0 <= i < |st.waiting| ==> st.waiting[i] == tk
    ensures Leads(cfg, st, steps, tk, most, |st.waiting|)
    decreases |st.waiting|
  {
    hide Next, Leads, Run, AtMostWaiting, AgreesWithLog, AdmitsLogged, Copies;
    if st.waiting == [] {
      steps := [];
      LeadsNowhere(cfg, st, tk, most);
    } else {
      var step := Increment(0, tk.at);
      CrowdIncrement(cfg, st, tk, Hour, AdmitsLogged(cfg.calendar, st.log, KeyOf(cfg.calendar, tk, Hour)));
      var rest := Writers(cfg, Next(cfg, st, step), tk, most);
      LeadsVia(cfg, st, step, rest, tk, most, |st.waiting| - 1, true);
      steps := [step] + rest;
    }
  }

  /** A crowd that reads while there is room, and is then counted. */
  lemma {:induction false} Readers(cfg: Config, st: State, tk: Ticket, n: nat, most: nat) returns (steps: seq<Step>)
    requires cfg.calendar.Valid() && AgreesWithLog(cfg.calendar, st) && st.now <= tk.at && |st.waiting| + n <= most
    requires (forall i :: 0 <= i < |st.waiting| ==> st.waiting[i] == tk) && Room(cfg, st.log, tk)
    ensures Leads(cfg, st, steps, tk, most, |st.waiting| + n)
    decreases n
  {
    hide Next, Leads, Run, AtMostWaiting, AgreesWithLog, AdmitsLogged, Copies, Room;
    if n == 0 {
      steps := Writers(cfg, st, tk, most);
    } else {
      var step := Read(tk.user, tk.channel, tk.at);
      CrowdRead(cfg, st, tk, Hour, AdmitsLogged(cfg.calendar, st.log, KeyOf(cfg.calendar, tk, Hour)));
      var rest := Readers(cfg, Next(cfg, st, step), tk, n - 1, most);
      LeadsVia(cfg, st, step, rest, tk, most, |st.waiting| + n, false);
      steps := [step] + rest;
    }
  }

  /** The log leaves room for so many more admits of the ticket in every window. */
  ghost predicate RoomAfter(cfg: Config, log: seq<LogEntry>, tk: Ticket, more: nat) {
    forall v: Window :: !Full(cfg.limits(tk.user, tk.channel).Of(v),
        AdmitsLogged(cfg.calendar, log, KeyOf(cfg.calendar, tk, v)) + more)
  }

  lemma RoomNow(cfg: Config, log: seq<LogEntry>, tk: Ticket, more: nat)
    requires RoomAfter(cfg, log, tk, more)
    ensures Room(cfg, log, tk)
  {
    forall v: Window
      ensures !Full(cfg.limits(tk.user, tk.channel).Of(v), AdmitsLogged(cfg.calendar, log, KeyOf(cfg.calendar, tk, v)))
    {
      assert !Full(cfg.limits(tk.user, tk.channel).Of(v),
          AdmitsLogged(cfg.calendar, log, KeyOf(cfg.calendar, tk, v)) + more);
    }
  }

  /** So many callers one at a time, and then a crowd. */
  lemma {:induction false} Burst(cfg: Config, st: State, tk: Ticket, serial: nat, crowd: nat, most: nat)
      returns (steps: seq<Step>)
    requires cfg.calendar.Valid() && AgreesWithLog(cfg.calendar, st) && st.now <= tk.at && st.waiting == []
    requires 1 <= most && crowd <= most && RoomAfter(cfg, st.log, tk, serial)
    ensures Leads(cfg, st, steps, tk, most, serial + crowd)
    decreases serial
  {
    hide Next, Leads, Run, AtMostWaiting, AgreesWithLog, AdmitsLogged, Copies, Room, RoomAfter;
    RoomNow(cfg, st.log, tk, serial);
    if serial == 0 {
      steps := Readers(cfg, st, tk, crowd, most);
    } else {
      var read, incr := Read(tk.user, tk.channel, tk.at), Increment(0, tk.at);
      ServeOne(cfg, st, tk);
      RoomTaken(cfg, st.log, tk, serial);
      var st1 := Next(cfg, st, read);
      var rest := Burst(cfg, Next(cfg, st1, incr), tk, serial - 1, crowd, most);
      LeadsVia(cfg, st1, incr, rest, tk, most, serial - 1 + crowd, true);
      LeadsVia(cfg, st, read, [incr] + rest, tk, most, serial + crowd, false);
      steps := [read] + ([incr] + rest);
    }
  }

  lemma RoomTaken(cfg: Config, log: seq<LogEntry>, tk: Ticket, more: nat)
    requires more > 0 && RoomAfter(cfg, log, tk, more)
    ensures RoomAfter(cfg, log + [Admit(tk)], tk, more - 1)
  {
    assert (log + [Admit(tk)])[..|log|] == log;
    forall v: Window
      ensures !Full(cfg.limits(tk.user, tk.channel).Of(v),
                    AdmitsLogged(cfg.calendar, log + [Admit(tk)], KeyOf(cfg.calendar, tk, v)) + (more - 1))
    {
      assert !Full(cfg.limits(tk.user, tk.channel).Of(v),
          AdmitsLogged(cfg.calendar, log, KeyOf(cfg.calendar, tk, v)) + more);
    }
  }

  /** The caps of the other windows leave room for two bursts of w's bound, at these two readings. */
  predicate RoomForTwo(cal: Calendar, l: Limits, w: Window, most: nat, t1: int, t2: int) {
    forall v: Window :: l.Of(v) > 0 ==>
      && l.Of(v) >= l.Of(w)
      && (cal.Bucket(v, t1) == cal.Bucket(v, t2) ==> l.Of(v) >= 2 * l.Of(w) + most - 1)
  }

  lemma {:induction false} CopiesLogged(cal: Calendar, log: seq<LogEntry>, tk: Ticket, n: nat, k: Key)
    ensures AdmitsLogged(cal, log + Copies(tk, n), k) ==
            AdmitsLogged(cal, log, k) + (if KeyOf(cal, tk, k.window) == k then n else 0)
    decreases n
  {
    if n == 0 {
      assert log + Copies(tk, 0) == log;
    } else {
      assert log + Copies(tk, n) == log + [Admit(tk)] + Copies(tk, n - 1);
      assert (log + [Admit(tk)])[..|log|] == log;
      CopiesLogged(cal, log + [Admit(tk)], tk, n - 1, k);
    }
  }

  lemma {:induction false} CopiesCount(tk: Ticket, n: nat, p: LogEntry -> bool)
    requires p(Admit(tk))
    ensures CountIf(Copies(tk, n), p) == n
  {
    if n > 0 {
      CopiesCount(tk, n - 1, p);
      CountIfConcat([Admit(tk)], Copies(tk, n - 1), p);
      CountIfSnoc([], Admit(tk), p);
      assert [] + [Admit(tk)] == [Admit(tk)];
    }
  }

  lemma {:induction false} StepsThen(cfg: Config, st: State, a: seq<Step>, b: seq<Step>, u: string, c: string,
                                     most: nat)
    requires AtMostWaiting(cfg, st, a, u, c, most) && AtMostWaiting(cfg, Run(cfg, st, a), b, u, c, most)
    ensures AtMostWaiting(cfg, st, a + b, u, c, most) && Run(cfg, st, a + b) == Run(cfg, Run(cfg, st, a), b)
    decreases |a|
  {
    if a == [] {
      assert a + b == b;
    } else {
      assert (a + b)[1..] == a[1..] + b;
      StepsThen(cfg, Next(cfg, st, a[0]), a[1..], b, u, c, most);
    }
  }

  /**
   At two readings in different buckets of w, with the other caps wide enough for both, a run without resets admits
   twice the bound. With one reading at the end of a bucket and the other at the beginning of the next, every rolling
   window over the boundary is that full.
   */
  lemma RollingBoundIsReached(cfg: Config, u: string, c: string, w: Window, most: nat, t1: int, t2: int)
      returns (steps: seq<Step>)
    requires cfg.calendar.Valid() && most >= 1 && t1 <= t2
    requires cfg.limits(u, c).Of(w) > 0 && RoomForTwo(cfg.calendar, cfg.limits(u, c), w, most, t1, t2)
    ensures AtMostWaiting(cfg, Init(t1), steps, u, c, most)
    ensures forall i :: 0 <= i < |steps| ==> !steps[i].ResetCaps?
    ensures CountIf(Run(cfg, Init(t1), steps).log, AdmitWithin(u, c, t1, t2 + 1 - t1)) ==
            2 * (cfg.limits(u, c).Of(w) + most - 1)
  {
    hide AgreesWithLog, Next, Run, AtMostWaiting, CountIf, RoomForTwo, RoomAfter;
    var limit, first, second := cfg.limits(u, c).Of(w), Ticket(u, c, t1), Ticket(u, c, t2);
    var n, p := limit + most - 1, AdmitWithin(u, c, t1, t2 + 1 - t1);
    InitAgrees(cfg.calendar, t1);
    FirstBurstFits(cfg, u, c, w, most, t1, t2);
    var a := Burst(cfg, Init(t1), first, limit - 1, most, most);
    var st := Run(cfg, Init(t1), a);
    assert st.log == Copies(first, n) by {
      assert [] + Copies(first, n) == Copies(first, n);
    }
    SecondBurstFits(cfg, u, c, w, most, t1, t2);
    var b := Burst(cfg, st, second, limit - 1, most, most);
    StepsThen(cfg, Init(t1), a, b, u, c, most);
    CopiesCount(first, n, p);
    CopiesCount(second, n, p);
    CountIfConcat(Copies(first, n), Copies(second, n), p);
    steps := a + b;
  }

  lemma FirstBurstFits(cfg: Config, u: string, c: string, w: Window, most: nat, t1: int, t2: int)
    requires cfg.limits(u, c).Of(w) > 0 && RoomForTwo(cfg.calendar, cfg.limits(u, c), w, most, t1, t2)
    ensures RoomAfter(cfg, [], Ticket(u, c, t1), cfg.limits(u, c).Of(w) - 1)
  {
  }

  lemma SecondBurstFits(cfg: Config, u: string, c: string, w: Window, most: nat, t1: int, t2: int)
    requires cfg.limits(u, c).Of(w) > 0 && RoomForTwo(cfg.calendar, cfg.limits(u, c), w, most, t1, t2)
    ensures RoomAfter(cfg, Copies(Ticket(u, c, t1), cfg.limits(u, c).Of(w) + most - 1), Ticket(u, c, t2),
                      cfg.limits(u, c).Of(w) - 1)
  {
    var cal, limit, first, second := cfg.calendar, cfg.limits(u, c).Of(w), Ticket(u, c, t1), Ticket(u, c, t2);
    var log := Copies(first, limit + most - 1);
    forall v: Window ensures !Full(cfg.limits(u, c).Of(v),
        AdmitsLogged(cal, log, KeyOf(cal, second, v)) + (limit - 1)) {
      CopiesLogged(cal, [], first, limit + most - 1, KeyOf(cal, second, v));
      assert [] + log == log;
    }
  }
}
