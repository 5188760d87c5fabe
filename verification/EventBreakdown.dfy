/**
 When a handling breaks down before its commit, its rows are rolled back; its messages, counters and cached
 registry answers are not. This module says, from the state the handling found, when that leaves anything
 behind, and what a redelivery then makes of it.
 */
module EventBreakdown {
  import opened Wrappers
  import opened Counting
  import opened EventHandler
  import opened EventReplay
  import opened EventBudget
  import opened EventVerdict
  import Redis
  import FC = FrequencyCap
  import D = Delivery

  /** INCR is the only command that writes a counter, so none is negative. */
  ghost predicate Natural(side: Side) {
    forall k :: k in side.caps ==> side.caps[k].value >= 0
  }

  /** The hour counter that a send at `now` moves, read at t. */
  function HourCount(env: Env, side: Side, u: User, c: Channel, now: int, t: int): int {
    Redis.Count(side.caps, FC.Key(u.id, Value(c), FC.Hour, env.calendar.Bucket(FC.Hour, now)), t)
  }

  lemma CountedIsNatural(env: Env, side: Side, row: Row, now: int)
    requires Natural(side)
    ensures Natural(Counted(env, side, row, now))
  {
  }

  /**
   Counting a row raises its channel's hour counter, at every reading from then to the hour's end, and lowers none.
   */
  lemma CountedGrows(env: Env, side: Side, row: Row, now: int, u: User, c: Channel, t: int)
    requires env.calendar.Valid() && row.user == u.id && now <= t < now + 3600 && (t == now || Natural(side))
    ensures HourCount(env, Counted(env, side, row, now), u, c, now, t) >=
            HourCount(env, side, u, c, now, t) + (if row.channel == c then 1 else 0)
  {
    ValuesAreDistinct(row.channel, c);
    var k := FC.Key(u.id, Value(c), FC.Hour, env.calendar.Bucket(FC.Hour, now));
    FC.IncrementAllCounts(env.calendar, side.caps, Ticket(row, now), now, k, t);
  }

  /**
   Gating one row, whatever breaks down: it leaves messages and counters alone, or it counts the row and may send its
   message.
   */
  lemma DispatchCounts(env: Env, side: Side, p: Payload, row: Row, now: int, fault: Fault, i: nat)
    ensures var side' := Dispatch(env, side, p, row, now, fault, i).1;
            var counted := Counted(env, side, row, now);
            if side'.admits == side.admits then side'.tasks == side.tasks && side'.caps == side.caps
            else
              && side'.caps == counted.caps && side'.admits == counted.admits
              && (side'.tasks == side.tasks || side'.tasks == side.tasks + multiset{row.id})
  {
  }

  lemma {:induction false} SideOnlyGrows(env: Env, side: Side, p: Payload, rows: seq<Row>, now: int, fault: Fault,
                                         i: nat,
                                         u: User, c: Channel, t: int)
    requires env.calendar.Valid() && Built(env, rows, u) && now <= t < now + 3600 && (t == now || Natural(side))
    ensures var side' := DispatchFrom(env, side, p, rows, now, fault, i).1;
            && side.admits <= side'.admits
            && (side'.admits == side.admits ==> side'.tasks == side.tasks && side'.caps == side.caps)
            && HourCount(env, side', u, c, now, t) >= HourCount(env, side, u, c, now, t)
    decreases |rows| - i
  {
    if i < |rows| {
      hide Dispatch, Counted;
      var d := Dispatch(env, side, p, rows[i], now, fault, i);
      DispatchCounts(env, side, p, rows[i], now, fault, i);
      CountedGrows(env, side, rows[i], now, u, c, t);
      if Natural(side) {
        CountedIsNatural(env, side, rows[i], now);
      }
      if d.0.Some? {
        SideOnlyGrows(env, d.1, p, rows, now, fault, i + 1, u, c, t);
      }
    }
  }

  lemma {:induction false} AdmitShows(env: Env, side: Side, p: Payload, rows: seq<Row>, now: int, fault: Fault,
                                      i: nat, u: User, t: int)
      returns (c: Channel)
    requires env.calendar.Valid() && Built(env, rows, u) && now <= t < now + 3600 && (t == now || Natural(side))
    requires DispatchFrom(env, side, p, rows, now, fault, i).1.admits != side.admits
    ensures HourCount(env, DispatchFrom(env, side, p, rows, now, fault, i).1, u, c, now, t) >
            HourCount(env, side, u, c, now, t)
    decreases |rows| - i
  {
    var d := Dispatch(env, side, p, rows[i], now, fault, i);
    DispatchCounts(env, side, p, rows[i], now, fault, i);
    if d.1.admits == side.admits {
      c := AdmitShows(env, d.1, p, rows, now, fault, i + 1, u, t);
    } else {
      c := rows[i].channel;
      CountedGrows(env, side, rows[i], now, u, c, t);
      if d.0.Some? {
        if Natural(side) {
          CountedIsNatural(env, side, rows[i], now);
        }
        SideOnlyGrows(env, d.1, p, rows, now, fault, i + 1, u, c, t);
      }
    }
  }

  // ---------------------------------------------------------------------------------------------
  // What a breakdown leaves behind
  // ---------------------------------------------------------------------------------------------

  /** The gate comes as far as row k, unless an earlier row stops it. */
  predicate Reached(fault: Fault, k: nat) {
    fault.BeforeRow? ==> k < fault.i
  }

  /** In this state the row would pass every check. */
  predicate Admissible(env: Env, side: Side, p: Payload, u: User, row: Row, now: int) {
    && row.status == D.PENDING && !QuietCheckRaises(env, u, p.eventType)
    && Expected(env, side, p, u, row, now, []).status == D.QUEUED
  }

  /** From row i on, the gate reaches some row that would pass every check. */
  ghost predicate WouldAdmit(env: Env, side: Side, p: Payload, u: User, rows: seq<Row>, now: int, fault: Fault,
                             i: nat) {
    exists k: nat :: i <= k < |rows| && Reached(fault, k) && Admissible(env, side, p, u, rows[k], now)
  }

  /**
   One row that is reached is counted iff it is admissible; otherwise nothing that the later checks look at changes.
   */
  lemma ReachedRow(env: Env, side: Side, p: Payload, rows: seq<Row>, now: int, fault: Fault, i: nat, u: User,
                   c: Channel)
    requires Built(env, rows, u) && i < |rows| && fault != BeforeRow(i)
    ensures var d := Dispatch(env, side, p, rows[i], now, fault, i);
            && (d.1.admits != side.admits <==> Admissible(env, side, p, u, rows[i], now))
            && (d.1.admits == side.admits ==>
                  && (d.0.None? ==> QuietCheckRaises(env, u, p.eventType))
                  && Registered(env, d.1, p, u, c, now) == Registered(env, side, p, u, c, now))
  {
    var row := rows[i];
    var tk := FC.Ticket(u.id, Value(row.channel), now);
    assert forall w: FC.Window ::
        FC.KeyOf(env.calendar, tk, w) == FC.Key(u.id, Value(row.channel), w, env.calendar.Bucket(w, now));
    if Truthy(u.phone) {
      DecideAgain(env.dnd, side.dnd, DndCheck(env, u, p.eventType, now));
    }
  }

  lemma SameExpectation(env: Env, side: Side, side1: Side, p: Payload, u: User, row: Row, now: int)
    requires side1.caps == side.caps
    requires Registered(env, side1, p, u, row.channel, now) == Registered(env, side, p, u, row.channel, now)
    ensures Admissible(env, side1, p, u, row, now) <==> Admissible(env, side, p, u, row, now)
  {
    assert forall w: FC.Window ::
        Spent(env, side1, u.id, row.channel, w, now) == Spent(env, side, u.id, row.channel, w, now);
  }

  /** The gate admits something iff it would by the state it started from. */
  lemma {:induction false} AdmitsIffWouldAdmit(env: Env, side: Side, p: Payload, rows: seq<Row>, now: int,
                                               fault: Fault, i: nat, u: User)
    requires env.calendar.Valid() && Built(env, rows, u) && (fault.BeforeRow? ==> i <= fault.i)
    ensures DispatchFrom(env, side, p, rows, now, fault, i).1.admits != side.admits <==>
            WouldAdmit(env, side, p, u, rows, now, fault, i)
    decreases |rows| - i
  {
    if i < |rows| && fault != BeforeRow(i) {
      hide Dispatch, Admissible, HourCount, Counted;
      var d := Dispatch(env, side, p, rows[i], now, fault, i);
      ReachedRow(env, side, p, rows, now, fault, i, u, SMS);
      DispatchCounts(env, side, p, rows[i], now, fault, i);
      if d.1.admits != side.admits {
        assert Reached(fault, i) && Admissible(env, side, p, u, rows[i], now);
        if d.0.Some? {
          SideOnlyGrows(env, d.1, p, rows, now, fault, i + 1, u, SMS, now);
        }
      } else if d.0.Some? {
        AdmitsIffWouldAdmit(env, d.1, p, rows, now, fault, i + 1, u);
        LaterRowsAlike(env, side, p, rows, now, fault, i, u);
      } else {
        NothingAfterRaise(env, side, p, u, rows, now, fault, i);
      }
    }
  }

  lemma NothingAfterRaise(env: Env, side: Side, p: Payload, u: User, rows: seq<Row>, now: int, fault: Fault, i: nat)
    requires QuietCheckRaises(env, u, p.eventType)
    ensures !WouldAdmit(env, side, p, u, rows, now, fault, i)
  {
  }

  lemma LaterRowsAlike(env: Env, side: Side, p: Payload, rows: seq<Row>, now: int, fault: Fault, i: nat, u: User)
    requires Built(env, rows, u) && i < |rows| && fault != BeforeRow(i)
    requires Dispatch(env, side, p, rows[i], now, fault, i).1.admits == side.admits
    ensures WouldAdmit(env, Dispatch(env, side, p, rows[i], now, fault, i).1, p, u, rows, now, fault, i + 1) <==>
            WouldAdmit(env, side, p, u, rows, now, fault, i)
  {
    hide Dispatch, Counted;
    var side1 := Dispatch(env, side, p, rows[i], now, fault, i).1;
    DispatchCounts(env, side, p, rows[i], now, fault, i);
    ReachedRow(env, side, p, rows, now, fault, i, u, SMS);
    forall k: nat | k < |rows|
      ensures Admissible(env, side1, p, u, rows[k], now) <==> Admissible(env, side, p, u, rows[k], now)
    {
      ReachedRow(env, side, p, rows, now, fault, i, u, rows[k].channel);
      SameExpectation(env, side, side1, p, u, rows[k], now);
    }
  }

  /** The event was built and its handling did not come to its commit, or the commit failed. */
  ghost predicate BreaksDown(env: Env, sys: Sys, p: Payload, now: int, uuid: nat -> nat, fault: Fault) {
    var built := Build(env, sys.rows, p, uuid);
    && p.userId.Some? && KnownAndActive(env, p.userId.value) && built.Some?
    && (fault == AtCommit || DispatchFrom(env, sys.side, p, built.value, now, fault, 0).0 == None)
  }

  /** Said of the state before the call: the gate reaches a row that would pass every check. */
  ghost predicate LeavesTraces(env: Env, sys: Sys, p: Payload, now: int, uuid: nat -> nat, fault: Fault)
    requires BreaksDown(env, sys, p, now, uuid, fault)
  {
    WouldAdmit(env, sys.side, p, env.users[p.userId.value], Build(env, sys.rows, p, uuid).value, now, fault, 0)
  }

  /** A handling that breaks down stores no row, and its messages and counters are undone iff it leaves no traces. */
  lemma BreakdownIsUndoneIffNothingAdmissible(env: Env, sys: Sys, p: Payload, now: int, uuid: nat -> nat, fault: Fault)
    requires WellFormed(env) && env.calendar.Valid() && BreaksDown(env, sys, p, now, uuid, fault)
    ensures var sys' := Handle(env, sys, p, now, uuid, fault);
            && sys'.rows == sys.rows
            && (sys'.side.tasks == sys.side.tasks && sys'.side.caps == sys.side.caps <==>
                  !LeavesTraces(env, sys, p, now, uuid, fault))
            && (sys'.side.admits == sys.side.admits <==> !LeavesTraces(env, sys, p, now, uuid, fault))
  {
    var u, rows := env.users[p.userId.value], Build(env, sys.rows, p, uuid).value;
    BuiltRows(env, p, u, Targets(p), 0, uuid, sys.rows);
    SideOnlyGrows(env, sys.side, p, rows, now, fault, 0, u, SMS, now);
    AdmitsIffWouldAdmit(env, sys.side, p, rows, now, fault, 0, u);
    var side' := DispatchFrom(env, sys.side, p, rows, now, fault, 0).1;
    if side'.admits != sys.side.admits {
      var _ := AdmitShows(env, sys.side, p, rows, now, fault, 0, u, now);
    }
  }

  /**
   A commit that fails leaves the messages of a handling without the rows: each queued row's message names a row that
   is not stored.
   */
  lemma FailedCommitLeavesItsMessages(env: Env, sys: Sys, p: Payload, now: int, uuid: nat -> nat)
    requires WellFormed(env) && env.calendar.Valid() && BreaksDown(env, sys, p, now, uuid, AtCommit)
    ensures var lost, done := Handle(env, sys, p, now, uuid, AtCommit), Handle(env, sys, p, now, uuid, NoFault);
            && lost.rows == sys.rows && lost.side == done.side
            && (done.rows != sys.rows ==>
                  sys.rows <= done.rows && lost.side.tasks == sys.side.tasks + QueuedIds(done.rows[|sys.rows|..]))
  {
    var u, rows := env.users[p.userId.value], Build(env, sys.rows, p, uuid).value;
    BuiltRows(env, p, u, Targets(p), 0, uuid, sys.rows);
    SameGate(env, sys.side, p, rows, now, 0);
    var d := DispatchFrom(env, sys.side, p, rows, now, NoFault, 0);
    if d.0.Some? {
      GateConservesBudget(env, sys.side, p, rows, now, 0, u, SMS, FC.Hour);
      assert (sys.rows + d.0.value)[|sys.rows|..] == d.0.value;
    }
  }

  /** A failing commit is not felt at the gate. */
  lemma {:induction false} SameGate(env: Env, side: Side, p: Payload, rows: seq<Row>, now: int, i: nat)
    ensures DispatchFrom(env, side, p, rows, now, AtCommit, i) == DispatchFrom(env, side, p, rows, now, NoFault, i)
    decreases |rows| - i
  {
    if i < |rows| {
      SameGate(env, Dispatch(env, side, p, rows[i], now, NoFault, i).1, p, rows, now, i + 1);
    }
  }

  // ---------------------------------------------------------------------------------------------
  // A breakdown and a redelivery
  // ---------------------------------------------------------------------------------------------

  /** A batch touches the messages of its own rows only. */
  lemma {:induction false} OtherMessagesStay(env: Env, side: Side, p: Payload, rows: seq<Row>, now: int, fault: Fault,
                                             i: nat, id: nat)
    requires forall k :: 0 <= k < |rows| ==> rows[k].id != id
    ensures DispatchFrom(env, side, p, rows, now, fault, i).1.tasks[id] == side.tasks[id]
    decreases |rows| - i
  {
    if i < |rows| {
      var d := Dispatch(env, side, p, rows[i], now, fault, i);
      DispatchCounts(env, side, p, rows[i], now, fault, i);
      if d.0.Some? {
        OtherMessagesStay(env, d.1, p, rows, now, fault, i + 1, id);
      }
    }
  }

  /** Later sends do not move the counter of an hour that has passed. */
  lemma {:induction false} OtherHourStays(env: Env, side: Side, p: Payload, rows: seq<Row>, now: int, fault: Fault,
                                          i: nat, k: FC.Key, t: int)
    requires k.window == FC.Hour && k.bucket != env.calendar.Bucket(FC.Hour, now)
    ensures Redis.Count(DispatchFrom(env, side, p, rows, now, fault, i).1.caps, k, t) == Redis.Count(side.caps, k, t)
    decreases |rows| - i
  {
    if i < |rows| {
      var d := Dispatch(env, side, p, rows[i], now, fault, i);
      DispatchCounts(env, side, p, rows[i], now, fault, i);
      FC.IncrementAllCounts(env.calendar, side.caps, Ticket(rows[i], now), now, k, t);
      if d.0.Some? {
        OtherHourStays(env, d.1, p, rows, now, fault, i + 1, k, t);
      }
    }
  }

  ghost predicate Injective(uuid: nat -> nat) {
    forall a: nat, b: nat :: a < b ==> uuid(a) != uuid(b)
  }

  ghost predicate Fresh(uuid1: nat -> nat, uuid2: nat -> nat) {
    Injective(uuid2) && forall a: nat, b: nat :: uuid1(a) != uuid2(b)
  }

  lemma {:induction false} SameQueuedCounts(rs: seq<Row>, qs: seq<Row>, c: Channel)
    requires |rs| == |qs| && forall k :: 0 <= k < |rs| ==>
               (rs[k].status == D.QUEUED <==> qs[k].status == D.QUEUED) && rs[k].channel == qs[k].channel
    ensures CountIf(rs, QueuedOn(c)) == CountIf(qs, QueuedOn(c))
  {
    if rs != [] {
      SameQueuedCounts(rs[..|rs| - 1], qs[..|qs| - 1], c);
    }
  }

  /** Two gatings of one batch that send the same messages queue the same rows. */
  lemma SameMessagesSameCounts(rows: seq<Row>, rs: seq<Row>, qs: seq<Row>, c: Channel)
    requires |rs| == |qs| == |rows| && (forall a, b :: 0 <= a < b < |rows| ==> rows[a].id != rows[b].id)
    requires forall k :: 0 <= k < |rows| ==> rs[k].id == qs[k].id == rows[k].id && rs[k].channel == qs[k].channel
    requires QueuedIds(rs) == QueuedIds(qs)
    ensures CountIf(rs, QueuedOn(c)) == CountIf(qs, QueuedOn(c))
  {
    forall k: nat | k < |rs| ensures rs[k].status == D.QUEUED <==> qs[k].status == D.QUEUED {
      assert forall a, b :: 0 <= a < b < |rs| ==> rs[a].id == rows[a].id && rs[b].id == rows[b].id;
      assert forall a, b :: 0 <= a < b < |qs| ==> qs[a].id == rows[a].id && qs[b].id == rows[b].id;
      OneMessagePerQueuedRow(rs, k);
      OneMessagePerQueuedRow(qs, k);
    }
    SameQueuedCounts(rs, qs, c);
  }

  /**
   Two handlings of the same rows, from states with equal messages: if one state's hour counter is ahead, the outcomes
   differ.
   */
  lemma AheadStaysAhead(env: Env, side1: Side, side2: Side, p: Payload, rows: seq<Row>, now: int, now2: int, u: User,
                        c: Channel)
    requires env.calendar.Valid() && Built(env, rows, u) && now <= now2
    requires forall a, b :: 0 <= a < b < |rows| ==> rows[a].id != rows[b].id
    requires side1.tasks == side2.tasks
    requires var t := if env.calendar.Bucket(FC.Hour, now2) == env.calendar.Bucket(FC.Hour, now) then now2 else now;
             HourCount(env, side1, u, c, now, t) > HourCount(env, side2, u, c, now, t)
    requires DispatchFrom(env, side1, p, rows, now2, NoFault, 0).0.Some? &&
             DispatchFrom(env, side2, p, rows, now2, NoFault, 0).0.Some?
    ensures var d1, d2 := DispatchFrom(env, side1, p, rows, now2, NoFault, 0),
            DispatchFrom(env, side2, p, rows, now2, NoFault, 0);
            d1.1.tasks != d2.1.tasks || d1.1.caps != d2.1.caps
  {
    var d1, d2 := DispatchFrom(env, side1, p, rows, now2, NoFault, 0),
        DispatchFrom(env, side2, p, rows, now2, NoFault, 0);
    if d1.1.tasks == d2.1.tasks {
      GateConservesBudget(env, side1, p, rows, now2, 0, u, c, FC.Hour);
      GateConservesBudget(env, side2, p, rows, now2, 0, u, c, FC.Hour);
      if env.calendar.Bucket(FC.Hour, now2) == env.calendar.Bucket(FC.Hour, now) {
        GatedRows(env, side1, p, rows, now2, NoFault, 0);
        GatedRows(env, side2, p, rows, now2, NoFault, 0);
        assert QueuedIds(d1.0.value) == QueuedIds(d2.0.value) by {
          assert side1.tasks + QueuedIds(d1.0.value) - side1.tasks == QueuedIds(d1.0.value);
          assert side2.tasks + QueuedIds(d2.0.value) - side2.tasks == QueuedIds(d2.0.value);
        }
        SameMessagesSameCounts(rows, d1.0.value, d2.0.value, c);
        assert HourCount(env, d1.1, u, c, now, now2) > HourCount(env, d2.1, u, c, now, now2);
      } else {
        var k := FC.Key(u.id, Value(c), FC.Hour, env.calendar.Bucket(FC.Hour, now));
        OtherHourStays(env, side1, p, rows, now2, NoFault, 0, k, now);
        OtherHourStays(env, side2, p, rows, now2, NoFault, 0, k, now);
      }
    }
  }

  /**
   What the redelivery would have found without the breakdown: only the registry's answers may have come in between.
   */
  function Unbroken(sys: Sys, broken: Sys): Sys {
    Sys(sys.rows, sys.side.(dnd := broken.side.dnd))
  }

  lemma RebuildsAlike(env: Env, sys: Sys, p: Payload, now: int, uuid: nat -> nat, fault: Fault, uuid2: nat -> nat)
    requires BreaksDown(env, sys, p, now, uuid, fault)
    ensures Build(env, sys.rows, p, uuid2).Some?
  {
    if Build(env, sys.rows, p, uuid2) == None {
      forall i | 0 <= i < |sys.rows| && sys.rows[i].key.Some? ensures Taken(sys.rows, sys.rows[i].key) {
      }
      ConflictStays(env, p, env.users[p.userId.value], Targets(p), 0, uuid2, sys.rows, uuid, sys.rows);
    }
  }

  /** A message that the breakdown left names a row of the first handling, which the redelivery does not touch. */
  lemma StrayMessageStays(env: Env, sys: Sys, broken: Sys, p: Payload, now: int, uuid: nat -> nat, fault: Fault,
                          now2: int, uuid2: nat -> nat)
    requires WellFormed(env) && BreaksDown(env, sys, p, now, uuid, fault)
    requires Injective(uuid) && Fresh(uuid, uuid2) && Build(env, sys.rows, p, uuid2).Some?
    requires broken == Handle(env, sys, p, now, uuid, fault) && broken.side.tasks != sys.side.tasks
    ensures Handle(env, broken, p, now2, uuid2, NoFault).side.tasks != Handle(env, Unbroken(sys, broken), p, now2,
            uuid2, NoFault).side.tasks
  {
    var u, cs := env.users[p.userId.value], Targets(p);
    var rows1, rows2 := Build(env, sys.rows, p, uuid).value, Build(env, sys.rows, p, uuid2).value;
    BuiltIds(env, p, u, cs, 0, uuid, sys.rows);
    BuiltIds(env, p, u, cs, 0, uuid2, sys.rows);
    var id :| broken.side.tasks[id] != sys.side.tasks[id];
    if forall k :: 0 <= k < |rows1| ==> rows1[k].id != id {
      OtherMessagesStay(env, sys.side, p, rows1, now, fault, 0, id);
    }
    OtherMessagesStay(env, broken.side, p, rows2, now2, NoFault, 0, id);
    OtherMessagesStay(env, Unbroken(sys, broken).side, p, rows2, now2, NoFault, 0, id);
  }

  /**
   A redelivery after a breakdown leaves the rows, messages and counters of a single handling if the breakdown left no
   traces; if it did, messages or counters differ from a single handling's.
   */
  lemma RedeliveryIsCleanIffNothingAdmissible(env: Env, sys: Sys, p: Payload, now: int, uuid: nat -> nat, fault: Fault,
                                              now2: int, uuid2: nat -> nat)
    requires WellFormed(env) && env.calendar.Valid() && BreaksDown(env, sys, p, now, uuid, fault)
    requires now <= now2 && Natural(sys.side) && Injective(uuid) && Fresh(uuid, uuid2)
    ensures var broken := Handle(env, sys, p, now, uuid, fault);
            var again := Handle(env, broken, p, now2, uuid2, NoFault);
            var once := Handle(env, Unbroken(sys, broken), p, now2, uuid2, NoFault);
            && (!LeavesTraces(env, sys, p, now, uuid, fault) ==> again == once)
            && (again.side.tasks == once.side.tasks && again.side.caps == once.side.caps <==>
                  !LeavesTraces(env, sys, p, now, uuid, fault))
  {
    var broken := Handle(env, sys, p, now, uuid, fault);
    BreakdownIsUndoneIffNothingAdmissible(env, sys, p, now, uuid, fault);
    RebuildsAlike(env, sys, p, now, uuid, fault, uuid2);
    if !LeavesTraces(env, sys, p, now, uuid, fault) {
      assert broken == Unbroken(sys, broken);
    } else if broken.side.tasks != sys.side.tasks {
      StrayMessageStays(env, sys, broken, p, now, uuid, fault, now2, uuid2);
    } else {
      StrayCountStays(env, sys, broken, p, now, uuid, fault, now2, uuid2);
    }
  }

  /** A count that the breakdown left puts the redelivery ahead of a single handling. */
  lemma StrayCountStays(env: Env, sys: Sys, broken: Sys, p: Payload, now: int, uuid: nat -> nat, fault: Fault,
                        now2: int, uuid2: nat -> nat)
    requires WellFormed(env) && env.calendar.Valid() && BreaksDown(env, sys, p, now, uuid, fault)
    requires now <= now2 && Natural(sys.side) && Fresh(uuid, uuid2) && Build(env, sys.rows, p, uuid2).Some?
    requires broken == Handle(env, sys, p, now, uuid, fault) && broken.side.tasks == sys.side.tasks
    requires LeavesTraces(env, sys, p, now, uuid, fault)
    ensures var again := Handle(env, broken, p, now2, uuid2, NoFault);
            var once := Handle(env, Unbroken(sys, broken), p, now2, uuid2, NoFault);
            again.side.tasks != once.side.tasks || again.side.caps != once.side.caps
  {
    var u, cs := env.users[p.userId.value], Targets(p);
    var rows1, rows2 := Build(env, sys.rows, p, uuid).value, Build(env, sys.rows, p, uuid2).value;
    BreakdownIsUndoneIffNothingAdmissible(env, sys, p, now, uuid, fault);
    BuiltRows(env, p, u, cs, 0, uuid, sys.rows);
    BuiltRows(env, p, u, cs, 0, uuid2, sys.rows);
    BuiltIds(env, p, u, cs, 0, uuid2, sys.rows);
    var t := if env.calendar.Bucket(FC.Hour, now2) == env.calendar.Bucket(FC.Hour, now) then now2 else now;
    assert FC.Ttl(FC.Hour) == 3600;
    var c := AdmitShows(env, sys.side, p, rows1, now, fault, 0, u, t);
    GateDecides(env, broken.side, p, rows2, now2, 0, u);
    GateDecides(env, Unbroken(sys, broken).side, p, rows2, now2, 0, u);
    AheadStaysAhead(env, broken.side, Unbroken(sys, broken).side, p, rows2, now, now2, u, c);
  }

  /** Natural counters stay natural, so the assumption above holds in every state that events lead to. */
  lemma HandleKeepsNatural(env: Env, sys: Sys, p: Payload, now: int, uuid: nat -> nat, fault: Fault)
    requires Natural(sys.side)
    ensures Natural(Handle(env, sys, p, now, uuid, fault).side)
  {
    var built := Build(env, sys.rows, p, uuid);
    if built.Some? {
      GateKeepsNatural(env, sys.side, p, built.value, now, fault, 0);
    }
  }

  lemma {:induction false} GateKeepsNatural(env: Env, side: Side, p: Payload, rows: seq<Row>, now: int, fault: Fault,
                                            i: nat)
    requires Natural(side)
    ensures Natural(DispatchFrom(env, side, p, rows, now, fault, i).1)
    decreases |rows| - i
  {
    if i < |rows| {
      var d := Dispatch(env, side, p, rows[i], now, fault, i);
      DispatchCounts(env, side, p, rows[i], now, fault, i);
      CountedIsNatural(env, side, rows[i], now);
      if d.0.Some? {
        GateKeepsNatural(env, d.1, p, rows, now, fault, i + 1);
      }
    }
  }
}
