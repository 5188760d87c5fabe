/**
 The event handler with its factory and dispatcher as they run: one pass that creates rows in the session, one
 pass that gates them, then a commit or a rollback. The caps and the registry answers live in their own services.
 */
module EventService {
  import opened Wrappers
  import opened EventHandler
  import opened EventReplay
  import opened EventVerdict
  import opened EventBudget
  import Redis
  import FC = FrequencyCap
  import Compliance
  import OptOut
  import D = Delivery

  /** Outside quiet hours a row is gated by the registry and then by the caps. */
  lemma DispatchAwake(env: Env, side: Side, p: Payload, row: Row, now: int, fault: Fault, i: nat)
    requires row.user in env.users && env.users[row.user].id == row.user
    requires row.status != D.SKIPPED && fault != BeforeRow(i)
    requires !QuietCheckRaises(env, env.users[row.user], p.eventType) &&
             !Quiet(env, env.users[row.user], p.eventType, now)
    ensures var u, side1 := env.users[row.user], side.(dnd := DndAfter(env, side, p, row, now));
            Dispatch(env, side, p, row, now, fault, i) ==
            if Registered(env, side, p, u, row.channel, now) then
              (Some(row.(status := D.SKIPPED, reason := Some(DND_REGISTERED))), side1)
            else if HasRoom(env, side, u, row.channel, now) then
              (if fault == AfterAdmit(i) then (None, Counted(env, side1, row, now))
               else (Some(row.(status := D.QUEUED)), Sent(Counted(env, side1, row, now), row.id)))
            else (Some(row.(status := D.SKIPPED, reason := Some(FREQUENCY_CAPPED))), side1)
  {
  }

  predicate HasRoom(env: Env, side: Side, u: User, c: Channel, now: int) {
    FC.Admits(env.calendar, side.caps, FC.Effective(CallerCaps(u), env.defaults), FC.Ticket(u.id, Value(c), now), now)
  }

  /** One message more. */
  function Sent(side: Side, id: nat): Side {
    side.(tasks := side.tasks + multiset{id})
  }

  /** A batch's result with the rows gated before it in front. */
  function Onto(done: seq<Row>, d: (Option<seq<Row>>, Side)): (Option<seq<Row>>, Side) {
    (if d.0 == None then None else Some(done + d.0.value), d.1)
  }

  lemma OneRowOnto(env: Env, side: Side, p: Payload, rows: seq<Row>, now: int, fault: Fault, i: nat, done: seq<Row>)
    requires i < |rows|
    ensures var (row, side1) := Dispatch(env, side, p, rows[i], now, fault, i);
            Onto(done, DispatchFrom(env, side, p, rows, now, fault, i)) ==
            if row == None then (None, side1)
            else Onto(done + [row.value], DispatchFrom(env, side1, p, rows, now, fault, i + 1))
  {
    var (row, side1) := Dispatch(env, side, p, rows[i], now, fault, i);
    if row.Some? {
      var rest := DispatchFrom(env, side1, p, rows, now, fault, i + 1).0;
      assert rest.Some? ==> done + ([row.value] + rest.value) == done + [row.value] + rest.value;
    }
  }

  /** A build's result with the rows of the session before it in front. */
  function AllBuilt(session: seq<Row>, rest: Option<seq<Row>>): Option<seq<Row>> {
    if rest == None then None else Some(session + rest.value)
  }

  lemma OneRowBuilt(env: Env, p: Payload, u: User, cs: seq<Channel>, uuid: nat -> nat, stored: seq<Row>,
                    session: seq<Row>, i: nat)
    requires i < |cs|
    ensures var single := BuildSingle(env, p, u, cs[i], uuid(i));
            AllBuilt(session, BuildFrom(env, p, u, cs, uuid, stored + session, i)) ==
            if single == None then AllBuilt(session, BuildFrom(env, p, u, cs, uuid, stored + session, i + 1))
            else if Taken(stored + session, single.value.key) then None
            else AllBuilt(session + [single.value],
                BuildFrom(env, p, u, cs, uuid, stored + (session + [single.value]), i + 1))
  {
    hide BuildSingle, Taken;
    var single := BuildSingle(env, p, u, cs[i], uuid(i));
    if single.Some? && !Taken(stored + session, single.value.key) {
      assert stored + session + [single.value] == stored + (session + [single.value]);
      var rest := BuildFrom(env, p, u, cs, uuid, stored + session + [single.value], i + 1);
      assert rest.Some? ==> session + ([single.value] + rest.value) == session + [single.value] + rest.value;
    }
  }

  /**
   What a caller may rely on whatever the event: stored rows stay, and without a breakdown each new row is decided.
   */
  lemma HandleIsDecided(env: Env, sys: Sys, p: Payload, now: int, uuid: nat -> nat, fault: Fault)
    requires WellFormed(env)
    ensures var sys' := Handle(env, sys, p, now, uuid, fault);
            && sys.rows <= sys'.rows && sys.side.admits <= sys'.side.admits && sys.side.tasks <= sys'.side.tasks
            && (fault == NoFault ==>
                  forall k :: |sys.rows| <= k < |sys'.rows| ==> sys'.rows[k].status in {D.QUEUED, D.SKIPPED})
            && (fault == NoFault && env.calendar.Valid() ==>
                  forall k :: |sys.rows| <= k < |sys'.rows| ==>
                    && p.userId.Some? && p.userId.value in env.users
                    && Decided(env, sys.side, p, env.users[p.userId.value], sys'.rows[k], now,
                        sys'.rows[|sys.rows|..k]))
  {
    var built := Build(env, sys.rows, p, uuid);
    if built.Some? {
      GateOnlyAdds(env, sys.side, p, built.value, now, fault, 0);
    }
    var rows := Handle(env, sys, p, now, uuid, fault).rows;
    if fault == NoFault && rows != sys.rows {
      Stored(env, sys, p, now, uuid);
      GateSettles(env, sys.side, p, built.value, now, 0, env.users[p.userId.value]);
      if env.calendar.Valid() {
        forall k: nat | |sys.rows| <= k < |rows|
          ensures Decided(env, sys.side, p, env.users[p.userId.value], rows[k], now, rows[|sys.rows|..k])
        {
          EveryStoredRowIsDecided(env, sys, p, now, uuid, k);
        }
      }
    }
  }

  /** The gate only adds to the log of admits and to the messages. */
  lemma {:induction false} GateOnlyAdds(env: Env, side: Side, p: Payload, rows: seq<Row>, now: int, fault: Fault,
                                        i: nat)
    ensures var side' := DispatchFrom(env, side, p, rows, now, fault, i).1;
            side.admits <= side'.admits && side.tasks <= side'.tasks
    decreases |rows| - i
  {
    if i < |rows| {
      GateOnlyAdds(env, Dispatch(env, side, p, rows[i], now, fault, i).1, p, rows, now, fault, i + 1);
    }
  }

  lemma {:induction false} GateSettles(env: Env, side: Side, p: Payload, rows: seq<Row>, now: int, i: nat, u: User)
    requires Built(env, rows, u) && DispatchFrom(env, side, p, rows, now, NoFault, i).0.Some?
    ensures var rs := DispatchFrom(env, side, p, rows, now, NoFault, i).0.value;
            forall k :: 0 <= k < |rs| ==> rs[k].status in {D.QUEUED, D.SKIPPED}
    decreases |rows| - i
  {
    if i < |rows| {
      BatchUnrolled(env, side, p, rows, now, i);
      FirstVerdict(env, side, p, rows, now, i, u, SMS);
      GateSettles(env, Dispatch(env, side, p, rows[i], now, NoFault, i).1, p, rows, now, i + 1, u);
    }
  }

  class NotificationEventHandler {
    const env: Env
    const redis: Redis.Server<FC.Key>
    const caps: FC.FrequencyCapService
    const compliance: Compliance.ComplianceService
    var rows: seq<Row>
    var tasks: multiset<nat>
    ghost var admits: seq<FC.Ticket>

    ghost predicate Valid()
      reads this
    {
      caps.redis == redis && caps.calendar == env.calendar && caps.defaults == env.defaults &&
          compliance.config == env.dnd
    }

    ghost function SideEffects(): Side
      reads this, redis, compliance
    {
      Side(tasks, redis.store, admits, Compliance.State(compliance.cache, compliance.queries))
    }

    ghost function View(): Sys
      reads this, redis, compliance
    {
      Sys(rows, SideEffects())
    }

    constructor (env: Env, redis: Redis.Server<FC.Key>, compliance: Compliance.ComplianceService)
      requires compliance.config == env.dnd
      ensures Valid() && this.env == env && this.redis == redis && this.compliance == compliance
      ensures rows == [] && tasks == multiset{} && admits == []
    {
      this.env := env;
      this.redis := redis;
      this.compliance := compliance;
      this.caps := new FC.FrequencyCapService(redis, env.calendar, env.defaults);
      rows, tasks, admits := [], multiset{}, [];
    }

    method GetByIdempotencyKey(key: Option<string>) returns (found: bool)
      ensures found == Taken(rows, key)
    {
      found := false;
      if key == None {
        return;
      }
      for i := 0 to |rows|
        invariant forall k :: 0 <= k < i ==> rows[k].key != key
      {
        if rows[i].key == key {
          return true;
        }
      }
    }

    /** A row per channel, all in the open session; a duplicate key raises out of the loop. */
    method BuildNotifications(p: Payload, u: User, uuid: nat -> nat) returns (built: Option<seq<Row>>)
      requires Parses(env, p)
      ensures built == BuildFrom(env, p, u, Targets(p), uuid, rows, 0)
    {
      var targets := Targets(p);
      var session := [];
      ghost var all := BuildFrom(env, p, u, targets, uuid, rows, 0);
      assert rows + session == rows && (all.Some? ==> session + all.value == all.value);
      for i := 0 to |targets|
        invariant all == AllBuilt(session, BuildFrom(env, p, u, targets, uuid, rows + session, i))
      {
        OneRowBuilt(env, p, u, targets, uuid, rows, session, i);
        var single := BuildRow(p, u, targets[i], uuid(i));
        if single != None {
          if Taken(rows + session, single.value.key) {
            return None;
          }
          session := session + [single.value];
        }
      }
      assert session + [] == session;
      return Some(session);
    }

    method BuildRow(p: Payload, u: User, c: Channel, id: nat) returns (row: Option<Row>)
      ensures row == BuildSingle(env, p, u, c, id)
    {
      if u.preferences.Some? && c !in u.preferences.value.enabled {
        return Some(SkipRow(env, p, u, c, id, CHANNEL_DISABLED));
      }
      if u.preferences.Some? {
        var disabled := OptOut.GetDisabledEvents(env.spaces, u.preferences.value.disabledEventTypes);
        if p.eventType in disabled {
          return Some(SkipRow(env, p, u, c, id, USER_OPT_OUT));
        }
      }
      var recipient := Recipient(u, c);
      if !Truthy(recipient) {
        return Some(SkipRow(env, p, u, c, id, INVALID_CONTACT));
      }
      if !env.renders(p, c) {
        return None;
      }
      return Some(Row(id, u.id, c, D.PENDING, None, recipient.value, MaxRetries(c), StoredKey(p.key, c)));
    }

    method CheckQuietHours(u: User, eventType: string, now: int) returns (raised: bool, quiet: bool)
      ensures raised == QuietCheckRaises(env, u, eventType)
      ensures !raised ==> quiet == Quiet(env, u, eventType, now)
      ensures var critical := eventType in {"security.suspicious_activity", "account.blocked", "transaction.failure",
                                            "security.otp_generated", "loan.emi_missed"};
              critical ==> !raised && !quiet
      ensures u.preferences == None || !u.preferences.value.quietHoursEnabled ==> !raised && !quiet
      ensures var critical := eventType in {"security.suspicious_activity", "account.blocked", "transaction.failure",
                                            "security.otp_generated", "loan.emi_missed"};
              !critical && u.preferences != None && u.preferences.value.quietHoursEnabled ==>
                var start, end := u.preferences.value.quietHoursStart, u.preferences.value.quietHoursEnd;
                var hour := env.localHour(u.id, now);
                && raised == !env.zoneKnown(u.id)
                && (!raised ==> quiet == if start > end then hour >= start || hour < end else start <= hour < end)
    {
      raised, quiet := false, false;
      if u.preferences.Some? && u.preferences.value.quietHoursEnabled {
        if eventType !in CRITICAL_EVENTS {
          var prefs := u.preferences.value;
          if !env.zoneKnown(u.id) {
            return true, false;
          }
          var hour := env.localHour(u.id, now);
          if prefs.quietHoursStart > prefs.quietHoursEnd {
            quiet := hour >= prefs.quietHoursStart || hour < prefs.quietHoursEnd;
          } else {
            quiet := prefs.quietHoursStart <= hour < prefs.quietHoursEnd;
          }
        }
      }
    }

    /** The checks in their order; the first that refuses decides. */
    method DispatchRow(p: Payload, row: Row, now: int, fault: Fault, i: nat) returns (gated: Option<Row>)
      requires Valid() && WellFormed(env)
      modifies this`tasks, this`admits, redis, compliance
      ensures (gated, SideEffects()) == Dispatch(env, old(SideEffects()), p, row, now, fault, i)
    {
      if fault == BeforeRow(i) {
        return None;
      }
      if row.status == D.SKIPPED {
        return Some(row);
      }
      if row.user !in env.users {
        return Some(row.(status := D.FAILED));
      }
      var u := env.users[row.user];
      var raised, quiet := CheckQuietHours(u, p.eventType, now);
      if raised {
        return None;
      }
      if quiet {
        return Some(row.(status := D.SKIPPED, reason := Some(QUIET_HOURS)));
      }
      gated := DispatchUnlessRefused(p, row, u, now, fault, i);
    }

    /** The registry check and the caps, for a row outside quiet hours. */
    method DispatchUnlessRefused(p: Payload, row: Row, u: User, now: int, fault: Fault, i: nat)
      returns (gated: Option<Row>)
      requires Valid() && row.user in env.users && env.users[row.user] == u && u.id == row.user
      requires row.status != D.SKIPPED && fault != BeforeRow(i)
      requires !QuietCheckRaises(env, u, p.eventType) && !Quiet(env, u, p.eventType, now)
      modifies this`tasks, this`admits, redis, compliance
      ensures (gated, SideEffects()) == Dispatch(env, old(SideEffects()), p, row, now, fault, i)
    {
      DispatchAwake(env, SideEffects(), p, row, now, fault, i);
      var registered := CheckRegistry(p, row, u, now);
      if registered {
        return Some(row.(status := D.SKIPPED, reason := Some(DND_REGISTERED)));
      }
      gated := AdmitRow(row, u, now, fault, i);
    }

    method CheckRegistry(p: Payload, row: Row, u: User, now: int) returns (registered: bool)
      requires Valid() && row.user in env.users && env.users[row.user] == u
      requires !QuietCheckRaises(env, u, p.eventType) && !Quiet(env, u, p.eventType, now)
      modifies compliance
      ensures registered == Registered(env, old(SideEffects()), p, u, row.channel, now)
      ensures SideEffects() == old(SideEffects()).(dnd := DndAfter(env, old(SideEffects()), p, row, now))
    {
      registered := false;
      if row.channel == SMS || row.channel == WHATSAPP {
        if Truthy(u.phone) {
          var verdict := compliance.CheckDnd(DndCheck(env, u, p.eventType, now));
          registered := verdict.Registered?;
        }
      }
    }

    /** An admitted row is counted before its message is sent; a breakdown in between leaves the count. */
    method AdmitRow(row: Row, u: User, now: int, fault: Fault, i: nat) returns (gated: Option<Row>)
      requires Valid() && u.id == row.user
      modifies this`tasks, this`admits, redis
      ensures !HasRoom(env, old(SideEffects()), u, row.channel, now) ==>
                gated == Some(row.(status := D.SKIPPED, reason := Some(FREQUENCY_CAPPED))) &&
                    SideEffects() == old(SideEffects())
      ensures HasRoom(env, old(SideEffects()), u, row.channel, now) && fault == AfterAdmit(i) ==>
                gated == None && SideEffects() == Counted(env, old(SideEffects()), row, now)
      ensures HasRoom(env, old(SideEffects()), u, row.channel, now) && fault != AfterAdmit(i) ==>
                gated == Some(row.(status := D.QUEUED)) &&
                    SideEffects() == Sent(Counted(env, old(SideEffects()), row, now), row.id)
    {
      var outcome := caps.CheckAndIncrement(u.id, Value(row.channel), CallerCaps(u), now);
      if outcome.Refused? {
        return Some(row.(status := D.SKIPPED, reason := Some(FREQUENCY_CAPPED)));
      }
      admits := admits + [Ticket(row, now)];
      if fault == AfterAdmit(i) {
        return None;
      }
      tasks := tasks + multiset{row.id};
      return Some(row.(status := D.QUEUED));
    }

    method DispatchAll(p: Payload, session: seq<Row>, now: int, fault: Fault) returns (gated: Option<seq<Row>>)
      requires Valid() && WellFormed(env)
      modifies this`tasks, this`admits, redis, compliance
      ensures (gated, SideEffects()) == DispatchFrom(env, old(SideEffects()), p, session, now, fault, 0)
    {
      var done := [];
      ghost var all := DispatchFrom(env, SideEffects(), p, session, now, fault, 0);
      assert all.0.Some? ==> done + all.0.value == all.0.value;
      for i := 0 to |session|
        invariant Valid()
        invariant all == Onto(done, DispatchFrom(env, SideEffects(), p, session, now, fault, i))
      {
        OneRowOnto(env, SideEffects(), p, session, now, fault, i, done);
        var row := DispatchRow(p, session[i], now, fault, i);
        if row == None {
          return None;
        }
        done := done + [row.value];
      }
      assert done + [] == done;
      return Some(done);
    }

    method Handle(p: Payload, now: int, uuid: nat -> nat, fault: Fault)
      requires Valid() && WellFormed(env)
      modifies this, redis, compliance
      ensures Valid() && View() == EventHandler.Handle(env, old(View()), p, now, uuid, fault)
      ensures old(rows) <= rows && old(admits) <= admits && old(tasks) <= tasks
      ensures fault == AtCommit ==> rows == old(rows)
      ensures fault == NoFault ==> forall k :: |old(rows)| <= k < |rows| ==> rows[k].status in {D.QUEUED, D.SKIPPED}
      ensures fault == NoFault && env.calendar.Valid() ==>
                forall k :: |old(rows)| <= k < |rows| ==>
                  && p.userId.Some? && p.userId.value in env.users
                  && Decided(env, old(SideEffects()), p, env.users[p.userId.value], rows[k], now, rows[|old(rows)|..k])
    {
      HandleIsDecided(env, View(), p, now, uuid, fault);
      if p.userId == None {
        return;
      }
      if Truthy(p.key) {
        var existing := GetByIdempotencyKey(p.key);
        if existing {
          return;
        }
      }
      if p.userId.value !in env.users || !env.users[p.userId.value].active {
        return;
      }
      if !Parses(env, p) {
        return;
      }
      var built := BuildNotifications(p, env.users[p.userId.value], uuid);
      if built == None {
        return;
      }
      var gated := DispatchAll(p, built.value, now, fault);
      if gated == None || fault == AtCommit {
        return;
      }
      rows := rows + gated.value;
    }
  }
}
