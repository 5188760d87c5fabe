/**
 What becomes of each row of an event, said in terms of the state the event found: which check decides it, and
 how it enters the delivery system.
 */
module EventVerdict {
  import opened Wrappers
  import opened Counting
  import opened EventHandler
  import opened EventReplay
  import opened EventBudget
  import FC = FrequencyCap
  import Compliance
  import D = Delivery

  predicate Registered(env: Env, side: Side, p: Payload, u: User, c: Channel, now: int) {
    DndChecked(u, c) && Compliance.Decide(env.dnd, side.dnd, DndCheck(env, u, p.eventType, now)).Registered?
  }

  /** Some window has no room left on this channel after the rows of the batch that were queued before. */
  predicate Capped(env: Env, side: Side, u: User, c: Channel, now: int, before: seq<Row>) {
    exists w: FC.Window ::
      FC.Full(FC.Effective(CallerCaps(u), env.defaults).Of(w),
          Spent(env, side, u.id, c, w, now) + CountIf(before, QueuedOn(c)))
  }

  /** The verdict on a row, from the state before the batch and the rows gated before it. */
  function Expected(env: Env, side: Side, p: Payload, u: User, row: Row, now: int, before: seq<Row>): Row {
    if row.status == D.SKIPPED then row
    else if Quiet(env, u, p.eventType, now) then row.(status := D.SKIPPED, reason := Some(QUIET_HOURS))
    else if Registered(env, side, p, u, row.channel, now) then row.(status := D.SKIPPED, reason := Some(DND_REGISTERED))
    else if Capped(env, side, u, row.channel, now, before) then
        row.(status := D.SKIPPED, reason := Some(FREQUENCY_CAPPED))
    else row.(status := D.QUEUED)
  }

  /** Asking again at the same time gets the same answer, from the registry or from the cache. */
  lemma DecideAgain(cfg: Compliance.Config, st: Compliance.State, c: Compliance.Check)
    ensures Compliance.Decide(cfg, Compliance.Next(cfg, st, c), c) == Compliance.Decide(cfg, st, c)
  {
  }

  /** One row gets what is expected of it, and leaves the registry's answer for the next rows as it was. */
  lemma FirstVerdict(env: Env, side: Side, p: Payload, rows: seq<Row>, now: int, i: nat, u: User, c: Channel)
    requires Built(env, rows, u) && i < |rows| && Dispatch(env, side, p, rows[i], now, NoFault, i).0.Some?
    ensures var d := Dispatch(env, side, p, rows[i], now, NoFault, i);
            && d.0.value == Expected(env, side, p, u, rows[i], now, [])
            && Registered(env, d.1, p, u, c, now) == Registered(env, side, p, u, c, now)
  {
    var tk := FC.Ticket(u.id, Value(rows[i].channel), now);
    assert forall w: FC.Window ::
        FC.KeyOf(env.calendar, tk, w) == FC.Key(u.id, Value(rows[i].channel), w, env.calendar.Bucket(w, now));
    if Truthy(u.phone) {
      DecideAgain(env.dnd, side.dnd, DndCheck(env, u, p.eventType, now));
    }
  }

  lemma ExpectedLater(env: Env, side: Side, side1: Side, p: Payload, u: User, row: Row, now: int, first: Row,
                      before: seq<Row>)
    requires Registered(env, side1, p, u, row.channel, now) == Registered(env, side, p, u, row.channel, now)
    requires forall w: FC.Window ::
               Spent(env, side1, u.id, row.channel, w, now) ==
               Spent(env, side, u.id, row.channel, w, now) +
                   (if first.status == D.QUEUED && first.channel == row.channel then 1 else 0)
    ensures Expected(env, side1, p, u, row, now, before) == Expected(env, side, p, u, row, now, [first] + before)
  {
    CountIfCons(first, before, QueuedOn(row.channel));
  }

  /** After one row is gated, a later row is to expect the same verdict, with that row counted among those before it. */
  lemma VerdictAfterOne(env: Env, side: Side, p: Payload, rows: seq<Row>, now: int, i: nat, u: User, row: Row,
                        before: seq<Row>)
    requires env.calendar.Valid() && Built(env, rows, u) && i < |rows|
    requires Dispatch(env, side, p, rows[i], now, NoFault, i).0.Some?
    ensures var d := Dispatch(env, side, p, rows[i], now, NoFault, i);
            Expected(env, d.1, p, u, row, now, before) == Expected(env, side, p, u, row, now, [d.0.value] + before)
  {
    var d := Dispatch(env, side, p, rows[i], now, NoFault, i);
    FirstVerdict(env, side, p, rows, now, i, u, row.channel);
    forall w: FC.Window
      ensures Spent(env, d.1, u.id, row.channel, w, now) ==
              Spent(env, side, u.id, row.channel, w, now) +
                  (if d.0.value.status == D.QUEUED && d.0.value.channel == row.channel then 1 else 0)
    {
      DispatchCosts(env, side, p, rows, now, i, u, row.channel, w);
    }
    ExpectedLater(env, side, d.1, p, u, row, now, d.0.value, before);
  }

  /** The batch's result, one row unrolled. */
  lemma BatchUnrolled(env: Env, side: Side, p: Payload, rows: seq<Row>, now: int, i: nat)
    requires i < |rows| && DispatchFrom(env, side, p, rows, now, NoFault, i).0.Some?
    ensures var d := Dispatch(env, side, p, rows[i], now, NoFault, i);
            && d.0.Some?
            && DispatchFrom(env, d.1, p, rows, now, NoFault, i + 1).0.Some?
            && DispatchFrom(env, side, p, rows, now, NoFault, i).0.value ==
               [d.0.value] + DispatchFrom(env, d.1, p, rows, now, NoFault, i + 1).0.value
  {
  }

  /** Row k of a batch has its verdict. */
  ghost predicate HasVerdict(env: Env, side: Side, p: Payload, u: User, row: Row, now: int, rs: seq<Row>, k: nat) {
    k < |rs| && rs[k] == Expected(env, side, p, u, row, now, rs[..k])
  }

  lemma VerdictCons(env: Env, side: Side, side1: Side, p: Payload, u: User, row: Row, now: int, first: Row,
                    rest: seq<Row>, k: nat)
    requires HasVerdict(env, side1, p, u, row, now, rest, k)
    requires Expected(env, side1, p, u, row, now, rest[..k]) == Expected(env, side, p, u, row, now, [first] + rest[..k])
    ensures HasVerdict(env, side, p, u, row, now, [first] + rest, k + 1)
  {
    assert ([first] + rest)[..k + 1] == [first] + rest[..k];
  }

  /**
   The checks of a batch do not disturb each other: each row gets the verdict of the state before the batch, its caps
   charged with the earlier rows of the batch that were queued on its channel.
   */
  lemma {:induction false} EveryRowGetsItsVerdict(env: Env, side: Side, p: Payload, rows: seq<Row>, now: int, i: nat,
                                                  u: User, k: nat)
    requires env.calendar.Valid() && Built(env, rows, u) && i + k < |rows|
    requires DispatchFrom(env, side, p, rows, now, NoFault, i).0.Some?
    ensures HasVerdict(env, side, p, u, rows[i + k], now, DispatchFrom(env, side, p, rows, now, NoFault, i).0.value, k)
    decreases k
  {
    BatchUnrolled(env, side, p, rows, now, i);
    var d := Dispatch(env, side, p, rows[i], now, NoFault, i);
    var rest := DispatchFrom(env, d.1, p, rows, now, NoFault, i + 1).0.value;
    if k == 0 {
      FirstVerdict(env, side, p, rows, now, i, u, rows[i].channel);
      assert ([d.0.value] + rest)[..0] == [];
    } else {
      EveryRowGetsItsVerdict(env, d.1, p, rows, now, i + 1, u, k - 1);
      VerdictAfterOne(env, side, p, rows, now, i, u, rows[i + k], rest[..k - 1]);
      VerdictCons(env, side, d.1, p, u, rows[i + k], now, d.0.value, rest, k - 1);
    }
  }

  /** What the factory's row says about the user and the event. */
  ghost predicate Says(env: Env, p: Payload, u: User, r: Row) {
    && (r.status == D.PENDING <==>
          ChannelEnabled(u, r.channel) && !OptedOut(env, u, p.eventType) && Truthy(Recipient(u, r.channel)))
    && (r.status == D.PENDING ==>
          r.reason == None && Some(r.recipient) == Recipient(u, r.channel) && env.renders(p, r.channel))
    && (r.reason == Some(CHANNEL_DISABLED) <==> !ChannelEnabled(u, r.channel))
    && (r.reason == Some(USER_OPT_OUT) <==> ChannelEnabled(u, r.channel) && OptedOut(env, u, p.eventType))
    && (r.status == D.SKIPPED ==>
          r.maxRetries == 0 && r.reason in {Some(CHANNEL_DISABLED), Some(USER_OPT_OUT), Some(INVALID_CONTACT)})
  }

  lemma {:induction false} BuiltRowsSay(env: Env, p: Payload, u: User, cs: seq<Channel>, i: nat, uuid: nat -> nat,
                                        stored: seq<Row>, k: nat)
    requires BuildFrom(env, p, u, cs, uuid, stored, i).Some? && k < |BuildFrom(env, p, u, cs, uuid, stored, i).value|
    ensures var r := BuildFrom(env, p, u, cs, uuid, stored, i).value[k];
            r.channel in cs[i..] && Says(env, p, u, r)
    decreases |cs| - i
  {
    var a := BuildSingle(env, p, u, cs[i], uuid(i));
    assert forall c: Channel :: c in cs[i + 1..] ==> c in cs[i..];
    if a == None {
      BuiltRowsSay(env, p, u, cs, i + 1, uuid, stored, k);
    } else if k > 0 {
      BuiltRowsSay(env, p, u, cs, i + 1, uuid, stored + [a.value], k - 1);
    }
  }

  // ---------------------------------------------------------------------------------------------
  // Whole events
  // ---------------------------------------------------------------------------------------------

  predicate Wanted(env: Env, p: Payload, u: User, c: Channel) {
    ChannelEnabled(u, c) && !OptedOut(env, u, p.eventType) && Truthy(Recipient(u, c))
  }

  /** A handling that stores rows: the event was built and every row gated. */
  lemma Stored(env: Env, sys: Sys, p: Payload, now: int, uuid: nat -> nat)
    requires WellFormed(env) && Handle(env, sys, p, now, uuid, NoFault).rows != sys.rows
    ensures p.userId.Some? && KnownAndActive(env, p.userId.value) && Parses(env, p)
    ensures Build(env, sys.rows, p, uuid).Some?
    ensures var built := Build(env, sys.rows, p, uuid).value;
            var d := DispatchFrom(env, sys.side, p, built, now, NoFault, 0);
            && Built(env, built, env.users[p.userId.value])
            && d.0.Some? && |d.0.value| == |built|
            && Handle(env, sys, p, now, uuid, NoFault) == Sys(sys.rows + d.0.value, d.1)
  {
    var u := env.users[p.userId.value];
    BuiltRows(env, p, u, Targets(p), 0, uuid, sys.rows);
    GatedRows(env, sys.side, p, Build(env, sys.rows, p, uuid).value, now, NoFault, 0);
  }

  /**
   The row is QUEUED iff the user wants the channel and the event, it is not quiet hours, the registry does not list the
   phone, and no cap is full; otherwise its reason is the first of these that failed.
   */
  ghost predicate Decided(env: Env, side: Side, p: Payload, u: User, r: Row, now: int, before: seq<Row>) {
    var quiet := Quiet(env, u, p.eventType, now);
    var registered := Registered(env, side, p, u, r.channel, now);
    var capped := Capped(env, side, u, r.channel, now, before);
    && r.user == u.id && r.status in {D.QUEUED, D.SKIPPED}
    && (r.status == D.QUEUED <==> Wanted(env, p, u, r.channel) && !quiet && !registered && !capped)
    && (r.status == D.QUEUED ==> Some(r.recipient) == Recipient(u, r.channel) && env.renders(p, r.channel))
    && (Wanted(env, p, u, r.channel) && r.status == D.SKIPPED ==>
          r.reason == Some(if quiet then QUIET_HOURS else if registered then DND_REGISTERED else FREQUENCY_CAPPED))
    && (r.reason == Some(CHANNEL_DISABLED) <==> !ChannelEnabled(u, r.channel))
    && (r.reason == Some(USER_OPT_OUT) <==> ChannelEnabled(u, r.channel) && OptedOut(env, u, p.eventType))
  }

  /** What the factory's row says and what the gate made of it. */
  lemma VerdictDecides(env: Env, side: Side, p: Payload, u: User, row: Row, now: int, before: seq<Row>)
    requires Says(env, p, u, row) && row.user == u.id && row.status in {D.PENDING, D.SKIPPED}
    ensures Decided(env, side, p, u, Expected(env, side, p, u, row, now, before), now, before)
  {
  }

  /** Every row an event stores is decided by the state the event found and the rows of the event queued before it. */
  lemma EveryStoredRowIsDecided(env: Env, sys: Sys, p: Payload, now: int, uuid: nat -> nat, n: nat)
    requires WellFormed(env) && env.calendar.Valid()
    requires |sys.rows| <= n < |Handle(env, sys, p, now, uuid, NoFault).rows|
    ensures p.userId.Some? && KnownAndActive(env, p.userId.value)
    ensures var rows := Handle(env, sys, p, now, uuid, NoFault).rows;
            Decided(env, sys.side, p, env.users[p.userId.value], rows[n], now, rows[|sys.rows|..n])
  {
    var k := n - |sys.rows|;
    Stored(env, sys, p, now, uuid);
    var u, built := env.users[p.userId.value], Build(env, sys.rows, p, uuid).value;
    var gated := DispatchFrom(env, sys.side, p, built, now, NoFault, 0).0.value;
    BuiltRowsSay(env, p, u, Targets(p), 0, uuid, sys.rows, k);
    EveryRowGetsItsVerdict(env, sys.side, p, built, now, 0, u, k);
    VerdictDecides(env, sys.side, p, u, built[k], now, gated[..k]);
    assert (sys.rows + gated)[n] == gated[k] && (sys.rows + gated)[|sys.rows|..n] == gated[..k];
  }

  lemma {:induction false} BuiltIds(env: Env, p: Payload, u: User, cs: seq<Channel>, i: nat, uuid: nat -> nat,
                                    stored: seq<Row>)
    requires BuildFrom(env, p, u, cs, uuid, stored, i).Some? && forall a: nat, b: nat :: a < b ==> uuid(a) != uuid(b)
    ensures var rs := BuildFrom(env, p, u, cs, uuid, stored, i).value;
            && (forall k :: 0 <= k < |rs| ==> exists j: nat :: j >= i && rs[k].id == uuid(j))
            && (forall a, b :: 0 <= a < b < |rs| ==> rs[a].id != rs[b].id)
    decreases |cs| - i
  {
    if i < |cs| {
      var a := BuildSingle(env, p, u, cs[i], uuid(i));
      BuildSingleShape(env, p, u, cs[i], uuid(i), uuid(i));
      BuiltIds(env, p, u, cs, i + 1, uuid, if a == None then stored else stored + [a.value]);
    }
  }

  /** The steps of module Delivery that one row of an event takes. */
  function EntrySteps(maxRetries: int, built: D.Status, gated: D.Status): seq<D.Step> {
    if built == D.SKIPPED then [D.Build(maxRetries, true), D.Commit]
    else [D.Build(maxRetries, false), if gated == D.QUEUED then D.GateQueue else D.GateSkip, D.Commit]
  }

  /** A committed row that nothing has happened to yet. */
  function Entered(status: D.Status, maxRetries: int, messages: nat): D.Note {
    D.Note(true, None, Some(D.Row(status, 0, maxRetries, None, None)), [], messages, 0, map[], 0, 0, 0, 0)
  }

  lemma EntryIsRun(maxRetries: int, built: D.Status, gated: D.Status)
    requires built in {D.PENDING, D.SKIPPED} && gated in {D.QUEUED, D.SKIPPED}
    requires built == D.SKIPPED ==> gated == D.SKIPPED && maxRetries == 0
    ensures D.Run(D.UNBORN, EntrySteps(maxRetries, built, gated)) ==
            Entered(gated, maxRetries, if gated == D.QUEUED then 1 else 0)
  {
    var steps := EntrySteps(maxRetries, built, gated);
    if built == D.SKIPPED {
      D.RunTwo(D.UNBORN, steps[0], steps[1]);
    } else {
      assert steps[1..] == [steps[1], steps[2]];
      D.RunTwo(D.Next(D.UNBORN, steps[0]), steps[1], steps[2]);
    }
  }

  /** Each row an event stores has taken the delivery system's own steps, with the messages the event sent for it. */
  lemma StoredRowsEnterDelivery(env: Env, sys: Sys, p: Payload, now: int, uuid: nat -> nat, n: nat)
    returns (steps: seq<D.Step>)
    requires WellFormed(env) && env.calendar.Valid() && forall a: nat, b: nat :: a < b ==> uuid(a) != uuid(b)
    requires |sys.rows| <= n < |Handle(env, sys, p, now, uuid, NoFault).rows|
    ensures var sys' := Handle(env, sys, p, now, uuid, NoFault);
            var r := sys'.rows[n];
            && sys'.side.tasks[r.id] >= sys.side.tasks[r.id]
            && D.Run(D.UNBORN, steps) == Entered(r.status, r.maxRetries, sys'.side.tasks[r.id] - sys.side.tasks[r.id])
  {
    var k := n - |sys.rows|;
    Stored(env, sys, p, now, uuid);
    var u, built := env.users[p.userId.value], Build(env, sys.rows, p, uuid).value;
    var gated := DispatchFrom(env, sys.side, p, built, now, NoFault, 0).0.value;
    BuiltRowsSay(env, p, u, Targets(p), 0, uuid, sys.rows, k);
    BuiltIds(env, p, u, Targets(p), 0, uuid, sys.rows);
    GatedRows(env, sys.side, p, built, now, NoFault, 0);
    GateConservesBudget(env, sys.side, p, built, now, 0, u, SMS, FC.Hour);
    EveryRowGetsItsVerdict(env, sys.side, p, built, now, 0, u, k);
    OneMessagePerQueuedRow(gated, k);
    EntryIsRun(gated[k].maxRetries, built[k].status, gated[k].status);
    steps := EntrySteps(gated[k].maxRetries, built[k].status, gated[k].status);
  }
}
