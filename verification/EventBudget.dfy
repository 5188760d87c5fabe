/**
 What one batch through the gate costs: every row is queued or skipped, and queued rows are exactly the admits,
 the messages and the cap counts.
 */
module EventBudget {
  import opened Counting
  import opened EventHandler
  import opened EventReplay
  import Redis
  import FC = FrequencyCap
  import D = Delivery

  function QueuedOn(c: Channel): Row -> bool {
    (r: Row) => r.status == D.QUEUED && r.channel == c
  }

  function QueuedIds(rows: seq<Row>): multiset<nat> {
    if rows == [] then multiset{}
    else (if rows[0].status == D.QUEUED then multiset{rows[0].id} else multiset{}) + QueuedIds(rows[1..])
  }

  function QueuedTickets(rows: seq<Row>, now: int): seq<FC.Ticket> {
    if rows == [] then []
    else (if rows[0].status == D.QUEUED then [Ticket(rows[0], now)] else []) + QueuedTickets(rows[1..], now)
  }

  /** The counter of a user and channel in the bucket that `now` falls in. */
  function Spent(env: Env, side: Side, user: string, c: Channel, w: FC.Window, now: int): int {
    Redis.Count(side.caps, FC.Key(user, Value(c), w, env.calendar.Bucket(w, now)), now)
  }

  ghost predicate Built(env: Env, rows: seq<Row>, u: User) {
    ForUser(env, rows, u) && forall k :: 0 <= k < |rows| ==> rows[k].status in {D.PENDING, D.SKIPPED}
  }

  /** What gating one row does to the counters, the log and the messages. */
  lemma DispatchCosts(env: Env, side: Side, p: Payload, rows: seq<Row>, now: int, i: nat, u: User, c: Channel,
                      w: FC.Window)
    requires env.calendar.Valid() && Built(env, rows, u) && i < |rows|
    requires Dispatch(env, side, p, rows[i], now, NoFault, i).0.Some?
    ensures var (row, side') := Dispatch(env, side, p, rows[i], now, NoFault, i);
            var queued := row.value.status == D.QUEUED;
            && row.value.status in {D.QUEUED, D.SKIPPED}
            && side'.tasks == side.tasks + (if queued then multiset{row.value.id} else multiset{})
            && side'.admits == side.admits + (if queued then [Ticket(row.value, now)] else [])
            && Spent(env, side', u.id, c, w, now) == Spent(env, side, u.id, c, w, now) +
                (if queued && row.value.channel == c then 1 else 0)
  {
    ValuesAreDistinct(rows[i].channel, c);
    FC.IncrementAllCounts(env.calendar, side.caps, Ticket(rows[i], now), now,
        FC.Key(u.id, Value(c), w, env.calendar.Bucket(w, now)), now);
  }

  /** The books of a batch: from the state before it to the state after it, against the rows it left. */
  ghost predicate Balanced(env: Env, side: Side, side': Side, rs: seq<Row>, now: int, u: User, c: Channel,
                           w: FC.Window) {
    && (forall k :: 0 <= k < |rs| ==> rs[k].status in {D.QUEUED, D.SKIPPED})
    && side'.tasks == side.tasks + QueuedIds(rs)
    && side'.admits == side.admits + QueuedTickets(rs, now)
    && Spent(env, side', u.id, c, w, now) == Spent(env, side, u.id, c, w, now) + CountIf(rs, QueuedOn(c))
  }

  lemma BalanceOneMore(env: Env, side: Side, side1: Side, side2: Side, row: Row, rest: seq<Row>, now: int, u: User,
                       c: Channel, w: FC.Window)
    requires row.status in {D.QUEUED, D.SKIPPED} && Balanced(env, side1, side2, rest, now, u, c, w)
    requires side1.tasks == side.tasks + (if row.status == D.QUEUED then multiset{row.id} else multiset{})
    requires side1.admits == side.admits + (if row.status == D.QUEUED then [Ticket(row, now)] else [])
    requires Spent(env, side1, u.id, c, w, now) ==
             Spent(env, side, u.id, c, w, now) + (if row.status == D.QUEUED && row.channel == c then 1 else 0)
    ensures Balanced(env, side, side2, [row] + rest, now, u, c, w)
  {
    hide Spent, QueuedIds, QueuedTickets, CountIf;
    CountIfCons(row, rest, QueuedOn(c));
    QueuedCons(row, rest, now);
    assert forall k :: 0 < k < |[row] + rest| ==> ([row] + rest)[k] == rest[k - 1];
    var one := if row.status == D.QUEUED then [Ticket(row, now)] else [];
    assert side.admits + one + QueuedTickets(rest, now) == side.admits + (one + QueuedTickets(rest, now));
  }

  lemma QueuedCons(row: Row, rest: seq<Row>, now: int)
    ensures QueuedIds([row] + rest) == (if row.status == D.QUEUED then multiset{row.id} else multiset{}) +
            QueuedIds(rest)
    ensures QueuedTickets([row] + rest, now) == (if row.status == D.QUEUED then [Ticket(row, now)] else []) +
            QueuedTickets(rest, now)
  {
    assert ([row] + rest)[1..] == rest;
  }

  /**
   A batch for an existing user leaves every row QUEUED or SKIPPED; the queued ones are exactly the new messages and
   the new admits, and each counter moves by the number of rows queued on its channel, so a row refused by
   preference, quiet hours or registry costs nothing.
   */
  lemma {:induction false} GateConservesBudget(env: Env, side: Side, p: Payload, rows: seq<Row>, now: int, i: nat,
                                               u: User, c: Channel, w: FC.Window)
    requires env.calendar.Valid() && Built(env, rows, u) && i <= |rows|
    requires DispatchFrom(env, side, p, rows, now, NoFault, i).0.Some?
    ensures var d := DispatchFrom(env, side, p, rows, now, NoFault, i);
            Balanced(env, side, d.1, d.0.value, now, u, c, w)
    decreases |rows| - i
  {
    if i < |rows| {
      var d := Dispatch(env, side, p, rows[i], now, NoFault, i);
      var e := DispatchFrom(env, d.1, p, rows, now, NoFault, i + 1);
      DispatchCosts(env, side, p, rows, now, i, u, c, w);
      GateConservesBudget(env, d.1, p, rows, now, i + 1, u, c, w);
      BalanceOneMore(env, side, d.1, e.1, d.0.value, e.0.value, now, u, c, w);
    }
  }

  lemma CountIfCons<T>(x: T, s: seq<T>, p: T -> bool)
    ensures CountIf([x] + s, p) == (if p(x) then 1 else 0) + CountIf(s, p)
  {
    CountIfConcat([x], s, p);
    CountIfSnoc([], x, p);
    assert [] + [x] == [x];
  }

  /** With one id per row, a queued row has exactly one message of the batch, and a skipped one none. */
  lemma {:induction false} OneMessagePerQueuedRow(rows: seq<Row>, k: nat)
    requires k < |rows| && forall i, j :: 0 <= i < j < |rows| ==> rows[i].id != rows[j].id
    ensures QueuedIds(rows)[rows[k].id] == if rows[k].status == D.QUEUED then 1 else 0
  {
    if k == 0 {
      NoStrayMessage(rows[1..], rows[0].id);
    } else {
      OneMessagePerQueuedRow(rows[1..], k - 1);
    }
  }

  lemma {:induction false} NoStrayMessage(rows: seq<Row>, id: nat)
    requires forall i :: 0 <= i < |rows| ==> rows[i].id != id
    ensures QueuedIds(rows)[id] == 0
  {
    if rows != [] {
      NoStrayMessage(rows[1..], id);
    }
  }
}
