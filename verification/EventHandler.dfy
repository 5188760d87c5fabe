/**
 From one event to its notifications (app/kafka/handlers.py, app/services/notification_factory.py,
 app/services/notification_dispatcher.py).

 One transaction builds a row per channel, gates every row, and commits. Rows roll back with the
 transaction; task messages, cap counters and cached registry answers do not.
 */
module EventHandler {
  import opened Wrappers
  import Redis
  import FC = FrequencyCap
  import Compliance
  import OptOut
  import D = Delivery

  // ---------------------------------------------------------------------------------------------
  // Users, events and rows
  // ---------------------------------------------------------------------------------------------

  datatype Channel = SMS | EMAIL | WHATSAPP | PUSH | IN_APP

  function Value(c: Channel): string {
    match c
    case SMS => "sms"
    case EMAIL => "email"
    case WHATSAPP => "whatsapp"
    case PUSH => "push"
    case IN_APP => "in_app"
  }

  datatype Priority = CRITICAL | HIGH | MEDIUM | LOW

  function PriorityChannels(p: Priority): seq<Channel> {
    match p
    case CRITICAL => [SMS, PUSH, EMAIL, IN_APP]
    case HIGH => [PUSH, SMS, EMAIL, IN_APP]
    case MEDIUM => [EMAIL, PUSH, IN_APP]
    case LOW => [EMAIL, IN_APP]
  }

  function MaxRetries(c: Channel): int {
    match c
    case EMAIL => 5
    case IN_APP => 1
    case _ => 3
  }

  const CRITICAL_EVENTS := {"security.suspicious_activity", "account.blocked", "transaction.failure",
                            "security.otp_generated", "loan.emi_missed"}

  const DND_EXEMPT_EVENTS := {"security.otp_generated", "security.suspicious_activity", "account.blocked"}

  datatype Preferences = Preferences(
    enabled: set<Channel>,
    disabledEventTypes: Option<string>,
    quietHoursEnabled: bool,
    quietHoursStart: int,
    quietHoursEnd: int,
    caps: FC.Limits)

  datatype User = User(
    id: string,
    active: bool,
    email: string,
    phone: Option<string>,
    firebaseToken: Option<string>,
    preferences: Option<Preferences>)

  /** An event as received; None stands for a value that does not parse. Empty channels mean the priority's own. */
  datatype Payload = Payload(
    userId: Option<string>,
    eventType: string,
    priority: Option<Priority>,
    channels: seq<Option<Channel>>,
    key: Option<string>)

  /** Everything the handler reads and does not write. */
  datatype Env = Env(
    users: map<string, User>,
    eventTypes: set<string>,
    spaces: OptOut.Spaces,
    renders: (Payload, Channel) -> bool,       // a template exists and renders
    zoneKnown: string -> bool,                 // the user's time zone name is valid
    localHour: (string, int) -> int,
    calendar: FC.Calendar,
    defaults: FC.Limits,
    dnd: Compliance.Config,
    lookup: (string, int) -> Compliance.Lookup)

  datatype SkipReason =
    | DND_REGISTERED
    | QUIET_HOURS
    | FREQUENCY_CAPPED
    | USER_OPT_OUT
    | CHANNEL_DISABLED
    | INVALID_CONTACT

  datatype Row = Row(
    id: nat,
    user: string,
    channel: Channel,
    status: D.Status,
    reason: Option<SkipReason>,
    recipient: string,
    maxRetries: int,
    key: Option<string>)

  /** What a rollback does not undo. admits is the log of the frequency cap. */
  datatype Side = Side(
    tasks: multiset<nat>,
    caps: Redis.Store<FC.Key, int>,
    admits: seq<FC.Ticket>,
    dnd: Compliance.State)

  datatype Sys = Sys(rows: seq<Row>, side: Side)

  /** Empty strings are as good as missing ones. */
  predicate Truthy(s: Option<string>) {
    s.Some? && s.value != ""
  }

  // ---------------------------------------------------------------------------------------------
  // The factory
  // ---------------------------------------------------------------------------------------------

  function Recipient(u: User, c: Channel): Option<string> {
    match c
    case SMS => u.phone
    case WHATSAPP => u.phone
    case EMAIL => Some(u.email)
    case PUSH => u.firebaseToken
    case IN_APP => Some(u.id)
  }

  function ChannelEnabled(u: User, c: Channel): bool {
    u.preferences.Some? ==> c in u.preferences.value.enabled
  }

  predicate OptedOut(env: Env, u: User, eventType: string) {
    u.preferences.Some? && eventType in OptOut.GetDisabledEvents(env.spaces, u.preferences.value.disabledEventTypes)
  }

  /** The unique column: the event's key with the channel appended. */
  function StoredKey(key: Option<string>, c: Channel): Option<string> {
    if Truthy(key) then Some(key.value + ":" + Value(c)) else None
  }

  function SkipRow(env: Env, p: Payload, u: User, c: Channel, id: nat, reason: SkipReason): Row {
    Row(id, u.id, c, D.SKIPPED, Some(reason), if Truthy(Recipient(u, c)) then Recipient(u, c).value else u.email, 0,
        StoredKey(p.key, c))
  }

  /** None: no template, no row. */
  function BuildSingle(env: Env, p: Payload, u: User, c: Channel, id: nat): Option<Row> {
    if !ChannelEnabled(u, c) then Some(SkipRow(env, p, u, c, id, CHANNEL_DISABLED))
    else if OptedOut(env, u, p.eventType) then Some(SkipRow(env, p, u, c, id, USER_OPT_OUT))
    else if !Truthy(Recipient(u, c)) then Some(SkipRow(env, p, u, c, id, INVALID_CONTACT))
    else if !env.renders(p, c) then None
    else Some(Row(id, u.id, c, D.PENDING, None, Recipient(u, c).value, MaxRetries(c), StoredKey(p.key, c)))
  }

  predicate Taken(rows: seq<Row>, key: Option<string>) {
    key.Some? && exists i :: 0 <= i < |rows| && rows[i].key == key
  }

  /** The rows for channels i and up, next to those stored already; None when the unique column is violated. */
  function BuildFrom(env: Env, p: Payload, u: User, cs: seq<Channel>, uuid: nat -> nat, stored: seq<Row>,
                     i: nat): Option<seq<Row>>
    decreases |cs| - i
  {
    if i >= |cs| then Some([])
    else
      var built := BuildSingle(env, p, u, cs[i], uuid(i));
      if built == None then BuildFrom(env, p, u, cs, uuid, stored, i + 1)
      else if Taken(stored, built.value.key) then None
      else
        var rest := BuildFrom(env, p, u, cs, uuid, stored + [built.value], i + 1);
        if rest == None then None else Some([built.value] + rest.value)
  }

  predicate Parses(env: Env, p: Payload) {
    p.priority.Some? && p.eventType in env.eventTypes && forall i :: 0 <= i < |p.channels| ==> p.channels[i].Some?
  }

  function Targets(p: Payload): seq<Channel>
    requires p.priority.Some? && forall i :: 0 <= i < |p.channels| ==> p.channels[i].Some?
  {
    if p.channels == [] then PriorityChannels(p.priority.value)
    else seq(|p.channels|, i requires 0 <= i < |p.channels| => p.channels[i].value)
  }

  // ---------------------------------------------------------------------------------------------
  // The gate
  // ---------------------------------------------------------------------------------------------

  /**
   Infrastructure that gives way during a handling: before row i is gated, right after its cap is counted, or at the
   commit.
   */
  datatype Fault = NoFault | BeforeRow(i: nat) | AfterAdmit(i: nat) | AtCommit

  datatype Verdict = Raises | SkipFor(reason: SkipReason) | Unknown | Admit

  function CallerCaps(u: User): FC.Caps {
    if u.preferences.None? then FC.Caps(None, None, None)
    else
      var l := u.preferences.value.caps;
      FC.Caps(Some(l.hour), Some(l.day), Some(l.week))
  }

  function Ticket(row: Row, now: int): FC.Ticket {
    FC.Ticket(row.user, Value(row.channel), now)
  }

  predicate QuietCheckRaises(env: Env, u: User, eventType: string) {
    u.preferences.Some? && u.preferences.value.quietHoursEnabled && eventType !in CRITICAL_EVENTS &&
        !env.zoneKnown(u.id)
  }

  predicate Quiet(env: Env, u: User, eventType: string, now: int) {
    && u.preferences.Some? && u.preferences.value.quietHoursEnabled
    && Compliance.InQuietHours(eventType in CRITICAL_EVENTS, u.preferences.value.quietHoursStart,
                               u.preferences.value.quietHoursEnd, env.localHour(u.id, now))
  }

  predicate DndChecked(u: User, c: Channel) {
    (c == SMS || c == WHATSAPP) && Truthy(u.phone)
  }

  function DndCheck(env: Env, u: User, eventType: string, now: int): Compliance.Check
    requires Truthy(u.phone)
  {
    Compliance.Check(u.phone.value, eventType in DND_EXEMPT_EVENTS, now, env.lookup(u.phone.value, now))
  }

  /** The verdict on a row that is not skipped already, in the order of the checks. */
  function Gate(env: Env, side: Side, p: Payload, row: Row, now: int): Verdict {
    if row.user !in env.users then Unknown
    else
      var u := env.users[row.user];
      if QuietCheckRaises(env, u, p.eventType) then Raises
      else if Quiet(env, u, p.eventType, now) then SkipFor(QUIET_HOURS)
      else if DndChecked(u, row.channel) &&
          Compliance.Decide(env.dnd, side.dnd, DndCheck(env, u, p.eventType, now)).Registered? then
        SkipFor(DND_REGISTERED)
      else if FC.Admits(env.calendar, side.caps, FC.Effective(CallerCaps(u), env.defaults),
          FC.Ticket(u.id, Value(row.channel), now), now) then
        Admit
      else SkipFor(FREQUENCY_CAPPED)
  }

  /** The registry answers after the row's own check, if it came that far. */
  function DndAfter(env: Env, side: Side, p: Payload, row: Row, now: int): Compliance.State {
    if row.user !in env.users then side.dnd
    else
      var u := env.users[row.user];
      if QuietCheckRaises(env, u, p.eventType) || Quiet(env, u, p.eventType, now) ||
          !DndChecked(u, row.channel) then side.dnd
      else Compliance.Next(env.dnd, side.dnd, DndCheck(env, u, p.eventType, now))
  }

  function Counted(env: Env, side: Side, row: Row, now: int): Side {
    side.(caps := FC.IncrementAll(env.calendar, side.caps, Ticket(row, now), now),
        admits := side.admits + [Ticket(row, now)])
  }

  /** One row through the gate; None when it raises. */
  function Dispatch(env: Env, side: Side, p: Payload, row: Row, now: int, fault: Fault, i: nat): (Option<Row>, Side) {
    if fault == BeforeRow(i) then (None, side)
    else if row.status == D.SKIPPED then (Some(row), side)
    else
      var side1 := side.(dnd := DndAfter(env, side, p, row, now));
      match Gate(env, side, p, row, now)
      case Raises => (None, side1)
      case Unknown => (Some(row.(status := D.FAILED)), side1)
      case SkipFor(reason) => (Some(row.(status := D.SKIPPED, reason := Some(reason))), side1)
      case Admit =>
        var side2 := Counted(env, side1, row, now);
        if fault == AfterAdmit(i) then (None, side2)
        else (Some(row.(status := D.QUEUED)), side2.(tasks := side2.tasks + multiset{row.id}))
  }

  function DispatchFrom(env: Env, side: Side, p: Payload, rows: seq<Row>, now: int, fault: Fault,
                        i: nat): (Option<seq<Row>>, Side)
    decreases |rows| - i
  {
    if i >= |rows| then (Some([]), side)
    else
      var (row, side1) := Dispatch(env, side, p, rows[i], now, fault, i);
      if row == None then (None, side1)
      else
        var (rest, side2) := DispatchFrom(env, side1, p, rows, now, fault, i + 1);
        (if rest == None then None else Some([row.value] + rest.value), side2)
  }

  // ---------------------------------------------------------------------------------------------
  // The handler
  // ---------------------------------------------------------------------------------------------

  predicate KnownAndActive(env: Env, userId: string) {
    userId in env.users && env.users[userId].active
  }

  /** The rows an event would add to those stored; None when the handler returns or raises before any is gated. */
  function Build(env: Env, stored: seq<Row>, p: Payload, uuid: nat -> nat): Option<seq<Row>> {
    if p.userId == None || (Truthy(p.key) && Taken(stored, p.key)) then None
    else if !KnownAndActive(env, p.userId.value) || !Parses(env, p) then None
    else BuildFrom(env, p, env.users[p.userId.value], Targets(p), uuid, stored, 0)
  }

  function Handle(env: Env, sys: Sys, p: Payload, now: int, uuid: nat -> nat, fault: Fault): Sys {
    var built := Build(env, sys.rows, p, uuid);
    if built == None then sys
    else
      var (gated, side) := DispatchFrom(env, sys.side, p, built.value, now, fault, 0);
      if gated == None || fault == AtCommit then sys.(side := side) else Sys(sys.rows + gated.value, side)
  }
}
