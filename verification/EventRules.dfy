/**
 The rules of an event in the platform's own terms: which rows it stores, with which fields, and for which reason a
 row is skipped. Every clause is about the event, the user's record and the counters and answers the event found.
 */
module EventRules {
  import opened Wrappers
  import opened Counting
  import opened EventHandler
  import opened EventReplay
  import opened EventBudget
  import opened EventVerdict
  import Redis
  import FC = FrequencyCap
  import Compliance
  import OptOut
  import D = Delivery

  // ---------------------------------------------------------------------------------------------
  // From targets to rows
  // ---------------------------------------------------------------------------------------------

  /** Which target each built row is for; a target left out is one whose template does not render. */
  ghost predicate ForTargets(env: Env, p: Payload, u: User, cs: seq<Channel>, uuid: nat -> nat, i: nat,
                             rows: seq<Row>, at: seq<nat>) {
    && |at| == |rows|
    && (forall k :: 0 <= k < |at| ==>
          i <= at[k] < |cs| && BuildSingle(env, p, u, cs[at[k]], uuid(at[k])) == Some(rows[k]))
    && (forall k, l :: 0 <= k < l < |at| ==> at[k] < at[l])
    && (forall j :: i <= j < |cs| && j !in at ==> BuildSingle(env, p, u, cs[j], uuid(j)) == None)
  }

  lemma {:induction false} BuiltForTargets(env: Env, p: Payload, u: User, cs: seq<Channel>, uuid: nat -> nat,
                                           stored: seq<Row>, i: nat) returns (at: seq<nat>)
    requires BuildFrom(env, p, u, cs, uuid, stored, i).Some?
    ensures ForTargets(env, p, u, cs, uuid, i, BuildFrom(env, p, u, cs, uuid, stored, i).value, at)
    decreases |cs| - i
  {
    hide BuildSingle, Taken;
    if i >= |cs| {
      at := [];
    } else {
      var built := BuildSingle(env, p, u, cs[i], uuid(i));
      if built == None {
        at := BuiltForTargets(env, p, u, cs, uuid, stored, i + 1);
      } else {
        var rest := BuiltForTargets(env, p, u, cs, uuid, stored + [built.value], i + 1);
        at := [i] + rest;
        forall j | i <= j < |cs| && j !in at ensures BuildSingle(env, p, u, cs[j], uuid(j)) == None {
          assert at[0] == i && j !in rest;
        }
      }
    }
  }

  /** Each stored row is the factory's row for one of the targets, with the gate's verdict on it. */
  lemma RowOfTarget(env: Env, sys: Sys, p: Payload, now: int, uuid: nat -> nat, n: nat) returns (j: nat)
    requires WellFormed(env) && env.calendar.Valid()
    requires |sys.rows| <= n < |Handle(env, sys, p, now, uuid, NoFault).rows|
    ensures p.userId.Some? && KnownAndActive(env, p.userId.value) && Parses(env, p) && j < |Targets(p)|
    ensures var rows, u := Handle(env, sys, p, now, uuid, NoFault).rows, env.users[p.userId.value];
            var built := BuildSingle(env, p, u, Targets(p)[j], uuid(j));
            && u.id == p.userId.value && built.Some?
            && rows[n] == Expected(env, sys.side, p, u, built.value, now, rows[|sys.rows|..n])
            && (built.value.status != D.SKIPPED ==> !QuietCheckRaises(env, u, p.eventType))
  {
    var k := n - |sys.rows|;
    Stored(env, sys, p, now, uuid);
    var u, built := env.users[p.userId.value], Build(env, sys.rows, p, uuid).value;
    var gated := DispatchFrom(env, sys.side, p, built, now, NoFault, 0).0.value;
    var at := BuiltForTargets(env, p, u, Targets(p), uuid, sys.rows, 0);
    EveryRowGetsItsVerdict(env, sys.side, p, built, now, 0, u, k);
    NeverRaised(env, sys.side, p, built, now, 0, k, u);
    assert (sys.rows + gated)[n] == gated[k] && (sys.rows + gated)[|sys.rows|..n] == gated[..k];
    j := at[k];
  }

  lemma {:induction false} NeverRaised(env: Env, side: Side, p: Payload, rows: seq<Row>, now: int, i: nat, k: nat,
                                       u: User)
    requires Built(env, rows, u) && i + k < |rows| && DispatchFrom(env, side, p, rows, now, NoFault, i).0.Some?
    ensures rows[i + k].status != D.SKIPPED ==> !QuietCheckRaises(env, u, p.eventType)
    decreases k
  {
    BatchUnrolled(env, side, p, rows, now, i);
    if k > 0 {
      NeverRaised(env, Dispatch(env, side, p, rows[i], now, NoFault, i).1, p, rows, now, i + 1, k - 1, u);
    }
  }

  /** The checks in their order: the first that fails names the reason. */
  lemma ReasonInOrder(env: Env, sys: Sys, p: Payload, now: int, uuid: nat -> nat, n: nat)
    requires WellFormed(env) && env.calendar.Valid()
    requires |sys.rows| <= n < |Handle(env, sys, p, now, uuid, NoFault).rows|
    ensures p.userId.Some? && p.userId.value in env.users
    ensures var rows, u := Handle(env, sys, p, now, uuid, NoFault).rows, env.users[p.userId.value];
            var r := rows[n];
            && u.id == p.userId.value
            && (r.status, r.reason) ==
               if !ChannelEnabled(u, r.channel) then (D.SKIPPED, Some(CHANNEL_DISABLED))
               else if OptedOut(env, u, p.eventType) then (D.SKIPPED, Some(USER_OPT_OUT))
               else if !Truthy(Recipient(u, r.channel)) then (D.SKIPPED, Some(INVALID_CONTACT))
               else if Quiet(env, u, p.eventType, now) then (D.SKIPPED, Some(QUIET_HOURS))
               else if Registered(env, sys.side, p, u, r.channel, now) then (D.SKIPPED, Some(DND_REGISTERED))
               else if Capped(env, sys.side, u, r.channel, now, rows[|sys.rows|..n]) then
                 (D.SKIPPED, Some(FREQUENCY_CAPPED))
               else (D.QUEUED, None)
  {
    hide Handle, FC.Calendar.Valid, Quiet, Registered, Capped, OptedOut, ChannelEnabled, Recipient, WellFormed;
    var _ := RowOfTarget(env, sys, p, now, uuid, n);
  }

  // ---------------------------------------------------------------------------------------------
  // The rules
  // ---------------------------------------------------------------------------------------------

  /** A stored row is for an active user, one of the requested channels or else of the priority's own. */
  lemma StoredRowIsForTarget(env: Env, sys: Sys, p: Payload, now: int, uuid: nat -> nat, n: nat) returns (j: nat)
    requires WellFormed(env) && env.calendar.Valid()
    requires |sys.rows| <= n < |Handle(env, sys, p, now, uuid, NoFault).rows|
    ensures p.userId.Some? && p.userId.value in env.users && p.priority.Some? && p.eventType in env.eventTypes
    ensures var r, u := Handle(env, sys, p, now, uuid, NoFault).rows[n], env.users[p.userId.value];
            var targets := if p.channels != [] then p.channels
                           else match p.priority.value
                                case CRITICAL => [Some(SMS), Some(PUSH), Some(EMAIL), Some(IN_APP)]
                                case HIGH => [Some(PUSH), Some(SMS), Some(EMAIL), Some(IN_APP)]
                                case MEDIUM => [Some(EMAIL), Some(PUSH), Some(IN_APP)]
                                case LOW => [Some(EMAIL), Some(IN_APP)];
            && u.active && r.user == p.userId.value && r.id == uuid(j)
            && j < |targets| && targets[j] == Some(r.channel)
  {
    hide Handle, Quiet, Registered, Capped, OptedOut, ChannelEnabled, Recipient, FC.Calendar.Valid;
    j := RowOfTarget(env, sys, p, now, uuid, n);
  }

  /**
   It carries the user's address on its channel, or the e-mail address if there is none, the event's key with the
   channel's name, and the channel's retries unless the factory skipped it.
   */
  lemma StoredRowIsAddressed(env: Env, sys: Sys, p: Payload, now: int, uuid: nat -> nat, n: nat)
    requires WellFormed(env) && env.calendar.Valid()
    requires |sys.rows| <= n < |Handle(env, sys, p, now, uuid, NoFault).rows|
    ensures p.userId.Some? && p.userId.value in env.users
    ensures var r, u := Handle(env, sys, p, now, uuid, NoFault).rows[n], env.users[p.userId.value];
            var address := match r.channel
                           case SMS => u.phone
                           case WHATSAPP => u.phone
                           case EMAIL => Some(u.email)
                           case PUSH => u.firebaseToken
                           case IN_APP => Some(p.userId.value);
            var name := match r.channel
                        case SMS => "sms"
                        case EMAIL => "email"
                        case WHATSAPP => "whatsapp"
                        case PUSH => "push"
                        case IN_APP => "in_app";
            var retries := match r.channel case EMAIL => 5 case IN_APP => 1 case _ => 3;
            && r.recipient == (if address == None || address == Some("") then u.email else address.value)
            && r.key == (if p.key == None || p.key == Some("") then None else Some(p.key.value + ":" + name))
            && r.maxRetries == if r.reason in {Some(CHANNEL_DISABLED), Some(USER_OPT_OUT), Some(INVALID_CONTACT)} then 0
                               else retries
  {
    hide Handle, BuildSingle, Expected, FC.Calendar.Valid, WellFormed, Parses, Targets;
    var j := RowOfTarget(env, sys, p, now, uuid, n);
    var u, c := env.users[p.userId.value], Targets(p)[j];
    BuiltRowIsAddressed(env, p, u, c, uuid(j));
    GateKeepsAddress(env, sys.side, p, u, BuildSingle(env, p, u, c, uuid(j)).value, now,
                     Handle(env, sys, p, now, uuid, NoFault).rows[|sys.rows|..n]);
  }

  lemma BuiltRowIsAddressed(env: Env, p: Payload, u: User, c: Channel, id: nat)
    requires BuildSingle(env, p, u, c, id).Some?
    ensures var r := BuildSingle(env, p, u, c, id).value;
            var address := match c
                           case SMS => u.phone
                           case WHATSAPP => u.phone
                           case EMAIL => Some(u.email)
                           case PUSH => u.firebaseToken
                           case IN_APP => Some(u.id);
            var name := match c
                        case SMS => "sms"
                        case EMAIL => "email"
                        case WHATSAPP => "whatsapp"
                        case PUSH => "push"
                        case IN_APP => "in_app";
            var retries := match c case EMAIL => 5 case IN_APP => 1 case _ => 3;
            && r.channel == c
            && r.recipient == (if address == None || address == Some("") then u.email else address.value)
            && r.key == (if p.key == None || p.key == Some("") then None else Some(p.key.value + ":" + name))
            && r.maxRetries == (if r.status == D.SKIPPED then 0 else retries)
            && (r.status == D.SKIPPED <==>
                r.reason in {Some(CHANNEL_DISABLED), Some(USER_OPT_OUT), Some(INVALID_CONTACT)})
  {
    hide OptedOut;
  }

  lemma GateKeepsAddress(env: Env, side: Side, p: Payload, u: User, row: Row, now: int, before: seq<Row>)
    ensures var r := Expected(env, side, p, u, row, now, before);
            && r.channel == row.channel && r.recipient == row.recipient && r.key == row.key
            && r.maxRetries == row.maxRetries
            && (r.reason == row.reason ||
                (row.status != D.SKIPPED &&
                    r.reason in {Some(QUIET_HOURS), Some(DND_REGISTERED), Some(FREQUENCY_CAPPED)}))
  {
    hide Quiet, Registered, Capped;
  }

  /** The user's own wishes and addresses come first. */
  lemma WishRule(env: Env, sys: Sys, p: Payload, now: int, uuid: nat -> nat, n: nat)
    requires WellFormed(env) && env.calendar.Valid()
    requires |sys.rows| <= n < |Handle(env, sys, p, now, uuid, NoFault).rows|
    ensures p.userId.Some? && p.userId.value in env.users
    ensures var r, u := Handle(env, sys, p, now, uuid, NoFault).rows[n], env.users[p.userId.value];
            var off := u.preferences.Some? && r.channel !in u.preferences.value.enabled;
            var out := u.preferences.Some? &&
                       p.eventType in OptOut.GetDisabledEvents(env.spaces, u.preferences.value.disabledEventTypes);
            var address := match r.channel
                           case SMS => u.phone
                           case WHATSAPP => u.phone
                           case EMAIL => Some(u.email)
                           case PUSH => u.firebaseToken
                           case IN_APP => Some(p.userId.value);
            && (r.reason == Some(CHANNEL_DISABLED) <==> off)
            && (r.reason == Some(USER_OPT_OUT) <==> !off && out)
            && (r.reason == Some(INVALID_CONTACT) <==> !off && !out && (address == None || address == Some("")))
            && r.status == (if r.reason == None then D.QUEUED else D.SKIPPED)
  {
    hide Handle, Quiet, Registered, Capped, FC.Calendar.Valid, WellFormed;
    ReasonInOrder(env, sys, p, now, uuid, n);
  }

  /**
   Of the rest, a critical event's row is never held back by quiet hours; another's is iff they are switched on and
   the user's local hour lies in them. If they are on, the time zone's name is valid.
   */
  lemma QuietRule(env: Env, sys: Sys, p: Payload, now: int, uuid: nat -> nat, n: nat)
    requires WellFormed(env) && env.calendar.Valid()
    requires |sys.rows| <= n < |Handle(env, sys, p, now, uuid, NoFault).rows|
    ensures p.userId.Some? && p.userId.value in env.users
    ensures var r, u := Handle(env, sys, p, now, uuid, NoFault).rows[n], env.users[p.userId.value];
            var critical := p.eventType in {"security.suspicious_activity", "account.blocked", "transaction.failure",
                                            "security.otp_generated", "loan.emi_missed"};
            && (critical ==> r.reason != Some(QUIET_HOURS))
            && (!critical && r.reason !in {Some(CHANNEL_DISABLED), Some(USER_OPT_OUT), Some(INVALID_CONTACT)} ==>
                  if u.preferences == None || !u.preferences.value.quietHoursEnabled then r.reason != Some(QUIET_HOURS)
                  else
                    var start, end := u.preferences.value.quietHoursStart, u.preferences.value.quietHoursEnd;
                    var hour := env.localHour(p.userId.value, now);
                    && env.zoneKnown(p.userId.value)
                    && (r.reason == Some(QUIET_HOURS) <==>
                        if start > end then hour >= start || hour < end else start <= hour < end))
  {
    hide Handle, Registered, Capped, OptedOut, ChannelEnabled, Recipient, FC.Calendar.Valid;
    ReasonInOrder(env, sys, p, now, uuid, n);
    ZoneOfStoredRow(env, sys, p, now, uuid, n);
  }

  lemma ZoneOfStoredRow(env: Env, sys: Sys, p: Payload, now: int, uuid: nat -> nat, n: nat)
    requires WellFormed(env) && env.calendar.Valid()
    requires |sys.rows| <= n < |Handle(env, sys, p, now, uuid, NoFault).rows|
    ensures p.userId.Some? && p.userId.value in env.users
    ensures Handle(env, sys, p, now, uuid, NoFault).rows[n].reason !in
            {Some(CHANNEL_DISABLED), Some(USER_OPT_OUT), Some(INVALID_CONTACT)} ==>
              !QuietCheckRaises(env, env.users[p.userId.value], p.eventType)
  {
    hide Handle, Quiet, Registered, Capped, OptedOut, ChannelEnabled, Recipient, FC.Calendar.Valid, WellFormed,
      QuietCheckRaises;
    var _ := RowOfTarget(env, sys, p, now, uuid, n);
  }

  /** On the clock face, quiet hours are the arc from their start up to their end. */
  lemma QuietRuleOnTheClock(env: Env, sys: Sys, p: Payload, now: int, uuid: nat -> nat, n: nat)
    requires WellFormed(env) && env.calendar.Valid()
    requires |sys.rows| <= n < |Handle(env, sys, p, now, uuid, NoFault).rows|
    ensures p.userId.Some? && p.userId.value in env.users
    ensures var r, prefs := Handle(env, sys, p, now, uuid, NoFault).rows[n], env.users[p.userId.value].preferences;
            var hour := env.localHour(p.userId.value, now);
            && p.eventType !in {"security.suspicious_activity", "account.blocked", "transaction.failure",
                                "security.otp_generated", "loan.emi_missed"}
            && r.reason !in {Some(CHANNEL_DISABLED), Some(USER_OPT_OUT), Some(INVALID_CONTACT)}
            && prefs.Some? && prefs.value.quietHoursEnabled
            && 0 <= prefs.value.quietHoursStart < 24 && 0 <= prefs.value.quietHoursEnd < 24 && 0 <= hour < 24 ==>
              (r.reason == Some(QUIET_HOURS) <==>
               (hour - prefs.value.quietHoursStart) % 24 <
               (prefs.value.quietHoursEnd - prefs.value.quietHoursStart) % 24)
  {
    hide Handle, FC.Calendar.Valid, WellFormed;
    QuietRule(env, sys, p, now, uuid, n);
    var prefs, hour := env.users[p.userId.value].preferences, env.localHour(p.userId.value, now);
    if prefs.Some? && 0 <= prefs.value.quietHoursStart < 24 && 0 <= prefs.value.quietHoursEnd < 24 && 0 <= hour < 24 {
      Compliance.QuietHoursAreAnArc(prefs.value.quietHoursStart, prefs.value.quietHoursEnd, hour);
    }
  }

  /**
   Of the rest, only text messages to a phone are looked up, three event types never, and a row is held back iff the
   cached answer, or for want of one the registry's reply, is `true`.
   */
  lemma RegistryRule(env: Env, sys: Sys, p: Payload, now: int, uuid: nat -> nat, n: nat)
    requires WellFormed(env) && env.calendar.Valid()
    requires |sys.rows| <= n < |Handle(env, sys, p, now, uuid, NoFault).rows|
    ensures p.userId.Some? && p.userId.value in env.users
    ensures var r, phone := Handle(env, sys, p, now, uuid, NoFault).rows[n], env.users[p.userId.value].phone;
            var cache := sys.side.dnd.cache;
            var checked := r.channel in {SMS, WHATSAPP} && phone != None && phone != Some("") && env.dnd.enabled &&
                           p.eventType !in {"security.otp_generated", "security.suspicious_activity",
                                            "account.blocked"};
            r.reason !in {Some(CHANNEL_DISABLED), Some(USER_OPT_OUT), Some(INVALID_CONTACT), Some(QUIET_HOURS)} ==>
              (r.reason == Some(DND_REGISTERED) <==>
               checked && if env.dnd.cached && Redis.Live(cache, phone.value, now) && cache[phone.value].value != None
                          then cache[phone.value].value == Some(true)
                          else env.lookup(phone.value, now) == Compliance.Answered(Some(true)))
  {
    hide Handle, Quiet, Capped, OptedOut, ChannelEnabled, Recipient, FC.Calendar.Valid;
    ReasonInOrder(env, sys, p, now, uuid, n);
  }

  /**
   Of the rest, a row is held back iff some window is full: the counter of the state the event found and the rows the
   event has queued on the channel before reach the user's own cap, or the default where that is 0 or missing.
   */
  lemma CapRule(env: Env, sys: Sys, p: Payload, now: int, uuid: nat -> nat, n: nat)
    requires WellFormed(env) && env.calendar.Valid()
    requires |sys.rows| <= n < |Handle(env, sys, p, now, uuid, NoFault).rows|
    ensures p.userId.Some? && p.userId.value in env.users
    ensures var rows, prefs := Handle(env, sys, p, now, uuid, NoFault).rows, env.users[p.userId.value].preferences;
            var r := rows[n];
            var name := match r.channel
                        case SMS => "sms"
                        case EMAIL => "email"
                        case WHATSAPP => "whatsapp"
                        case PUSH => "push"
                        case IN_APP => "in_app";
            var queued := CountIf(rows[|sys.rows|..n], (q: Row) => q.status == D.QUEUED && q.channel == r.channel);
            r.reason !in {Some(CHANNEL_DISABLED), Some(USER_OPT_OUT), Some(INVALID_CONTACT), Some(QUIET_HOURS),
                          Some(DND_REGISTERED)} ==>
            (r.reason == Some(FREQUENCY_CAPPED) <==>
             exists w: FC.Window ::
               var own := if prefs.None? then 0
                          else match w
                               case Hour => prefs.value.caps.hour
                               case Day => prefs.value.caps.day
                               case Week => prefs.value.caps.week;
               var default := match w
                              case Hour => env.defaults.hour
                              case Day => env.defaults.day
                              case Week => env.defaults.week;
               var limit := if own == 0 then default else own;
               var key := FC.Key(p.userId.value, name, w, env.calendar.Bucket(w, now));
               limit > 0 && Redis.Count(sys.side.caps, key, now) + queued >= limit)
  {
    hide Handle, Quiet, Registered, Capped, OptedOut, ChannelEnabled, Recipient, FC.Calendar.Valid, WellFormed;
    ReasonInOrder(env, sys, p, now, uuid, n);
    var rows := Handle(env, sys, p, now, uuid, NoFault).rows;
    var before, r := rows[|sys.rows|..n], rows[n];
    var queued := (q: Row) => q.status == D.QUEUED && q.channel == r.channel;
    CountIfWeaker(before, QueuedOn(r.channel), queued);
    CountIfWeaker(before, queued, QueuedOn(r.channel));
    FullWindow(env, sys.side, env.users[p.userId.value], rows[n].channel, now, rows[|sys.rows|..n],
        CountIf(before, queued));
  }

  lemma FullWindow(env: Env, side: Side, u: User, c: Channel, now: int, before: seq<Row>, queued: int)
    requires queued == CountIf(before, QueuedOn(c))
    ensures var name := match c
                        case SMS => "sms"
                        case EMAIL => "email"
                        case WHATSAPP => "whatsapp"
                        case PUSH => "push"
                        case IN_APP => "in_app";
            Capped(env, side, u, c, now, before) <==>
            exists w: FC.Window ::
              var own := if u.preferences.None? then 0
                         else match w
                              case Hour => u.preferences.value.caps.hour
                              case Day => u.preferences.value.caps.day
                              case Week => u.preferences.value.caps.week;
              var default := match w
                             case Hour => env.defaults.hour
                             case Day => env.defaults.day
                             case Week => env.defaults.week;
              var limit := if own == 0 then default else own;
              var key := FC.Key(u.id, name, w, env.calendar.Bucket(w, now));
              limit > 0 && Redis.Count(side.caps, key, now) + queued >= limit
  {
    hide Redis.Count, CountIf;
    forall w: FC.Window
      ensures FC.Full(FC.Effective(CallerCaps(u), env.defaults).Of(w),
                      Spent(env, side, u.id, c, w, now) + CountIf(before, QueuedOn(c))) <==>
              var own := if u.preferences.None? then 0
                         else match w
                              case Hour => u.preferences.value.caps.hour
                              case Day => u.preferences.value.caps.day
                              case Week => u.preferences.value.caps.week;
              var default := match w
                             case Hour => env.defaults.hour
                             case Day => env.defaults.day
                             case Week => env.defaults.week;
              var limit := if own == 0 then default else own;
              var key := FC.Key(u.id, Value(c), w, env.calendar.Bucket(w, now));
              limit > 0 && Redis.Count(side.caps, key, now) + queued >= limit
    {
    }
    if Capped(env, side, u, c, now, before) {
      var w: FC.Window :| FC.Full(FC.Effective(CallerCaps(u), env.defaults).Of(w),
                                  Spent(env, side, u.id, c, w, now) + CountIf(before, QueuedOn(c)));
      assert FC.Key(u.id, Value(c), w, env.calendar.Bucket(w, now)).window == w;
    }
  }

  // ---------------------------------------------------------------------------------------------
  // What plays no part
  // ---------------------------------------------------------------------------------------------

  lemma {:induction false} BuildIgnoresTheClock(env: Env, p: Payload, u: User, cs: seq<Channel>, uuid: nat -> nat,
                                                stored: seq<Row>, i: nat, hours: (string, int) -> int,
                                                zones: string -> bool)
    ensures BuildFrom(env.(localHour := hours, zoneKnown := zones), p, u, cs, uuid, stored, i) ==
            BuildFrom(env, p, u, cs, uuid, stored, i)
    decreases |cs| - i
  {
    if i < |cs| {
      var built := BuildSingle(env, p, u, cs[i], uuid(i));
      SingleIgnoresTheClock(env, p, u, cs[i], uuid(i), hours, zones);
      hide BuildSingle, Taken;
      BuildIgnoresTheClock(env, p, u, cs, uuid, if built == None then stored else stored + [built.value], i + 1, hours,
                           zones);
    }
  }

  lemma SingleIgnoresTheClock(env: Env, p: Payload, u: User, c: Channel, id: nat, hours: (string, int) -> int,
                              zones: string -> bool)
    ensures BuildSingle(env.(localHour := hours, zoneKnown := zones), p, u, c, id) == BuildSingle(env, p, u, c, id)
  {
  }

  lemma CriticalRowIgnoresTheClock(env: Env, side: Side, p: Payload, row: Row, now: int, fault: Fault, i: nat,
                                   hours: (string, int) -> int, zones: string -> bool)
    requires p.eventType in {"security.suspicious_activity", "account.blocked", "transaction.failure",
                             "security.otp_generated", "loan.emi_missed"}
    ensures Dispatch(env.(localHour := hours, zoneKnown := zones), side, p, row, now, fault, i) ==
            Dispatch(env, side, p, row, now, fault, i)
  {
  }

  lemma {:induction false} CriticalGateIgnoresTheClock(env: Env, side: Side, p: Payload, rows: seq<Row>, now: int,
                                                       fault: Fault, i: nat, hours: (string, int) -> int,
                                                       zones: string -> bool)
    requires p.eventType in {"security.suspicious_activity", "account.blocked", "transaction.failure",
                             "security.otp_generated", "loan.emi_missed"}
    ensures DispatchFrom(env.(localHour := hours, zoneKnown := zones), side, p, rows, now, fault, i) ==
            DispatchFrom(env, side, p, rows, now, fault, i)
    decreases |rows| - i
  {
    hide Dispatch;
    if i < |rows| {
      CriticalRowIgnoresTheClock(env, side, p, rows[i], now, fault, i, hours, zones);
      CriticalGateIgnoresTheClock(env, Dispatch(env, side, p, rows[i], now, fault, i).1, p, rows, now, fault, i + 1,
                                  hours, zones);
    }
  }

  /** Nothing about the handling of a critical event depends on the local hour or on the user's time zone. */
  lemma CriticalEventIgnoresTheClock(env: Env, sys: Sys, p: Payload, now: int, uuid: nat -> nat, fault: Fault,
                                     hours: (string, int) -> int, zones: string -> bool)
    requires p.eventType in {"security.suspicious_activity", "account.blocked", "transaction.failure",
                             "security.otp_generated", "loan.emi_missed"}
    ensures Handle(env.(localHour := hours, zoneKnown := zones), sys, p, now, uuid, fault) ==
            Handle(env, sys, p, now, uuid, fault)
  {
    hide BuildFrom, DispatchFrom;
    if p.userId.Some? && KnownAndActive(env, p.userId.value) && Parses(env, p) {
      BuildIgnoresTheClock(env, p, env.users[p.userId.value], Targets(p), uuid, sys.rows, 0, hours, zones);
    }
    var built := Build(env, sys.rows, p, uuid);
    if built.Some? {
      CriticalGateIgnoresTheClock(env, sys.side, p, built.value, now, fault, 0, hours, zones);
    }
  }

  /**
   Nobody but a known active user gets anything, and nothing comes of an event without a user, with a value that does
   not parse, or whose key, if it is not empty, is stored already.
   */
  lemma NothingComesOfIt(env: Env, sys: Sys, p: Payload, now: int, uuid: nat -> nat, fault: Fault)
    requires || p.userId == None || p.userId.value !in env.users || !env.users[p.userId.value].active
             || p.priority == None || p.eventType !in env.eventTypes || None in p.channels
             || (p.key != None && p.key != Some("") && exists i :: 0 <= i < |sys.rows| && sys.rows[i].key == p.key)
    ensures Handle(env, sys, p, now, uuid, fault) == sys
  {
    hide BuildFrom, DispatchFrom;
  }

  /** A target's place among the built rows, unless it was left out. */
  lemma RowAt(env: Env, p: Payload, u: User, cs: seq<Channel>, uuid: nat -> nat, rows: seq<Row>, at: seq<nat>, j: nat)
    returns (k: Option<nat>)
    requires ForTargets(env, p, u, cs, uuid, 0, rows, at) && j < |cs|
    ensures if k == None then BuildSingle(env, p, u, cs[j], uuid(j)) == None
            else k.value < |rows| && BuildSingle(env, p, u, cs[j], uuid(j)) == Some(rows[k.value])
  {
    hide BuildSingle;
    k := None;
    if j in at {
      var l :| 0 <= l < |at| && at[l] == j;
      k := Some(l);
    }
  }

  /** The gate leaves a row its id and channel. */
  lemma GateKeepsTarget(env: Env, side: Side, p: Payload, rows: seq<Row>, now: int, u: User, k: nat)
    requires env.calendar.Valid() && Built(env, rows, u) && k < |rows|
    requires DispatchFrom(env, side, p, rows, now, NoFault, 0).0.Some?
    ensures var gated := DispatchFrom(env, side, p, rows, now, NoFault, 0).0.value;
            k < |gated| && gated[k].id == rows[k].id && gated[k].channel == rows[k].channel
  {
    hide DispatchFrom, Quiet, Registered, Capped, Built, FC.Calendar.Valid;
    EveryRowGetsItsVerdict(env, side, p, rows, now, 0, u, k);
  }

  /** Every target of an event that stores rows has its row, but for those that are wanted and do not render. */
  lemma EveryTargetHasItsRow(env: Env, sys: Sys, p: Payload, now: int, uuid: nat -> nat, j: nat)
    returns (n: Option<nat>)
    requires WellFormed(env) && env.calendar.Valid() && Handle(env, sys, p, now, uuid, NoFault).rows != sys.rows
    ensures p.userId.Some? && p.userId.value in env.users && p.priority.Some?
    ensures var rows, u := Handle(env, sys, p, now, uuid, NoFault).rows, env.users[p.userId.value];
            var targets := if p.channels != [] then p.channels
                           else match p.priority.value
                                case CRITICAL => [Some(SMS), Some(PUSH), Some(EMAIL), Some(IN_APP)]
                                case HIGH => [Some(PUSH), Some(SMS), Some(EMAIL), Some(IN_APP)]
                                case MEDIUM => [Some(EMAIL), Some(PUSH), Some(IN_APP)]
                                case LOW => [Some(EMAIL), Some(IN_APP)];
            j < |targets| && targets[j].Some? ==>
              var c := targets[j].value;
              var address := match c
                             case SMS => u.phone
                             case WHATSAPP => u.phone
                             case EMAIL => Some(u.email)
                             case PUSH => u.firebaseToken
                             case IN_APP => Some(u.id);
              if n.Some? then |sys.rows| <= n.value < |rows| && rows[n.value].channel == c &&
                  rows[n.value].id == uuid(j)
              else
                && !env.renders(p, c) && address != None && address != Some("")
                && (u.preferences.Some? ==> c in u.preferences.value.enabled)
                && (u.preferences.Some? ==>
                      p.eventType !in OptOut.GetDisabledEvents(env.spaces, u.preferences.value.disabledEventTypes))
  {
    hide Handle, Build, BuildSingle, DispatchFrom, FC.Calendar.Valid, WellFormed, Built, ForTargets, Targets;
    n := None;
    Stored(env, sys, p, now, uuid);
    TargetsAre(env, p);
    if j < |Targets(p)| {
      var u, built := env.users[p.userId.value], Build(env, sys.rows, p, uuid).value;
      BuildIsBuildFrom(env, sys.rows, p, uuid);
      var at := BuiltForTargets(env, p, u, Targets(p), uuid, sys.rows, 0);
      var k := RowAt(env, p, u, Targets(p), uuid, built, at, j);
      if k == None {
        LeftOut(env, p, u, Targets(p)[j], uuid(j));
      } else {
        BuildSingleShape(env, p, u, Targets(p)[j], uuid(j), uuid(j));
        GateKeepsTarget(env, sys.side, p, built, now, u, k.value);
        n := Some(|sys.rows| + k.value);
      }
    }
  }

  lemma BuildIsBuildFrom(env: Env, stored: seq<Row>, p: Payload, uuid: nat -> nat)
    requires Build(env, stored, p, uuid).Some?
    ensures p.userId.Some? && KnownAndActive(env, p.userId.value) && Parses(env, p)
    ensures BuildFrom(env, p, env.users[p.userId.value], Targets(p), uuid, stored, 0) == Build(env, stored, p, uuid)
  {
  }

  lemma LeftOut(env: Env, p: Payload, u: User, c: Channel, id: nat)
    requires BuildSingle(env, p, u, c, id) == None
    ensures var address := match c
                           case SMS => u.phone
                           case WHATSAPP => u.phone
                           case EMAIL => Some(u.email)
                           case PUSH => u.firebaseToken
                           case IN_APP => Some(u.id);
            && !env.renders(p, c) && address != None && address != Some("")
            && (u.preferences.Some? ==> c in u.preferences.value.enabled)
            && (u.preferences.Some? ==>
                  p.eventType !in OptOut.GetDisabledEvents(env.spaces, u.preferences.value.disabledEventTypes))
  {
  }

  lemma TargetsAre(env: Env, p: Payload)
    requires Parses(env, p)
    ensures var targets := if p.channels != [] then p.channels
                           else match p.priority.value
                                case CRITICAL => [Some(SMS), Some(PUSH), Some(EMAIL), Some(IN_APP)]
                                case HIGH => [Some(PUSH), Some(SMS), Some(EMAIL), Some(IN_APP)]
                                case MEDIUM => [Some(EMAIL), Some(PUSH), Some(IN_APP)]
                                case LOW => [Some(EMAIL), Some(IN_APP)];
            |Targets(p)| == |targets| && forall j :: 0 <= j < |targets| ==> targets[j] == Some(Targets(p)[j])
  {
  }
}
