/** Events that show that what the platform does not promise does happen. */
module EventExamples {
  import opened Wrappers
  import opened EventHandler
  import Redis
  import FC = FrequencyCap
  import Compliance
  import OptOut
  import D = Delivery

  /** One user without preferences, reachable by e-mail, and templates for everything. */
  function PlainEnv(cal: FC.Calendar, sp: OptOut.Spaces): Env {
    Env(map["u" := User("u", true, "u@x", None, None, None)], {"payment.due"}, sp,
        (p: Payload, c: Channel) => true, (u: string) => true, (u: string, t: int) => 12,
        cal, FC.Limits(10, 50, 200), Compliance.Config(true, true), (u: string, t: int) => Compliance.Unconfigured)
  }

  const DUE_BY_MAIL := Payload(Some("u"), "payment.due", Some(MEDIUM), [Some(EMAIL)], Some("k"))

  const EMPTY := Sys([], Side(multiset{}, map[], [], Compliance.State(map[], [])))

  function MailRow(id: nat): Row {
    Row(id, "u", EMAIL, D.PENDING, None, "u@x", 5, Some("k:email"))
  }

  lemma MailIsBuilt(cal: FC.Calendar, sp: OptOut.Spaces, uuid: nat -> nat)
    ensures Build(PlainEnv(cal, sp), [], DUE_BY_MAIL, uuid) == Some([MailRow(uuid(0))])
  {
    var env := PlainEnv(cal, sp);
    var u, row := env.users["u"], MailRow(uuid(0));
    assert Value(EMAIL) == "email" && "k" + ":" + "email" == "k:email";
    assert Targets(DUE_BY_MAIL) == [EMAIL];
    assert BuildSingle(env, DUE_BY_MAIL, u, EMAIL, uuid(0)) == Some(row);
    assert BuildFrom(env, DUE_BY_MAIL, u, [EMAIL], uuid, [] + [row], 1) == Some([]);
    assert [row] + [] == [row];
  }

  /** The one row of the event, gated with room under every cap. */
  lemma MailIsQueued(cal: FC.Calendar, sp: OptOut.Spaces, side: Side, now: int, id: nat, fault: Fault)
    requires fault == NoFault || fault == AtCommit
    requires FC.Admits(cal, side.caps, FC.Limits(10, 50, 200), FC.Ticket("u", "email", now), now)
    ensures var d := DispatchFrom(PlainEnv(cal, sp), side, DUE_BY_MAIL, [MailRow(id)], now, fault, 0);
            && d.0 == Some([MailRow(id).(status := D.QUEUED)])
            && d.1.tasks == side.tasks + multiset{id}
            && d.1.caps == FC.IncrementAll(cal, side.caps, FC.Ticket("u", "email", now), now)
  {
    var env := PlainEnv(cal, sp);
    var u, row := env.users["u"], MailRow(id);
    assert FC.Effective(CallerCaps(u), env.defaults) == FC.Limits(10, 50, 200);
    assert Value(EMAIL) == "email";
    assert Gate(env, side, DUE_BY_MAIL, row, now) == Admit;
    var d := Dispatch(env, side, DUE_BY_MAIL, row, now, fault, 0);
    assert d.0 == Some(row.(status := D.QUEUED));
    assert DispatchFrom(env, d.1, DUE_BY_MAIL, [row], now, fault, 1) == (Some([]), d.1);
    assert [row.(status := D.QUEUED)] + [] == [row.(status := D.QUEUED)];
  }

  lemma MailIsHandled(cal: FC.Calendar, sp: OptOut.Spaces, side: Side, now: int, uuid: nat -> nat, fault: Fault)
    requires fault == NoFault || fault == AtCommit
    requires FC.Admits(cal, side.caps, FC.Limits(10, 50, 200), FC.Ticket("u", "email", now), now)
    ensures var sys := Handle(PlainEnv(cal, sp), Sys([], side), DUE_BY_MAIL, now, uuid, fault);
            && sys.rows == (if fault == AtCommit then [] else [MailRow(uuid(0)).(status := D.QUEUED)])
            && sys.side.tasks == side.tasks + multiset{uuid(0)}
            && sys.side.caps == FC.IncrementAll(cal, side.caps, FC.Ticket("u", "email", now), now)
  {
    MailIsBuilt(cal, sp, uuid);
    MailIsQueued(cal, sp, side, now, uuid(0), fault);
    var queued := [MailRow(uuid(0)).(status := D.QUEUED)];
    assert [] + queued == queued;
  }

  /** One send leaves room for another. */
  lemma RoomForTwo(cal: FC.Calendar)
    requires cal.Valid()
    ensures FC.Admits(cal, map[], FC.Limits(10, 50, 200), FC.Ticket("u", "email", 0), 0)
    ensures FC.Admits(cal, FC.IncrementAll(cal, map[], FC.Ticket("u", "email", 0), 0), FC.Limits(10, 50, 200),
            FC.Ticket("u", "email", 0), 0)
  {
    var tk := FC.Ticket("u", "email", 0);
    forall w: FC.Window
      ensures Redis.Count(FC.IncrementAll(cal, map[], tk, 0), FC.KeyOf(cal, tk, w), 0) == 1
    {
      FC.IncrementAllCounts(cal, map[], tk, 0, FC.KeyOf(cal, tk, w), 0);
    }
  }

  /**
   A commit that fails after the gate leaves its message behind; handled again, the event has two messages and one row.
   */
  lemma FailedCommitThenReplaySendsTwice(cal: FC.Calendar, sp: OptOut.Spaces)
    requires cal.Valid()
    ensures var env := PlainEnv(cal, sp);
            var sys1 := Handle(env, EMPTY, DUE_BY_MAIL, 0, (i: nat) => i, AtCommit);
            var sys2 := Handle(env, sys1, DUE_BY_MAIL, 0, (i: nat) => i + 1, NoFault);
            sys1.rows == [] && |sys2.rows| == 1 && sys2.side.tasks == multiset{0, 1}
  {
    var first, second := (i: nat) => i, (i: nat) => i + 1;
    RoomForTwo(cal);
    MailIsHandled(cal, sp, EMPTY.side, 0, first, AtCommit);
    var sys1 := Handle(PlainEnv(cal, sp), EMPTY, DUE_BY_MAIL, 0, first, AtCommit);
    MailIsHandled(cal, sp, sys1.side, 0, second, NoFault);
    assert sys1 == Sys([], sys1.side);
  }

  /**
   Keyed "k", the event stores the key "k:email"; an event whose own key is "k:email" is then dropped, though alone it
   is stored.
   */
  lemma ColonKeyIsDropped(cal: FC.Calendar, sp: OptOut.Spaces, uuid: nat -> nat)
    requires cal.Valid()
    ensures var env, other := PlainEnv(cal, sp), DUE_BY_MAIL.(key := Some("k:email"));
            var sys := Handle(env, EMPTY, DUE_BY_MAIL, 0, uuid, NoFault);
            && Handle(env, sys, other, 0, uuid, NoFault) == sys
            && |sys.rows| == 1 && Build(env, EMPTY.rows, other, uuid).Some?
  {
    var env, other := PlainEnv(cal, sp), DUE_BY_MAIL.(key := Some("k:email"));
    var sys := Handle(env, EMPTY, DUE_BY_MAIL, 0, uuid, NoFault);
    RoomForTwo(cal);
    MailIsHandled(cal, sp, EMPTY.side, 0, uuid, NoFault);
    assert sys.rows[0].key == other.key && Taken(sys.rows, other.key);
    var u := env.users["u"];
    var row := MailRow(uuid(0)).(key := StoredKey(other.key, EMAIL));
    assert Targets(other) == [EMAIL];
    assert BuildSingle(env, other, u, EMAIL, uuid(0)) == Some(row);
    assert BuildFrom(env, other, u, [EMAIL], uuid, [] + [row], 1) == Some([]);
  }
}
