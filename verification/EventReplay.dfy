/**
 Replaying a keyed event changes nothing, and distinct keys do not get in each other's way.
 */
module EventReplay {
  import opened Wrappers
  import opened EventHandler
  import D = Delivery

  ghost predicate WellFormed(env: Env) {
    forall k :: k in env.users ==> env.users[k].id == k
  }

  /** No key is ever lost: rows of other events may come, statuses may change, rows may not go. */
  ghost predicate KeysKept(rows: seq<Row>, later: seq<Row>) {
    forall i :: 0 <= i < |rows| && rows[i].key.Some? ==> Taken(later, rows[i].key)
  }

  // ---------------------------------------------------------------------------------------------
  // Building the same event twice
  // ---------------------------------------------------------------------------------------------

  lemma BuildSingleShape(env: Env, p: Payload, u: User, c: Channel, id1: nat, id2: nat)
    ensures var a, b := BuildSingle(env, p, u, c, id1), BuildSingle(env, p, u, c, id2);
            && (a.Some? <==> b.Some?)
            && (a.Some? ==>
                  && a.value == b.value.(id := id1)
                  && a.value.id == id1 && a.value.user == u.id && a.value.channel == c
                  && a.value.key == StoredKey(p.key, c) && a.value.status in {D.PENDING, D.SKIPPED})
  {
  }

  lemma TakenGrows(rows: seq<Row>, r: Row, key: Option<string>)
    ensures Taken(rows + [r], key) <==> Taken(rows, key) || (key.Some? && r.key == key)
  {
    if Taken(rows, key) {
      var i :| 0 <= i < |rows| && rows[i].key == key;
      assert (rows + [r])[i].key == key;
    }
    if key.Some? && r.key == key {
      assert (rows + [r])[|rows|].key == key;
    }
  }

  /** An event that conflicts once conflicts for as long as the keys stay. */
  lemma {:induction false} ConflictStays(env: Env, p: Payload, u: User, cs: seq<Channel>, i: nat,
                                         uuid1: nat -> nat, rows1: seq<Row>, uuid2: nat -> nat, rows2: seq<Row>)
    requires KeysKept(rows1, rows2) && BuildFrom(env, p, u, cs, uuid1, rows1, i) == None
    ensures BuildFrom(env, p, u, cs, uuid2, rows2, i) == None
    decreases |cs| - i
  {
    var a, b := BuildSingle(env, p, u, cs[i], uuid1(i)), BuildSingle(env, p, u, cs[i], uuid2(i));
    BuildSingleShape(env, p, u, cs[i], uuid1(i), uuid2(i));
    if a == None {
      ConflictStays(env, p, u, cs, i + 1, uuid1, rows1, uuid2, rows2);
    } else if !Taken(rows1, a.value.key) && !Taken(rows2, b.value.key) {
      forall k | 0 <= k < |rows1 + [a.value]| && (rows1 + [a.value])[k].key.Some?
        ensures Taken(rows2 + [b.value], (rows1 + [a.value])[k].key)
      {
        TakenGrows(rows2, b.value, (rows1 + [a.value])[k].key);
      }
      ConflictStays(env, p, u, cs, i + 1, uuid1, rows1 + [a.value], uuid2, rows2 + [b.value]);
    }
  }

  /** Once its first row's key is stored, the event conflicts at that row, before any other row is even built. */
  lemma {:induction false} StoredRowBlocks(env: Env, p: Payload, u: User, cs: seq<Channel>, i: nat,
                                           uuid1: nat -> nat, rows1: seq<Row>, uuid2: nat -> nat, rows2: seq<Row>)
    requires var rs := BuildFrom(env, p, u, cs, uuid1, rows1, i);
             rs.Some? && rs.value != [] && Taken(rows2, rs.value[0].key)
    ensures BuildFrom(env, p, u, cs, uuid2, rows2, i) == None
    decreases |cs| - i
  {
    BuildSingleShape(env, p, u, cs[i], uuid1(i), uuid2(i));
    if BuildSingle(env, p, u, cs[i], uuid1(i)) == None {
      StoredRowBlocks(env, p, u, cs, i + 1, uuid1, rows1, uuid2, rows2);
    }
  }

  /** Two builds that go through give rows of the same channels, keys and statuses. */
  lemma {:induction false} BuildsHaveOneShape(env: Env, p: Payload, u: User, cs: seq<Channel>, i: nat,
                                              uuid1: nat -> nat, rows1: seq<Row>, uuid2: nat -> nat, rows2: seq<Row>)
    requires BuildFrom(env, p, u, cs, uuid1, rows1, i).Some? && BuildFrom(env, p, u, cs, uuid2, rows2, i).Some?
    ensures var a, b := BuildFrom(env, p, u, cs, uuid1, rows1, i).value,
            BuildFrom(env, p, u, cs, uuid2, rows2, i).value;
            && |a| == |b|
            && (forall k :: 0 <= k < |a| ==>
                  a[k].status == b[k].status && a[k].key == b[k].key && a[k].channel == b[k].channel)
    decreases |cs| - i
  {
    if i < |cs| {
      var a, b := BuildSingle(env, p, u, cs[i], uuid1(i)), BuildSingle(env, p, u, cs[i], uuid2(i));
      BuildSingleShape(env, p, u, cs[i], uuid1(i), uuid2(i));
      if a == None {
        BuildsHaveOneShape(env, p, u, cs, i + 1, uuid1, rows1, uuid2, rows2);
      } else {
        BuildsHaveOneShape(env, p, u, cs, i + 1, uuid1, rows1 + [a.value], uuid2, rows2 + [b.value]);
      }
    }
  }

  /** Building nothing needs no room: it never conflicts. */
  lemma {:induction false} EmptyBuildStays(env: Env, p: Payload, u: User, cs: seq<Channel>, i: nat,
                                           uuid1: nat -> nat, rows1: seq<Row>, uuid2: nat -> nat, rows2: seq<Row>)
    requires BuildFrom(env, p, u, cs, uuid1, rows1, i) == Some([])
    ensures BuildFrom(env, p, u, cs, uuid2, rows2, i) == Some([])
    decreases |cs| - i
  {
    if i < |cs| {
      BuildSingleShape(env, p, u, cs[i], uuid1(i), uuid2(i));
      EmptyBuildStays(env, p, u, cs, i + 1, uuid1, rows1, uuid2, rows2);
    }
  }

  /** What is built belongs to the user and carries the event's keys. */
  lemma {:induction false} BuiltRows(env: Env, p: Payload, u: User, cs: seq<Channel>, i: nat, uuid: nat -> nat,
                                     stored: seq<Row>)
    requires BuildFrom(env, p, u, cs, uuid, stored, i).Some?
    ensures var rs := BuildFrom(env, p, u, cs, uuid, stored, i).value;
            forall k :: 0 <= k < |rs| ==>
              rs[k].user == u.id && rs[k].key == StoredKey(p.key, rs[k].channel) &&
                  rs[k].status in {D.PENDING, D.SKIPPED}
    decreases |cs| - i
  {
    if i < |cs| {
      var a := BuildSingle(env, p, u, cs[i], uuid(i));
      BuildSingleShape(env, p, u, cs[i], uuid(i), uuid(i));
      BuiltRows(env, p, u, cs, i + 1, uuid, if a == None then stored else stored + [a.value]);
    }
  }

  // ---------------------------------------------------------------------------------------------
  // Gating
  // ---------------------------------------------------------------------------------------------

  /** The gate keeps every row's place, key and channel. */
  lemma {:induction false} GatedRows(env: Env, side: Side, p: Payload, rows: seq<Row>, now: int, fault: Fault, i: nat)
    requires i <= |rows| && DispatchFrom(env, side, p, rows, now, fault, i).0.Some?
    ensures var rs := DispatchFrom(env, side, p, rows, now, fault, i).0.value;
            && |rs| == |rows| - i
            && (forall k :: 0 <= k < |rs| ==> rs[k] == rows[i + k].(status := rs[k].status, reason := rs[k].reason))
    decreases |rows| - i
  {
    if i < |rows| {
      var (row, side1) := Dispatch(env, side, p, rows[i], now, fault, i);
      GatedRows(env, side1, p, rows, now, fault, i + 1);
    }
  }

  ghost predicate ForUser(env: Env, rows: seq<Row>, u: User) {
    u.id in env.users && env.users[u.id] == u && forall k :: 0 <= k < |rows| ==> rows[k].user == u.id
  }

  /** With a bad time zone the first row that is not skipped raises, so no row has had any effect. */
  lemma {:induction false} BadZoneRaisesFirst(env: Env, side: Side, p: Payload, rows: seq<Row>, now: int,
                                              fault: Fault, i: nat, u: User)
    requires ForUser(env, rows, u) && QuietCheckRaises(env, u, p.eventType)
    ensures DispatchFrom(env, side, p, rows, now, fault, i).1 == side
    ensures (exists k :: i <= k < |rows| && rows[k].status != D.SKIPPED) ==>
            DispatchFrom(env, side, p, rows, now, fault, i).0 == None
    decreases |rows| - i
  {
    if i < |rows| {
      var (row, side1) := Dispatch(env, side, p, rows[i], now, fault, i);
      if row != None {
        BadZoneRaisesFirst(env, side1, p, rows, now, fault, i + 1, u);
      }
    }
  }

  /** Otherwise, and when nothing breaks down, the gate lets every row through to a verdict. */
  lemma {:induction false} GateDecides(env: Env, side: Side, p: Payload, rows: seq<Row>, now: int, i: nat, u: User)
    requires ForUser(env, rows, u)
    requires !QuietCheckRaises(env, u, p.eventType) || forall k :: i <= k < |rows| ==> rows[k].status == D.SKIPPED
    ensures DispatchFrom(env, side, p, rows, now, NoFault, i).0.Some?
    decreases |rows| - i
  {
    if i < |rows| {
      var (row, side1) := Dispatch(env, side, p, rows[i], now, NoFault, i);
      GateDecides(env, side1, p, rows, now, i + 1, u);
    }
  }

  // ---------------------------------------------------------------------------------------------
  // Replay
  // ---------------------------------------------------------------------------------------------

  lemma TakenStays(rows: seq<Row>, later: seq<Row>, key: Option<string>)
    requires KeysKept(rows, later) && Taken(rows, key)
    ensures Taken(later, key)
  {
    var i :| 0 <= i < |rows| && rows[i].key == key;
  }

  lemma HandleKeepsKeys(env: Env, sys: Sys, p: Payload, now: int, uuid: nat -> nat, fault: Fault)
    ensures sys.rows <= Handle(env, sys, p, now, uuid, fault).rows
    ensures KeysKept(sys.rows, Handle(env, sys, p, now, uuid, fault).rows)
  {
    var later := Handle(env, sys, p, now, uuid, fault).rows;
    assert forall i :: 0 <= i < |sys.rows| ==> later[i] == sys.rows[i];
  }

  lemma UnbuiltStays(env: Env, rows1: seq<Row>, rows2: seq<Row>, p: Payload, uuid1: nat -> nat, uuid2: nat -> nat)
    requires KeysKept(rows1, rows2) && Build(env, rows1, p, uuid1) == None
    ensures Build(env, rows2, p, uuid2) == None
  {
    if p.userId.Some? && KnownAndActive(env, p.userId.value) && Parses(env, p) {
      if Truthy(p.key) && Taken(rows1, p.key) {
        TakenStays(rows1, rows2, p.key);
      } else {
        ConflictStays(env, p, env.users[p.userId.value], Targets(p), 0, uuid1, rows1, uuid2, rows2);
      }
    }
  }

  /**
   Handling a keyed event again, at any later time and in any later state that has kept the stored keys, leaves
   rows, messages, counters and cached answers exactly as they are, even when the infrastructure fails meanwhile.
   */
  lemma ReplayChangesNothing(env: Env, sys1: Sys, sys2: Sys, p: Payload,
                             now1: int, uuid1: nat -> nat, now2: int, uuid2: nat -> nat, fault2: Fault)
    requires WellFormed(env) && Truthy(p.key)
    requires KeysKept(Handle(env, sys1, p, now1, uuid1, NoFault).rows, sys2.rows)
    ensures Handle(env, sys2, p, now2, uuid2, fault2) == sys2
  {
    var after := Handle(env, sys1, p, now1, uuid1, NoFault);
    var built := Build(env, sys1.rows, p, uuid1);
    if built == None {
      UnbuiltStays(env, sys1.rows, sys2.rows, p, uuid1, uuid2);
    } else if Build(env, sys2.rows, p, uuid2).Some? {
      var u, cs := env.users[p.userId.value], Targets(p);
      var again := Build(env, sys2.rows, p, uuid2).value;
      BuiltRows(env, p, u, cs, 0, uuid1, sys1.rows);
      BuiltRows(env, p, u, cs, 0, uuid2, sys2.rows);
      if built.value == [] {
        EmptyBuildStays(env, p, u, cs, 0, uuid1, sys1.rows, uuid2, sys2.rows);
      } else {
        FirstHandlingRaised(env, sys1, sys2, p, now1, uuid1, uuid2);
        BuildsHaveOneShape(env, p, u, cs, 0, uuid1, sys1.rows, uuid2, sys2.rows);
        BadZoneRaisesFirst(env, sys1.side, p, built.value, now1, NoFault, 0, u);
        BadZoneRaisesFirst(env, sys2.side, p, again, now2, fault2, 0, u);
      }
    }
  }

  /** If the event can be built again although it had rows, its first handling raised on a bad time zone. */
  lemma FirstHandlingRaised(env: Env, sys1: Sys, sys2: Sys, p: Payload, now1: int, uuid1: nat -> nat, uuid2: nat -> nat)
    requires WellFormed(env) && Truthy(p.key)
    requires KeysKept(Handle(env, sys1, p, now1, uuid1, NoFault).rows, sys2.rows)
    requires var b := Build(env, sys1.rows, p, uuid1);
             b.Some? && b.value != [] && Build(env, sys2.rows, p, uuid2).Some?
    ensures var b, u := Build(env, sys1.rows, p, uuid1).value, env.users[p.userId.value];
            QuietCheckRaises(env, u, p.eventType) && exists k :: 0 <= k < |b| && b[k].status != D.SKIPPED
  {
    var u, b := env.users[p.userId.value], Build(env, sys1.rows, p, uuid1).value;
    BuiltRows(env, p, u, Targets(p), 0, uuid1, sys1.rows);
    if !QuietCheckRaises(env, u, p.eventType) || forall k :: 0 <= k < |b| ==> b[k].status == D.SKIPPED {
      GateDecides(env, sys1.side, p, b, now1, 0, u);
      GatedRows(env, sys1.side, p, b, now1, NoFault, 0);
      var after := Handle(env, sys1, p, now1, uuid1, NoFault).rows;
      assert after[|sys1.rows|].key == b[0].key;
      StoredRowBlocks(env, p, u, Targets(p), 0, uuid1, sys1.rows, uuid2, sys2.rows);
    }
  }

  datatype Arrival = Arrival(payload: Payload, now: int, uuid: nat -> nat, fault: Fault)

  function Process(env: Env, sys: Sys, xs: seq<Arrival>): Sys
    decreases |xs|
  {
    if xs == [] then sys else Process(env, Handle(env, sys, xs[0].payload, xs[0].now, xs[0].uuid, xs[0].fault), xs[1..])
  }

  lemma {:induction false} ProcessConcat(env: Env, sys: Sys, xs: seq<Arrival>, ys: seq<Arrival>)
    ensures Process(env, sys, xs + ys) == Process(env, Process(env, sys, xs), ys)
    decreases |xs|
  {
    if xs == [] {
      assert xs + ys == ys;
    } else {
      assert (xs + ys)[1..] == xs[1..] + ys;
      ProcessConcat(env, Handle(env, sys, xs[0].payload, xs[0].now, xs[0].uuid, xs[0].fault), xs[1..], ys);
    }
  }

  lemma {:induction false} ProcessKeepsKeys(env: Env, sys: Sys, xs: seq<Arrival>)
    ensures KeysKept(sys.rows, Process(env, sys, xs).rows)
    decreases |xs|
  {
    if xs == [] {
      forall i | 0 <= i < |sys.rows| && sys.rows[i].key.Some? ensures Taken(sys.rows, sys.rows[i].key) {
      }
    } else {
      var next := Handle(env, sys, xs[0].payload, xs[0].now, xs[0].uuid, xs[0].fault);
      HandleKeepsKeys(env, sys, xs[0].payload, xs[0].now, xs[0].uuid, xs[0].fault);
      ProcessKeepsKeys(env, next, xs[1..]);
      forall i | 0 <= i < |sys.rows| && sys.rows[i].key.Some?
        ensures Taken(Process(env, sys, xs).rows, sys.rows[i].key)
      {
        TakenStays(next.rows, Process(env, sys, xs).rows, sys.rows[i].key);
      }
    }
  }

  /**
   In any stream of events, a keyed event that arrives again after a handling without breakdown can be struck from
   the stream: rows, task messages, cap counters and cached answers end up the same.
   */
  lemma ReplaysCanBeStruck(env: Env, sys: Sys, before: seq<Arrival>, x: Arrival, between: seq<Arrival>, y: Arrival,
                           after: seq<Arrival>)
    requires WellFormed(env) && Truthy(x.payload.key) && x.fault == NoFault && y.payload == x.payload
    ensures Process(env, sys, before + [x] + between + [y] + after) == Process(env, sys, before + [x] + between + after)
  {
    var s1 := Process(env, sys, before);
    var s2 := Handle(env, s1, x.payload, x.now, x.uuid, NoFault);
    var s3 := Process(env, s2, between);
    ProcessKeepsKeys(env, s2, between);
    ReplayChangesNothing(env, s1, s3, x.payload, x.now, x.uuid, y.now, y.uuid, y.fault);
    ProcessOne(env, s1, x);
    ProcessOne(env, s3, y);
    var head := before + [x] + between;
    ProcessConcat(env, sys, before, [x]);
    ProcessConcat(env, sys, before + [x], between);
    ProcessConcat(env, sys, head, [y]);
    ProcessConcat(env, sys, head + [y], after);
    ProcessConcat(env, sys, head, after);
  }

  lemma ProcessOne(env: Env, sys: Sys, x: Arrival)
    ensures Process(env, sys, [x]) == Handle(env, sys, x.payload, x.now, x.uuid, x.fault)
  {
    assert [x][1..] == [];
  }

  // ---------------------------------------------------------------------------------------------
  // Distinct keys
  // ---------------------------------------------------------------------------------------------

  lemma ValuesAreDistinct(c1: Channel, c2: Channel)
    ensures ':' !in Value(c1)
    ensures Value(c1) == Value(c2) ==> c1 == c2
  {
    assert Value(SMS)[0] == 's' && Value(EMAIL)[0] == 'e' && Value(WHATSAPP)[0] == 'w' && Value(PUSH)[0] == 'p' &&
        Value(IN_APP)[0] == 'i';
  }

  lemma LastColonSplits(k1: string, v1: string, k2: string, v2: string)
    requires ':' !in v1 && ':' !in v2 && k1 + ":" + v1 == k2 + ":" + v2
    ensures k1 == k2 && v1 == v2
  {
    var s1, s2 := k1 + ":" + v1, k2 + ":" + v2;
    assert s1[|k1|] == ':' && s2[|k2|] == ':';
    assert forall i :: |k1| < i < |s1| ==> s1[i] == v1[i - |k1| - 1];
    assert forall i :: |k2| < i < |s2| ==> s2[i] == v2[i - |k2| - 1];
    assert |k1| == |k2|;
    assert k1 == s1[..|k1|] && k2 == s2[..|k2|];
    assert v1 == s1[|k1| + 1..] && v2 == s2[|k2| + 1..];
  }

  /** The key-and-channel string determines the key and the channel, whatever the keys contain. */
  lemma StoredKeyIsInjective(key1: Option<string>, c1: Channel, key2: Option<string>, c2: Channel)
    requires Truthy(key1) && StoredKey(key1, c1) == StoredKey(key2, c2)
    ensures key1 == key2 && c1 == c2
  {
    ValuesAreDistinct(c1, c2);
    ValuesAreDistinct(c2, c1);
    LastColonSplits(key1.value, Value(c1), key2.value, Value(c2));
  }

  /** Every stored key was made by an event with another key. */
  ghost predicate MadeByOthers(rows: seq<Row>, key: Option<string>) {
    forall i :: 0 <= i < |rows| && rows[i].key.Some? ==>
      exists other: Option<string>, c: Channel :: Truthy(other) && other != key && rows[i].key == StoredKey(other, c)
  }

  ghost predicate Distinct(cs: seq<Channel>) {
    forall i, j :: 0 <= i < j < |cs| ==> cs[i] != cs[j]
  }

  lemma {:induction false} FreeKeysBuild(env: Env, p: Payload, u: User, cs: seq<Channel>, i: nat, uuid: nat -> nat,
                                         stored: seq<Row>)
    requires Truthy(p.key) && Distinct(cs)
    requires forall j :: i <= j < |cs| ==> !Taken(stored, StoredKey(p.key, cs[j]))
    ensures BuildFrom(env, p, u, cs, uuid, stored, i).Some?
    decreases |cs| - i
  {
    if i < |cs| {
      var a := BuildSingle(env, p, u, cs[i], uuid(i));
      BuildSingleShape(env, p, u, cs[i], uuid(i), uuid(i));
      if a == None {
        FreeKeysBuild(env, p, u, cs, i + 1, uuid, stored);
      } else {
        forall j | i + 1 <= j < |cs| ensures !Taken(stored + [a.value], StoredKey(p.key, cs[j])) {
          TakenGrows(stored, a.value, StoredKey(p.key, cs[j]));
          if StoredKey(p.key, cs[j]) == StoredKey(p.key, cs[i]) {
            StoredKeyIsInjective(p.key, cs[j], p.key, cs[i]);
          }
        }
        FreeKeysBuild(env, p, u, cs, i + 1, uuid, stored + [a.value]);
      }
    }
  }

  /**
   An event loses to rows of other events exactly when its bare key is one of their stored keys, which takes a colon
   in it: the early check looks up the bare key, and the keys it looks among all end in ":channel".
   */
  lemma OthersBlockIffBareKeyStored(env: Env, rows: seq<Row>, p: Payload, uuid: nat -> nat)
    requires Truthy(p.key) && p.userId.Some? && KnownAndActive(env, p.userId.value) && Parses(env, p)
    requires Distinct(Targets(p)) && MadeByOthers(rows, p.key)
    ensures Build(env, rows, p, uuid) == None <==> Taken(rows, p.key)
    ensures Build(env, rows, p, uuid) == None ==> ':' in p.key.value
  {
    if Taken(rows, p.key) {
      StoredKeysHaveColons(rows, p.key);
    } else {
      forall j | 0 <= j < |Targets(p)| ensures !Taken(rows, StoredKey(p.key, Targets(p)[j])) {
        OthersLeaveKeyFree(rows, p.key, Targets(p)[j]);
      }
      FreeKeysBuild(env, p, env.users[p.userId.value], Targets(p), 0, uuid, rows);
    }
  }

  lemma StoredKeysHaveColons(rows: seq<Row>, key: Option<string>)
    requires MadeByOthers(rows, key) && Taken(rows, key)
    ensures ':' in key.value
  {
    var i :| 0 <= i < |rows| && rows[i].key == key;
    var other: Option<string>, c: Channel :| Truthy(other) && rows[i].key == StoredKey(other, c);
    ColonInside(other.value, Value(c));
    assert StoredKey(other, c) == Some(other.value + ":" + Value(c));
  }

  lemma ColonInside(a: string, b: string)
    ensures ':' in a + ":" + b
  {
    assert (a + ":" + b)[|a|] == ':';
  }

  lemma OthersLeaveKeyFree(rows: seq<Row>, key: Option<string>, c: Channel)
    requires Truthy(key) && MadeByOthers(rows, key)
    ensures !Taken(rows, StoredKey(key, c))
  {
    forall i | 0 <= i < |rows| ensures rows[i].key != StoredKey(key, c) {
      if rows[i].key.Some? {
        var other: Option<string>, d: Channel :| Truthy(other) && other != key && rows[i].key == StoredKey(other, d);
        if StoredKey(other, d) == StoredKey(key, c) {
          StoredKeyIsInjective(other, d, key, c);
        }
      }
    }
  }
}
