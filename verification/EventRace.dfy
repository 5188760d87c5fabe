/**
 Handlers at work on several events at once (app/kafka/handlers.py). A handler checks the bare key, inserts its rows,
 gates them and commits; others run in between. The unique column of app/models/notification.py makes an insert
 wait while another open transaction holds its key, and raise once a stored row has it. What the gate decides is left
 open here, so every interleaving of its own steps is covered.
 */
module EventRace {
  import opened Wrappers
  import opened EventHandler
  import opened EventReplay
  import D = Delivery

  /** Refused: the event is a duplicate, does not parse, has no active user, or met a stored key. */
  datatype Phase =
    | Arrived
    | Inserting(made: seq<Row>, inserted: nat)
    | Gating(made: seq<Row>, gated: seq<Row>)
    | Committed(rows: seq<Row>)
    | Refused
    | BrokenDown

  datatype Handling = Handling(payload: Payload, uuid: nat -> nat, phase: Phase)

  /** The task message for one row of a handling. */
  datatype Message = Message(handling: nat, row: nat, key: Option<string>)

  datatype World = World(stored: seq<Row>, handlings: seq<Handling>, messages: seq<Message>)

  datatype Step =
    | Check(handling: nat)
    | Insert(handling: nat)
    | Decide(handling: nat, verdict: Verdict)
    | Commit(handling: nat)
    | BreakDown(handling: nat)

  /** The rows of channels i and up, whether or not their keys are free. */
  function MadeFrom(env: Env, p: Payload, u: User, cs: seq<Channel>, uuid: nat -> nat, i: nat): seq<Row>
    decreases |cs| - i
  {
    if i >= |cs| then []
    else
      var built := BuildSingle(env, p, u, cs[i], uuid(i));
      (if built == None then [] else [built.value]) + MadeFrom(env, p, u, cs, uuid, i + 1)
  }

  predicate Sound(env: Env, p: Payload) {
    p.userId.Some? && KnownAndActive(env, p.userId.value) && Parses(env, p)
  }

  function Made(env: Env, p: Payload, uuid: nat -> nat): seq<Row> {
    if Sound(env, p) then MadeFrom(env, p, env.users[p.userId.value], Targets(p), uuid, 0) else []
  }

  /** The rows of a handling whose keys it holds or has stored. */
  function Owned(ph: Phase): seq<Row> {
    match ph
    case Inserting(made, n) => if n <= |made| then made[..n] else made
    case Gating(made, _) => made
    case Committed(rows) => rows
    case _ => []
  }

  predicate Open(ph: Phase) {
    ph.Inserting? || ph.Gating?
  }

  /** Another open handling holds the key. */
  predicate HeldElsewhere(w: World, h: nat, key: Option<string>) {
    exists g :: 0 <= g < |w.handlings| && g != h &&
                Open(w.handlings[g].phase) && Taken(Owned(w.handlings[g].phase), key)
  }

  function Moved(w: World, h: nat, ph: Phase): World
    requires h < |w.handlings|
  {
    w.(handlings := w.handlings[h := w.handlings[h].(phase := ph)])
  }

  function DoCheck(env: Env, w: World, h: nat): World
    requires h < |w.handlings|
  {
    var x := w.handlings[h];
    if !x.phase.Arrived? then w
    else if !Sound(env, x.payload) || (Truthy(x.payload.key) && Taken(w.stored, x.payload.key)) then
      Moved(w, h, Refused)
    else Moved(w, h, Inserting(Made(env, x.payload, x.uuid), 0))
  }

  function DoInsert(w: World, h: nat): World
    requires h < |w.handlings|
  {
    match w.handlings[h].phase
    case Inserting(made, n) =>
      if n >= |made| then Moved(w, h, Gating(made, []))
      else if Taken(w.stored + made[..n], made[n].key) then Moved(w, h, Refused)
      else if HeldElsewhere(w, h, made[n].key) then w
      else Moved(w, h, Inserting(made, n + 1))
    case _ => w
  }

  function DoDecide(w: World, h: nat, v: Verdict): World
    requires h < |w.handlings|
  {
    match w.handlings[h].phase
    case Gating(made, gated) =>
      if |gated| >= |made| then w
      else
        var row := made[|gated|];
        if row.status == D.SKIPPED then Moved(w, h, Gating(made, gated + [row]))
        else
          match v {
            case Raises => Moved(w, h, BrokenDown)
            case Unknown => Moved(w, h, Gating(made, gated + [row.(status := D.FAILED)]))
            case SkipFor(reason) =>
              Moved(w, h, Gating(made, gated + [row.(status := D.SKIPPED, reason := Some(reason))]))
            case Admit =>
              Moved(w, h, Gating(made, gated + [row.(status := D.QUEUED)]))
                .(messages := w.messages + [Message(h, |gated|, row.key)])
          }
    case _ => w
  }

  function DoCommit(w: World, h: nat): World
    requires h < |w.handlings|
  {
    match w.handlings[h].phase
    case Gating(made, gated) =>
      if |gated| < |made| then w else Moved(w, h, Committed(gated)).(stored := w.stored + gated)
    case _ => w
  }

  function Next(env: Env, w: World, step: Step): World {
    var h := step.handling;
    if h >= |w.handlings| then w
    else
      match step
      case Check(_) => DoCheck(env, w, h)
      case Insert(_) => DoInsert(w, h)
      case Decide(_, v) => DoDecide(w, h, v)
      case Commit(_) => DoCommit(w, h)
      case BreakDown(_) => if Open(w.handlings[h].phase) then Moved(w, h, BrokenDown) else w
  }

  function Run(env: Env, w: World, steps: seq<Step>): World
    decreases |steps|
  {
    if steps == [] then w else Run(env, Next(env, w, steps[0]), steps[1..])
  }

  // ---------------------------------------------------------------------------------------------
  // Whose keys are whose
  // ---------------------------------------------------------------------------------------------

  ghost predicate Unique(rows: seq<Row>) {
    forall i, j :: 0 <= i < j < |rows| && rows[i].key.Some? ==> rows[i].key != rows[j].key
  }

  ghost predicate Apart(a: seq<Row>, b: seq<Row>) {
    forall i, j :: 0 <= i < |a| && 0 <= j < |b| && a[i].key.Some? ==> a[i].key != b[j].key
  }

  ghost predicate SameKeys(a: seq<Row>, b: seq<Row>) {
    |a| == |b| && forall i :: 0 <= i < |a| ==> a[i].key == b[i].key
  }

  /** A handling works on the rows its payload makes, and keeps their keys. */
  ghost predicate OnCourse(env: Env, x: Handling) {
    match x.phase
    case Inserting(made, n) => made == Made(env, x.payload, x.uuid) && n <= |made|
    case Gating(made, gated) =>
      made == Made(env, x.payload, x.uuid) && |gated| <= |made| && SameKeys(gated, made[..|gated|])
    case Committed(rows) => SameKeys(rows, Made(env, x.payload, x.uuid))
    case _ => true
  }

  /** Who owns keys owns them alone; those of the open handlings are not stored yet, those of the committed ones are. */
  ghost predicate Exclusive(env: Env, w: World) {
    && Unique(w.stored)
    && (forall h :: 0 <= h < |w.handlings| ==> OnCourse(env, w.handlings[h]))
    && (forall h :: 0 <= h < |w.handlings| ==> Unique(Owned(w.handlings[h].phase)))
    && (forall h, g :: 0 <= h < |w.handlings| && 0 <= g < |w.handlings| && h != g ==>
          Apart(Owned(w.handlings[h].phase), Owned(w.handlings[g].phase)))
    && (forall h :: 0 <= h < |w.handlings| && Open(w.handlings[h].phase) ==>
          Apart(Owned(w.handlings[h].phase), w.stored))
    && (forall h, i :: 0 <= h < |w.handlings| && w.handlings[h].phase.Committed? &&
                       0 <= i < |w.handlings[h].phase.rows| && w.handlings[h].phase.rows[i].key.Some? ==>
          Taken(w.stored, w.handlings[h].phase.rows[i].key))
  }

  /** Moving one handling to a phase that owns no key it did not own. */
  lemma LessOwned(env: Env, w: World, h: nat, ph: Phase)
    requires Exclusive(env, w) && h < |w.handlings| && OnCourse(env, w.handlings[h].(phase := ph))
    requires Owned(ph) == [] || (Owned(ph) == Owned(w.handlings[h].phase) && Open(ph) && Open(w.handlings[h].phase))
    requires !ph.Committed?
    ensures Exclusive(env, Moved(w, h, ph))
  {
  }

  lemma TakenPlus(a: seq<Row>, b: seq<Row>, key: Option<string>)
    ensures Taken(a + b, key) <==> Taken(a, key) || Taken(b, key)
  {
    if Taken(a, key) {
      var i :| 0 <= i < |a| && a[i].key == key;
      assert (a + b)[i].key == key;
    }
    if Taken(b, key) {
      var i :| 0 <= i < |b| && b[i].key == key;
      assert (a + b)[|a| + i].key == key;
    }
  }

  /** A key that is neither stored nor held elsewhere is nobody else's. */
  lemma FreeKey(env: Env, w: World, h: nat, g: nat, key: Option<string>)
    requires Exclusive(env, w) && h < |w.handlings| && g < |w.handlings| && g != h
    requires !Taken(w.stored, key) && !HeldElsewhere(w, h, key)
    ensures !Taken(Owned(w.handlings[g].phase), key)
  {
    var x := w.handlings[g].phase;
    if x.Committed? {
      forall i | 0 <= i < |x.rows| ensures x.rows[i].key.Some? ==> x.rows[i].key != key {
      }
    }
  }

  lemma OneMoreKey(env: Env, w: World, h: nat, made: seq<Row>, n: nat)
    requires Exclusive(env, w) && h < |w.handlings| && w.handlings[h].phase == Inserting(made, n) && n < |made|
    requires !Taken(w.stored + made[..n], made[n].key) && !HeldElsewhere(w, h, made[n].key)
    ensures Exclusive(env, Moved(w, h, Inserting(made, n + 1)))
  {
    hide OnCourse, Taken, HeldElsewhere;
    var w', key, own := Moved(w, h, Inserting(made, n + 1)), made[n].key, made[..n + 1];
    assert own == made[..n] + [made[n]];
    TakenPlus(w.stored, made[..n], key);
    KeepsCourse(env, w.handlings[h], made, n);
    assert Unique(own) by {
      NotAmong(made[..n], key);
    }
    assert Apart(own, w.stored) by {
      NotAmong(w.stored, key);
    }
    forall g | 0 <= g < |w.handlings| && g != h
      ensures Apart(own, Owned(w.handlings[g].phase)) && Apart(Owned(w.handlings[g].phase), own)
    {
      FreeKey(env, w, h, g, key);
      NotAmong(Owned(w.handlings[g].phase), key);
    }
  }

  lemma KeepsCourse(env: Env, x: Handling, made: seq<Row>, n: nat)
    requires OnCourse(env, x) && x.phase == Inserting(made, n) && n < |made|
    ensures OnCourse(env, x.(phase := Inserting(made, n + 1)))
  {
  }

  lemma NotAmong(rows: seq<Row>, key: Option<string>)
    requires !Taken(rows, key)
    ensures key.Some? ==> forall i :: 0 <= i < |rows| ==> rows[i].key != key
  {
  }

  lemma OwnKeyIsTaken(rows: seq<Row>, i: nat)
    requires i < |rows| && rows[i].key.Some?
    ensures Taken(rows, rows[i].key)
  {
  }

  lemma GatedKeys(env: Env, x: Handling, made: seq<Row>, gated: seq<Row>)
    requires OnCourse(env, x) && x.phase == Gating(made, gated) && |gated| == |made|
    ensures SameKeys(gated, made) && OnCourse(env, x.(phase := Committed(gated)))
  {
    assert made[..|gated|] == made;
  }

  lemma JoinUnique(stored: seq<Row>, made: seq<Row>, gated: seq<Row>)
    requires Unique(stored) && Unique(made) && Apart(made, stored) && SameKeys(gated, made)
    ensures Unique(stored + gated) && Unique(gated)
  {
  }

  /** The gated rows take the place of the made ones, and join the stored ones. */
  lemma CommitIsExclusive(env: Env, w: World, h: nat, made: seq<Row>, gated: seq<Row>)
    requires Exclusive(env, w) && h < |w.handlings| && w.handlings[h].phase == Gating(made, gated)
    requires |gated| == |made|
    ensures Exclusive(env, Moved(w, h, Committed(gated)).(stored := w.stored + gated))
  {
    hide Taken, OnCourse;
    var w' := Moved(w, h, Committed(gated)).(stored := w.stored + gated);
    GatedKeys(env, w.handlings[h], made, gated);
    assert Apart(made, w.stored);
    JoinUnique(w.stored, made, gated);
    forall g | 0 <= g < |w.handlings| && g != h
      ensures Apart(gated, Owned(w.handlings[g].phase)) && Apart(Owned(w.handlings[g].phase), gated)
    {
      assert Apart(made, Owned(w.handlings[g].phase)) && Apart(Owned(w.handlings[g].phase), made);
    }
    forall g, i | 0 <= g < |w.handlings| && w'.handlings[g].phase.Committed? &&
                  0 <= i < |w'.handlings[g].phase.rows| && w'.handlings[g].phase.rows[i].key.Some?
      ensures Taken(w'.stored, w'.handlings[g].phase.rows[i].key)
    {
      TakenPlus(w.stored, gated, w'.handlings[g].phase.rows[i].key);
      if g == h {
        OwnKeyIsTaken(gated, i);
      }
    }
  }

  lemma AllInserted(env: Env, w: World, h: nat, made: seq<Row>, n: nat)
    requires Exclusive(env, w) && h < |w.handlings| && w.handlings[h].phase == Inserting(made, n) && n >= |made|
    ensures Exclusive(env, Moved(w, h, Gating(made, [])))
  {
    hide Taken, Apart, Unique, Made;
    assert OnCourse(env, w.handlings[h]);
    assert made[..n] == made;
    assert SameKeys([], made[..0]);
    LessOwned(env, w, h, Gating(made, []));
  }

  lemma InsertIsExclusive(env: Env, w: World, h: nat)
    requires Exclusive(env, w) && h < |w.handlings|
    ensures Exclusive(env, DoInsert(w, h))
  {
    hide Exclusive, Taken, HeldElsewhere;
    match w.handlings[h].phase
    case Inserting(made, n) =>
      EasyMoves(env, w, h);
      if n >= |made| {
        AllInserted(env, w, h, made, n);
      } else if !Taken(w.stored + made[..n], made[n].key) && !HeldElsewhere(w, h, made[n].key) {
        OneMoreKey(env, w, h, made, n);
      }
    case _ =>
  }

  lemma OneMoreGated(env: Env, w: World, h: nat, made: seq<Row>, gated: seq<Row>, r: Row)
    requires Exclusive(env, w) && h < |w.handlings| && w.handlings[h].phase == Gating(made, gated)
    requires |gated| < |made| && r.key == made[|gated|].key
    ensures Exclusive(env, Moved(w, h, Gating(made, gated + [r])))
  {
    hide Taken, Apart, Unique;
    var x := w.handlings[h];
    assert OnCourse(env, x);
    assert made[..|gated| + 1] == made[..|gated|] + [made[|gated|]];
    LessOwned(env, w, h, Gating(made, gated + [r]));
  }

  lemma DecideIsExclusive(env: Env, w: World, h: nat, v: Verdict)
    requires Exclusive(env, w) && h < |w.handlings|
    ensures Exclusive(env, DoDecide(w, h, v))
  {
    match w.handlings[h].phase
    case Gating(made, gated) =>
      if |gated| < |made| {
        EasyMoves(env, w, h);
        forall r: Row | r.key == made[|gated|].key ensures Exclusive(env, Moved(w, h, Gating(made, gated + [r]))) {
          OneMoreGated(env, w, h, made, gated, r);
        }
      }
    case _ =>
  }

  lemma NextIsExclusive(env: Env, w: World, step: Step)
    requires Exclusive(env, w)
    ensures Exclusive(env, Next(env, w, step))
  {
    hide Exclusive, Taken, DoInsert, DoDecide, OnCourse;
    var h := step.handling;
    if h < |w.handlings| {
      match step
      case Check(_) =>
        if w.handlings[h].phase.Arrived? {
          EasyMoves(env, w, h);
        }
      case Insert(_) => InsertIsExclusive(env, w, h);
      case Decide(_, v) => DecideIsExclusive(env, w, h, v);
      case Commit(_) =>
        match w.handlings[h].phase {
          case Gating(made, gated) =>
            if |gated| >= |made| {
              NeverTooMany(env, w, h, made, gated);
              CommitIsExclusive(env, w, h, made, gated);
            }
          case _ =>
        }
      case BreakDown(_) => EasyMoves(env, w, h);
    }
  }

  lemma EasyMoves(env: Env, w: World, h: nat)
    requires Exclusive(env, w) && h < |w.handlings|
    ensures Exclusive(env, Moved(w, h, BrokenDown)) && Exclusive(env, Moved(w, h, Refused))
    ensures var x := w.handlings[h]; Exclusive(env, Moved(w, h, Inserting(Made(env, x.payload, x.uuid), 0)))
  {
    LessOwned(env, w, h, BrokenDown);
    LessOwned(env, w, h, Refused);
    LessOwned(env, w, h, Inserting(Made(env, w.handlings[h].payload, w.handlings[h].uuid), 0));
  }

  lemma NeverTooMany(env: Env, w: World, h: nat, made: seq<Row>, gated: seq<Row>)
    requires Exclusive(env, w) && h < |w.handlings| && w.handlings[h].phase == Gating(made, gated)
    ensures |gated| <= |made|
  {
    assert OnCourse(env, w.handlings[h]);
  }

  /** Any events that have just arrived, next to rows with distinct keys. */
  ghost predicate AtStart(w: World) {
    Unique(w.stored) && w.messages == [] && forall h :: 0 <= h < |w.handlings| ==> w.handlings[h].phase.Arrived?
  }

  lemma {:induction false} RunIsExclusive(env: Env, w: World, steps: seq<Step>)
    requires Exclusive(env, w)
    ensures Exclusive(env, Run(env, w, steps))
    decreases |steps|
  {
    if steps != [] {
      NextIsExclusive(env, w, steps[0]);
      RunIsExclusive(env, Next(env, w, steps[0]), steps[1..]);
    }
  }

  lemma StartIsExclusive(env: Env, w: World)
    requires AtStart(w)
    ensures Exclusive(env, w)
  {
  }

  /** However handlers interleave, the stored keys stay distinct. */
  lemma StoredKeysStayUnique(env: Env, w: World, steps: seq<Step>)
    requires AtStart(w)
    ensures Unique(Run(env, w, steps).stored)
  {
    StartIsExclusive(env, w);
    RunIsExclusive(env, w, steps);
  }

  // ---------------------------------------------------------------------------------------------
  // At most one of several handlings of an event
  // ---------------------------------------------------------------------------------------------

  lemma {:induction false} PayloadsStay(env: Env, w: World, steps: seq<Step>, h: nat)
    requires h < |w.handlings|
    ensures |Run(env, w, steps).handlings| == |w.handlings|
    ensures var x := Run(env, w, steps).handlings[h];
            x.payload == w.handlings[h].payload && x.uuid == w.handlings[h].uuid
    decreases |steps|
  {
    if steps != [] {
      PayloadStays(env, w, steps[0], h);
      PayloadsStay(env, Next(env, w, steps[0]), steps[1..], h);
    }
  }

  lemma PayloadStays(env: Env, w: World, step: Step, h: nat)
    requires h < |w.handlings|
    ensures |Next(env, w, step).handlings| == |w.handlings|
    ensures var x := Next(env, w, step).handlings[h];
            x.payload == w.handlings[h].payload && x.uuid == w.handlings[h].uuid
  {
  }

  /** The same payload makes rows of the same keys, whatever ids they get. */
  lemma {:induction false} MadeKeys(env: Env, p: Payload, u: User, cs: seq<Channel>, uuid1: nat -> nat,
                                    uuid2: nat -> nat, i: nat)
    ensures SameKeys(MadeFrom(env, p, u, cs, uuid1, i), MadeFrom(env, p, u, cs, uuid2, i))
    ensures Truthy(p.key) ==> forall k :: 0 <= k < |MadeFrom(env, p, u, cs, uuid1, i)| ==>
              MadeFrom(env, p, u, cs, uuid1, i)[k].key.Some?
    decreases |cs| - i
  {
    if i < |cs| {
      BuildSingleShape(env, p, u, cs[i], uuid1(i), uuid2(i));
      MadeKeys(env, p, u, cs, uuid1, uuid2, i + 1);
    }
  }

  lemma SharedKeysAreNotApart(a: seq<Row>, b: seq<Row>)
    requires SameKeys(a, b) && forall i :: 0 <= i < |a| ==> a[i].key.Some?
    ensures Apart(a, b) ==> a == b == []
  {
    if a != [] {
      assert a[0].key == b[0].key;
    }
  }

  /** Of any number of handlings of one keyed payload at most one stores rows. */
  lemma OneHandlingStores(env: Env, w: World, steps: seq<Step>, h: nat, g: nat)
    requires AtStart(w) && h < |w.handlings| && g < |w.handlings| && h != g
    requires w.handlings[h].payload == w.handlings[g].payload && Truthy(w.handlings[h].payload.key)
    ensures var w' := Run(env, w, steps);
            && |w'.handlings| == |w.handlings|
            && (w'.handlings[h].phase.Committed? && w'.handlings[g].phase.Committed? ==>
                  w'.handlings[h].phase.rows == w'.handlings[g].phase.rows == [])
  {
    hide Run;
    var w', p := Run(env, w, steps), w.handlings[h].payload;
    StartIsExclusive(env, w);
    RunIsExclusive(env, w, steps);
    PayloadsStay(env, w, steps, h);
    PayloadsStay(env, w, steps, g);
    var x, y := w'.handlings[h], w'.handlings[g];
    if x.phase.Committed? && y.phase.Committed? {
      assert OnCourse(env, x) && OnCourse(env, y);
      if Sound(env, p) {
        MadeKeys(env, p, env.users[p.userId.value], Targets(p), x.uuid, y.uuid, 0);
      }
      SharedKeysAreNotApart(x.phase.rows, y.phase.rows);
      assert Apart(Owned(x.phase), Owned(y.phase));
    }
  }

  // ---------------------------------------------------------------------------------------------
  // Messages
  // ---------------------------------------------------------------------------------------------

  /** A message comes from a row its handling has gated, unless the handling has broken down since. */
  ghost predicate TracedTo(ph: Phase, m: Message) {
    match ph
    case Gating(made, gated) => m.row < |gated| && m.row < |made| && m.key == made[m.row].key
    case Committed(rows) => m.row < |rows| && m.key == rows[m.row].key
    case BrokenDown => true
    case _ => false
  }

  ghost predicate Traced(w: World, m: Message) {
    m.handling < |w.handlings| && TracedTo(w.handlings[m.handling].phase, m)
  }

  ghost predicate MessagesTraced(w: World) {
    && (forall i :: 0 <= i < |w.messages| ==> Traced(w, w.messages[i]))
    && (forall i, j :: 0 <= i < j < |w.messages| && w.messages[i].key.Some? &&
                       w.messages[i].handling == w.messages[j].handling ==>
          w.messages[i].key != w.messages[j].key)
  }

  lemma NewMessageIsTraced(env: Env, w: World, h: nat, made: seq<Row>, gated: seq<Row>, row: Row)
    requires Exclusive(env, w) && MessagesTraced(w) && h < |w.handlings|
    requires w.handlings[h].phase == Gating(made, gated) && |gated| < |made| && row.key == made[|gated|].key
    ensures MessagesTraced(Moved(w, h, Gating(made, gated + [row]))
                             .(messages := w.messages + [Message(h, |gated|, row.key)]))
  {
    hide OnCourse, Apart, Taken;
    assert Unique(Owned(w.handlings[h].phase));
    forall i | 0 <= i < |w.messages| ensures Traced(w, w.messages[i]) {
    }
  }

  /** A move that keeps the traces of one handling's messages keeps all. */
  lemma MoveIsTraced(w: World, h: nat, ph: Phase, stored: seq<Row>)
    requires MessagesTraced(w) && h < |w.handlings|
    requires forall m :: TracedTo(w.handlings[h].phase, m) ==> TracedTo(ph, m)
    ensures MessagesTraced(Moved(w, h, ph).(stored := stored))
  {
    hide TracedTo;
    var w' := Moved(w, h, ph).(stored := stored);
    forall i | 0 <= i < |w'.messages| ensures Traced(w', w'.messages[i]) {
      assert Traced(w, w.messages[i]);
    }
  }

  lemma DecideIsTraced(env: Env, w: World, h: nat, v: Verdict)
    requires Exclusive(env, w) && MessagesTraced(w) && h < |w.handlings| && w.handlings[h].phase.Gating?
    ensures MessagesTraced(DoDecide(w, h, v))
  {
    hide Exclusive, MessagesTraced;
    var made, gated := w.handlings[h].phase.made, w.handlings[h].phase.gated;
    if |gated| < |made| {
      NewMessageIsTraced(env, w, h, made, gated, made[|gated|].(status := D.QUEUED));
      MoveIsTraced(w, h, BrokenDown, w.stored);
      forall r: Row ensures MessagesTraced(Moved(w, h, Gating(made, gated + [r]))) {
        MoveIsTraced(w, h, Gating(made, gated + [r]), w.stored);
      }
    }
  }

  lemma NextIsTraced(env: Env, w: World, step: Step)
    requires Exclusive(env, w) && MessagesTraced(w)
    ensures MessagesTraced(Next(env, w, step))
  {
    hide Exclusive, MessagesTraced, HeldElsewhere, Taken, Made, DoDecide;
    var h := step.handling;
    if h < |w.handlings| {
      match w.handlings[h].phase
      case Gating(made, gated) =>
        NeverTooMany(env, w, h, made, gated);
        MoveIsTraced(w, h, BrokenDown, w.stored);
        if step.Decide? {
          DecideIsTraced(env, w, h, step.verdict);
        } else if step.Commit? && |gated| == |made| {
          CommittedKeys(env, w, h, made, gated);
          MoveIsTraced(w, h, Committed(gated), w.stored + gated);
        }
      case Arrived =>
        forall ph: Phase ensures MessagesTraced(Moved(w, h, ph)) {
          MoveIsTraced(w, h, ph, w.stored);
        }
        NothingToDecide(w, h, step);
      case Inserting(_, _) =>
        forall ph: Phase ensures MessagesTraced(Moved(w, h, ph)) {
          MoveIsTraced(w, h, ph, w.stored);
        }
        NothingToDecide(w, h, step);
      case _ =>
        NothingToDecide(w, h, step);
    }
  }

  lemma NothingToDecide(w: World, h: nat, step: Step)
    requires h < |w.handlings| && !w.handlings[h].phase.Gating?
    ensures step.Decide? ==> DoDecide(w, h, step.verdict) == w
  {
  }

  lemma CommittedKeys(env: Env, w: World, h: nat, made: seq<Row>, gated: seq<Row>)
    requires Exclusive(env, w) && h < |w.handlings| && w.handlings[h].phase == Gating(made, gated)
    requires |gated| == |made|
    ensures SameKeys(gated, made)
  {
    GatedKeys(env, w.handlings[h], made, gated);
  }

  lemma {:induction false} RunIsTraced(env: Env, w: World, steps: seq<Step>)
    requires Exclusive(env, w) && MessagesTraced(w)
    ensures MessagesTraced(Run(env, w, steps))
    decreases |steps|
  {
    if steps != [] {
      NextIsExclusive(env, w, steps[0]);
      NextIsTraced(env, w, steps[0]);
      RunIsTraced(env, Next(env, w, steps[0]), steps[1..]);
    }
  }

  /** The rows a handling has gated and not lost. */
  function Gated(ph: Phase): seq<Row> {
    match ph
    case Gating(_, gated) => gated
    case Committed(rows) => rows
    case _ => []
  }

  /** A gated row is QUEUED iff its message is out. */
  ghost predicate QueuedIffSent(w: World) {
    forall h: nat, k: nat :: h < |w.handlings| && k < |Gated(w.handlings[h].phase)| ==>
      var r := Gated(w.handlings[h].phase)[k];
      (r.status == D.QUEUED <==> Message(h, k, r.key) in w.messages)
  }

  lemma NotSentYet(w: World, h: nat, made: seq<Row>, gated: seq<Row>, key: Option<string>)
    requires MessagesTraced(w) && h < |w.handlings| && w.handlings[h].phase == Gating(made, gated)
    ensures Message(h, |gated|, key) !in w.messages
  {
    forall i | 0 <= i < |w.messages| ensures w.messages[i] != Message(h, |gated|, key) {
      assert Traced(w, w.messages[i]);
    }
  }

  /** Gating one row more, with its message or without. */
  lemma OneMoreIsSent(w: World, h: nat, made: seq<Row>, gated: seq<Row>, row: Row)
    requires MessagesTraced(w) && QueuedIffSent(w) && h < |w.handlings| && w.handlings[h].phase == Gating(made, gated)
    ensures var sent := if row.status == D.QUEUED then [Message(h, |gated|, row.key)] else [];
            QueuedIffSent(Moved(w, h, Gating(made, gated + [row])).(messages := w.messages + sent))
  {
    var sent := if row.status == D.QUEUED then [Message(h, |gated|, row.key)] else [];
    var w' := Moved(w, h, Gating(made, gated + [row])).(messages := w.messages + sent);
    NotSentYet(w, h, made, gated, row.key);
    hide MessagesTraced;
    forall g: nat, k: nat | g < |w'.handlings| && k < |Gated(w'.handlings[g].phase)|
      ensures var r := Gated(w'.handlings[g].phase)[k];
              r.status == D.QUEUED <==> Message(g, k, r.key) in w'.messages
    {
      if g == h && k == |gated| {
        assert row.status == D.QUEUED ==> w'.messages[|w.messages|] == Message(h, k, row.key);
      } else {
        var r := Gated(w.handlings[g].phase)[k];
        assert Message(g, k, r.key) in w'.messages <==> Message(g, k, r.key) in w.messages;
      }
    }
  }

  lemma NextIsQueuedIffSent(env: Env, w: World, step: Step)
    requires Exclusive(env, w) && MessagesTraced(w) && QueuedIffSent(w)
    ensures QueuedIffSent(Next(env, w, step))
  {
    hide Exclusive, HeldElsewhere, Taken, Made, MessagesTraced;
    var h := step.handling;
    if h < |w.handlings| {
      match w.handlings[h].phase
      case Gating(made, gated) =>
        NeverTooMany(env, w, h, made, gated);
        if step.Decide? && |gated| < |made| {
          MadeIsNotQueued(env, w, h, made, |gated|);
          hide QueuedIffSent;
          OneMoreIsSent(w, h, made, gated, made[|gated|]);
          OneMoreIsSent(w, h, made, gated, made[|gated|].(status := D.QUEUED));
          OneMoreIsSent(w, h, made, gated, made[|gated|].(status := D.FAILED));
          if step.verdict.SkipFor? {
            OneMoreIsSent(w, h, made, gated, made[|gated|].(status := D.SKIPPED, reason := Some(step.verdict.reason)));
          }
          FewerIsSent(w, h, BrokenDown);
          assert w.messages + [] == w.messages;
        } else if step.Commit? && |gated| == |made| {
          hide QueuedIffSent;
          SameIsSent(w, h, Committed(gated), w.stored + gated);
        }
      case _ =>
    }
  }

  lemma SameIsSent(w: World, h: nat, ph: Phase, stored: seq<Row>)
    requires QueuedIffSent(w) && h < |w.handlings| && Gated(ph) == Gated(w.handlings[h].phase)
    ensures QueuedIffSent(Moved(w, h, ph).(stored := stored))
  {
    var w' := Moved(w, h, ph).(stored := stored);
    forall g: nat, k: nat | g < |w'.handlings| && k < |Gated(w'.handlings[g].phase)|
      ensures var r := Gated(w'.handlings[g].phase)[k];
              r.status == D.QUEUED <==> Message(g, k, r.key) in w'.messages
    {
      assert Gated(w.handlings[g].phase)[k] == Gated(w'.handlings[g].phase)[k];
    }
  }

  lemma FewerIsSent(w: World, h: nat, ph: Phase)
    requires QueuedIffSent(w) && h < |w.handlings| && Gated(ph) == []
    ensures QueuedIffSent(Moved(w, h, ph))
  {
  }

  lemma MadeIsNotQueued(env: Env, w: World, h: nat, made: seq<Row>, k: nat)
    requires Exclusive(env, w) && h < |w.handlings| && w.handlings[h].phase.Gating? && k < |made|
    requires w.handlings[h].phase.made == made
    ensures made[k].status in {D.PENDING, D.SKIPPED}
  {
    assert OnCourse(env, w.handlings[h]);
    var x := w.handlings[h];
    MadeStatuses(env, x.payload, env.users[x.payload.userId.value], Targets(x.payload), x.uuid, 0);
  }

  lemma {:induction false} MadeStatuses(env: Env, p: Payload, u: User, cs: seq<Channel>, uuid: nat -> nat, i: nat)
    ensures forall k :: 0 <= k < |MadeFrom(env, p, u, cs, uuid, i)| ==>
              MadeFrom(env, p, u, cs, uuid, i)[k].status in {D.PENDING, D.SKIPPED}
    decreases |cs| - i
  {
    if i < |cs| {
      BuildSingleShape(env, p, u, cs[i], uuid(i), uuid(i));
      MadeStatuses(env, p, u, cs, uuid, i + 1);
    }
  }

  lemma {:induction false} RunIsQueuedIffSent(env: Env, w: World, steps: seq<Step>)
    requires Exclusive(env, w) && MessagesTraced(w) && QueuedIffSent(w)
    ensures QueuedIffSent(Run(env, w, steps))
    decreases |steps|
  {
    if steps != [] {
      hide Exclusive, MessagesTraced, QueuedIffSent, Next;
      NextIsExclusive(env, w, steps[0]);
      NextIsTraced(env, w, steps[0]);
      NextIsQueuedIffSent(env, w, steps[0]);
      RunIsQueuedIffSent(env, Next(env, w, steps[0]), steps[1..]);
    }
  }

  /** However handlers interleave, a stored row of a handling is QUEUED iff its message was sent. */
  lemma StoredQueuedIffSent(env: Env, w: World, steps: seq<Step>, h: nat, k: nat)
    requires AtStart(w) && h < |Run(env, w, steps).handlings|
    requires var ph := Run(env, w, steps).handlings[h].phase; ph.Committed? && k < |ph.rows|
    ensures var w' := Run(env, w, steps);
            var r := w'.handlings[h].phase.rows[k];
            r.status == D.QUEUED <==> Message(h, k, r.key) in w'.messages
  {
    hide Run, Exclusive;
    StartIsExclusive(env, w);
    RunIsQueuedIffSent(env, w, steps);
    assert Gated(Run(env, w, steps).handlings[h].phase)[k] == Run(env, w, steps).handlings[h].phase.rows[k];
  }

  /** Two handlings that have sent for one key do not both own it. */
  lemma SharedKeyBreaks(w: World, a: Message, b: Message)
    requires Traced(w, a) && Traced(w, b) && a.key.Some? && a.key == b.key
    ensures var x, y := w.handlings[a.handling].phase, w.handlings[b.handling].phase;
            x.BrokenDown? || y.BrokenDown? || !Apart(Owned(x), Owned(y))
  {
    var x, y := w.handlings[a.handling].phase, w.handlings[b.handling].phase;
    if !x.BrokenDown? && !y.BrokenDown? {
      assert Owned(x)[a.row].key == a.key && Owned(y)[b.row].key == b.key;
    }
  }

  /** Two messages with one key come from two handlings, and one of these broke down after it had sent. */
  lemma SecondMessageTakesBreakdown(env: Env, w: World, steps: seq<Step>, i: nat, j: nat)
    requires AtStart(w) && i < j < |Run(env, w, steps).messages|
    requires var ms := Run(env, w, steps).messages; ms[i].key.Some? && ms[i].key == ms[j].key
    ensures var w' := Run(env, w, steps);
            var a, b := w'.messages[i].handling, w'.messages[j].handling;
            && a < |w'.handlings| && b < |w'.handlings| && a != b
            && (w'.handlings[a].phase.BrokenDown? || w'.handlings[b].phase.BrokenDown?)
  {
    hide Run;
    var w' := Run(env, w, steps);
    StartIsExclusive(env, w);
    RunIsExclusive(env, w, steps);
    RunIsTraced(env, w, steps);
    var a, b := w'.messages[i], w'.messages[j];
    assert Traced(w', a) && Traced(w', b);
    SharedKeyBreaks(w', a, b);
    assert Apart(Owned(w'.handlings[a.handling].phase), Owned(w'.handlings[b.handling].phase));
  }

  /** A handling that lost the race to a key has sent nothing. */
  lemma RefusedHasSentNothing(env: Env, w: World, steps: seq<Step>, i: nat)
    requires AtStart(w) && i < |Run(env, w, steps).messages|
    ensures var w' := Run(env, w, steps);
            var h := w'.messages[i].handling; h < |w'.handlings| && !w'.handlings[h].phase.Refused?
  {
    hide Run;
    StartIsExclusive(env, w);
    RunIsExclusive(env, w, steps);
    RunIsTraced(env, w, steps);
    assert Traced(Run(env, w, steps), Run(env, w, steps).messages[i]);
  }

  // ---------------------------------------------------------------------------------------------
  // The order of commits is an order of handlings one at a time
  // ---------------------------------------------------------------------------------------------

  /** Each row's key is free when it comes to it. */
  ghost predicate Fresh(stored: seq<Row>, rows: seq<Row>) {
    forall k :: 0 <= k < |rows| ==> !Taken(stored + rows[..k], rows[k].key)
  }

  /** The factory's loop goes through iff the keys of the rows it makes are free. */
  lemma {:induction false} BuildIffFresh(env: Env, p: Payload, u: User, cs: seq<Channel>, uuid: nat -> nat,
                                         stored: seq<Row>, i: nat)
    ensures var made := MadeFrom(env, p, u, cs, uuid, i);
            && (Fresh(stored, made) ==> BuildFrom(env, p, u, cs, uuid, stored, i) == Some(made))
            && (!Fresh(stored, made) ==> BuildFrom(env, p, u, cs, uuid, stored, i) == None)
    decreases |cs| - i
  {
    if i >= |cs| {
      assert Fresh(stored, []);
    } else {
      var built := BuildSingle(env, p, u, cs[i], uuid(i));
      hide Fresh, Taken, BuildSingle;
      if built == None {
        BuildIffFresh(env, p, u, cs, uuid, stored, i + 1);
        assert MadeFrom(env, p, u, cs, uuid, i) == MadeFrom(env, p, u, cs, uuid, i + 1);
      } else {
        BuildIffFresh(env, p, u, cs, uuid, stored + [built.value], i + 1);
        FreshAfterFirst(stored, built.value, MadeFrom(env, p, u, cs, uuid, i + 1));
      }
    }
  }

  lemma FreshAfterFirst(stored: seq<Row>, r: Row, rest: seq<Row>)
    ensures Fresh(stored, [r] + rest) <==> !Taken(stored, r.key) && Fresh(stored + [r], rest)
  {
    hide Taken;
    var all := [r] + rest;
    assert all[0] == r && stored + all[..0] == stored;
    forall k | 0 <= k < |rest|
      ensures stored + all[..k + 1] == stored + [r] + rest[..k] && all[k + 1] == rest[k]
    {
    }
    if Fresh(stored, all) {
      assert !Taken(stored + all[..0], all[0].key);
      forall k | 0 <= k < |rest| ensures !Taken(stored + [r] + rest[..k], rest[k].key) {
        assert !Taken(stored + all[..k + 1], all[k + 1].key);
      }
    }
    if !Taken(stored, r.key) && Fresh(stored + [r], rest) {
      forall k | 0 <= k < |all| ensures !Taken(stored + all[..k], all[k].key) {
        if k > 0 {
          assert stored + all[..k - 1 + 1] == stored + [r] + rest[..k - 1] && all[k - 1 + 1] == rest[k - 1];
        }
      }
    }
  }

  lemma ApartIsFresh(stored: seq<Row>, rows: seq<Row>)
    requires Unique(rows) && Apart(rows, stored)
    ensures Fresh(stored, rows)
  {
    forall k | 0 <= k < |rows| ensures !Taken(stored + rows[..k], rows[k].key) {
      TakenPlus(stored, rows[..k], rows[k].key);
    }
  }

  /**
   What a handling has inserted in the midst of others is what the factory would build if the event were handled
   alone at the commit; so the handlings that commit can be taken one at a time in the order of their commits.
   */
  lemma CommitIsSerial(env: Env, w: World, steps: seq<Step>, h: nat)
    requires AtStart(w) && h < |Run(env, w, steps).handlings| && Run(env, w, steps).handlings[h].phase.Gating?
    ensures var w' := Run(env, w, steps);
            var x, p := w'.handlings[h], w'.handlings[h].payload;
            && (x.phase.made == [] || Sound(env, p))
            && (Sound(env, p) ==> BuildFrom(env, p, env.users[p.userId.value], Targets(p), x.uuid, w'.stored, 0) ==
                                  Some(x.phase.made))
  {
    hide Run;
    var w' := Run(env, w, steps);
    var x, p := w'.handlings[h], w'.handlings[h].payload;
    StartIsExclusive(env, w);
    RunIsExclusive(env, w, steps);
    assert OnCourse(env, x);
    assert Unique(Owned(x.phase)) && Apart(Owned(x.phase), w'.stored);
    ApartIsFresh(w'.stored, x.phase.made);
    if Sound(env, p) {
      BuildIffFresh(env, p, env.users[p.userId.value], Targets(p), x.uuid, w'.stored, 0);
    }
  }

  /** And one that is refused at an insert would be refused alone. */
  lemma RefusalIsSerial(env: Env, w: World, steps: seq<Step>, h: nat)
    requires AtStart(w) && h < |Run(env, w, steps).handlings| && Run(env, w, steps).handlings[h].phase.Inserting?
    requires DoInsert(Run(env, w, steps), h).handlings[h].phase == Refused
    ensures var w' := Run(env, w, steps);
            var x, p := w'.handlings[h], w'.handlings[h].payload;
            Sound(env, p) && BuildFrom(env, p, env.users[p.userId.value], Targets(p), x.uuid, w'.stored, 0) == None
  {
    hide Run;
    var w' := Run(env, w, steps);
    var x, p := w'.handlings[h], w'.handlings[h].payload;
    StartIsExclusive(env, w);
    RunIsExclusive(env, w, steps);
    assert OnCourse(env, x);
    var made, n := x.phase.made, x.phase.inserted;
    assert Taken(w'.stored + made[..n], made[n].key);
    BuildIffFresh(env, p, env.users[p.userId.value], Targets(p), x.uuid, w'.stored, 0);
  }

  // ---------------------------------------------------------------------------------------------
  // The one who waits
  // ---------------------------------------------------------------------------------------------

  /** The next key is held by another handling that has gated all its rows. */
  ghost predicate WaitsFor(w: World, h: nat, g: nat) {
    && h < |w.handlings| && g < |w.handlings| && h != g
    && w.handlings[h].phase.Inserting? && w.handlings[h].phase.inserted < |w.handlings[h].phase.made|
    && w.handlings[g].phase.Gating? && |w.handlings[g].phase.gated| == |w.handlings[g].phase.made|
    && w.handlings[h].phase.made[w.handlings[h].phase.inserted].key.Some?
    && Taken(w.handlings[g].phase.made, w.handlings[h].phase.made[w.handlings[h].phase.inserted].key)
  }

  lemma TakenBySameKeys(a: seq<Row>, b: seq<Row>, key: Option<string>)
    requires SameKeys(a, b) && Taken(a, key)
    ensures Taken(b, key)
  {
    var i :| 0 <= i < |a| && a[i].key == key;
    assert b[i].key == key;
  }

  lemma WaiterIsRefused(env: Env, w: World, h: nat, g: nat)
    requires Exclusive(env, w) && WaitsFor(w, h, g)
    ensures DoInsert(DoCommit(w, g), h).handlings[h].phase == Refused
  {
    hide Exclusive, Taken, HeldElsewhere;
    var made, n := w.handlings[h].phase.made, w.handlings[h].phase.inserted;
    var theirs, gated := w.handlings[g].phase.made, w.handlings[g].phase.gated;
    CommittedKeys(env, w, g, theirs, gated);
    TakenBySameKeys(theirs, gated, made[n].key);
    TakenPlus(w.stored, gated, made[n].key);
    TakenPlus(w.stored + gated, made[..n], made[n].key);
  }

  lemma TakenElsewhere(rows: seq<Row>, others: seq<Row>, key: Option<string>)
    requires Taken(rows, key) && Apart(rows, others)
    ensures !Taken(others, key)
  {
  }

  /** Nobody else holds a key that g holds, and it is not stored. */
  lemma HeldByOne(env: Env, w: World, h: nat, g: nat)
    requires Exclusive(env, w) && WaitsFor(w, h, g)
    ensures var x := w.handlings[h].phase;
            !Taken(w.stored, x.made[x.inserted].key) && !Taken(x.made[..x.inserted], x.made[x.inserted].key) &&
            forall f :: 0 <= f < |w.handlings| && f != g ==>
              !Taken(Owned(w.handlings[f].phase), x.made[x.inserted].key)
  {
    hide OnCourse, Taken, Unique, Apart;
    var x, theirs := w.handlings[h].phase, w.handlings[g].phase.made;
    assert OnCourse(env, w.handlings[h]);
    KeepsWithin(env, w.handlings[h]);
    assert Apart(Owned(w.handlings[g].phase), w.stored);
    TakenElsewhere(theirs, w.stored, x.made[x.inserted].key);
    forall f | 0 <= f < |w.handlings| && f != g
      ensures !Taken(Owned(w.handlings[f].phase), x.made[x.inserted].key)
    {
      TakenElsewhere(theirs, Owned(w.handlings[f].phase), x.made[x.inserted].key);
    }
    assert Owned(x) == x.made[..x.inserted];
  }

  lemma KeepsWithin(env: Env, x: Handling)
    requires OnCourse(env, x) && x.phase.Inserting?
    ensures x.phase.inserted <= |x.phase.made|
  {
  }

  lemma WaiterGoesOn(env: Env, w: World, h: nat, g: nat)
    requires Exclusive(env, w) && WaitsFor(w, h, g)
    ensures DoInsert(Moved(w, g, BrokenDown), h).handlings[h].phase ==
            w.handlings[h].phase.(inserted := w.handlings[h].phase.inserted + 1)
  {
    hide Exclusive, Taken;
    var x := w.handlings[h].phase;
    HeldByOne(env, w, h, g);
    TakenPlus(w.stored, x.made[..x.inserted], x.made[x.inserted].key);
    assert !HeldElsewhere(Moved(w, g, BrokenDown), h, x.made[x.inserted].key);
  }

  lemma WaiterWaits(env: Env, w: World, h: nat, g: nat)
    requires Exclusive(env, w) && WaitsFor(w, h, g)
    ensures DoInsert(w, h) == w
  {
    hide Exclusive, Taken;
    var x := w.handlings[h].phase;
    HeldByOne(env, w, h, g);
    TakenPlus(w.stored, x.made[..x.inserted], x.made[x.inserted].key);
    assert Taken(Owned(w.handlings[g].phase), x.made[x.inserted].key);
  }

  predicate PhaseIs(w: World, h: nat, ph: Phase) {
    h < |w.handlings| && w.handlings[h].phase == ph
  }

  /** It can do nothing, is refused once the other has committed, and goes on once the other has broken down. */
  lemma WaiterFollows(env: Env, w: World, h: nat, g: nat)
    requires Exclusive(env, w) && WaitsFor(w, h, g)
    ensures Next(env, w, Insert(h)) == w
    ensures PhaseIs(Next(env, Next(env, w, Commit(g)), Insert(h)), h, Refused)
    ensures var x := w.handlings[h].phase;
            PhaseIs(Next(env, Next(env, w, BreakDown(g)), Insert(h)), h, x.(inserted := x.inserted + 1))
  {
    hide Exclusive, DoInsert, DoCommit;
    WaiterWaits(env, w, h, g);
    WaiterIsRefused(env, w, h, g);
    WaiterGoesOn(env, w, h, g);
    CountStays(w, g);
    CountStays(DoCommit(w, g), h);
    CountStays(Moved(w, g, BrokenDown), h);
  }

  lemma CountStays(w: World, g: nat)
    requires g < |w.handlings|
    ensures |DoCommit(w, g).handlings| == |DoInsert(w, g).handlings| == |w.handlings|
  {
  }

  // ---------------------------------------------------------------------------------------------
  // Alone, these steps are the handler
  // ---------------------------------------------------------------------------------------------

  /** One handling and nobody else. */
  ghost predicate Alone(w: World, stored: seq<Row>, p: Payload, uuid: nat -> nat, ph: Phase) {
    w.stored == stored && w.handlings == [Handling(p, uuid, ph)]
  }

  function Inserts(n: nat): seq<Step> {
    if n == 0 then [] else [Insert(0)] + Inserts(n - 1)
  }

  lemma {:induction false} RunConcat(env: Env, w: World, a: seq<Step>, b: seq<Step>)
    ensures Run(env, w, a + b) == Run(env, Run(env, w, a), b)
    decreases |a|
  {
    if a == [] {
      assert a + b == b;
    } else {
      assert (a + b)[1..] == a[1..] + b;
      RunConcat(env, Next(env, w, a[0]), a[1..], b);
    }
  }

  lemma RunFirst(env: Env, w: World, step: Step, rest: seq<Step>)
    ensures Run(env, w, [step] + rest) == Run(env, Next(env, w, step), rest)
  {
    assert ([step] + rest)[1..] == rest;
  }

  /** The inserts go through iff the keys are free. */
  lemma {:induction false} InsertsAlone(env: Env, w: World, stored: seq<Row>, p: Payload, uuid: nat -> nat,
                                        made: seq<Row>, n: nat)
    requires n <= |made| && Alone(w, stored, p, uuid, Inserting(made, n))
    requires forall k :: 0 <= k < n ==> !Taken(stored + made[..k], made[k].key)
    ensures var w' := Run(env, w, Inserts(|made| - n + 1));
            Alone(w', stored, p, uuid, if Fresh(stored, made) then Gating(made, []) else Refused)
    decreases |made| - n
  {
    hide Taken, Run, HeldElsewhere, Fresh;
    RunFirst(env, w, Insert(0), Inserts(|made| - n));
    NobodyElseHolds(w, stored, p, uuid, made, n);
    var w1 := Next(env, w, Insert(0));
    if n == |made| {
      AllFree(stored, made);
      NoSteps(env, w1);
    } else if Taken(stored + made[..n], made[n].key) {
      NotFree(stored, made, n);
      RefusedStays(env, w1, stored, p, uuid, |made| - n);
    } else {
      InsertsAlone(env, w1, stored, p, uuid, made, n + 1);
    }
  }

  lemma NobodyElseHolds(w: World, stored: seq<Row>, p: Payload, uuid: nat -> nat, made: seq<Row>, n: nat)
    requires Alone(w, stored, p, uuid, Inserting(made, n))
    ensures n < |made| ==> !HeldElsewhere(w, 0, made[n].key)
  {
  }

  lemma NoSteps(env: Env, w: World)
    ensures Run(env, w, Inserts(0)) == w
  {
  }

  lemma AllFree(stored: seq<Row>, made: seq<Row>)
    requires forall k :: 0 <= k < |made| ==> !Taken(stored + made[..k], made[k].key)
    ensures Fresh(stored, made)
  {
  }

  lemma NotFree(stored: seq<Row>, made: seq<Row>, n: nat)
    requires n < |made| && Taken(stored + made[..n], made[n].key)
    ensures !Fresh(stored, made)
  {
  }

  lemma {:induction false} RefusedStays(env: Env, w: World, stored: seq<Row>, p: Payload, uuid: nat -> nat, n: nat)
    requires Alone(w, stored, p, uuid, Refused)
    ensures Alone(Run(env, w, Inserts(n)), stored, p, uuid, Refused)
  {
    if n > 0 {
      RunFirst(env, w, Insert(0), Inserts(n - 1));
      RefusedStays(env, Next(env, w, Insert(0)), stored, p, uuid, n - 1);
    }
  }

  lemma RunNothing(env: Env, w: World)
    ensures Run(env, w, []) == w
  {
  }

  /** What the gate decides on row i and up, one after the other, until it raises. */
  function Decisions(env: Env, side: Side, p: Payload, rows: seq<Row>, now: int, i: nat): seq<Step>
    decreases |rows| - i
  {
    if i >= |rows| then []
    else
      var (row, side') := Dispatch(env, side, p, rows[i], now, NoFault, i);
      [Decide(0, Gate(env, side, p, rows[i], now))] +
      (if row == None then [] else Decisions(env, side', p, rows, now, i + 1))
  }

  /** One decision is one row through the gate. */
  lemma DecideIsDispatch(env: Env, w: World, stored: seq<Row>, p: Payload, uuid: nat -> nat, made: seq<Row>,
                         gated: seq<Row>, side: Side, now: int)
    requires Alone(w, stored, p, uuid, Gating(made, gated)) && |gated| < |made|
    ensures var i := |gated|;
            var w' := Next(env, w, Decide(0, Gate(env, side, p, made[i], now)));
            var row := Dispatch(env, side, p, made[i], now, NoFault, i).0;
            Alone(w', stored, p, uuid, if row == None then BrokenDown else Gating(made, gated + [row.value]))
  {
    hide Gate, DndAfter, Counted;
  }

  lemma {:induction false} DecisionsAlone(env: Env, w: World, stored: seq<Row>, p: Payload, uuid: nat -> nat,
                                          made: seq<Row>, gated: seq<Row>, side: Side, now: int)
    requires Alone(w, stored, p, uuid, Gating(made, gated)) && |gated| <= |made|
    ensures var rest := DispatchFrom(env, side, p, made, now, NoFault, |gated|).0;
            var w' := Run(env, w, Decisions(env, side, p, made, now, |gated|));
            Alone(w', stored, p, uuid, if rest == None then BrokenDown else Gating(made, gated + rest.value))
    decreases |made| - |gated|
  {
    hide Next, Gate, Dispatch, Alone, Run;
    var i := |gated|;
    if i == |made| {
      assert gated + [] == gated;
      RunNothing(env, w);
    } else {
      var (row, side') := Dispatch(env, side, p, made[i], now, NoFault, i);
      var step := Decide(0, Gate(env, side, p, made[i], now));
      DecideIsDispatch(env, w, stored, p, uuid, made, gated, side, now);
      if row == None {
        RunFirst(env, w, step, []);
        RunNothing(env, Next(env, w, step));
        assert [step] + [] == [step];
      } else {
        RunFirst(env, w, step, Decisions(env, side', p, made, now, i + 1));
        DecisionsAlone(env, Next(env, w, step), stored, p, uuid, made, gated + [row.value], side', now);
        var rest := DispatchFrom(env, side', p, made, now, NoFault, i + 1).0;
        if rest.Some? {
          assert gated + [row.value] + rest.value == gated + ([row.value] + rest.value);
        }
      }
    }
  }

  /** Checked, inserted and refused or ready to be gated, as the factory builds or does not. */
  lemma ArrivalAlone(env: Env, w: World, stored: seq<Row>, p: Payload, uuid: nat -> nat)
    requires Alone(w, stored, p, uuid, Arrived)
    ensures var w' := Run(env, w, [Check(0)] + Inserts(|Made(env, p, uuid)| + 1));
            var built := Build(env, stored, p, uuid);
            Alone(w', stored, p, uuid, if built == None then Refused else Gating(built.value, []))
  {
    hide Run, Inserts, BuildFrom, Taken, Fresh, Made;
    var made := Made(env, p, uuid);
    RunFirst(env, w, Check(0), Inserts(|made| + 1));
    var w1 := Next(env, w, Check(0));
    if w1.handlings[0].phase == Refused {
      RefusedStays(env, w1, stored, p, uuid, |made| + 1);
    } else {
      InsertsAlone(env, w1, stored, p, uuid, made, 0);
      MadeIsMadeFrom(env, p, uuid);
      BuildIffFresh(env, p, env.users[p.userId.value], Targets(p), uuid, stored, 0);
    }
  }

  lemma MadeIsMadeFrom(env: Env, p: Payload, uuid: nat -> nat)
    requires Sound(env, p)
    ensures Made(env, p, uuid) == MadeFrom(env, p, env.users[p.userId.value], Targets(p), uuid, 0)
  {
  }

  lemma CommitAlone(env: Env, w: World, stored: seq<Row>, p: Payload, uuid: nat -> nat, made: seq<Row>,
                    gated: seq<Row>)
    requires |gated| == |made| && Alone(w, stored, p, uuid, Gating(made, gated))
    ensures Run(env, w, [Commit(0)]).stored == stored + gated
  {
    RunFirst(env, w, Commit(0), []);
  }

  lemma {:induction false} DispatchedLength(env: Env, side: Side, p: Payload, rows: seq<Row>, now: int, i: nat)
    ensures var gated := DispatchFrom(env, side, p, rows, now, NoFault, i).0;
            gated.Some? && i <= |rows| ==> |gated.value| == |rows| - i
    decreases |rows| - i
  {
    hide Dispatch;
    if i < |rows| {
      DispatchedLength(env, Dispatch(env, side, p, rows[i], now, NoFault, i).1, p, rows, now, i + 1);
    }
  }

  /** With nobody in between, these steps store what the handler stores. */
  lemma AloneIsHandle(env: Env, sys: Sys, p: Payload, now: int, uuid: nat -> nat) returns (steps: seq<Step>)
    ensures Run(env, World(sys.rows, [Handling(p, uuid, Arrived)], []), steps).stored ==
            Handle(env, sys, p, now, uuid, NoFault).rows
  {
    hide Run, Inserts, Build, DispatchFrom, Decisions;
    var w, built := World(sys.rows, [Handling(p, uuid, Arrived)], []), Build(env, sys.rows, p, uuid);
    ArrivalAlone(env, w, sys.rows, p, uuid);
    steps := [Check(0)] + Inserts(|Made(env, p, uuid)| + 1);
    if built.Some? {
      var made := built.value;
      var w1, rest := Run(env, w, steps), Decisions(env, sys.side, p, made, now, 0);
      var gated := DispatchFrom(env, sys.side, p, made, now, NoFault, 0).0;
      DecisionsAlone(env, w1, sys.rows, p, uuid, made, [], sys.side, now);
      RunConcat(env, w, steps, rest);
      steps := steps + rest;
      if gated.Some? {
        assert [] + gated.value == gated.value;
        DispatchedLength(env, sys.side, p, made, now, 0);
        CommitAlone(env, Run(env, w, steps), sys.rows, p, uuid, made, gated.value);
        RunConcat(env, w, steps, [Commit(0)]);
        steps := steps + [Commit(0)];
      }
    }
  }
}
