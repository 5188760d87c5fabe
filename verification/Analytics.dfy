/**
 The daily fold (app/services/analytics_service.py): rows grouped by event, channel, status and skip reason are
 added up per event and channel, and written over or next to the records stored for that day.
 */
module Analytics {
  import opened Wrappers
  import opened Counting
  import EH = EventHandler
  import D = Delivery

  type Key = (string, EH.Channel)

  /** The four columns a notification is grouped by; one notification counts as one of these. */
  datatype Group = Group(event: string, channel: EH.Channel, status: D.Status, reason: Option<EH.SkipReason>)

  /** One row of the grouped query; latency is its average in milliseconds, if any was sent. */
  datatype GroupRow = GroupRow(group: Group, count: nat, latency: Option<real>)

  datatype Field =
    | TotalSent | TotalDelivered | TotalFailed | TotalSkipped | TotalRetried | TotalDead
    | SkipDnd | SkipQuietHours | SkipFrequencyCap | SkipUserOptOut

  datatype Counters = Counters(
    sent: nat, delivered: nat, failed: nat, skipped: nat, retried: nat, dead: nat,
    skipDnd: nat, skipQuietHours: nat, skipFrequencyCap: nat, skipUserOptOut: nat,
    latency: real)
  {
    function Get(f: Field): nat {
      match f
      case TotalSent => sent
      case TotalDelivered => delivered
      case TotalFailed => failed
      case TotalSkipped => skipped
      case TotalRetried => retried
      case TotalDead => dead
      case SkipDnd => skipDnd
      case SkipQuietHours => skipQuietHours
      case SkipFrequencyCap => skipFrequencyCap
      case SkipUserOptOut => skipUserOptOut
    }
  }

  const ZERO := Counters(0, 0, 0, 0, 0, 0, 0, 0, 0, 0, 0.0)

  function KeyOf(g: Group): Key {
    (g.event, g.channel)
  }

  function AddCount(c: Counters, row: GroupRow): Counters {
    var n := row.count;
    match row.group.status
    case SENT => c.(sent := c.sent + n)
    case DELIVERED => c.(delivered := c.delivered + n, sent := c.sent + n)
    case FAILED => c.(failed := c.failed + n)
    case SKIPPED =>
      var c1 := c.(skipped := c.skipped + n);
      (match row.group.reason
       case Some(DND_REGISTERED) => c1.(skipDnd := c1.skipDnd + n)
       case Some(QUIET_HOURS) => c1.(skipQuietHours := c1.skipQuietHours + n)
       case Some(FREQUENCY_CAPPED) => c1.(skipFrequencyCap := c1.skipFrequencyCap + n)
       case Some(USER_OPT_OUT) => c1.(skipUserOptOut := c1.skipUserOptOut + n)
       case _ => c1)
    case RETRYING => c.(retried := c.retried + n)
    case DEAD => c.(dead := c.dead + n)
    case _ => c
  }

  /** A zero average is as good as none; the last row with one wins. */
  function AddRow(c: Counters, row: GroupRow): Counters {
    var c1 := AddCount(c, row);
    if row.latency.Some? && row.latency.value != 0.0 then c1.(latency := row.latency.value) else c1
  }

  function Fold(rows: seq<GroupRow>): map<Key, Counters> {
    if rows == [] then map[]
    else
      var m, row := Fold(rows[..|rows| - 1]), rows[|rows| - 1];
      var k := KeyOf(row.group);
      m[k := AddRow(if k in m then m[k] else ZERO, row)]
  }

  /** The keys in the order in which the dictionary first saw them. */
  function KeyOrder(rows: seq<GroupRow>): seq<Key> {
    if rows == [] then []
    else
      var ks, k := KeyOrder(rows[..|rows| - 1]), KeyOf(rows[|rows| - 1].group);
      if k in ks then ks else ks + [k]
  }

  /** The delivery rate before rounding. */
  function Rate(c: Counters): Option<real> {
    var total := c.sent + c.failed + c.skipped;
    if total > 0 then Some((c.delivered as real) / (total as real) * 100.0) else None
  }

  datatype Record = Record(date: int, key: Key, counters: Counters, rate: Option<real>, opens: nat, clicks: nat)

  function Find(records: seq<Record>, date: int, k: Key): (i: nat)
    ensures i <= |records|
    ensures i < |records| ==> records[i].date == date && records[i].key == k
    ensures forall j :: 0 <= j < i ==> !(records[j].date == date && records[j].key == k)
  {
    if records == [] then 0
    else
      var i := Find(records[..|records| - 1], date, k);
      if i < |records| - 1 ||
          (records[|records| - 1].date == date && records[|records| - 1].key == k) then i else |records|
  }

  /** An existing record keeps what the fold does not compute. */
  function Upsert(records: seq<Record>, date: int, k: Key, c: Counters): seq<Record> {
    var i := Find(records, date, k);
    if i < |records| then records[i := records[i].(counters := c, rate := Rate(c))]
    else records + [Record(date, k, c, Rate(c), 0, 0)]
  }

  function UpsertAll(records: seq<Record>, date: int, ks: seq<Key>, m: map<Key, Counters>): seq<Record>
    requires forall k :: k in ks ==> k in m
  {
    if ks == [] then records
    else Upsert(UpsertAll(records, date, ks[..|ks| - 1], m), date, ks[|ks| - 1], m[ks[|ks| - 1]])
  }

  lemma {:induction false} FoldKeys(rows: seq<GroupRow>, k: Key)
    ensures k in Fold(rows) <==> exists i :: 0 <= i < |rows| && KeyOf(rows[i].group) == k
    ensures k in KeyOrder(rows) <==> k in Fold(rows)
    ensures forall i, j :: 0 <= i < j < |KeyOrder(rows)| ==> KeyOrder(rows)[i] != KeyOrder(rows)[j]
  {
    if rows != [] {
      var init := rows[..|rows| - 1];
      FoldKeys(init, k);
      FoldKeys(init, KeyOf(rows[|rows| - 1].group));
      if k in Fold(rows) && k != KeyOf(rows[|rows| - 1].group) {
        var i :| 0 <= i < |init| && KeyOf(init[i].group) == k;
        assert rows[i] == init[i];
      }
    }
  }

  lemma OrderInFold(rows: seq<GroupRow>)
    ensures forall k :: k in KeyOrder(rows) ==> k in Fold(rows)
  {
    forall k | k in KeyOrder(rows) ensures k in Fold(rows) {
      FoldKeys(rows, k);
    }
  }

  class AnalyticsService {
    var records: seq<Record>

    constructor ()
      ensures records == []
    {
      records := [];
    }

    method Aggregate(rows: seq<GroupRow>) returns (aggregates: map<Key, Counters>, order: seq<Key>)
      ensures aggregates == Fold(rows) && order == KeyOrder(rows)
    {
      aggregates, order := map[], [];
      for i := 0 to |rows|
        invariant aggregates == Fold(rows[..i]) && order == KeyOrder(rows[..i])
      {
        assert rows[..i + 1][..i] == rows[..i];
        var row := rows[i];
        var k := (row.group.event, row.group.channel);
        FoldKeys(rows[..i], k);
        if k !in aggregates {
          aggregates := aggregates[k := ZERO];
          order := order + [k];
        }
        var agg := AddCount(aggregates[k], row);
        if row.latency.Some? && row.latency.value != 0.0 {
          agg := agg.(latency := row.latency.value);
        }
        aggregates := aggregates[k := agg];
      }
      assert rows[..|rows|] == rows;
    }

    method UpsertRecord(date: int, k: Key, data: Counters)
      modifies this
      ensures records == Upsert(old(records), date, k, data)
    {
      var total := data.sent + data.failed + data.skipped;
      var rate := if total > 0 then Some((data.delivered as real) / (total as real) * 100.0) else None;
      var at := Find(records, date, k);
      if at < |records| {
        records := records[at := records[at].(counters := data, rate := rate)];
      } else {
        records := records + [Record(date, k, data, rate, 0, 0)];
      }
    }

    method UpsertDailyAggregates(date: int, rows: seq<GroupRow>)
      modifies this
      ensures forall k :: k in KeyOrder(rows) ==> k in Fold(rows)
      ensures records == UpsertAll(old(records), date, KeyOrder(rows), Fold(rows))
    {
      hide Fold, KeyOrder, Upsert;
      var aggregates, order := Aggregate(rows);
      OrderInFold(rows);
      for i := 0 to |order|
        invariant order == KeyOrder(rows) && aggregates == Fold(rows)
        invariant forall k :: k in order[..i] ==> k in aggregates
        invariant records == UpsertAll(old(records), date, order[..i], aggregates)
      {
        assert order[..i + 1][..i] == order[..i];
        UpsertRecord(date, order[i], aggregates[order[i]]);
      }
      assert order[..|order|] == order;
    }
  }

  // ---------------------------------------------------------------------------------------------
  // The fold against counting one by one
  // ---------------------------------------------------------------------------------------------

  /** Whether a notification with these columns is counted in this field of this key. */
  function CountedAs(k: Key, f: Field): Group -> bool {
    (g: Group) =>
      KeyOf(g) == k &&
      match f
      case TotalSent => g.status == D.SENT || g.status == D.DELIVERED
      case TotalDelivered => g.status == D.DELIVERED
      case TotalFailed => g.status == D.FAILED
      case TotalSkipped => g.status == D.SKIPPED
      case TotalRetried => g.status == D.RETRYING
      case TotalDead => g.status == D.DEAD
      case SkipDnd => g.status == D.SKIPPED && g.reason == Some(EH.DND_REGISTERED)
      case SkipQuietHours => g.status == D.SKIPPED && g.reason == Some(EH.QUIET_HOURS)
      case SkipFrequencyCap => g.status == D.SKIPPED && g.reason == Some(EH.FREQUENCY_CAPPED)
      case SkipUserOptOut => g.status == D.SKIPPED && g.reason == Some(EH.USER_OPT_OUT)
  }

  function SumIf(rows: seq<GroupRow>, p: Group -> bool): nat {
    if rows == [] then 0
    else SumIf(rows[..|rows| - 1], p) + (if p(rows[|rows| - 1].group) then rows[|rows| - 1].count else 0)
  }

  lemma AddRowGet(c: Counters, row: GroupRow, f: Field)
    ensures AddRow(c, row).Get(f) == c.Get(f) + (if CountedAs(KeyOf(row.group), f)(row.group) then row.count else 0)
  {
  }

  lemma {:induction false} FoldSums(rows: seq<GroupRow>, k: Key, f: Field)
    ensures (if k in Fold(rows) then Fold(rows)[k].Get(f) else 0) == SumIf(rows, CountedAs(k, f))
  {
    if rows != [] {
      var init, row := rows[..|rows| - 1], rows[|rows| - 1];
      FoldSums(init, k, f);
      AddRowGet(if k in Fold(init) then Fold(init)[k] else ZERO, row, f);
    }
  }

  function Is(g: Group): Group -> bool {
    (h: Group) => h == g
  }

  /** rows is a result of grouping these notifications, in any order. */
  ghost predicate IsGrouping(rows: seq<GroupRow>, ns: seq<Group>) {
    && (forall i, j :: 0 <= i < j < |rows| ==> rows[i].group != rows[j].group)
    && (forall i :: 0 <= i < |rows| ==> rows[i].count == CountIf(ns, Is(rows[i].group)) && rows[i].count > 0)
    && (forall n :: 0 <= n < |ns| ==> exists i :: 0 <= i < |rows| && rows[i].group == ns[n])
  }

  /** A notification that meets p and has its group among the rows. */
  function Among(rows: seq<GroupRow>, p: Group -> bool): Group -> bool {
    (g: Group) => p(g) && exists i :: 0 <= i < |rows| && rows[i].group == g
  }

  lemma {:induction false} CountIfSplit<T>(s: seq<T>, p: T -> bool, q: T -> bool, r: T -> bool)
    requires forall i :: 0 <= i < |s| ==> (p(s[i]) <==> q(s[i]) || r(s[i])) && !(q(s[i]) && r(s[i]))
    ensures CountIf(s, p) == CountIf(s, q) + CountIf(s, r)
  {
    if s != [] {
      CountIfSplit(s[..|s| - 1], p, q, r);
    }
  }

  lemma {:induction false} PartialSums(rows: seq<GroupRow>, ns: seq<Group>, p: Group -> bool)
    requires forall i, j :: 0 <= i < j < |rows| ==> rows[i].group != rows[j].group
    requires forall i :: 0 <= i < |rows| ==> rows[i].count == CountIf(ns, Is(rows[i].group))
    ensures SumIf(rows, p) == CountIf(ns, Among(rows, p))
  {
    if rows == [] {
      CountIfNone(ns, Among(rows, p));
    } else {
      var init, row := rows[..|rows| - 1], rows[|rows| - 1];
      PartialSums(init, ns, p);
      forall n | 0 <= n < |ns|
        ensures Among(rows, p)(ns[n]) <==> Among(init, p)(ns[n]) || (p(row.group) && ns[n] == row.group)
        ensures Among(init, p)(ns[n]) ==> ns[n] != row.group
      {
        if Among(init, p)(ns[n]) {
          var i :| 0 <= i < |init| && init[i].group == ns[n];
          assert rows[i] == init[i];
        }
      }
      if p(row.group) {
        CountIfSplit(ns, Among(rows, p), Among(init, p), Is(row.group));
      } else {
        CountIfWeaker(ns, Among(rows, p), Among(init, p));
        CountIfWeaker(ns, Among(init, p), Among(rows, p));
      }
    }
  }

  /** Whatever order the groups come in, each counter is the number of notifications counted one by one. */
  lemma FoldIsOneByOneCount(rows: seq<GroupRow>, ns: seq<Group>, k: Key, f: Field)
    requires IsGrouping(rows, ns)
    ensures (if k in Fold(rows) then Fold(rows)[k].Get(f) else 0) == CountIf(ns, CountedAs(k, f))
    ensures k in Fold(rows) <==> exists n :: 0 <= n < |ns| && KeyOf(ns[n]) == k
  {
    var p := CountedAs(k, f);
    FoldSums(rows, k, f);
    PartialSums(rows, ns, p);
    CountIfWeaker(ns, Among(rows, p), p);
    CountIfWeaker(ns, p, Among(rows, p));
    FoldKeys(rows, k);
    if k in Fold(rows) {
      var i :| 0 <= i < |rows| && KeyOf(rows[i].group) == k;
      SomeCounted(ns, rows[i].group);
    }
    forall n | 0 <= n < |ns| && KeyOf(ns[n]) == k ensures k in Fold(rows) {
      var i :| 0 <= i < |rows| && rows[i].group == ns[n];
    }
  }

  lemma {:induction false} SomeCounted(ns: seq<Group>, g: Group)
    requires CountIf(ns, Is(g)) > 0
    ensures exists n :: 0 <= n < |ns| && ns[n] == g
  {
    if ns[|ns| - 1] != g {
      SomeCounted(ns[..|ns| - 1], g);
    }
  }

  function OfKey(k: Key): Group -> bool {
    (g: Group) => KeyOf(g) == k
  }

  /** The statuses that no total counts. */
  function Uncounted(k: Key): Group -> bool {
    (g: Group) => KeyOf(g) == k && g.status in {D.PENDING, D.QUEUED, D.PROCESSING, D.CANCELLED}
  }

  function Tally(ns: seq<Group>, k: Key, f: Field): nat {
    CountIf(ns, CountedAs(k, f))
  }

  lemma {:induction false} TallyIdentities(ns: seq<Group>, k: Key)
    ensures Tally(ns, k, TotalSent) + Tally(ns, k, TotalFailed) + Tally(ns, k, TotalSkipped) +
            Tally(ns, k, TotalRetried)
            + Tally(ns, k, TotalDead) + CountIf(ns, Uncounted(k)) == CountIf(ns, OfKey(k))
    ensures Tally(ns, k, TotalDelivered) <= Tally(ns, k, TotalSent)
    ensures Tally(ns, k, SkipDnd) + Tally(ns, k, SkipQuietHours) + Tally(ns, k, SkipFrequencyCap) +
            Tally(ns, k, SkipUserOptOut)
            <= Tally(ns, k, TotalSkipped)
  {
    if ns != [] {
      TallyIdentities(ns[..|ns| - 1], k);
    }
  }

  lemma PercentInRange(part: nat, total: nat)
    requires part <= total && total > 0
    ensures 0.0 <= (part as real) / (total as real) * 100.0 <= 100.0
  {
    Quotient(part as real, total as real);
  }

  lemma Quotient(a: real, b: real)
    requires 0.0 <= a <= b && b > 0.0
    ensures 0.0 <= a / b <= 1.0
  {
    var q := a / b;
    assert q * b == a;
    assert q >= 0.0;
    assert (1.0 - q) * b == b - a;
  }

  /**
   The folded totals add up to the group less the statuses no total counts; skip reasons stay within skips; the rate
   within 0..100.
   */
  lemma FoldAddsUp(rows: seq<GroupRow>, ns: seq<Group>, k: Key)
    requires IsGrouping(rows, ns) && k in Fold(rows)
    ensures var c := Fold(rows)[k];
            && c.sent + c.failed + c.skipped + c.retried + c.dead == CountIf(ns, OfKey(k)) - CountIf(ns, Uncounted(k))
            && c.delivered <= c.sent
            && c.skipDnd + c.skipQuietHours + c.skipFrequencyCap + c.skipUserOptOut <= c.skipped
            && (Rate(c).Some? ==> 0.0 <= Rate(c).value <= 100.0)
            && (Rate(c).None? <==> c.sent + c.failed + c.skipped == 0)
  {
    var c := Fold(rows)[k];
    forall f: Field ensures c.Get(f) == Tally(ns, k, f) {
      FoldIsOneByOneCount(rows, ns, k, f);
    }
    assert c.sent == c.Get(TotalSent) && c.delivered == c.Get(TotalDelivered) && c.failed == c.Get(TotalFailed);
    assert c.skipped == c.Get(TotalSkipped) && c.retried == c.Get(TotalRetried) && c.dead == c.Get(TotalDead);
    assert c.skipDnd == c.Get(SkipDnd) && c.skipQuietHours == c.Get(SkipQuietHours);
    assert c.skipFrequencyCap == c.Get(SkipFrequencyCap) && c.skipUserOptOut == c.Get(SkipUserOptOut);
    TallyIdentities(ns, k);
    var total := c.sent + c.failed + c.skipped;
    if total > 0 {
      PercentInRange(c.delivered, total);
    }
  }

  lemma Tallied(ns: seq<Group>, k: Key, f: Field, p: Group -> bool)
    requires forall g :: p(g) <==> CountedAs(k, f)(g)
    ensures CountIf(ns, p) == CountIf(ns, CountedAs(k, f))
  {
    CountIfWeaker(ns, p, CountedAs(k, f));
    CountIfWeaker(ns, CountedAs(k, f), p);
  }

  /** The folded counters as counts of the day's notifications of one event and channel. */
  lemma CountersAreCounts(rows: seq<GroupRow>, ns: seq<Group>, k: Key)
    requires IsGrouping(rows, ns) && k in Fold(rows)
    ensures var c := Fold(rows)[k];
            && c.sent == CountIf(ns, (g: Group) => (g.event, g.channel) == k && g.status in {D.SENT, D.DELIVERED})
            && c.delivered == CountIf(ns, (g: Group) => (g.event, g.channel) == k && g.status == D.DELIVERED)
            && c.failed == CountIf(ns, (g: Group) => (g.event, g.channel) == k && g.status == D.FAILED)
            && c.skipped == CountIf(ns, (g: Group) => (g.event, g.channel) == k && g.status == D.SKIPPED)
            && c.retried == CountIf(ns, (g: Group) => (g.event, g.channel) == k && g.status == D.RETRYING)
            && c.dead == CountIf(ns, (g: Group) => (g.event, g.channel) == k && g.status == D.DEAD)
  {
    hide Fold, CountIf;
    CountedBy(rows, ns, k, TotalSent, (g: Group) => (g.event, g.channel) == k && g.status in {D.SENT, D.DELIVERED});
    CountedBy(rows, ns, k, TotalDelivered, (g: Group) => (g.event, g.channel) == k && g.status == D.DELIVERED);
    CountedBy(rows, ns, k, TotalFailed, (g: Group) => (g.event, g.channel) == k && g.status == D.FAILED);
    CountedBy(rows, ns, k, TotalSkipped, (g: Group) => (g.event, g.channel) == k && g.status == D.SKIPPED);
    CountedBy(rows, ns, k, TotalRetried, (g: Group) => (g.event, g.channel) == k && g.status == D.RETRYING);
    CountedBy(rows, ns, k, TotalDead, (g: Group) => (g.event, g.channel) == k && g.status == D.DEAD);
  }

  lemma CountedBy(rows: seq<GroupRow>, ns: seq<Group>, k: Key, f: Field, p: Group -> bool)
    requires IsGrouping(rows, ns) && k in Fold(rows) && forall g :: p(g) <==> CountedAs(k, f)(g)
    ensures Fold(rows)[k].Get(f) == CountIf(ns, p)
  {
    FoldIsOneByOneCount(rows, ns, k, f);
    Tallied(ns, k, f, p);
  }

  /** And the skips by their reason; a skip for another reason counts as a skip only. */
  lemma SkipsAreCounts(rows: seq<GroupRow>, ns: seq<Group>, k: Key)
    requires IsGrouping(rows, ns) && k in Fold(rows)
    ensures var c := Fold(rows)[k];
            && c.skipDnd == CountIf(ns, (g: Group) =>
                 (g.event, g.channel) == k && g.status == D.SKIPPED && g.reason == Some(EH.DND_REGISTERED))
            && c.skipQuietHours == CountIf(ns, (g: Group) =>
                 (g.event, g.channel) == k && g.status == D.SKIPPED && g.reason == Some(EH.QUIET_HOURS))
            && c.skipFrequencyCap == CountIf(ns, (g: Group) =>
                 (g.event, g.channel) == k && g.status == D.SKIPPED && g.reason == Some(EH.FREQUENCY_CAPPED))
            && c.skipUserOptOut == CountIf(ns, (g: Group) =>
                 (g.event, g.channel) == k && g.status == D.SKIPPED && g.reason == Some(EH.USER_OPT_OUT))
  {
    hide Fold, CountIf;
    CountedBy(rows, ns, k, SkipDnd, (g: Group) =>
      (g.event, g.channel) == k && g.status == D.SKIPPED && g.reason == Some(EH.DND_REGISTERED));
    CountedBy(rows, ns, k, SkipQuietHours, (g: Group) =>
      (g.event, g.channel) == k && g.status == D.SKIPPED && g.reason == Some(EH.QUIET_HOURS));
    CountedBy(rows, ns, k, SkipFrequencyCap, (g: Group) =>
      (g.event, g.channel) == k && g.status == D.SKIPPED && g.reason == Some(EH.FREQUENCY_CAPPED));
    CountedBy(rows, ns, k, SkipUserOptOut, (g: Group) =>
      (g.event, g.channel) == k && g.status == D.SKIPPED && g.reason == Some(EH.USER_OPT_OUT));
  }

  /** The rate is the share, in percent, of the deliveries among all that were sent, failed or skipped. */
  lemma RateIsShareDelivered(c: Counters)
    ensures Rate(c).Some? <==> c.sent + c.failed + c.skipped > 0
    ensures Rate(c).Some? ==> Rate(c).value * (c.sent + c.failed + c.skipped) as real == 100.0 * c.delivered as real
  {
    var total := (c.sent + c.failed + c.skipped) as real;
    if total > 0.0 {
      assert (c.delivered as real / total) * total == c.delivered as real;
    }
  }

  // ---------------------------------------------------------------------------------------------
  // The upsert
  // ---------------------------------------------------------------------------------------------

  /** The unique constraint on date, event and channel. */
  predicate Unique(records: seq<Record>) {
    forall i, j :: 0 <= i < j < |records| ==> records[i].date != records[j].date || records[i].key != records[j].key
  }

  /** Record i is this day's record of k and holds what was folded. */
  predicate Holds(records: seq<Record>, date: int, k: Key, c: Counters) {
    var i := Find(records, date, k);
    i < |records| && records[i].counters == c && records[i].rate == Rate(c)
  }

  lemma FindIs(records: seq<Record>, date: int, k: Key, i: nat)
    requires Unique(records) && i < |records| && records[i].date == date && records[i].key == k
    ensures Find(records, date, k) == i
  {
  }

  lemma UpsertSpec(records: seq<Record>, date: int, k: Key, c: Counters, j: Key, d: Counters)
    requires Unique(records)
    ensures var after := Upsert(records, date, k, c);
            && Unique(after) && |records| <= |after|
            && Holds(after, date, k, c)
            && (forall i :: |records| <= i < |after| ==>
                  after[i].date == date && after[i].key == k && after[i].opens == after[i].clicks == 0)
            && (j != k && Holds(records, date, j, d) ==> Holds(after, date, j, d))
            && (forall i :: 0 <= i < |records| ==>
                  && after[i] == records[i].(counters := after[i].counters, rate := after[i].rate)
                  && (records[i].date != date || records[i].key != k ==> after[i] == records[i]))
  {
    var after := Upsert(records, date, k, c);
    FindIs(after, date, k, Find(records, date, k));
    if j != k && Holds(records, date, j, d) {
      FindIs(after, date, j, Find(records, date, j));
    }
  }

  lemma {:induction false} UpsertAllSpec(records: seq<Record>, date: int, ks: seq<Key>, m: map<Key, Counters>, j: Key)
    requires Unique(records) && (forall k :: k in ks ==> k in m)
    requires forall a, b :: 0 <= a < b < |ks| ==> ks[a] != ks[b]
    ensures var after := UpsertAll(records, date, ks, m);
            && Unique(after) && |records| <= |after|
            && (j in ks ==> Holds(after, date, j, m[j]))
            && (forall i :: |records| <= i < |after| ==>
                  after[i].date == date && after[i].key in ks && after[i].opens == after[i].clicks == 0)
            && (forall i :: 0 <= i < |records| ==>
                  && after[i] == records[i].(counters := after[i].counters, rate := after[i].rate)
                  && (records[i].date != date || records[i].key !in ks ==> after[i] == records[i]))
  {
    if ks != [] {
      hide Upsert, Holds, Unique;
      var init, k := ks[..|ks| - 1], ks[|ks| - 1];
      UpsertAllSpec(records, date, init, m, j);
      UpsertSpec(UpsertAll(records, date, init, m), date, k, m[k], j, if j in m then m[j] else ZERO);
    }
  }

  lemma {:induction false} UpsertAllIsIdle(records: seq<Record>, date: int, ks: seq<Key>, m: map<Key, Counters>)
    requires forall k :: k in ks ==> k in m && Holds(records, date, k, m[k])
    ensures UpsertAll(records, date, ks, m) == records
  {
    if ks != [] {
      UpsertAllIsIdle(records, date, ks[..|ks| - 1], m);
      assert ks[|ks| - 1] in ks;
    }
  }

  /**
   A day's upsert keeps (date, event, channel) unique, leaves other days and keys and the columns it does not compute
   alone, stores the fold under every key it saw, and changes nothing when it is run again on the same groups.
   */
  lemma UpsertIsIdempotent(records: seq<Record>, date: int, rows: seq<GroupRow>)
    requires Unique(records)
    ensures forall k :: k in KeyOrder(rows) ==> k in Fold(rows)
    ensures |records| <= |UpsertAll(records, date, KeyOrder(rows), Fold(rows))|
    ensures var after := UpsertAll(records, date, KeyOrder(rows), Fold(rows));
            && Unique(after)
            && (forall k :: k in Fold(rows) ==> Holds(after, date, k, Fold(rows)[k]))
            && (forall i :: |records| <= i < |after| ==>
                  after[i].date == date && after[i].key in Fold(rows) && after[i].opens == after[i].clicks == 0)
            && (forall i :: 0 <= i < |records| ==>
                  && after[i].opens == records[i].opens && after[i].clicks == records[i].clicks
                  && (records[i].date != date || records[i].key !in Fold(rows) ==> after[i] == records[i]))
            && UpsertAll(after, date, KeyOrder(rows), Fold(rows)) == after
  {
    OrderInFold(rows);
    var ks, m := KeyOrder(rows), Fold(rows);
    var after := UpsertAll(records, date, ks, m);
    forall k
      ensures k in m <==> k in ks
      ensures k in ks ==> Holds(after, date, k, m[k])
      ensures forall a, b :: 0 <= a < b < |ks| ==> ks[a] != ks[b]
    {
      FoldKeys(rows, k);
      UpsertAllSpec(records, date, ks, m, k);
    }
    UpsertAllSpec(records, date, ks, m, ("", EH.SMS));
    UpsertAllIsIdle(after, date, ks, m);
  }
}
