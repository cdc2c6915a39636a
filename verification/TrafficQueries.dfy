/** The range queries of TrafficService/internal/logic over one snapshot of the two tables. */
module TrafficQueries {
  import opened Prelude
  import opened ClickMachine
  import opened ClickAccounting

  datatype PvUvRow = PvUvRow(pv: nat, uv: nat)
  datatype DailyStat = DailyStat(date: Date, pv: nat, uv: nat)
  datatype ReferrerStat = ReferrerStat(referrer: string, pv: nat)
  datatype Summary = Summary(total: PvUvRow, trend: seq<DailyStat>, topReferrers: seq<ReferrerStat>)

  // ---------------------------------------------------------------- totals and trend

  /** sum(pv), sum(uv) over the days from..until; (stat_date, short_code) is unique, so a day has at most one row. */
  function RangeTotal(stat: map<Key, Stat>, code: string, from: Date, until: Date): PvUvRow
    decreases until - from
  {
    if until < from then PvUvRow(0, 0)
    else
      var rest, k := RangeTotal(stat, code, from, until - 1), Key(until, code);
      if k in stat then PvUvRow(rest.pv + stat[k].pv, rest.uv + stat[k].uv) else rest
  }

  /** The selected rows, ordered by date. */
  function TrendRows(stat: map<Key, Stat>, code: string, from: Date, until: Date): seq<DailyStat>
    decreases until - from
  {
    if until < from then []
    else
      var rest, k := TrendRows(stat, code, from, until - 1), Key(until, code);
      if k in stat then rest + [DailyStat(until, stat[k].pv, stat[k].uv)] else rest
  }

  function TrendTotal(trend: seq<DailyStat>): PvUvRow {
    if trend == [] then PvUvRow(0, 0)
    else
      var rest, last := TrendTotal(trend[..|trend| - 1]), trend[|trend| - 1];
      PvUvRow(rest.pv + last.pv, rest.uv + last.uv)
  }

  /** The totals are the sums over the trend. */
  lemma {:induction false} TotalIsTrendTotal(stat: map<Key, Stat>, code: string, from: Date, until: Date)
    ensures RangeTotal(stat, code, from, until) == TrendTotal(TrendRows(stat, code, from, until))
    decreases until - from
  {
    if from <= until {
      TotalIsTrendTotal(stat, code, from, until - 1);
      var rest, k := TrendRows(stat, code, from, until - 1), Key(until, code);
      if k in stat {
        var row := DailyStat(until, stat[k].pv, stat[k].uv);
        assert (rest + [row])[..|rest|] == rest;
      }
    }
  }

  ghost predicate IsTrend(stat: map<Key, Stat>, code: string, from: Date, until: Date, trend: seq<DailyStat>) {
    && (forall i, j | 0 <= i < j < |trend| :: trend[i].date < trend[j].date)
    && (forall row :: row in trend <==>
          from <= row.date <= until && Key(row.date, code) in stat
          && row == DailyStat(row.date, stat[Key(row.date, code)].pv, stat[Key(row.date, code)].uv))
  }

  /** The trend lists, in strictly increasing date order, exactly the days of the range that have a row. */
  lemma {:induction false} TrendIsExact(stat: map<Key, Stat>, code: string, from: Date, until: Date)
    ensures IsTrend(stat, code, from, until, TrendRows(stat, code, from, until))
    decreases until - from
  {
    if from <= until {
      TrendIsExact(stat, code, from, until - 1);
      var rest := TrendRows(stat, code, from, until - 1);
      assert forall i | 0 <= i < |rest| :: rest[i] in rest && rest[i].date < until;
    }
  }

  /** Totals add up over adjacent ranges. */
  lemma {:induction false} TotalsAreAdditive(stat: map<Key, Stat>, code: string, from: Date, mid: Date, until: Date)
    requires from <= mid + 1 && mid <= until
    ensures RangeTotal(stat, code, from, until).pv == RangeTotal(stat, code, from, mid).pv + RangeTotal(stat, code, mid + 1, until).pv
    ensures RangeTotal(stat, code, from, until).uv == RangeTotal(stat, code, from, mid).uv + RangeTotal(stat, code, mid + 1, until).uv
    decreases until - mid
  {
    if mid < until {
      TotalsAreAdditive(stat, code, from, mid, until - 1);
    }
  }

  /** queryTrend: copies the rows one by one. */
  method QueryTrend(stat: map<Key, Stat>, code: string, from: Date, until: Date) returns (out: seq<DailyStat>)
    ensures out == TrendRows(stat, code, from, until)
  {
    var rows := TrendRows(stat, code, from, until);
    out := [];
    for i := 0 to |rows|
      invariant out == rows[..i]
    {
      out := out + [DailyStat(rows[i].date, rows[i].pv, rows[i].uv)];
    }
  }

  // ---------------------------------------------------------------- totals against events

  /** The stored events of a link in a range of days. */
  ghost function EventsIn(detail: map<EventId, Detail>, code: string, from: Date, until: Date): set<EventId> {
    set id | id in detail && detail[id].key.code == code && from <= detail[id].key.date <= until
  }

  /** Those of a set of events. */
  ghost function Among(detail: map<EventId, Detail>, ids: set<EventId>, code: string, from: Date, until: Date): set<EventId> {
    EventsIn(detail, code, from, until) * ids
  }

  lemma OneMoreDay(detail: map<EventId, Detail>, ids: set<EventId>, code: string, from: Date, until: Date)
    requires from <= until
    ensures |Among(detail, ids, code, from, until)|
         == |Among(detail, ids, code, from, until - 1)| + |Of(detail, ids, Key(until, code))|
  {
    var before, day := Among(detail, ids, code, from, until - 1), Of(detail, ids, Key(until, code));
    assert Among(detail, ids, code, from, until) == before + day;
    assert before !! day;
  }

  /** After any run, the stored events in range are those in total PV, those that missed their upsert, and those
      being handled. */
  lemma {:induction false} EventsAccounted(steps: seq<Step>, code: string, from: Date, until: Date)
    ensures
      var s := Reached(steps);
      |EventsIn(s.detail, code, from, until)|
      == RangeTotal(s.stat, code, from, until).pv
       + |Among(s.detail, s.ledger.lost, code, from, until)| + |Among(s.detail, Flying(s), code, from, until)|
    decreases until - from
  {
    var s := Reached(steps);
    assert EventsIn(s.detail, code, from, until) == Among(s.detail, s.detail.Keys, code, from, until);
    if until < from {
      assert EventsIn(s.detail, code, from, until) == {};
    } else {
      EventsAccounted(steps, code, from, until - 1);
      assert EventsIn(s.detail, code, from, until - 1) == Among(s.detail, s.detail.Keys, code, from, until - 1);
      RowsConserved(steps, Key(until, code));
      OneMoreDay(s.detail, s.detail.Keys, code, from, until);
      OneMoreDay(s.detail, s.ledger.lost, code, from, until);
      OneMoreDay(s.detail, Flying(s), code, from, until);
    }
  }

  /** At rest, total PV is the number of stored events in range if and only if none of them missed its upsert. */
  lemma TotalCountsEvents(steps: seq<Step>, code: string, from: Date, until: Date)
    requires Reached(steps).workers == map[]
    ensures
      var s := Reached(steps);
      RangeTotal(s.stat, code, from, until).pv == |EventsIn(s.detail, code, from, until)|
      <==> forall id | id in s.ledger.lost :: id !in EventsIn(s.detail, code, from, until)
  {
    var s := Reached(steps);
    EventsAccounted(steps, code, from, until);
    assert Flying(s) == {};
    assert Among(s.detail, Flying(s), code, from, until) == {};
    var lost := Among(s.detail, s.ledger.lost, code, from, until);
    if lost == {} {
      assert forall id | id in s.ledger.lost :: id !in EventsIn(s.detail, code, from, until) || id in lost;
    } else {
      var id :| id in lost;
    }
  }

  /** After any run, the first visits in range are those in total UV, those whose upsert failed, and those being
      handled. */
  lemma {:induction false} FirstVisitsAccounted(steps: seq<Step>, code: string, from: Date, until: Date)
    ensures
      var s := Reached(steps);
      |Among(s.detail, s.ledger.firsts, code, from, until)|
      == RangeTotal(s.stat, code, from, until).uv
       + |Among(s.detail, s.ledger.firsts * s.ledger.lost, code, from, until)|
       + |Among(s.detail, s.ledger.firsts * Flying(s), code, from, until)|
    decreases until - from
  {
    var s := Reached(steps);
    if until < from {
      assert EventsIn(s.detail, code, from, until) == {};
    } else {
      FirstVisitsAccounted(steps, code, from, until - 1);
      FirstVisitsConserved(steps, Key(until, code));
      OneMoreDay(s.detail, s.ledger.firsts, code, from, until);
      OneMoreDay(s.detail, s.ledger.firsts * s.ledger.lost, code, from, until);
      OneMoreDay(s.detail, s.ledger.firsts * Flying(s), code, from, until);
    }
  }

  /** The visitors in range, each counted once a day. */
  ghost function DayVisitors(detail: map<EventId, Detail>, code: string, from: Date, until: Date): set<(Date, string)> {
    set id | id in detail && id in EventsIn(detail, code, from, until) && detail[id].ip != "" :: (detail[id].key.date, detail[id].ip)
  }

  ghost function OnDay(date: Date, ips: set<string>): set<(Date, string)> {
    set ip | ip in ips :: (date, ip)
  }

  lemma {:induction false} OnDaySize(date: Date, ips: set<string>)
    ensures |OnDay(date, ips)| == |ips|
  {
    if ips == {} {
      assert OnDay(date, ips) == {};
    } else {
      var ip :| ip in ips;
      OnDaySize(date, ips - {ip});
      assert OnDay(date, ips) == OnDay(date, ips - {ip}) + {(date, ip)};
    }
  }

  lemma OneMoreDayOfVisitors(detail: map<EventId, Detail>, code: string, from: Date, until: Date)
    requires from <= until
    ensures |DayVisitors(detail, code, from, until)|
         == |DayVisitors(detail, code, from, until - 1)| + |Addresses(detail, Key(until, code))|
  {
    var before, day := DayVisitors(detail, code, from, until - 1), OnDay(until, Addresses(detail, Key(until, code)));
    OnDaySize(until, Addresses(detail, Key(until, code)));
    forall v
      ensures v in DayVisitors(detail, code, from, until) <==> v in before + day
    {
      if v in day {
        var id :| id in detail && detail[id].key == Key(until, code) && detail[id].ip != "" && detail[id].ip == v.1;
        assert id in EventsIn(detail, code, from, until);
      }
      if v in before {
        var id :| id in detail && id in EventsIn(detail, code, from, until - 1) && detail[id].ip != "" && (detail[id].key.date, detail[id].ip) == v;
        assert id in EventsIn(detail, code, from, until);
      }
      if v in DayVisitors(detail, code, from, until) && v.0 == until {
        var id :| id in detail && id in EventsIn(detail, code, from, until) && detail[id].ip != "" && (detail[id].key.date, detail[id].ip) == v;
        assert detail[id].key == Key(until, code);
        assert v.1 in Addresses(detail, Key(until, code));
      }
    }
    assert DayVisitors(detail, code, from, until) == before + day;
    assert before !! day;
  }

  /** Where UV is exact on each day, total UV is the number of visitors in range, each counted once a day. */
  lemma {:induction false} TotalCountsVisitors(s: State, code: string, from: Date, until: Date)
    requires forall date | from <= date <= until :: Uv(s, Key(date, code)) == |Addresses(s.detail, Key(date, code))|
    ensures RangeTotal(s.stat, code, from, until).uv == |DayVisitors(s.detail, code, from, until)|
    decreases until - from
  {
    if until < from {
      assert DayVisitors(s.detail, code, from, until) == {};
    } else {
      TotalCountsVisitors(s, code, from, until - 1);
      OneMoreDayOfVisitors(s.detail, code, from, until);
      assert Uv(s, Key(until, code)) == |Addresses(s.detail, Key(until, code))|;
    }
  }

  // ---------------------------------------------------------------- top referrers

  ghost function Group(detail: map<EventId, Detail>, ids: set<EventId>, referrer: string): set<EventId> {
    set id | id in ids && id in detail && detail[id].referer == referrer
  }

  ghost function Referrers(detail: map<EventId, Detail>, ids: set<EventId>): set<string> {
    set id | id in ids && id in detail :: detail[id].referer
  }

  /** group by referer, order by count desc, limit 5; ties may fall either way. */
  ghost predicate IsTopFive(detail: map<EventId, Detail>, ids: set<EventId>, rows: seq<ReferrerStat>) {
    && |rows| == (if |Referrers(detail, ids)| < 5 then |Referrers(detail, ids)| else 5)
    && IsTop(detail, ids, rows)
  }

  /** Distinct referrers with their true counts, in descending order, none of them beaten by an omitted one. */
  ghost predicate IsTop(detail: map<EventId, Detail>, ids: set<EventId>, rows: seq<ReferrerStat>) {
    && (forall i, j | 0 <= i < j < |rows| :: rows[i].referrer != rows[j].referrer && rows[i].pv >= rows[j].pv)
    && (forall i | 0 <= i < |rows| ::
          rows[i].referrer in Referrers(detail, ids) && rows[i].pv == |Group(detail, ids, rows[i].referrer)|)
    && (forall i, r | 0 <= i < |rows| && r in Referrers(detail, ids) && !Listed(rows, r) :: |Group(detail, ids, r)| <= rows[i].pv)
  }

  ghost predicate Listed(rows: seq<ReferrerStat>, r: string) {
    exists i :: 0 <= i < |rows| && rows[i].referrer == r
  }

  function CountOf(detail: map<EventId, Detail>, ids: set<EventId>, r: string): (n: nat)
    ensures n == |Group(detail, ids, r)|
  {
    var group := set id | id in ids && id in detail && detail[id].referer == r;
    assert group == Group(detail, ids, r);
    |group|
  }

  /** A referrer with the largest count among the given ones. */
  method LargestGroup(detail: map<EventId, Detail>, ids: set<EventId>, candidates: set<string>) returns (best: string)
    requires candidates != {}
    ensures best in candidates
    ensures forall r | r in candidates :: |Group(detail, ids, r)| <= |Group(detail, ids, best)|
  {
    best :| best in candidates;
    var rest := candidates - {best};
    while rest != {}
      invariant rest <= candidates && best in candidates
      invariant forall r | r in candidates - rest :: |Group(detail, ids, r)| <= |Group(detail, ids, best)|
    {
      var r :| r in rest;
      if CountOf(detail, ids, r) > CountOf(detail, ids, best) {
        best := r;
      }
      rest := rest - {r};
    }
  }

  /** What the database answers to the referrer query. */
  method SelectTopReferrers(detail: map<EventId, Detail>, ids: set<EventId>) returns (rows: seq<ReferrerStat>)
    ensures IsTopFive(detail, ids, rows)
  {
    var referrers := set id | id in ids && id in detail :: detail[id].referer;
    assert referrers == Referrers(detail, ids);
    rows := [];
    var rest := referrers;
    while |rows| < 5 && rest != {}
      invariant rest <= referrers && |rows| + |rest| == |referrers| && |rows| <= 5
      invariant forall r | r in referrers :: r in rest <==> !Listed(rows, r)
      invariant IsTop(detail, ids, rows)
      decreases rest
    {
      var best := LargestGroup(detail, ids, rest);
      ghost var before := rows;
      var row := ReferrerStat(best, CountOf(detail, ids, best));
      TopExtends(detail, ids, rows, row);
      rows := rows + [row];
      forall r
        ensures Listed(rows, r) <==> Listed(before, r) || r == best
      {
        ListedAppend(before, row, r);
      }
      rest := rest - {best};
    }
  }

  lemma ListedAppend(rows: seq<ReferrerStat>, row: ReferrerStat, r: string)
    ensures Listed(rows + [row], r) <==> Listed(rows, r) || r == row.referrer
  {
    var rows' := rows + [row];
    assert rows'[|rows|] == row;
    if Listed(rows, r) {
      var i :| 0 <= i < |rows| && rows[i].referrer == r;
      assert rows'[i].referrer == r;
    }
  }

  lemma TopExtends(detail: map<EventId, Detail>, ids: set<EventId>, rows: seq<ReferrerStat>, row: ReferrerStat)
    requires IsTop(detail, ids, rows)
    requires row.referrer in Referrers(detail, ids) && !Listed(rows, row.referrer)
    requires row.pv == |Group(detail, ids, row.referrer)|
    requires forall r | r in Referrers(detail, ids) && !Listed(rows, r) :: |Group(detail, ids, r)| <= row.pv
    ensures IsTop(detail, ids, rows + [row])
  {
    var rows' := rows + [row];
    forall i, r | 0 <= i < |rows'| && r in Referrers(detail, ids) && !Listed(rows', r)
      ensures |Group(detail, ids, r)| <= rows'[i].pv
    {
      ListedAppend(rows, row, r);
    }
  }

  /** queryTopReferrers: copies the answered rows one by one. */
  method QueryTopReferrers(detail: map<EventId, Detail>, code: string, from: Date, until: Date) returns (out: seq<ReferrerStat>)
    ensures IsTopFive(detail, EventsIn(detail, code, from, until), out)
  {
    var ids := set id | id in detail && detail[id].key.code == code && from <= detail[id].key.date <= until;
    assert ids == EventsIn(detail, code, from, until);
    var rows := SelectTopReferrers(detail, ids);
    out := [];
    for i := 0 to |rows|
      invariant out == rows[..i]
    {
      out := out + [ReferrerStat(rows[i].referrer, rows[i].pv)];
    }
  }

  function ListedTotal(rows: seq<ReferrerStat>): nat {
    if rows == [] then 0 else ListedTotal(rows[..|rows| - 1]) + rows[|rows| - 1].pv
  }

  /** The events whose referrer is listed. */
  ghost function ListedEvents(detail: map<EventId, Detail>, ids: set<EventId>, rows: seq<ReferrerStat>): set<EventId> {
    set id | id in ids && id in detail && Listed(rows, detail[id].referer)
  }

  lemma {:induction false} ListedTotalCounts(detail: map<EventId, Detail>, ids: set<EventId>, rows: seq<ReferrerStat>)
    requires forall i, j | 0 <= i < j < |rows| :: rows[i].referrer != rows[j].referrer
    requires forall i | 0 <= i < |rows| :: rows[i].pv == |Group(detail, ids, rows[i].referrer)|
    ensures ListedTotal(rows) == |ListedEvents(detail, ids, rows)|
  {
    if rows == [] {
      assert ListedEvents(detail, ids, rows) == {};
    } else {
      var front, last := rows[..|rows| - 1], rows[|rows| - 1];
      ListedTotalCounts(detail, ids, front);
      assert rows == front + [last];
      var a, b := ListedEvents(detail, ids, front), Group(detail, ids, last.referrer);
      forall id | id in ids && id in detail
        ensures id in ListedEvents(detail, ids, rows) <==> id in a + b
      {
        ListedAppend(front, last, detail[id].referer);
      }
      assert ListedEvents(detail, ids, rows) == a + b;
      assert a !! b;
    }
  }

  lemma {:induction false} DistinctListed(rows: seq<ReferrerStat>, listed: set<string>)
    requires forall i, j | 0 <= i < j < |rows| :: rows[i].referrer != rows[j].referrer
    requires forall r :: r in listed <==> Listed(rows, r)
    ensures |listed| == |rows|
  {
    if rows == [] {
      assert listed == {};
    } else {
      var front, last := rows[..|rows| - 1], rows[|rows| - 1];
      assert rows == front + [last];
      forall r
        ensures r in listed - {last.referrer} <==> Listed(front, r)
      {
        ListedAppend(front, last, r);
      }
      DistinctListed(front, listed - {last.referrer});
      ListedAppend(front, last, last.referrer);
    }
  }

  /** The listed counts never exceed the events in range, and reach them exactly when at most five referrers occur. */
  lemma TopFiveCoverage(detail: map<EventId, Detail>, ids: set<EventId>, rows: seq<ReferrerStat>)
    requires ids <= detail.Keys && IsTopFive(detail, ids, rows)
    ensures ListedTotal(rows) <= |ids|
    ensures ListedTotal(rows) == |ids| <==> |Referrers(detail, ids)| <= 5
  {
    var referrers := Referrers(detail, ids);
    ListedTotalCounts(detail, ids, rows);
    SubsetSize(ListedEvents(detail, ids, rows), ids);
    var listed := set r | r in referrers && Listed(rows, r);
    DistinctListed(rows, listed);
    SubsetSize(listed, referrers);
    if |referrers| <= 5 {
      assert listed == referrers;
      assert ListedEvents(detail, ids, rows) == ids;
    } else {
      assert listed != referrers;
      var r :| r in referrers && r !in listed;
      var id :| id in ids && id in detail && detail[id].referer == r;
      assert id !in ListedEvents(detail, ids, rows);
    }
  }

  /** What one summary consists of, on one snapshot of the tables. */
  ghost predicate IsSummary(stat: map<Key, Stat>, detail: map<EventId, Detail>, code: string, from: Date, until: Date, summary: Summary) {
    && summary.total == RangeTotal(stat, code, from, until)
    && summary.trend == TrendRows(stat, code, from, until)
    && IsTopFive(detail, EventsIn(detail, code, from, until), summary.topReferrers)
  }

  method GetTrafficSummary(stat: map<Key, Stat>, detail: map<EventId, Detail>, code: string, from: Date, until: Date)
    returns (summary: Summary)
    ensures IsSummary(stat, detail, code, from, until, summary)
    ensures summary.total == TrendTotal(summary.trend)
  {
    var total := RangeTotal(stat, code, from, until);
    var trend := QueryTrend(stat, code, from, until);
    var referrers := QueryTopReferrers(detail, code, from, until);
    TotalIsTrendTotal(stat, code, from, until);
    summary := Summary(total, trend, referrers);
  }

  /** At rest, with none of the link's events in range lost, total PV is the number of stored events, UV is no
      larger, and the listed referrers account for all of them exactly when at most five occur. */
  lemma SummaryMatchesEvents(steps: seq<Step>, code: string, from: Date, until: Date, summary: Summary)
    requires Reached(steps).workers == map[]
    requires forall id | id in Reached(steps).ledger.lost :: id !in EventsIn(Reached(steps).detail, code, from, until)
    requires IsSummary(Reached(steps).stat, Reached(steps).detail, code, from, until, summary)
    ensures summary.total.pv == |EventsIn(Reached(steps).detail, code, from, until)|
    ensures summary.total.uv <= summary.total.pv
    ensures ListedTotal(summary.topReferrers) <= summary.total.pv
    ensures
      var events := EventsIn(Reached(steps).detail, code, from, until);
      ListedTotal(summary.topReferrers) == summary.total.pv <==> |Referrers(Reached(steps).detail, events)| <= 5
  {
    TotalCountsEvents(steps, code, from, until);
    TotalUvAtMostPv(steps, code, from, until);
    TopFiveCoverage(Reached(steps).detail, EventsIn(Reached(steps).detail, code, from, until), summary.topReferrers);
  }

  lemma {:induction false} TotalUvAtMostPv(steps: seq<Step>, code: string, from: Date, until: Date)
    ensures RangeTotal(Reached(steps).stat, code, from, until).uv <= RangeTotal(Reached(steps).stat, code, from, until).pv
    decreases until - from
  {
    if from <= until {
      TotalUvAtMostPv(steps, code, from, until - 1);
      UvAtMostPv(steps, Key(until, code));
    }
  }
}
