/** From clicks to summaries: what a traffic summary says about the clicks that arrived. */
module ArrivalSummaries {
  import opened ClickMachine
  import opened ClickSerial
  import opened ClickBatches
  import opened TrafficQueries

  /** The entry is a click on this link in this range of days. */
  predicate InRange(stream: map<EntryId, Msg>, e: EntryId, code: string, from: Date, until: Date) {
    && e in stream && stream[e].shortCode != "" && stream[e].shortCode == code
    && stream[e].occurredAt.Some? && from <= stream[e].occurredAt.value <= until
  }

  /** The distinct event ids of the clicks in range among the stored entries. */
  ghost function Clicks(stream: map<EntryId, Msg>, landed: set<EntryId>, code: string, from: Date, until: Date): set<EventId> {
    set e | e in landed && InRange(stream, e, code, from, until) :: stream[e].eventId
  }

  /** Those from one referrer. */
  ghost function ClicksFrom(stream: map<EntryId, Msg>, landed: set<EntryId>, code: string, from: Date, until: Date, referrer: string)
    : set<EventId>
  {
    set e | e in landed && InRange(stream, e, code, from, until) && stream[e].referer == referrer :: stream[e].eventId
  }

  /** Their referrers. */
  ghost function Sources(stream: map<EntryId, Msg>, landed: set<EntryId>, code: string, from: Date, until: Date): set<string> {
    set e | e in landed && InRange(stream, e, code, from, until) :: stream[e].referer
  }

  /** Their addresses, day by day. */
  ghost function Visitors(stream: map<EntryId, Msg>, landed: set<EntryId>, code: string, from: Date, until: Date): set<(Date, string)> {
    set e | e in landed && InRange(stream, e, code, from, until) && stream[e].ip != "" :: (stream[e].occurredAt.value, stream[e].ip)
  }

  /** Some stored entry in range has this event id, and says what the row says. */
  lemma RowIsClick(stream: map<EntryId, Msg>, landed: set<EntryId>, detail: map<EventId, Detail>, code: string, from: Date, until: Date,
                   id: EventId) returns (e: EntryId)
    requires HoldsArrivals(stream, landed, detail) && id in EventsIn(detail, code, from, until)
    ensures e in landed && InRange(stream, e, code, from, until) && stream[e].eventId == id && Tells(stream[e], detail[id])
  {
    assert IsRowOf(stream, landed, id, detail[id]);
    e :| e in landed && e in stream && stream[e].shortCode != "" && stream[e].eventId == id && Tells(stream[e], detail[id]);
  }

  lemma ClickIsRow(stream: map<EntryId, Msg>, landed: set<EntryId>, detail: map<EventId, Detail>, code: string, from: Date, until: Date,
                   e: EntryId)
    requires HoldsArrivals(stream, landed, detail) && e in landed && InRange(stream, e, code, from, until)
    ensures stream[e].eventId in EventsIn(detail, code, from, until) && Tells(stream[e], detail[stream[e].eventId])
  {
  }

  lemma EventsAreClicks(stream: map<EntryId, Msg>, landed: set<EntryId>, detail: map<EventId, Detail>, code: string, from: Date, until: Date)
    requires HoldsArrivals(stream, landed, detail)
    ensures EventsIn(detail, code, from, until) == Clicks(stream, landed, code, from, until)
  {
    forall id
      ensures id in EventsIn(detail, code, from, until) <==> id in Clicks(stream, landed, code, from, until)
    {
      if id in EventsIn(detail, code, from, until) {
        var e := RowIsClick(stream, landed, detail, code, from, until, id);
      }
      if id in Clicks(stream, landed, code, from, until) {
        var e :| e in landed && InRange(stream, e, code, from, until) && stream[e].eventId == id;
        ClickIsRow(stream, landed, detail, code, from, until, e);
      }
    }
  }

  lemma GroupIsClicks(stream: map<EntryId, Msg>, landed: set<EntryId>, detail: map<EventId, Detail>, code: string, from: Date, until: Date,
                      referrer: string)
    requires HoldsArrivals(stream, landed, detail)
    ensures Group(detail, EventsIn(detail, code, from, until), referrer) == ClicksFrom(stream, landed, code, from, until, referrer)
  {
    var group := Group(detail, EventsIn(detail, code, from, until), referrer);
    forall id
      ensures id in group <==> id in ClicksFrom(stream, landed, code, from, until, referrer)
    {
      if id in group {
        var e := RowIsClick(stream, landed, detail, code, from, until, id);
      }
      if id in ClicksFrom(stream, landed, code, from, until, referrer) {
        var e :| e in landed && InRange(stream, e, code, from, until) && stream[e].referer == referrer && stream[e].eventId == id;
        ClickIsRow(stream, landed, detail, code, from, until, e);
      }
    }
  }

  lemma ReferrersAreSources(stream: map<EntryId, Msg>, landed: set<EntryId>, detail: map<EventId, Detail>, code: string, from: Date, until: Date)
    requires HoldsArrivals(stream, landed, detail)
    ensures Referrers(detail, EventsIn(detail, code, from, until)) == Sources(stream, landed, code, from, until)
  {
    var events := EventsIn(detail, code, from, until);
    forall r
      ensures r in Referrers(detail, events) <==> r in Sources(stream, landed, code, from, until)
    {
      if r in Referrers(detail, events) {
        var id :| id in events && id in detail && detail[id].referer == r;
        var e := RowIsClick(stream, landed, detail, code, from, until, id);
      }
      if r in Sources(stream, landed, code, from, until) {
        var e :| e in landed && InRange(stream, e, code, from, until) && stream[e].referer == r;
        ClickIsRow(stream, landed, detail, code, from, until, e);
      }
    }
  }

  lemma DayVisitorsAreVisitors(stream: map<EntryId, Msg>, landed: set<EntryId>, detail: map<EventId, Detail>,
                               code: string, from: Date, until: Date)
    requires HoldsArrivals(stream, landed, detail)
    ensures DayVisitors(detail, code, from, until) == Visitors(stream, landed, code, from, until)
  {
    forall v
      ensures v in DayVisitors(detail, code, from, until) <==> v in Visitors(stream, landed, code, from, until)
    {
      if v in DayVisitors(detail, code, from, until) {
        var id :| id in detail && id in EventsIn(detail, code, from, until) && detail[id].ip != "" && (detail[id].key.date, detail[id].ip) == v;
        var e := RowIsClick(stream, landed, detail, code, from, until, id);
      }
      if v in Visitors(stream, landed, code, from, until) {
        var e :| e in landed && InRange(stream, e, code, from, until) && stream[e].ip != "" && (stream[e].occurredAt.value, stream[e].ip) == v;
        ClickIsRow(stream, landed, detail, code, from, until, e);
      }
    }
  }

  /** A trend row tells the clicks and the visitors of its day. */
  ghost predicate TellsDay(stream: map<EntryId, Msg>, landed: set<EntryId>, code: string, row: DailyStat) {
    row.pv == |ArrivedEvents(stream, landed, Key(row.date, code))| && row.uv == |ArrivedAddresses(stream, landed, Key(row.date, code))|
  }

  lemma TrendOfArrivals(works: seq<Work>, code: string, from: Date, until: Date)
    requires Live(works) && Consistent(Reached(WorkSteps(works)).stream)
    ensures
      var s, landed := Reached(WorkSteps(works)), Landed(Deliveries(works));
      var trend := TrendRows(s.stat, code, from, until);
      && (forall row | row in trend :: from <= row.date <= until && TellsDay(s.stream, landed, code, row))
      && (forall date | from <= date <= until ::
            ArrivedEvents(s.stream, landed, Key(date, code)) != {} <==> exists row :: row in trend && row.date == date)
  {
    var s, landed := Reached(WorkSteps(works)), Landed(Deliveries(works));
    var trend := TrendRows(s.stat, code, from, until);
    TrendIsExact(s.stat, code, from, until);
    forall row | row in trend
      ensures TellsDay(s.stream, landed, code, row)
    {
      DeliveredStats(works, Key(row.date, code));
    }
    forall date | from <= date <= until
      ensures ArrivedEvents(s.stream, landed, Key(date, code)) != {} <==> exists row :: row in trend && row.date == date
    {
      DayIsListed(works, code, date);
      var k := Key(date, code);
      if k in s.stat {
        assert DailyStat(date, s.stat[k].pv, s.stat[k].uv) in trend;
      }
    }
  }

  lemma DayIsListed(works: seq<Work>, code: string, date: Date)
    requires Live(works) && Consistent(Reached(WorkSteps(works)).stream)
    ensures
      var s, landed := Reached(WorkSteps(works)), Landed(Deliveries(works));
      Key(date, code) in s.stat <==> ArrivedEvents(s.stream, landed, Key(date, code)) != {}
  {
    var s, landed := Reached(WorkSteps(works)), Landed(Deliveries(works));
    LiveIsWellRun(works, WorkSteps(works), Deliveries(works));
    SoloExact(WorkSteps(works), Key(date, code));
    ArrivalsCounted(s.stream, landed, s.detail, Key(date, code));
  }

  /** However clicks arrive and are delivered to a consumer without faults, a summary's total counts the stored clicks
      of the link in range and their visitors, each once a day. */
  lemma TotalOfArrivals(works: seq<Work>, code: string, from: Date, until: Date)
    requires Live(works) && Consistent(Reached(WorkSteps(works)).stream)
    ensures
      var s, landed := Reached(WorkSteps(works)), Landed(Deliveries(works));
      RangeTotal(s.stat, code, from, until)
      == PvUvRow(|Clicks(s.stream, landed, code, from, until)|, |Visitors(s.stream, landed, code, from, until)|)
  {
    var h := WorkSteps(works);
    var s, landed := Reached(h), Landed(Deliveries(works));
    LiveIsWellRun(works, h, Deliveries(works));
    TotalCountsEvents(h, code, from, until);
    EventsAreClicks(s.stream, landed, s.detail, code, from, until);
    forall date | from <= date <= until
      ensures Uv(s, Key(date, code)) == |Addresses(s.detail, Key(date, code))|
    {
      SoloExact(h, Key(date, code));
    }
    TotalCountsVisitors(s, code, from, until);
    DayVisitorsAreVisitors(s.stream, landed, s.detail, code, from, until);
  }

  /** ... and its referrers are at most five of those the clicks came from, in descending order and with the number of
      clicks from each, and no other one has more. */
  lemma ReferrersOfArrivals(works: seq<Work>, code: string, from: Date, until: Date, summary: Summary)
    requires Live(works) && Consistent(Reached(WorkSteps(works)).stream)
    requires IsSummary(Reached(WorkSteps(works)).stat, Reached(WorkSteps(works)).detail, code, from, until, summary)
    ensures
      var stream, landed, rows := Reached(WorkSteps(works)).stream, Landed(Deliveries(works)), summary.topReferrers;
      && |rows| == (if |Sources(stream, landed, code, from, until)| < 5 then |Sources(stream, landed, code, from, until)| else 5)
      && (forall i, j | 0 <= i < j < |rows| :: rows[i].referrer != rows[j].referrer && rows[i].pv >= rows[j].pv)
      && (forall i | 0 <= i < |rows| :: rows[i].pv == |ClicksFrom(stream, landed, code, from, until, rows[i].referrer)|)
      && (forall i, r | 0 <= i < |rows| && r in Sources(stream, landed, code, from, until) && !Listed(rows, r) ::
            |ClicksFrom(stream, landed, code, from, until, r)| <= rows[i].pv)
  {
    var s, landed, rows := Reached(WorkSteps(works)), Landed(Deliveries(works)), summary.topReferrers;
    LiveIsWellRun(works, WorkSteps(works), Deliveries(works));
    ReferrersAreSources(s.stream, landed, s.detail, code, from, until);
    forall r
      ensures Group(s.detail, EventsIn(s.detail, code, from, until), r) == ClicksFrom(s.stream, landed, code, from, until, r)
    {
      GroupIsClicks(s.stream, landed, s.detail, code, from, until, r);
    }
  }
}
