/** One consumer, any sequence of arrivals and batches: what the statistics come to, and why order and batch size
    do not matter. */
module ClickBatches {
  import opened Prelude
  import opened ClickMachine
  import opened ClickAccounting
  import opened ClickRaces
  import opened ClickSerial
  import opened ClickConsumer

  /** Handling this message reports no error: it names a link, is stored now or was before, and if now, is counted. */
  predicate Handled(s: State, d: Delivery)
    requires d.entry in s.stream
  {
    var m := s.stream[d.entry];
    m.shortCode != "" && !d.faults.insert && (m.eventId in s.detail || !d.faults.upsert)
  }

  /** A whole message leaves consumer 0 idle again; if nothing essential fails, nothing is lost or skipped. */
  lemma MessageRests(s: State, d: Delivery)
    requires s.workers == map[] && d.entry in s.stream
    ensures
      var t := Run(s, MessageSteps(d));
      && t.workers == map[]
      && t.stream == s.stream
      && t.detail == DetailAfter(s.stream, s.detail, [d])
      && (d.faults.Quiet() ==> t.ledger.lost == s.ledger.lost && t.ledger.skipped == s.ledger.skipped)
      && t.acked == s.acked + if Handled(s, d) && !d.faults.ack then {d.entry} else {}
  {
    var m := s.stream[d.entry];
    assert [d][..0] == [];
    if m.shortCode == "" || d.faults.insert {
      RefusedPath(s, d);
      MessagePath(s, s, d, false);
    } else if m.eventId in s.detail {
      DuplicatePath(s, d);
      MessagePath(s, s, d, true);
    } else {
      NewEventRests(s, d);
    }
  }

  lemma NewEventRests(s: State, d: Delivery)
    requires s.workers == map[] && d.entry in s.stream
    requires s.stream[d.entry].shortCode != "" && !d.faults.insert && s.stream[d.entry].eventId !in s.detail
    ensures
      var t, m := Run(s, MessageSteps(d)), s.stream[d.entry];
      && t.workers == map[]
      && t.stream == s.stream
      && t.detail == s.detail[m.eventId := RowOf(m, d.now)]
      && (d.faults.Quiet() ==> t.ledger.lost == s.ledger.lost && t.ledger.skipped == s.ledger.skipped)
      && t.acked == s.acked + if Handled(s, d) && !d.faults.ack then {d.entry} else {}
  {
    NewEventPath(s, d);
    MessagePath(s, AfterUpsert(s, d).(workers := map[]), d, !d.faults.upsert);
  }

  lemma MessageSolo(h: seq<Step>, d: Delivery)
    requires SoloRun(h) && Reached(h).workers == map[] && !d.faults.add
    ensures SoloRun(h + MessageSteps(d))
  {
    var steps := h + MessageSteps(d);
    forall i | 0 <= i < |steps|
      ensures SoloStep(Reached(steps[..i]), steps[i])
    {
      if i < |h| {
        assert steps[..i] == h[..i];
      } else if i == |h| {
        assert steps[..i] == h;
      }
    }
  }

  /** Every delivery is of a published entry, and none meets a fault that the statistics depend on. */
  ghost predicate QuietBatch(stream: map<EntryId, Msg>, ds: seq<Delivery>) {
    forall d | d in ds :: d.entry in stream && d.faults.Quiet()
  }

  /** A single consumer's run that is exact so far, and at rest. */
  ghost predicate Healthy(h: seq<Step>) {
    SoloRun(h) && Clean(Reached(h))
  }

  /** The same stream, still healthy, and the detail table grown as DetailAfter says. */
  ghost predicate Became(h: seq<Step>, h': seq<Step>, ds: seq<Delivery>) {
    && Healthy(h')
    && Reached(h').stream == Reached(h).stream
    && Reached(h').detail == DetailAfter(Reached(h).stream, Reached(h).detail, ds)
    && Reached(h').acked == Reached(h).acked + AckedOf(Reached(h).stream, ds)
  }

  /** The deliveries, none with a failing upsert, whose acknowledgement is due and arrives. */
  ghost function AckedOf(stream: map<EntryId, Msg>, ds: seq<Delivery>): set<EntryId> {
    set d | d in ds && d.entry in stream && stream[d.entry].shortCode != "" && !d.faults.insert && !d.faults.ack :: d.entry
  }

  lemma AckedApart(stream: map<EntryId, Msg>, ds: seq<Delivery>, ds': seq<Delivery>)
    ensures AckedOf(stream, ds + ds') == AckedOf(stream, ds) + AckedOf(stream, ds')
  {
  }

  lemma AckedOne(stream: map<EntryId, Msg>, d: Delivery)
    requires d.entry in stream
    ensures AckedOf(stream, [d]) == if stream[d.entry].shortCode != "" && !d.faults.insert && !d.faults.ack then {d.entry} else {}
  {
    assert d in [d];
  }

  lemma MessageKeepsHealthy(h: seq<Step>, d: Delivery)
    requires Healthy(h) && d.entry in Reached(h).stream && d.faults.Quiet()
    ensures Became(h, h + MessageSteps(d), [d])
  {
    MessageSolo(h, d);
    MessageRests(Reached(h), d);
    AckedOne(Reached(h).stream, d);
    RunSplit(Empty, h, MessageSteps(d));
  }

  lemma BecameTrans(h: seq<Step>, h': seq<Step>, h'': seq<Step>, ds: seq<Delivery>, d: Delivery)
    requires Became(h, h', ds) && Became(h', h'', [d])
    ensures Became(h, h'', ds + [d])
  {
    DetailAppend(Reached(h).stream, Reached(h).detail, ds, d);
    AckedApart(Reached(h).stream, ds, [d]);
  }

  lemma OneMoreMessage(h: seq<Step>, ds: seq<Delivery>, d: Delivery)
    ensures h + BatchSteps(ds + [d]) == h + BatchSteps(ds) + MessageSteps(d)
  {
    BatchAppend(ds, d);
    assert h + (BatchSteps(ds) + MessageSteps(d)) == h + BatchSteps(ds) + MessageSteps(d);
  }

  lemma BatchStep(h: seq<Step>, h': seq<Step>, front: seq<Delivery>, d: Delivery)
    requires Became(h, h', front) && d.entry in Reached(h).stream && d.faults.Quiet()
    ensures Became(h, h' + MessageSteps(d), front + [d])
  {
    MessageKeepsHealthy(h', d);
    BecameTrans(h, h', h' + MessageSteps(d), front, d);
  }

  /** Quiet deliveries keep a single consumer's run exact. */
  lemma {:induction false} BatchKeepsHealthy(h: seq<Step>, ds: seq<Delivery>)
    requires Healthy(h) && QuietBatch(Reached(h).stream, ds)
    ensures Became(h, h + BatchSteps(ds), ds)
  {
    if ds == [] {
      assert h + BatchSteps(ds) == h;
    } else {
      var front, d := ds[..|ds| - 1], ds[|ds| - 1];
      assert d in ds;
      BatchKeepsHealthy(h, front);
      BatchStep(h, h + BatchSteps(front), front, d);
      OneMoreMessage(h, front, d);
      assert ds == front + [d];
    }
  }

  // ---------------------------------------------------------------- the tables as functions of what arrived

  /** The entries that were delivered at least once without an insert fault. */
  ghost function Landed(ds: seq<Delivery>): set<EntryId> {
    set d | d in ds && !d.faults.insert :: d.entry
  }

  /** Equal event ids mean equal clicks, and every click carries a readable time. */
  ghost predicate Consistent(stream: map<EntryId, Msg>) {
    && (forall e, e' | e in stream && e' in stream :: stream[e].eventId == stream[e'].eventId ==> stream[e] == stream[e'])
    && (forall e | e in stream :: stream[e].occurredAt.Some?)
  }

  /** The message says what the row says. */
  predicate Tells(m: Msg, row: Detail) {
    m == Msg(m.eventId, row.key.code, Some(row.key.date), row.ip, row.referer)
  }

  ghost predicate IsRowOf(stream: map<EntryId, Msg>, landed: set<EntryId>, id: EventId, row: Detail) {
    exists e :: e in landed && e in stream && stream[e].shortCode != "" && stream[e].eventId == id && Tells(stream[e], row)
  }

  /** The rows are exactly those of the clicks that arrived, one for each event id. */
  ghost predicate HoldsArrivals(stream: map<EntryId, Msg>, landed: set<EntryId>, detail: map<EventId, Detail>) {
    && (forall id {:trigger id in detail} | id in detail :: IsRowOf(stream, landed, id, detail[id]))
    && (forall e | e in landed && e in stream && stream[e].shortCode != "" ::
          stream[e].eventId in detail && Tells(stream[e], detail[stream[e].eventId]))
  }

  /** More deliveries: the rows are those of what had arrived and of what arrives now. */
  lemma {:induction false} DetailIsArrivals(stream: map<EntryId, Msg>, landed: set<EntryId>, detail: map<EventId, Detail>, ds: seq<Delivery>)
    requires Consistent(stream) && HoldsArrivals(stream, landed, detail)
    ensures HoldsArrivals(stream, landed + Landed(ds), DetailAfter(stream, detail, ds))
  {
    if ds == [] {
      assert landed + Landed(ds) == landed;
    } else {
      var front, d := ds[..|ds| - 1], ds[|ds| - 1];
      DetailIsArrivals(stream, landed, detail, front);
      assert ds == front + [d];
      assert Landed(ds) == Landed(front) + if d.faults.insert then {} else {d.entry};
      OneMoreArrival(stream, landed + Landed(front), DetailAfter(stream, detail, front), d);
      assert landed + Landed(ds) == landed + Landed(front) + if d.faults.insert then {} else {d.entry};
      DetailAppend(stream, detail, front, d);
    }
  }

  lemma OneMoreArrival(stream: map<EntryId, Msg>, landed: set<EntryId>, detail: map<EventId, Detail>, d: Delivery)
    requires Consistent(stream) && HoldsArrivals(stream, landed, detail)
    ensures HoldsArrivals(stream, landed + (if d.faults.insert then {} else {d.entry}), DetailAfter(stream, detail, [d]))
  {
    var landed' := landed + if d.faults.insert then {} else {d.entry};
    assert [d][..|[d]| - 1] == [] && [d][|[d]| - 1] == d;
    var after := DetailAfter(stream, detail, [d]);
    assert DetailAfter(stream, detail, [d][..|[d]| - 1]) == detail;
    forall id | id in after
      ensures IsRowOf(stream, landed', id, after[id])
    {
      if id in detail {
        assert IsRowOf(stream, landed, id, detail[id]);
      } else {
        assert d.entry in landed';
      }
    }
    forall e | e in landed' && e in stream && stream[e].shortCode != ""
      ensures stream[e].eventId in after && Tells(stream[e], after[stream[e].eventId])
    {
      if e in landed {
        assert stream[e].eventId in detail;
      } else if stream[e].eventId in detail {
        assert IsRowOf(stream, landed, stream[e].eventId, detail[stream[e].eventId]);
      }
    }
  }

  /** A new entry changes nothing before it is delivered. */
  lemma ArrivalsWait(stream: map<EntryId, Msg>, landed: set<EntryId>, detail: map<EventId, Detail>, entry: EntryId, msg: Msg)
    requires HoldsArrivals(stream, landed, detail) && landed <= stream.Keys && entry !in stream
    ensures HoldsArrivals(stream[entry := msg], landed, detail)
  {
    forall id | id in detail
      ensures IsRowOf(stream[entry := msg], landed, id, detail[id])
    {
      assert IsRowOf(stream, landed, id, detail[id]);
    }
  }

  /** The entry is a click of key k. */
  predicate IsClick(stream: map<EntryId, Msg>, e: EntryId, k: Key) {
    e in stream && stream[e].shortCode != "" && stream[e].shortCode == k.code && stream[e].occurredAt == Some(k.date)
  }

  lemma AcksWait(stream: map<EntryId, Msg>, ds: seq<Delivery>, entry: EntryId, msg: Msg)
    requires Landed(ds) <= stream.Keys && entry !in stream
    ensures AckedOf(stream[entry := msg], ds) == AckedOf(stream, ds)
  {
    forall d | d in ds && !d.faults.insert
      ensures d.entry in stream
    {
      assert d.entry in Landed(ds);
    }
  }

  /** The distinct event ids of key k among the arrived entries. */
  ghost function ArrivedEvents(stream: map<EntryId, Msg>, landed: set<EntryId>, k: Key): set<EventId> {
    set e | e in landed && IsClick(stream, e, k) :: stream[e].eventId
  }

  /** The distinct non-empty addresses of key k among them. */
  ghost function ArrivedAddresses(stream: map<EntryId, Msg>, landed: set<EntryId>, k: Key): set<string> {
    set e | e in landed && IsClick(stream, e, k) && stream[e].ip != "" :: stream[e].ip
  }

  lemma ArrivalsCounted(stream: map<EntryId, Msg>, landed: set<EntryId>, detail: map<EventId, Detail>, k: Key)
    requires HoldsArrivals(stream, landed, detail)
    ensures Of(detail, detail.Keys, k) == ArrivedEvents(stream, landed, k)
    ensures Addresses(detail, k) == ArrivedAddresses(stream, landed, k)
  {
    forall id | id in Of(detail, detail.Keys, k)
      ensures id in ArrivedEvents(stream, landed, k)
      ensures detail[id].ip != "" ==> detail[id].ip in ArrivedAddresses(stream, landed, k)
    {
      assert IsRowOf(stream, landed, id, detail[id]);
    }
    forall ip | ip in ArrivedAddresses(stream, landed, k)
      ensures ip in Addresses(detail, k)
    {
      var e :| e in landed && IsClick(stream, e, k) && stream[e].ip != "" && stream[e].ip == ip;
      assert stream[e].eventId in detail;
    }
  }

  // ---------------------------------------------------------------- arrivals and batches in any order

  /** The stream at work: an entry arrives, or the consumer handles a batch. */
  datatype Work = Arrival(entry: EntryId, msg: Msg) | Batch(ds: seq<Delivery>)

  function StepsOf(work: Work): seq<Step> {
    match work
    case Arrival(entry, msg) => [Publish(entry, msg)]
    case Batch(ds) => BatchSteps(ds)
  }

  function WorkSteps(works: seq<Work>): seq<Step> {
    if works == [] then [] else WorkSteps(works[..|works| - 1]) + StepsOf(works[|works| - 1])
  }

  /** All that was delivered, batch after batch. */
  function Deliveries(works: seq<Work>): seq<Delivery> {
    if works == [] then []
    else Deliveries(works[..|works| - 1]) + DeliveriesOf(works[|works| - 1])
  }

  function DeliveriesOf(work: Work): seq<Delivery> {
    if work.Batch? then work.ds else []
  }

  /** An entry arrives once; what is delivered has arrived, and meets no fault that the statistics depend on. */
  ghost predicate Live(works: seq<Work>) {
    works == [] || (Live(works[..|works| - 1]) && Follows(Reached(WorkSteps(works[..|works| - 1])).stream, works[|works| - 1]))
  }

  ghost predicate Follows(stream: map<EntryId, Msg>, work: Work) {
    match work
    case Arrival(entry, _) => entry !in stream
    case Batch(ds) => QuietBatch(stream, ds)
  }

  lemma ArrivalKeepsHealthy(h: seq<Step>, entry: EntryId, msg: Msg)
    requires Healthy(h) && entry !in Reached(h).stream
    ensures Healthy(h + [Publish(entry, msg)])
    ensures Reached(h + [Publish(entry, msg)]) == Reached(h).(stream := Reached(h).stream[entry := msg])
  {
    var steps := h + [Publish(entry, msg)];
    assert steps[..|h|] == h;
    forall i | 0 <= i < |steps|
      ensures SoloStep(Reached(steps[..i]), steps[i])
    {
      if i < |h| {
        assert steps[..i] == h[..i];
      }
    }
  }

  /** The run is exact so far, and detail table and acknowledgements are those of what was delivered. */
  ghost predicate WellRun(h: seq<Step>, ds: seq<Delivery>) {
    && Healthy(h)
    && Landed(ds) <= Reached(h).stream.Keys
    && (Consistent(Reached(h).stream) ==> HoldsArrivals(Reached(h).stream, Landed(ds), Reached(h).detail))
    && Reached(h).acked == AckedOf(Reached(h).stream, ds)
  }

  lemma LandedApart(ds: seq<Delivery>, ds': seq<Delivery>)
    ensures Landed(ds + ds') == Landed(ds) + Landed(ds')
  {
  }

  lemma BatchStaysWellRun(h: seq<Step>, before: seq<Delivery>, ds: seq<Delivery>)
    requires WellRun(h, before) && QuietBatch(Reached(h).stream, ds)
    ensures WellRun(h + BatchSteps(ds), before + ds)
  {
    BatchKeepsHealthy(h, ds);
    LandedApart(before, ds);
    AckedApart(Reached(h).stream, before, ds);
    if Consistent(Reached(h).stream) {
      DetailIsArrivals(Reached(h).stream, Landed(before), Reached(h).detail, ds);
    }
  }

  lemma ArrivalStaysWellRun(h: seq<Step>, before: seq<Delivery>, entry: EntryId, msg: Msg)
    requires WellRun(h, before) && entry !in Reached(h).stream
    ensures WellRun(h + [Publish(entry, msg)], before)
  {
    ArrivalKeepsHealthy(h, entry, msg);
    var stream := Reached(h).stream;
    AcksWait(stream, before, entry, msg);
    if Consistent(stream[entry := msg]) {
      assert forall e | e in stream :: stream[entry := msg][e] == stream[e];
      ArrivalsWait(stream, Landed(before), Reached(h).detail, entry, msg);
    }
  }

  lemma StaysWellRun(h: seq<Step>, before: seq<Delivery>, work: Work)
    requires WellRun(h, before) && Follows(Reached(h).stream, work)
    ensures WellRun(h + StepsOf(work), before + DeliveriesOf(work))
  {
    match work
    case Arrival(entry, msg) =>
      ArrivalStaysWellRun(h, before, entry, msg);
      assert before + DeliveriesOf(work) == before;
    case Batch(ds) => BatchStaysWellRun(h, before, ds);
  }

  lemma EmptyIsWellRun()
    ensures WellRun([], [])
  {
    EmptyInv();
  }

  lemma {:induction false} LiveIsWellRun(works: seq<Work>, h: seq<Step>, ds: seq<Delivery>)
    requires Live(works) && h == WorkSteps(works) && ds == Deliveries(works)
    ensures WellRun(h, ds)
  {
    if works == [] {
      EmptyIsWellRun();
    } else {
      var front, last := works[..|works| - 1], works[|works| - 1];
      LiveIsWellRun(front, WorkSteps(front), Deliveries(front));
      StaysWellRun(WorkSteps(front), Deliveries(front), last);
    }
  }

  /** However entries arrive and are handed to a consumer, interleaved, duplicated, reordered, in batches of any
      size, PV is the number of distinct event ids and UV of distinct non-empty addresses of what arrived there. */
  lemma DeliveredStats(works: seq<Work>, k: Key)
    requires Live(works) && Consistent(Reached(WorkSteps(works)).stream)
    ensures
      var s, landed := Reached(WorkSteps(works)), Landed(Deliveries(works));
      && Pv(s, k) == |ArrivedEvents(s.stream, landed, k)|
      && Uv(s, k) == |ArrivedAddresses(s.stream, landed, k)|
  {
    LiveIsWellRun(works, WorkSteps(works), Deliveries(works));
    SoloExact(WorkSteps(works), k);
    ArrivalsCounted(Reached(WorkSteps(works)).stream, Landed(Deliveries(works)), Reached(WorkSteps(works)).detail, k);
  }

  /** The entries acknowledged are exactly those that name a link and were stored, and acknowledged without a fault, at
      least once. */
  lemma DeliveredAcks(works: seq<Work>)
    requires Live(works)
    ensures Reached(WorkSteps(works)).acked
         == set d | d in Deliveries(works) && d.entry in Reached(WorkSteps(works)).stream
                 && Reached(WorkSteps(works)).stream[d.entry].shortCode != "" && !d.faults.insert && !d.faults.ack :: d.entry
  {
    LiveIsWellRun(works, WorkSteps(works), Deliveries(works));
  }

  /** A message of any run at rest is acknowledged exactly if it was before, or it names a link, its event is stored now
      or was before, and if now is counted, and the acknowledgement arrives. */
  lemma AckedIff(steps: seq<Step>, d: Delivery)
    requires Reached(steps).workers == map[] && d.entry in Reached(steps).stream
    ensures
      var s, m := Reached(steps), Reached(steps).stream[d.entry];
      d.entry in Reached(steps + MessageSteps(d)).acked <==>
      || d.entry in s.acked
      || (m.shortCode != "" && !d.faults.insert && !d.faults.ack && (m.eventId in s.detail || !d.faults.upsert))
  {
    RunSplit(Empty, steps, MessageSteps(d));
    MessageRests(Reached(steps), d);
  }

  /** Two histories in which the same entries arrived and landed end with the same detail rows and statistics. */
  lemma OrderAndBatchingIrrelevant(works: seq<Work>, works': seq<Work>)
    requires Live(works) && Live(works') && Consistent(Reached(WorkSteps(works)).stream)
    requires Reached(WorkSteps(works)).stream == Reached(WorkSteps(works')).stream
    requires Landed(Deliveries(works)) == Landed(Deliveries(works'))
    ensures Reached(WorkSteps(works)).detail == Reached(WorkSteps(works')).detail
    ensures Reached(WorkSteps(works)).stat == Reached(WorkSteps(works')).stat
  {
    var h, h' := WorkSteps(works), WorkSteps(works');
    LiveIsWellRun(works, WorkSteps(works), Deliveries(works));
    LiveIsWellRun(works', WorkSteps(works'), Deliveries(works'));
    SameArrivals(Reached(h).stream, Landed(Deliveries(works)), Reached(h).detail, Reached(h').detail);
    forall k
      ensures Apart(h, k) && Apart(h', k)
    {
      SoloIsApart(h, k);
      SoloIsApart(h', k);
    }
    SameRowsSameStats(h, h');
  }

  lemma SameArrivals(stream: map<EntryId, Msg>, landed: set<EntryId>, a: map<EventId, Detail>, b: map<EventId, Detail>)
    requires Consistent(stream) && HoldsArrivals(stream, landed, a) && HoldsArrivals(stream, landed, b)
    ensures a == b
  {
    forall id
      ensures id in a <==> id in b
      ensures id in a ==> a[id] == b[id]
    {
      if id in a {
        assert IsRowOf(stream, landed, id, a[id]);
      }
      if id in b {
        assert IsRowOf(stream, landed, id, b[id]);
      }
    }
  }
}
