/** The consumer of TrafficService/internal/consumer: what its loops and effects do to the tables,
    and that every call of it is a run of the state machine. */
module ClickConsumer {
  import opened ClickMachine
  import opened ClickAccounting

  /** Which of a message's effects fail; a failed effect changes nothing. */
  datatype Faults = Faults(insert: bool, check: bool, add: bool, upsert: bool, ack: bool) {
    /** Nothing fails that the statistics depend on. */
    predicate Quiet() {
      !check && !add && !upsert
    }
  }

  /** One message of a batch, with the consumer's clock and the faults it will meet. */
  datatype Delivery = Delivery(entry: EntryId, now: Date, faults: Faults)

  /** What XREADGROUP returns: streams of messages, nothing in time, or another error. */
  datatype ReadReply = Streams(streams: seq<seq<Delivery>>) | NoData | ReadError

  datatype InsertResult = Written | Duplicate | Failed

  /** The machine steps of consumer 0 handling one message; those that do not apply change nothing. */
  function HandleSteps(d: Delivery): seq<Step> {
    [Deliver(0, d.entry), Insert(0, d.now, !d.faults.insert), Check(0, !d.faults.check), Add(0, !d.faults.add), Upsert(0, !d.faults.upsert)]
  }

  function MessageSteps(d: Delivery): seq<Step> {
    HandleSteps(d) + [Ack(0, !d.faults.ack)]
  }

  function BatchSteps(ds: seq<Delivery>): seq<Step> {
    if ds == [] then [] else BatchSteps(ds[..|ds| - 1]) + MessageSteps(ds[|ds| - 1])
  }

  function Flatten<T>(parts: seq<seq<T>>): seq<T> {
    if parts == [] then [] else Flatten(parts[..|parts| - 1]) + parts[|parts| - 1]
  }

  /** The detail table after these deliveries: the first stored row of an event id stays. */
  function DetailAfter(stream: map<EntryId, Msg>, detail: map<EventId, Detail>, ds: seq<Delivery>): map<EventId, Detail> {
    if ds == [] then detail
    else
      var before, d := DetailAfter(stream, detail, ds[..|ds| - 1]), ds[|ds| - 1];
      if d.entry !in stream || d.faults.insert || stream[d.entry].shortCode == "" || stream[d.entry].eventId in before then before
      else before[stream[d.entry].eventId := RowOf(stream[d.entry], d.now)]
  }

  // ---------------------------------------------------------------- the machine on one message

  lemma FiveSteps(s: State, d: Delivery)
    ensures Run(s, HandleSteps(d)) ==
            Next(Next(Next(Next(Next(s, HandleSteps(d)[0]), HandleSteps(d)[1]), HandleSteps(d)[2]), HandleSteps(d)[3]), HandleSteps(d)[4])
  {
    var steps := HandleSteps(d);
    RunTwo(s, steps[0], steps[1]);
    RunAppendTwo(s, steps[..2], steps[2], steps[3]);
    assert steps[..4] == steps[..2] + [steps[2], steps[3]];
    assert steps[..2] == [steps[0], steps[1]];
  }

  /** Nothing is stored for a message without a code, or when the insert fails. */
  lemma RefusedPath(s: State, d: Delivery)
    requires s.workers == map[] && d.entry in s.stream
    requires s.stream[d.entry].shortCode == "" || d.faults.insert
    ensures Run(s, HandleSteps(d)) == s
  {
    FiveSteps(s, d);
    assert s.workers[0 := Received(d.entry)] - {0} == s.workers;
  }

  lemma DuplicatePath(s: State, d: Delivery)
    requires s.workers == map[] && d.entry in s.stream
    requires s.stream[d.entry].shortCode != "" && !d.faults.insert && s.stream[d.entry].eventId in s.detail
    ensures Run(s, HandleSteps(d)) == s.(workers := map[0 := Acking(d.entry)])
  {
    FiveSteps(s, d);
    var t := Next(Next(s, HandleSteps(d)[0]), HandleSteps(d)[1]);
    assert t == s.(workers := map[0 := Acking(d.entry)]);
  }

  /** The state in which consumer 0 has stored the row of a new event. */
  function AfterInsert(s: State, d: Delivery): State
    requires d.entry in s.stream
  {
    var m := s.stream[d.entry];
    s.(detail := s.detail[m.eventId := RowOf(m, d.now)], workers := map[0 := Inserted(d.entry, m.eventId)])
  }

  function IsFirst(s: State, row: Detail, f: Faults): bool {
    row.ip != "" && !f.check && row.ip !in VisitorsOf(s.visitors, row.key)
  }

  /** ... and in which it also has its answer. */
  function AfterVisit(s: State, d: Delivery): State
    requires d.entry in s.stream
  {
    var m := s.stream[d.entry];
    var row := RowOf(m, d.now);
    var first := IsFirst(s, row, d.faults);
    AfterInsert(s, d).(
      workers := map[0 := Visited(d.entry, m.eventId, first)],
      visitors := if first && !d.faults.add then s.visitors[row.key := VisitorsOf(s.visitors, row.key) + {row.ip}] else s.visitors,
      ledger := s.ledger.(
        firsts := if first then s.ledger.firsts + {m.eventId} else s.ledger.firsts,
        skipped := if row.ip != "" && d.faults.check then s.ledger.skipped + {m.eventId} else s.ledger.skipped))
  }

  lemma VisitPath(s: State, d: Delivery)
    requires s.workers == map[] && d.entry in s.stream
    ensures Next(Next(AfterInsert(s, d), Check(0, !d.faults.check)), Add(0, !d.faults.add)) == AfterVisit(s, d)
  {
    if IsFirst(s, RowOf(s.stream[d.entry], d.now), d.faults) {
      FirstPath(s, d);
    } else {
      NotFirstPath(s, d);
    }
  }

  lemma NotFirstPath(s: State, d: Delivery)
    requires s.workers == map[] && d.entry in s.stream
    requires !IsFirst(s, RowOf(s.stream[d.entry], d.now), d.faults)
    ensures Next(Next(AfterInsert(s, d), Check(0, !d.faults.check)), Add(0, !d.faults.add)) == AfterVisit(s, d)
  {
    var t := AfterInsert(s, d);
    assert CheckStep(t, 0, !d.faults.check) == AfterVisit(s, d);
  }

  lemma FirstPath(s: State, d: Delivery)
    requires s.workers == map[] && d.entry in s.stream
    requires IsFirst(s, RowOf(s.stream[d.entry], d.now), d.faults)
    ensures Next(Next(AfterInsert(s, d), Check(0, !d.faults.check)), Add(0, !d.faults.add)) == AfterVisit(s, d)
  {
    var t := AfterInsert(s, d);
    var u := t.(workers := map[0 := Unseen(d.entry, s.stream[d.entry].eventId)]);
    assert CheckStep(t, 0, !d.faults.check) == u;
    assert AddStep(u, 0, !d.faults.add) == AfterVisit(s, d);
  }

  lemma InsertPath(s: State, d: Delivery)
    requires s.workers == map[] && d.entry in s.stream
    requires s.stream[d.entry].shortCode != "" && !d.faults.insert && s.stream[d.entry].eventId !in s.detail
    ensures Next(Next(s, Deliver(0, d.entry)), Insert(0, d.now, true)) == AfterInsert(s, d)
  {
  }

  /** ... and finally its count or its loss. */
  function AfterUpsert(s: State, d: Delivery): State
    requires d.entry in s.stream
  {
    var m, v := s.stream[d.entry], AfterVisit(s, d);
    var row := RowOf(m, d.now);
    if d.faults.upsert then v.(workers := map[], ledger := v.ledger.(lost := v.ledger.lost + {m.eventId}))
    else v.(workers := map[0 := Acking(d.entry)], stat := Bump(s.stat, row.key, if IsFirst(s, row, d.faults) then 1 else 0),
            ledger := v.ledger.(counted := v.ledger.counted + {m.eventId}))
  }

  lemma UpsertPath(s: State, d: Delivery)
    requires s.workers == map[] && d.entry in s.stream
    ensures Next(AfterVisit(s, d), Upsert(0, !d.faults.upsert)) == AfterUpsert(s, d)
  {
    assert UpsertStep(AfterVisit(s, d), 0, !d.faults.upsert) == AfterUpsert(s, d);
  }

  lemma NewEventPath(s: State, d: Delivery)
    requires s.workers == map[] && d.entry in s.stream
    requires s.stream[d.entry].shortCode != "" && !d.faults.insert && s.stream[d.entry].eventId !in s.detail
    ensures Run(s, HandleSteps(d)) == AfterUpsert(s, d)
  {
    FiveSteps(s, d);
    InsertPath(s, d);
    VisitPath(s, d);
    UpsertPath(s, d);
  }

  // ---------------------------------------------------------------- the consumer

  class Consumer {
    var stream: map<EntryId, Msg>
    var detail: map<EventId, Detail>
    var stat: map<Key, Stat>
    var visitors: map<Key, set<string>>
    var acked: set<EntryId>
    ghost var ledger: Ledger
    ghost var history: seq<Step>

    ghost function View(): State
      reads this
    {
      State(stream, detail, stat, visitors, map[], acked, ledger)
    }

    /** The tables are what the recorded steps make of empty ones. */
    ghost predicate Valid()
      reads this
    {
      View() == Reached(history)
    }

    constructor ()
      ensures Valid() && View() == Empty && history == []
    {
      stream, detail, stat, visitors, acked := map[], map[], map[], map[], {};
      ledger, history := Empty.ledger, [];
    }

    /** A click event is appended to the stream. */
    method Append(entry: EntryId, msg: Msg)
      requires Valid() && entry !in stream
      modifies `stream, `history
      ensures Valid() && stream == old(stream)[entry := msg]
      ensures history == old(history) + [Publish(entry, msg)]
    {
      ghost var steps := history + [Publish(entry, msg)];
      assert steps[..|steps| - 1] == history;
      stream := stream[entry := msg];
      history := steps;
    }

    /** firstVisit: false for an empty address, a failed SISMEMBER or a known address; otherwise the address
        is added, and the answer is true even when SADD fails. */
    method FirstVisit(k: Key, ip: string, f: Faults) returns (first: bool)
      modifies `visitors
      ensures first <==> ip != "" && !f.check && ip !in VisitorsOf(old(visitors), k)
      ensures visitors == if first && !f.add then old(visitors)[k := VisitorsOf(old(visitors), k) + {ip}] else old(visitors)
    {
      if ip == "" {
        return false;
      }
      if f.check {
        return false;
      }
      var exists' := ip in VisitorsOf(visitors, k);
      if exists' {
        return false;
      }
      if !f.add {
        visitors := visitors[k := VisitorsOf(visitors, k) + {ip}];
      }
      return true;
    }

    /** insertClickEvent: event_id is unique. */
    method InsertClickEvent(id: EventId, row: Detail, f: Faults) returns (r: InsertResult)
      modifies `detail
      ensures r == if f.insert then Failed else if id in old(detail) then Duplicate else Written
      ensures detail == if r.Written? then old(detail)[id := row] else old(detail)
    {
      if f.insert {
        return Failed;
      }
      if id in detail {
        return Duplicate;
      }
      detail := detail[id := row];
      return Written;
    }

    /** upsertDailyStats: asks for the first visit, then bumps the day's row. */
    method UpsertDailyStats(row: Detail, f: Faults) returns (ok: bool, first: bool)
      modifies `visitors, `stat
      ensures ok == !f.upsert
      ensures first <==> row.ip != "" && !f.check && row.ip !in VisitorsOf(old(visitors), row.key)
      ensures visitors == if first && !f.add then old(visitors)[row.key := VisitorsOf(old(visitors), row.key) + {row.ip}] else old(visitors)
      ensures stat == if ok then Bump(old(stat), row.key, if first then 1 else 0) else old(stat)
    {
      var uvDelta := 0;
      first := FirstVisit(row.key, row.ip, f);
      if first {
        uvDelta := 1;
      }
      if f.upsert {
        return false, first;
      }
      stat := Bump(stat, row.key, uvDelta);
      return true, first;
    }

    /** handleMessage: one message becomes a row and a count.  A duplicate is success, so that it is acknowledged. */
    method HandleMessage(d: Delivery) returns (ok: bool)
      requires d.entry in stream
      modifies `detail, `stat, `visitors, `ledger
      ensures Run(old(View()), HandleSteps(d)) == if ok then View().(workers := map[0 := Acking(d.entry)]) else View()
      ensures detail == DetailAfter(stream, old(detail), [d])
    {
      ghost var before := View();
      assert [d][..0] == [];
      var m := stream[d.entry];
      if m.shortCode == "" {
        RefusedPath(before, d);
        return false;
      }
      var row := RowOf(m, d.now);
      var r := InsertClickEvent(m.eventId, row, d.faults);
      if r.Duplicate? {
        DuplicatePath(before, d);
        return true;
      }
      if r.Failed? {
        RefusedPath(before, d);
        return false;
      }
      NewEventPath(before, d);
      ok := CountEvent(d, row, before);
    }

    /** The rest of handleMessage, once the row is stored. */
    method CountEvent(d: Delivery, row: Detail, ghost before: State) returns (ok: bool)
      requires d.entry in stream && row == RowOf(stream[d.entry], d.now) && before.stream == stream
      requires View() == AfterInsert(before, d).(workers := map[])
      modifies `stat, `visitors, `ledger
      ensures AfterUpsert(before, d) == if ok then View().(workers := map[0 := Acking(d.entry)]) else View()
    {
      ledger := AfterVisit(before, d).ledger;
      var first;
      ok, first := UpsertDailyStats(row, d.faults);
      if ok {
        ledger := ledger.(counted := ledger.counted + {stream[d.entry].eventId});
      } else {
        ledger := ledger.(lost := ledger.lost + {stream[d.entry].eventId});
      }
    }

    /** The consumer has handled exactly these messages since it had this history and this detail table. */
    ghost predicate HasHandled(h0: seq<Step>, d0: map<EventId, Detail>, handled: seq<Delivery>)
      reads this
    {
      && Valid()
      && history == h0 + BatchSteps(handled)
      && detail == DetailAfter(stream, d0, handled)
    }

    /** One turn of the inner loop: handle the message and, only on success, acknowledge it. */
    method HandleAndAck(d: Delivery, ghost h0: seq<Step>, ghost d0: map<EventId, Detail>, ghost handled: seq<Delivery>)
      requires HasHandled(h0, d0, handled) && d.entry in stream
      modifies `detail, `stat, `visitors, `acked, `ledger, `history
      ensures HasHandled(h0, d0, handled + [d])
    {
      ghost var before := View();
      var ok := HandleMessage(d);
      ghost var after := View();
      if ok && !d.faults.ack {
        acked := acked + {d.entry};
      }
      MessagePath(before, after, d, ok);
      RunSplit(Empty, history, MessageSteps(d));
      history := history + MessageSteps(d);
      BatchAppend(handled, d);
      DetailAppend(stream, d0, handled, d);
    }

    /** consumeOnce: every message of every stream in turn. */
    method ConsumeOnce(reply: ReadReply) returns (err: bool)
      requires Valid()
      requires reply.Streams? ==> forall d | d in Flatten(reply.streams) :: d.entry in stream
      modifies `detail, `stat, `visitors, `acked, `ledger, `history
      ensures err <==> reply.ReadError?
      ensures HasHandled(old(history), old(detail), if reply.Streams? then Flatten(reply.streams) else [])
    {
      ghost var h0, d0 := history, detail;
      if !reply.Streams? {
        return reply.ReadError?;
      }
      var streams := reply.streams;
      assert streams[..|streams|] == streams;
      for i := 0 to |streams|
        invariant HasHandled(h0, d0, Flatten(streams[..i]))
      {
        var messages := streams[i];
        ghost var earlier := Flatten(streams[..i]);
        FlattenPrefix(streams, i);
        assert earlier + messages[..0] == earlier;
        for j := 0 to |messages|
          invariant HasHandled(h0, d0, earlier + messages[..j])
        {
          HandleAndAck(messages[j], h0, d0, earlier + messages[..j]);
          assert earlier + messages[..j] + [messages[j]] == earlier + messages[..j + 1];
        }
        assert messages[..|messages|] == messages;
        assert streams[..i + 1][..i] == streams[..i];
      }
      return false;
    }
  }

  lemma MessagePath(before: State, after: State, d: Delivery, ok: bool)
    requires after.workers == map[]
    requires Run(before, HandleSteps(d)) == if ok then after.(workers := map[0 := Acking(d.entry)]) else after
    ensures Run(before, MessageSteps(d)) == after.(acked := if ok && !d.faults.ack then after.acked + {d.entry} else after.acked)
  {
    var ack := Ack(0, !d.faults.ack);
    RunSplit(before, HandleSteps(d), [ack]);
    RunCons(Run(before, HandleSteps(d)), ack, []);
    assert [ack] + [] == [ack];
    AckPath(after, d, ok);
  }

  lemma AckPath(s: State, d: Delivery, ok: bool)
    requires s.workers == map[]
    ensures Next(if ok then s.(workers := map[0 := Acking(d.entry)]) else s, Ack(0, !d.faults.ack))
         == s.(acked := if ok && !d.faults.ack then s.acked + {d.entry} else s.acked)
  {
    assert map[0 := Acking(d.entry)] - {0} == map[];
  }

  lemma {:induction false} FlattenPrefix<T(!new)>(parts: seq<seq<T>>, i: nat)
    requires i < |parts|
    ensures forall x | x in parts[i] :: x in Flatten(parts)
  {
    if i < |parts| - 1 {
      FlattenPrefix(parts[..|parts| - 1], i);
    }
  }

  /** Messages come stream by stream, and within a stream in their order. */
  lemma FlattenAppend<T>(parts: seq<seq<T>>, part: seq<T>)
    ensures Flatten(parts + [part]) == Flatten(parts) + part
  {
    assert (parts + [part])[..|parts|] == parts;
  }

  lemma BatchAppend(ds: seq<Delivery>, d: Delivery)
    ensures BatchSteps(ds + [d]) == BatchSteps(ds) + MessageSteps(d)
  {
    assert (ds + [d])[..|ds|] == ds;
  }

  lemma DetailAppend(stream: map<EntryId, Msg>, detail: map<EventId, Detail>, ds: seq<Delivery>, d: Delivery)
    ensures DetailAfter(stream, detail, ds + [d]) == DetailAfter(stream, DetailAfter(stream, detail, ds), [d])
  {
    assert (ds + [d])[..|ds|] == ds;
    assert [d][..0] == [];
  }
}
