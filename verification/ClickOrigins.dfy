/** Where the rows of the detail table come from, in every run. */
module ClickOrigins {
  import opened ClickMachine
  import opened ClickAccounting
  import opened ClickRaces

  /** Step i is the first successful insert for this event id: some consumer holds an entry that carries it and names
      a link. */
  ghost predicate StoresAt(steps: seq<Step>, i: nat, id: EventId)
    requires i < |steps|
  {
    var s, step := Reached(steps[..i]), steps[i];
    && step.Insert? && step.ok
    && step.w in s.workers && s.workers[step.w].Received? && s.workers[step.w].entry in s.stream
    && s.stream[s.workers[step.w].entry].eventId == id && s.stream[s.workers[step.w].entry].shortCode != ""
    && id !in s.detail
  }

  /** The message that step i stores. */
  ghost function MessageAt(steps: seq<Step>, i: nat, id: EventId): Msg
    requires i < |steps| && StoresAt(steps, i, id)
  {
    var s := Reached(steps[..i]);
    s.stream[s.workers[steps[i].w].entry]
  }

  /** The row has the code, address and referrer of the message, and its day, or the clock's day if it has none. */
  predicate TakenFrom(row: Detail, m: Msg, now: Date) {
    && row.key.code == m.shortCode && row.ip == m.ip && row.referer == m.referer
    && row.key.date == (match m.occurredAt case Some(date) => date case None => now)
  }

  lemma {:induction false} StoredAtSomeStep(steps: seq<Step>, id: EventId) returns (i: nat)
    requires id in Reached(steps).detail
    ensures i < |steps| && StoresAt(steps, i, id)
  {
    var n := |steps| - 1;
    if id in Reached(steps[..n]).detail {
      i := StoredAtSomeStep(steps[..n], id);
      assert steps[..n][..i] == steps[..i];
    } else {
      i := n;
      OnlyInsertStores(Reached(steps[..n]), steps[n], id);
    }
  }

  lemma OnlyInsertStores(s: State, step: Step, id: EventId)
    requires id in Next(s, step).detail && id !in s.detail
    ensures step.Insert? && step.ok && Enabled(s, step)
    ensures s.stream[s.workers[step.w].entry].eventId == id && s.stream[s.workers[step.w].entry].shortCode != ""
  {
  }

  lemma InsertStores(s: State, step: Step)
    requires step.Insert? && step.ok && Enabled(s, step)
    requires s.stream[s.workers[step.w].entry].shortCode != "" && s.stream[s.workers[step.w].entry].eventId !in s.detail
    ensures
      var m, t := s.stream[s.workers[step.w].entry], Next(s, step);
      m.eventId in t.detail && TakenFrom(t.detail[m.eventId], m, step.now)
  {
  }

  /** What was stored stays as it was stored. */
  lemma StoredRow(steps: seq<Step>, i: nat, id: EventId)
    requires i < |steps| && StoresAt(steps, i, id)
    ensures id in Reached(steps).detail && TakenFrom(Reached(steps).detail[id], MessageAt(steps, i, id), steps[i].now)
  {
    InsertStores(Reached(steps[..i]), steps[i]);
    assert steps[..i + 1][..i] == steps[..i] && steps[..i + 1][i] == steps[i];
    assert Reached(steps[..i + 1]) == Next(Reached(steps[..i]), steps[i]);
    RowStays(steps, i + 1, id);
  }

  /** After any run, an event id has a row if and only if some step was its first successful insert. */
  lemma StoredIff(steps: seq<Step>, id: EventId)
    ensures id in Reached(steps).detail <==> exists i :: 0 <= i < |steps| && StoresAt(steps, i, id)
  {
    if id in Reached(steps).detail {
      var i := StoredAtSomeStep(steps, id);
    }
    forall i | 0 <= i < |steps| && StoresAt(steps, i, id)
      ensures id in Reached(steps).detail
    {
      StoredRow(steps, i, id);
    }
  }

  lemma {:induction false} EntryStays(s: State, steps: seq<Step>, e: EntryId)
    requires e in s.stream
    ensures e in Run(s, steps).stream && Run(s, steps).stream[e] == s.stream[e]
  {
    if steps != [] {
      var front := steps[..|steps| - 1];
      EntryStays(s, front, e);
      EntryStaysOnce(Run(s, front), steps[|steps| - 1], e);
    }
  }

  lemma EntryStaysOnce(s: State, step: Step, e: EntryId)
    requires e in s.stream
    ensures e in Next(s, step).stream && Next(s, step).stream[e] == s.stream[e]
  {
  }

  /** In every reachable state, each row was stored by one step, from a published entry with that event id, and has
      what its message says; the day of a message without a readable time is that of the consumer's clock. */
  lemma RowOrigin(steps: seq<Step>, id: EventId) returns (i: nat, e: EntryId)
    requires id in Reached(steps).detail
    ensures i < |steps| && StoresAt(steps, i, id) && e == Reached(steps[..i]).workers[steps[i].w].entry
    ensures e in Reached(steps).stream && Reached(steps).stream[e].eventId == id && Reached(steps).stream[e].shortCode != ""
    ensures TakenFrom(Reached(steps).detail[id], Reached(steps).stream[e], steps[i].now)
  {
    i := StoredAtSomeStep(steps, id);
    e := Reached(steps[..i]).workers[steps[i].w].entry;
    StoredRow(steps, i, id);
    assert steps == steps[..i] + steps[i..];
    RunSplit(Empty, steps[..i], steps[i..]);
    EntryStays(Reached(steps[..i]), steps[i..], e);
  }
}
