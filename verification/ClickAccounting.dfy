/** What every run of the click pipeline leaves in its tables, whatever the interleaving and the faults. */
module ClickAccounting {
  import opened Prelude
  import opened ClickMachine

  // ---------------------------------------------------------------- any interleaving, any fault

  /** Every row of a key is counted in pv, was lost between insert and upsert, or is on its way. */
  lemma RowsConserved(steps: seq<Step>, k: Key)
    ensures
      var s := Reached(steps);
      |Rows(s, k)| == Pv(s, k) + |Of(s.detail, s.ledger.lost, k)| + |Of(s.detail, Flying(s), k)|
  {
    var s := Reached(steps);
    ReachedInv(steps);
    assert StatOk(s, k);
    FlyingApart(s);
    ThreeParts(s.detail, s.ledger.counted, s.ledger.lost, Flying(s), k);
  }

  lemma ThreeParts(detail: map<EventId, Detail>, a: set<EventId>, b: set<EventId>, c: set<EventId>, k: Key)
    requires a !! b && a !! c && b !! c
    ensures |Of(detail, a + b + c, k)| == |Of(detail, a, k)| + |Of(detail, b, k)| + |Of(detail, c, k)|
  {
    assert Of(detail, a + b + c, k) == Of(detail, a, k) + Of(detail, b, k) + Of(detail, c, k);
  }

  lemma FlyingApart(s: State)
    requires Inv(s)
    ensures Flying(s) !! s.ledger.counted && Flying(s) !! s.ledger.lost
  {
    forall id | id in Flying(s)
      ensures id !in s.ledger.counted && id !in s.ledger.lost
    {
      var w :| w in s.workers && s.workers[w].Busy() && s.workers[w].id == id;
      assert Fits(s, s.workers[w]);
    }
  }

  /** Every first visit is counted in uv, was lost before its upsert, or is on its way. */
  lemma FirstVisitsConserved(steps: seq<Step>, k: Key)
    ensures
      var s := Reached(steps);
      var firsts := s.ledger.firsts;
      |Of(s.detail, firsts, k)| == Uv(s, k) + |Of(s.detail, firsts * s.ledger.lost, k)| + |Of(s.detail, firsts * Flying(s), k)|
  {
    var s := Reached(steps);
    ReachedInv(steps);
    assert StatOk(s, k);
    var firsts := s.ledger.firsts;
    FlyingApart(s);
    FirstsApart(firsts, s.ledger.counted, s.ledger.lost, Flying(s));
    ThreeParts(s.detail, s.ledger.counted * firsts, firsts * s.ledger.lost, firsts * Flying(s), k);
  }

  lemma FirstsApart(firsts: set<EventId>, a: set<EventId>, b: set<EventId>, c: set<EventId>)
    requires firsts <= a + b + c
    ensures firsts == a * firsts + firsts * b + firsts * c
  {
  }

  /** UV never exceeds PV. */
  lemma UvAtMostPv(steps: seq<Step>, k: Key)
    ensures Uv(Reached(steps), k) <= Pv(Reached(steps), k)
  {
    var s := Reached(steps);
    ReachedInv(steps);
    assert StatOk(s, k);
    SubsetSize(Of(s.detail, s.ledger.counted * s.ledger.firsts, k), Of(s.detail, s.ledger.counted, k));
  }

  /** The distinct addresses are at most the first visits, the unanswered rows and the rows on their
      way: races and expiring uv sets can only add first visits, never hide an address. */
  lemma AddressesCovered(steps: seq<Step>, k: Key)
    ensures
      var s := Reached(steps);
      |Addresses(s.detail, k)| <= |Of(s.detail, s.ledger.firsts + s.ledger.skipped + Flying(s), k)|
  {
    var s := Reached(steps);
    ReachedInv(steps);
    var ids := Of(s.detail, s.ledger.firsts + s.ledger.skipped + Flying(s), k);
    var ipOf := (id: EventId) => if id in s.detail then s.detail[id].ip else "";
    forall ip | ip in Addresses(s.detail, k)
      ensures exists id :: id in ids && ipOf(id) == ip
    {
      var id :| id in s.detail && s.detail[id].key == k && s.detail[id].ip != "" && s.detail[id].ip == ip;
      assert HasAnswer(s, id);
      if id in s.ledger.skipped || Awaiting(s, id) {
        assert id in ids && ipOf(id) == ip;
      } else {
        var f :| f in s.ledger.firsts && f in s.detail && s.detail[f].key == k && s.detail[f].ip == ip;
        assert f in ids && ipOf(f) == ip;
      }
    }
    ImageSize(ids, ipOf, Addresses(s.detail, k));
  }

  /** Nobody holds an entry, no row missed its upsert, and every first-visit question was answered. */
  ghost predicate Clean(s: State) {
    s.workers == map[] && s.ledger.lost == {} && s.ledger.skipped == {}
  }

  /** After a run without such faults PV is exact for every key, and races can only have over-counted UV. */
  lemma CleanRun(steps: seq<Step>, k: Key)
    requires Clean(Reached(steps))
    ensures
      var s := Reached(steps);
      && Pv(s, k) == |Rows(s, k)|
      && |Addresses(s.detail, k)| <= Uv(s, k) <= Pv(s, k)
  {
    var s := Reached(steps);
    ReachedInv(steps);
    UvAtMostPv(steps, k);
    CleanUv(s, k);
    AddressesCovered(steps, k);
    assert Flying(s) == {};
    assert s.ledger.firsts + s.ledger.skipped + Flying(s) == s.ledger.firsts;
    assert StatOk(s, k) && s.detail.Keys == s.ledger.counted;
  }

  /** At rest PV is exact for a key if and only if no row of the key missed its upsert. */
  lemma PvExactIffNothingLost(steps: seq<Step>, k: Key)
    requires Reached(steps).workers == map[]
    ensures
      var s := Reached(steps);
      Pv(s, k) == |Rows(s, k)| <==> (forall id | id in s.ledger.lost :: id in s.detail && s.detail[id].key != k)
  {
    var s := Reached(steps);
    ReachedInv(steps);
    RowsConserved(steps, k);
    assert Flying(s) == {};
    assert Of(s.detail, Flying(s), k) == {};
    var l := Of(s.detail, s.ledger.lost, k);
    if Pv(s, k) == |Rows(s, k)| {
      assert l == {};
      assert forall id | id in s.ledger.lost :: id !in l;
    }
  }

  lemma CleanUv(s: State, k: Key)
    requires Inv(s) && Clean(s)
    ensures Uv(s, k) == |Of(s.detail, s.ledger.firsts, k)|
  {
    assert StatOk(s, k);
    assert Flying(s) == {};
    assert s.ledger.counted * s.ledger.firsts == s.ledger.firsts;
  }

  // ---------------------------------------------------------------- delivery

  /** An acknowledged entry's event is stored, and its row counted, lost or on its way. */
  lemma AckSafety(steps: seq<Step>, entry: EntryId)
    requires entry in Reached(steps).acked
    ensures
      var s := Reached(steps);
      && entry in s.stream
      && s.stream[entry].eventId in s.detail
      && s.stream[entry].eventId in s.ledger.counted + s.ledger.lost + Flying(s)
      && s.stream[entry].shortCode != ""
  {
    ReachedInv(steps);
  }

  /** A row that missed its upsert is never counted later, however often its entry is delivered again. */
  lemma {:induction false} LostForGood(s: State, steps: seq<Step>, id: EventId)
    requires Inv(s) && id in s.ledger.lost
    ensures id in Run(s, steps).ledger.lost && id !in Run(s, steps).ledger.counted
  {
    RunInv(s, steps);
    if steps != [] {
      var front, last := steps[..|steps| - 1], steps[|steps| - 1];
      LostForGood(s, front, id);
      RunInv(s, front);
      StepEffect(Run(s, front), last);
    }
  }

  /** This step adds event id to the statistics. */
  ghost predicate Counts(s: State, step: Step, id: EventId) {
    step.Upsert? && step.ok && Enabled(s, step) && s.workers[step.w].id == id
  }

  lemma {:induction false} CountedStays(s: State, steps: seq<Step>, id: EventId)
    requires Inv(s) && id in s.ledger.counted
    ensures id in Run(s, steps).ledger.counted
  {
    if steps != [] {
      var front := steps[..|steps| - 1];
      CountedStays(s, front, id);
      RunInv(s, front);
      StepEffect(Run(s, front), steps[|steps| - 1]);
    }
  }

  lemma {:induction false} RunSplit(s: State, front: seq<Step>, back: seq<Step>)
    ensures Run(s, front + back) == Run(Run(s, front), back)
  {
    if back == [] {
      assert front + back == front;
    } else {
      var b := back[..|back| - 1];
      RunSplit(s, front, b);
      assert (front + back)[..|front + back| - 1] == front + b;
    }
  }

  /** However often an event is delivered, and to however many consumers, at most one step counts it. */
  lemma CountedAtMostOnce(steps: seq<Step>, i: nat, j: nat, id: EventId)
    requires i < j < |steps|
    requires Counts(Reached(steps[..i]), steps[i], id)
    ensures !Counts(Reached(steps[..j]), steps[j], id)
  {
    var s := Reached(steps[..i]);
    var t := Next(s, steps[i]);
    ReachedInv(steps[..i]);
    InvKept(s, steps[i]);
    assert id in t.ledger.counted;
    assert steps[..i + 1][..i] == steps[..i];
    var rest := steps[i + 1..j];
    assert steps[..j] == steps[..i + 1] + rest;
    RunSplit(Empty, steps[..i + 1], rest);
    CountedStays(t, rest, id);
    var u := Reached(steps[..j]);
    ReachedInv(steps[..j]);
    assert forall w | w in u.workers :: Fits(u, u.workers[w]);
  }

  // ---------------------------------------------------------------- two consumers racing

  lemma {:induction false} RunCons(s: State, step: Step, rest: seq<Step>)
    ensures Run(s, [step] + rest) == Run(Next(s, step), rest)
  {
    RunSplit(s, [step], rest);
    assert [step][..0] == [];
  }

  lemma RunTwo(s: State, a: Step, b: Step)
    ensures Run(s, [a, b]) == Next(Next(s, a), b)
  {
    RunCons(s, a, [b]);
    RunCons(Next(s, a), b, []);
    assert [a] + [b] == [a, b] && [b] + [] == [b];
  }

  lemma RunAppendTwo(s: State, front: seq<Step>, a: Step, b: Step)
    ensures Run(s, front + [a, b]) == Next(Next(Run(s, front), a), b)
  {
    RunSplit(s, front, [a, b]);
    RunTwo(Run(s, front), a, b);
  }

  /** Two clicks of one address on one link and day, handled by consumers 0 and 1 in lock step. */
  datatype Race = Race(k: Key, ip: string, a: EventId, b: EventId) {
    ghost predicate Valid() {
      k.code != "" && ip != "" && a != b
    }

    function Click(id: EventId): Msg {
      Msg(id, k.code, Some(k.date), ip, "")
    }

    /** The state once both consumers have come to the same point. */
    function At(pcA: Pc, pcB: Pc): State {
      var row := Detail(k, ip, "");
      State(map[0 := Click(a), 1 := Click(b)], map[a := row, b := row], map[], map[], map[0 := pcA, 1 := pcB], {}, Ledger({}, {}, {}, {}))
    }

    /** Each kind of step twice, up to but not including the two upserts. */
    function Prefix(): seq<Step> {
      [Publish(0, Click(a)), Publish(1, Click(b))] + [Deliver(0, 0), Deliver(1, 1)] + [Insert(0, k.date, true), Insert(1, k.date, true)]
      + [Check(0, true), Check(1, true)] + [Add(0, true), Add(1, true)]
    }

    function Steps(): seq<Step> {
      Prefix() + [Upsert(0, true), Upsert(1, true)] + [Ack(0, true), Ack(1, true)]
    }
  }

  lemma RaceReceives(r: Race)
    requires r.Valid()
    ensures
      var s := Next(Next(Empty, Publish(0, r.Click(r.a))), Publish(1, r.Click(r.b)));
      Next(Next(s, Deliver(0, 0)), Deliver(1, 1)) == r.At(Received(0), Received(1)).(detail := map[])
  {
  }

  lemma RaceInserts(r: Race)
    requires r.Valid()
    ensures
      var s := r.At(Received(0), Received(1)).(detail := map[]);
      Next(Next(s, Insert(0, r.k.date, true)), Insert(1, r.k.date, true)) == r.At(Inserted(0, r.a), Inserted(1, r.b))
  {
  }

  lemma RaceAsks(r: Race)
    requires r.Valid()
    ensures Next(Next(r.At(Inserted(0, r.a), Inserted(1, r.b)), Check(0, true)), Check(1, true)) == r.At(Unseen(0, r.a), Unseen(1, r.b))
  {
  }

  function BothFirst(r: Race): State {
    r.At(Visited(0, r.a, true), Visited(1, r.b, true)).(visitors := map[r.k := {r.ip}], ledger := Ledger({}, {}, {r.a, r.b}, {}))
  }

  lemma RaceAdds(r: Race)
    requires r.Valid()
    ensures Next(Next(r.At(Unseen(0, r.a), Unseen(1, r.b)), Add(0, true)), Add(1, true)) == BothFirst(r)
  {
    var s := Next(r.At(Unseen(0, r.a), Unseen(1, r.b)), Add(0, true));
    assert VisitorsOf(map[], r.k) + {r.ip} == {r.ip};
    assert s.visitors == map[r.k := {r.ip}];
    assert s.ledger.firsts == {r.a};
    var t := Next(s, Add(1, true));
    assert VisitorsOf(s.visitors, r.k) + {r.ip} == {r.ip};
    assert t.visitors == map[r.k := {r.ip}];
    assert t.ledger.firsts == {r.a, r.b};
  }

  lemma RaceCounts(r: Race)
    requires r.Valid()
    ensures
      var t := Next(Next(Next(Next(BothFirst(r), Upsert(0, true)), Upsert(1, true)), Ack(0, true)), Ack(1, true));
      t.workers == map[] && t.stat == map[r.k := Stat(2, 2)] && t.detail == BothFirst(r).detail
      && t.ledger.lost == t.ledger.skipped == {}
  {
    var s := Next(BothFirst(r), Upsert(0, true));
    assert s.stat == map[r.k := Stat(1, 1)];
    var t := Next(s, Upsert(1, true));
    assert t.workers == map[0 := Acking(0), 1 := Acking(1)];
  }

  lemma RacePrefix(r: Race)
    requires r.Valid()
    ensures Reached(r.Prefix()) == BothFirst(r)
  {
    var p1 := [Publish(0, r.Click(r.a)), Publish(1, r.Click(r.b))];
    var p2 := p1 + [Deliver(0, 0), Deliver(1, 1)];
    var p3 := p2 + [Insert(0, r.k.date, true), Insert(1, r.k.date, true)];
    var p4 := p3 + [Check(0, true), Check(1, true)];
    RunTwo(Empty, p1[0], p1[1]);
    RunAppendTwo(Empty, p1, Deliver(0, 0), Deliver(1, 1));
    RaceReceives(r);
    RunAppendTwo(Empty, p2, Insert(0, r.k.date, true), Insert(1, r.k.date, true));
    RaceInserts(r);
    RunAppendTwo(Empty, p3, Check(0, true), Check(1, true));
    RaceAsks(r);
    RunAppendTwo(Empty, p4, Add(0, true), Add(1, true));
    RaceAdds(r);
  }

  /** Two consumers that both ask SISMEMBER before either does SADD take one address for a first visitor
      twice: no effect fails and no uv set expires, yet UV is two for a single address. */
  lemma RaceOvercounts(r: Race)
    requires r.Valid()
    ensures
      var s := Reached(r.Steps());
      && Clean(s)
      && Pv(s, r.k) == Uv(s, r.k) == 2
      && Addresses(s.detail, r.k) == {r.ip}
  {
    RacePrefix(r);
    RunAppendTwo(Empty, r.Prefix(), Upsert(0, true), Upsert(1, true));
    RunAppendTwo(Empty, r.Prefix() + [Upsert(0, true), Upsert(1, true)], Ack(0, true), Ack(1, true));
    RaceCounts(r);
  }
}
