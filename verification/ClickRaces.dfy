/** UV under races, failed SADDs and expiring uv sets: how much it over-counts, and when it is exact. */
module ClickRaces {
  import opened Prelude
  import opened ClickMachine
  import opened ClickAccounting

  // ---------------------------------------------------------------- how much

  /** The addresses of key k that were taken for a first visitor. */
  ghost function FirstAddresses(s: State, k: Key): set<string> {
    set f | f in Of(s.detail, s.ledger.firsts, k) :: s.detail[f].ip
  }

  /** This step takes an address of key k for a first visitor that was taken for one before. */
  ghost predicate Repeats(s: State, step: Step, k: Key) {
    step.Add? && Enabled(s, step)
    && var row := s.detail[s.workers[step.w].id];
       row.key == k && Witnessed(s, k, row.ip)
  }

  ghost function RepeatCount(steps: seq<Step>, k: Key): nat {
    if steps == [] then 0
    else
      var front, last := steps[..|steps| - 1], steps[|steps| - 1];
      RepeatCount(front, k) + if Repeats(Reached(front), last, k) then 1 else 0
  }

  /** Only SADD makes a first visitor. */
  lemma OnlyAddTakes(s: State, step: Step)
    requires Inv(s) && !(step.Add? && Enabled(s, step))
    ensures Next(s, step).ledger.firsts == s.ledger.firsts
  {
    if Enabled(s, step) {
      match step
      case Insert(w, now, ok) => assert InsertStep(s, w, now, ok).ledger == s.ledger;
      case Check(w, ok) => assert CheckStep(s, w, ok).ledger.firsts == s.ledger.firsts;
      case Upsert(w, ok) => assert UpsertStep(s, w, ok).ledger.firsts == s.ledger.firsts;
      case Crash(w) => assert CrashStep(s, w).ledger.firsts == s.ledger.firsts;
      case _ =>
    }
  }

  lemma FirstAddressesMeans(s: State, k: Key, ip: string)
    ensures ip in FirstAddresses(s, k) <==> Witnessed(s, k, ip)
  {
    if Witnessed(s, k, ip) {
      var f :| f in s.ledger.firsts && f in s.detail && s.detail[f].key == k && s.detail[f].ip == ip;
      assert f in Of(s.detail, s.ledger.firsts, k);
    }
  }

  /** SADD, failed or not, adds its event to the firsts and its address to their addresses. */
  lemma AddTakes(s: State, w: WorkerId, ok: bool, k: Key)
    requires Inv(s) && Enabled(s, Add(w, ok))
    ensures
      var t, id := AddStep(s, w, ok), s.workers[w].id;
      && id !in s.ledger.firsts
      && Of(t.detail, t.ledger.firsts, k) == Of(s.detail, s.ledger.firsts, k) + (if s.detail[id].key == k then {id} else {})
      && FirstAddresses(t, k) == FirstAddresses(s, k) + (if s.detail[id].key == k then {s.detail[id].ip} else {})
  {
    assert Fits(s, s.workers[w]);
    var t, id := AddStep(s, w, ok), s.workers[w].id;
    assert Of(t.detail, t.ledger.firsts, k) == Of(s.detail, s.ledger.firsts, k) + (if s.detail[id].key == k then {id} else {});
  }

  lemma OneMoreElement<T>(a: set<T>, x: T)
    ensures |a + {x}| == |a| + if x in a then 0 else 1
  {
    if x in a {
      assert a + {x} == a;
    }
  }

  lemma AddCounted(s: State, w: WorkerId, ok: bool, k: Key)
    requires Inv(s) && Enabled(s, Add(w, ok))
    ensures
      var t := AddStep(s, w, ok);
      |Of(t.detail, t.ledger.firsts, k)| - |FirstAddresses(t, k)|
      == |Of(s.detail, s.ledger.firsts, k)| - |FirstAddresses(s, k)| + if Repeats(s, Add(w, ok), k) then 1 else 0
  {
    var id := s.workers[w].id;
    AddTakes(s, w, ok, k);
    FirstAddressesMeans(s, k, s.detail[id].ip);
    OneMoreElement(Of(s.detail, s.ledger.firsts, k), id);
    OneMoreElement(FirstAddresses(s, k), s.detail[id].ip);
  }

  lemma OthersCounted(s: State, step: Step, k: Key)
    requires Inv(s) && !(step.Add? && Enabled(s, step))
    ensures
      var t := Next(s, step);
      Of(t.detail, t.ledger.firsts, k) == Of(s.detail, s.ledger.firsts, k) && FirstAddresses(t, k) == FirstAddresses(s, k)
  {
    OnlyAddTakes(s, step);
    StepEffect(s, step);
    OfGrows(s.detail, Next(s, step).detail, s.ledger.firsts, k);
  }

  lemma StepTakes(s: State, step: Step, k: Key)
    requires Inv(s)
    ensures
      var t := Next(s, step);
      |Of(t.detail, t.ledger.firsts, k)| - |FirstAddresses(t, k)|
      == |Of(s.detail, s.ledger.firsts, k)| - |FirstAddresses(s, k)| + if Repeats(s, step, k) then 1 else 0
  {
    if step.Add? && Enabled(s, step) {
      AddCounted(s, step.w, step.ok, k);
    } else {
      OthersCounted(s, step, k);
    }
  }

  /** After any run, first visits outnumber their addresses by exactly the repeats. */
  lemma {:induction false} FirstsCounted(steps: seq<Step>, k: Key)
    ensures
      var s := Reached(steps);
      |Of(s.detail, s.ledger.firsts, k)| == |FirstAddresses(s, k)| + RepeatCount(steps, k)
  {
    if steps == [] {
      assert Of(Empty.detail, Empty.ledger.firsts, k) == {};
      assert FirstAddresses(Empty, k) == {};
    } else {
      var front := steps[..|steps| - 1];
      FirstsCounted(front, k);
      ReachedInv(front);
      StepTakes(Reached(front), steps[|steps| - 1], k);
    }
  }

  lemma CleanAddresses(s: State, k: Key)
    requires Inv(s) && Clean(s)
    ensures FirstAddresses(s, k) == Addresses(s.detail, k)
  {
    forall ip | ip in Addresses(s.detail, k)
      ensures ip in FirstAddresses(s, k)
    {
      var id :| id in s.detail && s.detail[id].key == k && s.detail[id].ip != "" && s.detail[id].ip == ip;
      assert HasAnswer(s, id);
      FirstAddressesMeans(s, k, ip);
    }
  }

  /** At rest, with nothing lost or skipped, UV over-counts by exactly the repeats, whatever the number of
      consumers, and whatever SADDs failed and uv sets expired. */
  lemma UvOvercount(steps: seq<Step>, k: Key)
    requires Clean(Reached(steps))
    ensures Uv(Reached(steps), k) == |Addresses(Reached(steps).detail, k)| + RepeatCount(steps, k)
  {
    ReachedInv(steps);
    FirstsCounted(steps, k);
    CleanUv(Reached(steps), k);
    CleanAddresses(Reached(steps), k);
  }

  // ---------------------------------------------------------------- when it is exact

  /** Consumer w is between SISMEMBER, which did not find the address, and SADD. */
  ghost predicate Between(s: State, w: WorkerId, k: Key, ip: string) {
    w in s.workers && s.workers[w].Unseen? && s.workers[w].id in s.detail
    && s.detail[s.workers[w].id].key == k && s.detail[s.workers[w].id].ip == ip
  }

  /** Two consumers are between SISMEMBER and SADD for one address. */
  ghost predicate Collision(s: State, k: Key) {
    exists v, w, ip :: v != w && Between(s, v, k, ip) && Between(s, w, k, ip)
  }

  /** A consumer is there for an address that was taken for a first visitor before. */
  ghost predicate AsksAgain(s: State, k: Key) {
    exists w, ip :: Between(s, w, k, ip) && Witnessed(s, k, ip)
  }

  ghost predicate TakenOrDue(s: State, id: EventId) {
    id in s.ledger.firsts || id in s.ledger.lost || exists w :: w in s.workers && s.workers[w].Unseen? && s.workers[w].id == id
  }

  lemma StillDue(s: State, step: Step, id: EventId)
    requires Inv(s) && TakenOrDue(s, id)
    ensures TakenOrDue(Next(s, step), id)
  {
    StepEffect(s, step);
    if w :| w in s.workers && s.workers[w].Unseen? && s.workers[w].id == id && Actor(step) == Some(w) && Enabled(s, step) {
      OwnStepTakes(s, step, w);
    }
  }

  /** The next step of a consumer between SISMEMBER and SADD takes its event for a first visit, or loses it. */
  lemma OwnStepTakes(s: State, step: Step, w: WorkerId)
    requires Actor(step) == Some(w) && Enabled(s, step) && w in s.workers && s.workers[w].Unseen?
    ensures s.workers[w].id in Next(s, step).ledger.firsts + Next(s, step).ledger.lost
  {
    if step.Add? {
      assert s.workers[w].id in AddStep(s, w, step.ok).ledger.firsts;
    } else {
      assert s.workers[w].id in CrashStep(s, w).ledger.lost;
    }
  }

  lemma {:induction false} StillDueLater(s: State, steps: seq<Step>, id: EventId)
    requires Inv(s) && TakenOrDue(s, id)
    ensures TakenOrDue(Run(s, steps), id)
  {
    if steps != [] {
      var front := steps[..|steps| - 1];
      StillDueLater(s, front, id);
      RunInv(s, front);
      StillDue(Run(s, front), steps[|steps| - 1], id);
    }
  }

  /** Whoever is due at some point is a first visitor at a clean end. */
  lemma DueEndsFirst(steps: seq<Step>, i: nat, id: EventId)
    requires i <= |steps| && Clean(Reached(steps)) && TakenOrDue(Reached(steps[..i]), id)
    ensures id in Reached(steps).ledger.firsts
  {
    assert steps == steps[..i] + steps[i..];
    RunSplit(Empty, steps[..i], steps[i..]);
    ReachedInv(steps[..i]);
    StillDueLater(Reached(steps[..i]), steps[i..], id);
  }

  lemma RowStays(steps: seq<Step>, i: nat, id: EventId)
    requires i <= |steps| && id in Reached(steps[..i]).detail
    ensures id in Reached(steps).detail && Reached(steps).detail[id] == Reached(steps[..i]).detail[id]
  {
    assert steps == steps[..i] + steps[i..];
    RunSplit(Empty, steps[..i], steps[i..]);
    ReachedInv(steps[..i]);
    RowStaysLater(Reached(steps[..i]), steps[i..], id);
  }

  lemma {:induction false} RowStaysLater(s: State, steps: seq<Step>, id: EventId)
    requires Inv(s) && id in s.detail
    ensures id in Run(s, steps).detail && Run(s, steps).detail[id] == s.detail[id]
  {
    if steps != [] {
      var front := steps[..|steps| - 1];
      RowStaysLater(s, front, id);
      RunInv(s, front);
      StepEffect(Run(s, front), steps[|steps| - 1]);
    }
  }

  /** Two first visits with one address are a repeat. */
  lemma SharedFirstsRepeat(steps: seq<Step>, k: Key, f: EventId, g: EventId)
    requires f != g
    requires f in Of(Reached(steps).detail, Reached(steps).ledger.firsts, k)
    requires g in Of(Reached(steps).detail, Reached(steps).ledger.firsts, k)
    requires Reached(steps).detail[f].ip == Reached(steps).detail[g].ip
    ensures RepeatCount(steps, k) > 0
  {
    var s := Reached(steps);
    var firsts := Of(s.detail, s.ledger.firsts, k);
    var ipOf := (id: EventId) => if id in s.detail then s.detail[id].ip else "";
    forall ip | ip in FirstAddresses(s, k)
      ensures exists id :: id in firsts - {g} && ipOf(id) == ip
    {
      var h :| h in firsts && s.detail[h].ip == ip;
      var h' := if h == g then f else h;
      assert h' in firsts - {g} && ipOf(h') == ip;
    }
    ImageSize(firsts - {g}, ipOf, FirstAddresses(s, k));
    FirstsCounted(steps, k);
  }

  lemma {:induction false} SomeRepeat(steps: seq<Step>, k: Key) returns (i: nat)
    requires RepeatCount(steps, k) > 0
    ensures i < |steps| && Repeats(Reached(steps[..i]), steps[i], k)
  {
    var n := |steps| - 1;
    if Repeats(Reached(steps[..n]), steps[n], k) {
      i := n;
    } else {
      i := SomeRepeat(steps[..n], k);
      assert steps[..n][..i] == steps[..i];
    }
  }

  lemma RepeatAsksAgain(s: State, step: Step, k: Key)
    requires Repeats(s, step, k)
    ensures AsksAgain(s, k)
  {
    assert Between(s, step.w, k, s.detail[s.workers[step.w].id].ip);
  }

  /** Two events for one address that are both due, or one due and one taken, at some point of a clean run. */
  lemma SharedDue(steps: seq<Step>, i: nat, k: Key, f: EventId, g: EventId)
    requires i <= |steps| && Clean(Reached(steps)) && f != g
    requires
      var s := Reached(steps[..i]);
      && TakenOrDue(s, f) && TakenOrDue(s, g) && f in s.detail && g in s.detail
      && s.detail[f].key == s.detail[g].key == k && s.detail[f].ip == s.detail[g].ip
    ensures RepeatCount(steps, k) > 0
  {
    DueEndsFirst(steps, i, f);
    DueEndsFirst(steps, i, g);
    RowStays(steps, i, f);
    RowStays(steps, i, g);
    SharedFirstsRepeat(steps, k, f, g);
  }

  /** A consumer between SISMEMBER and SADD that meets another there, or an address taken before, makes a repeat. */
  lemma MeetingRepeats(steps: seq<Step>, i: nat, k: Key)
    requires i <= |steps| && Clean(Reached(steps))
    requires Collision(Reached(steps[..i]), k) || AsksAgain(Reached(steps[..i]), k)
    ensures RepeatCount(steps, k) > 0
  {
    var s := Reached(steps[..i]);
    ReachedInv(steps[..i]);
    if Collision(s, k) {
      var v, w, ip :| v != w && Between(s, v, k, ip) && Between(s, w, k, ip);
      SharedDue(steps, i, k, s.workers[v].id, s.workers[w].id);
    } else {
      var w, ip :| Between(s, w, k, ip) && Witnessed(s, k, ip);
      var f :| f in s.ledger.firsts && f in s.detail && s.detail[f].key == k && s.detail[f].ip == ip;
      assert Fits(s, s.workers[w]);
      SharedDue(steps, i, k, f, s.workers[w].id);
    }
  }

  /** For any run that ends clean, with any failed SADDs and any expiries: UV is exact if and only if no consumer is
      ever between SISMEMBER and SADD for an address for which another consumer is there too, or which was taken
      for a first visitor before. */
  lemma UvExactIff(steps: seq<Step>, k: Key)
    requires Clean(Reached(steps))
    ensures Uv(Reached(steps), k) == |Addresses(Reached(steps).detail, k)|
       <==> forall i | 0 <= i <= |steps| :: !Collision(Reached(steps[..i]), k) && !AsksAgain(Reached(steps[..i]), k)
  {
    UvOvercount(steps, k);
    if RepeatCount(steps, k) > 0 {
      var i := SomeRepeat(steps, k);
      RepeatAsksAgain(Reached(steps[..i]), steps[i], k);
    }
    forall i | 0 <= i <= |steps| && (Collision(Reached(steps[..i]), k) || AsksAgain(Reached(steps[..i]), k))
      ensures RepeatCount(steps, k) > 0
    {
      MeetingRepeats(steps, i, k);
    }
  }

  // ---------------------------------------------------------------- SADD succeeding and no expiry

  /** A SADD for key k fails, or its uv set expires. */
  ghost predicate Forgets(s: State, step: Step, k: Key) {
    || step == Expire(k)
    || (step.Add? && !step.ok && Enabled(s, step) && s.detail[s.workers[step.w].id].key == k)
  }

  ghost predicate Steady(steps: seq<Step>, k: Key) {
    forall i | 0 <= i < |steps| :: !Forgets(Reached(steps[..i]), steps[i], k)
  }

  lemma SteadyPrefix(steps: seq<Step>, k: Key, n: nat)
    requires Steady(steps, k) && n <= |steps|
    ensures Steady(steps[..n], k)
  {
    forall j | 0 <= j < n
      ensures !Forgets(Reached(steps[..n][..j]), steps[..n][j], k)
    {
      assert steps[..n][..j] == steps[..j];
    }
  }

  lemma SteadyFront(steps: seq<Step>, k: Key)
    requires Steady(steps, k) && steps != []
    ensures Steady(steps[..|steps| - 1], k) && !Forgets(Reached(steps[..|steps| - 1]), steps[|steps| - 1], k)
  {
    SteadyPrefix(steps, k, |steps| - 1);
  }

  /** SADD adds its address; nothing else changes the uv set of key k but forgetting. */
  lemma SetGrows(s: State, step: Step, k: Key)
    requires Inv(s) && !Forgets(s, step, k)
    ensures VisitorsOf(Next(s, step).visitors, k) == VisitorsOf(s.visitors, k) +
            (if step.Add? && Enabled(s, step) && s.detail[s.workers[step.w].id].key == k then {s.detail[s.workers[step.w].id].ip} else {})
  {
    if step.Expire? {
      assert VisitorsOf(s.visitors - {step.key}, k) == VisitorsOf(s.visitors, k);
    } else if step.Add? && Enabled(s, step) {
      assert Next(s, step) == AddStep(s, step.w, step.ok);
    } else {
      OthersLeaveSets(s, step);
    }
  }

  lemma OthersLeaveSets(s: State, step: Step)
    requires !step.Expire? && !(step.Add? && Enabled(s, step))
    ensures Next(s, step).visitors == s.visitors
  {
    if Enabled(s, step) {
      match step
      case Insert(w, now, ok) => assert InsertStep(s, w, now, ok).visitors == s.visitors;
      case Check(w, ok) => assert CheckStep(s, w, ok).visitors == s.visitors;
      case Upsert(w, ok) => assert UpsertStep(s, w, ok).visitors == s.visitors;
      case Crash(w) => assert CrashStep(s, w).visitors == s.visitors;
      case _ =>
    }
  }

  lemma AddressesGrow(s: State, step: Step, k: Key)
    requires Inv(s)
    ensures FirstAddresses(Next(s, step), k) == FirstAddresses(s, k) +
            (if step.Add? && Enabled(s, step) && s.detail[s.workers[step.w].id].key == k then {s.detail[s.workers[step.w].id].ip} else {})
  {
    if step.Add? && Enabled(s, step) {
      AddTakes(s, step.w, step.ok, k);
    } else {
      OthersCounted(s, step, k);
    }
  }

  /** While nothing is forgotten the uv set holds exactly the addresses taken for a first visitor. */
  lemma {:induction false} SteadySet(steps: seq<Step>, k: Key)
    requires Steady(steps, k)
    ensures VisitorsOf(Reached(steps).visitors, k) == FirstAddresses(Reached(steps), k)
  {
    if steps != [] {
      var front, last := steps[..|steps| - 1], steps[|steps| - 1];
      SteadyFront(steps, k);
      SteadySet(front, k);
      ReachedInv(front);
      SetGrows(Reached(front), last, k);
      AddressesGrow(Reached(front), last, k);
    }
  }

  /** The size of a uv set, plus the SADDs that added nothing, is UV plus the first visits that missed their upsert
      or are still to come: for any number of consumers. */
  lemma SetAccounted(steps: seq<Step>, k: Key)
    requires Steady(steps, k)
    ensures
      var s := Reached(steps);
      |VisitorsOf(s.visitors, k)| + RepeatCount(steps, k)
      == Uv(s, k) + |Of(s.detail, s.ledger.firsts * s.ledger.lost, k)| + |Of(s.detail, s.ledger.firsts * Flying(s), k)|
  {
    SteadySet(steps, k);
    FirstsCounted(steps, k);
    FirstVisitsConserved(steps, k);
  }

  /** What a repeat is while nothing is forgotten: a SADD that adds nothing, an answer the code throws away. */
  lemma RepeatAddsNothing(steps: seq<Step>, k: Key, w: WorkerId)
    requires Steady(steps, k) && Enabled(Reached(steps), Add(w, true))
    ensures
      var s := Reached(steps);
      var row := s.detail[s.workers[w].id];
      Repeats(s, Add(w, true), k) <==> row.key == k && row.ip in VisitorsOf(s.visitors, k)
  {
    var s := Reached(steps);
    SteadySet(steps, k);
    FirstAddressesMeans(s, k, s.detail[s.workers[w].id].ip);
  }

  /** A consumer whose address is in the set while it is about to add it met the one who added it. */
  lemma {:induction false} MetBefore(steps: seq<Step>, k: Key, w: WorkerId, ip: string) returns (i: nat)
    requires Steady(steps, k) && Between(Reached(steps), w, k, ip) && ip in VisitorsOf(Reached(steps).visitors, k)
    ensures i <= |steps| && Collision(Reached(steps[..i]), k)
  {
    var n := |steps| - 1;
    var front, last := steps[..n], steps[n];
    var s := Reached(front);
    SteadyFront(steps, k);
    ReachedInv(front);
    SetGrows(s, last, k);
    CameBetween(s, last, w, k, ip);
    if ip in VisitorsOf(s.visitors, k) {
      i := MetBefore(front, k, w, ip);
      assert front[..i] == steps[..i];
    } else {
      i := n;
      assert Between(s, last.w, k, ip);
    }
  }

  /** A consumer comes between SISMEMBER and SADD only when SISMEMBER does not find the address. */
  lemma CameBetween(s: State, step: Step, w: WorkerId, k: Key, ip: string)
    requires Inv(s) && Between(Next(s, step), w, k, ip)
    ensures Between(s, w, k, ip) || ip !in VisitorsOf(Next(s, step).visitors, k)
    ensures step.Add? && Enabled(s, step) ==> step.w != w
  {
    if Actor(step) == Some(w) && Enabled(s, step) {
      CheckedBetween(s, step, w, k, ip);
    } else {
      StepEffect(s, step);
      assert Fits(s, s.workers[w]);
    }
  }

  lemma CheckedBetween(s: State, step: Step, w: WorkerId, k: Key, ip: string)
    requires Actor(step) == Some(w) && Enabled(s, step) && Between(Next(s, step), w, k, ip)
    ensures step.Check? && ip !in VisitorsOf(Next(s, step).visitors, k)
  {
    if step.Check? {
      assert CheckStep(s, w, step.ok).visitors == s.visitors;
    }
  }

  /** Nothing is ever forgotten, and no two consumers ever meet. */
  ghost predicate Apart(steps: seq<Step>, k: Key) {
    Steady(steps, k) && forall i | 0 <= i <= |steps| :: !Collision(Reached(steps[..i]), k)
  }

  /** A repeat without forgetting means that two consumers have met. */
  lemma RepeatMeansCollision(steps: seq<Step>, k: Key) returns (j: nat)
    requires Steady(steps, k) && RepeatCount(steps, k) > 0
    ensures j <= |steps| && Collision(Reached(steps[..j]), k)
  {
    var i := SomeRepeat(steps, k);
    var front, w := steps[..i], steps[i].w;
    var s := Reached(front);
    var ip := s.detail[s.workers[w].id].ip;
    SteadyPrefix(steps, k, i);
    SteadySet(front, k);
    FirstAddressesMeans(s, k, ip);
    j := MetBefore(front, k, w, ip);
    assert front[..j] == steps[..j];
  }

  /** When SADD always succeeds and the uv set does not expire, UV at a clean end is exact if and only if no two
      consumers are ever between SISMEMBER and SADD for one address. */
  lemma UvExactIffNoCollision(steps: seq<Step>, k: Key)
    requires Steady(steps, k) && Clean(Reached(steps))
    ensures Uv(Reached(steps), k) == |Addresses(Reached(steps).detail, k)|
       <==> forall i | 0 <= i <= |steps| :: !Collision(Reached(steps[..i]), k)
  {
    UvOvercount(steps, k);
    if RepeatCount(steps, k) > 0 {
      var j := RepeatMeansCollision(steps, k);
    }
    forall i | 0 <= i <= |steps| && Collision(Reached(steps[..i]), k)
      ensures RepeatCount(steps, k) > 0
    {
      MeetingRepeats(steps, i, k);
    }
  }

  /** Then nobody is taken for a first visitor twice. */
  lemma ApartNeverRepeats(steps: seq<Step>, k: Key)
    requires Apart(steps, k)
    ensures RepeatCount(steps, k) == 0
  {
    if RepeatCount(steps, k) > 0 {
      var j := RepeatMeansCollision(steps, k);
    }
  }

  /** Any number of consumers that never meet: the day's statistics are functions of the detail table. */
  lemma ApartIsExact(steps: seq<Step>, k: Key)
    requires Apart(steps, k) && Clean(Reached(steps))
    ensures
      var s := Reached(steps);
      && Pv(s, k) == |Rows(s, k)|
      && Uv(s, k) == |Addresses(s.detail, k)|
      && VisitorsOf(s.visitors, k) == Addresses(s.detail, k)
      && (k in s.stat <==> Rows(s, k) != {})
  {
    var s := Reached(steps);
    ReachedInv(steps);
    CleanRun(steps, k);
    ApartNeverRepeats(steps, k);
    UvOvercount(steps, k);
    SteadySet(steps, k);
    CleanAddresses(s, k);
    assert StatOk(s, k);
  }

  /** Two such runs that stored the same rows end with the same statistics, whatever else they did. */
  lemma SameRowsSameStats(steps: seq<Step>, steps': seq<Step>)
    requires Clean(Reached(steps)) && Clean(Reached(steps'))
    requires forall k :: Apart(steps, k) && Apart(steps', k)
    requires Reached(steps).detail == Reached(steps').detail
    ensures Reached(steps).stat == Reached(steps').stat
  {
    var s, s' := Reached(steps), Reached(steps');
    forall k
      ensures k in s.stat <==> k in s'.stat
      ensures k in s.stat ==> s.stat[k] == s'.stat[k]
    {
      ApartIsExact(steps, k);
      ApartIsExact(steps', k);
      assert Rows(s, k) == Rows(s', k);
    }
  }

  // ---------------------------------------------------------------- what forgetting changes

  /** Step i forgets first visitor f: its SADD failed, or its set expired afterwards. */
  ghost predicate ForgetsVisitor(steps: seq<Step>, i: nat, f: EventId)
    requires i < |steps|
  {
    var s := Reached(steps[..i]);
    f in s.detail && Forgets(s, steps[i], s.detail[f].key)
    && (f in s.ledger.firsts || (steps[i].Add? && s.workers[steps[i].w].id == f))
  }

  /** A first visitor is missing from the uv set only if its own SADD failed or the set expired since: so only then
      can SISMEMBER answer no for an address that was taken before without two consumers meeting. */
  lemma {:induction false} ForgottenBecause(steps: seq<Step>, f: EventId) returns (i: nat)
    requires f in Reached(steps).ledger.firsts
    requires f in Reached(steps).detail
    requires Reached(steps).detail[f].ip !in VisitorsOf(Reached(steps).visitors, Reached(steps).detail[f].key)
    ensures i < |steps| && ForgetsVisitor(steps, i, f)
  {
    var n := |steps| - 1;
    var front, last := steps[..n], steps[n];
    var s := Reached(front);
    ReachedInv(front);
    StepEffect(s, last);
    ForgottenStep(s, last, f);
    var row := Reached(steps).detail[f];
    if f in s.ledger.firsts && row.ip !in VisitorsOf(s.visitors, row.key) {
      i := ForgottenBecause(front, f);
      assert front[..i] == steps[..i];
    } else {
      i := n;
    }
  }

  lemma ForgottenStep(s: State, step: Step, f: EventId)
    requires Inv(s) && f in Next(s, step).ledger.firsts && f in Next(s, step).detail
    requires Next(s, step).detail[f].ip !in VisitorsOf(Next(s, step).visitors, Next(s, step).detail[f].key)
    ensures f in s.detail && s.detail[f] == Next(s, step).detail[f]
    ensures
      || (f in s.ledger.firsts && s.detail[f].ip !in VisitorsOf(s.visitors, s.detail[f].key))
      || (Forgets(s, step, s.detail[f].key) && (f in s.ledger.firsts || (step.Add? && s.workers[step.w].id == f)))
  {
    StepEffect(s, step);
    if f !in s.ledger.firsts && !(step.Add? && Enabled(s, step)) {
      OnlyAddTakes(s, step);
    }
    if !Forgets(s, step, s.detail[f].key) {
      SetGrows(s, step, s.detail[f].key);
    }
  }
}
