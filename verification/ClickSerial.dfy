/** A single consumer, SADD succeeding and no uv set expiring: consumers cannot meet, so UV is exact. */
module ClickSerial {
  import opened ClickMachine
  import opened ClickAccounting
  import opened ClickRaces

  /** No entry is taken up while another is being handled, SADD succeeds, and no uv set expires. */
  ghost predicate SoloStep(s: State, step: Step) {
    && (step.Deliver? ==> s.workers == map[])
    && (step.Add? ==> step.ok)
    && !step.Expire?
  }

  ghost predicate SoloRun(steps: seq<Step>) {
    forall i | 0 <= i < |steps| :: SoloStep(Reached(steps[..i]), steps[i])
  }

  ghost predicate Alone(s: State) {
    forall v, w | v in s.workers && w in s.workers :: v == w
  }

  lemma NobodyElseComes(s: State, step: Step)
    requires !(step.Deliver? && Enabled(s, step))
    ensures Next(s, step).workers.Keys <= s.workers.Keys
  {
    if Enabled(s, step) {
      match step
      case Insert(w, now, ok) => assert InsertStep(s, w, now, ok).workers.Keys <= s.workers.Keys;
      case Check(w, ok) => assert CheckStep(s, w, ok).workers.Keys <= s.workers.Keys;
      case Upsert(w, ok) => assert UpsertStep(s, w, ok).workers.Keys <= s.workers.Keys;
      case Crash(w) => assert CrashStep(s, w).workers.Keys <= s.workers.Keys;
      case _ =>
    }
  }

  lemma StaysAlone(s: State, step: Step)
    requires Alone(s) && SoloStep(s, step)
    ensures Alone(Next(s, step))
  {
    if !(step.Deliver? && Enabled(s, step)) {
      NobodyElseComes(s, step);
    }
  }

  lemma SoloFront(steps: seq<Step>)
    requires SoloRun(steps) && steps != []
    ensures SoloRun(steps[..|steps| - 1]) && SoloStep(Reached(steps[..|steps| - 1]), steps[|steps| - 1])
  {
    var front := steps[..|steps| - 1];
    forall i | 0 <= i < |front|
      ensures SoloStep(Reached(front[..i]), front[i])
    {
      assert front[..i] == steps[..i];
    }
  }

  lemma {:induction false} AlwaysAlone(steps: seq<Step>)
    requires SoloRun(steps)
    ensures forall i | 0 <= i <= |steps| :: Alone(Reached(steps[..i]))
  {
    if steps == [] {
      assert steps[..0] == [];
    } else {
      var n := |steps| - 1;
      SoloFront(steps);
      AlwaysAlone(steps[..n]);
      assert steps[..n][..n] == steps[..n];
      StaysAlone(Reached(steps[..n]), steps[n]);
      assert steps[..n + 1] == steps;
      forall i | 0 <= i <= |steps|
        ensures Alone(Reached(steps[..i]))
      {
        if i <= n {
          assert steps[..n][..i] == steps[..i];
        }
      }
    }
  }

  /** One consumer cannot meet another. */
  lemma SoloIsApart(steps: seq<Step>, k: Key)
    requires SoloRun(steps)
    ensures Apart(steps, k)
  {
    AlwaysAlone(steps);
  }

  /** A uv set is as large as uv, plus the first visits whose upsert failed or is still to come. */
  lemma VisitorSetAccounted(steps: seq<Step>, k: Key)
    requires SoloRun(steps)
    ensures
      var s := Reached(steps);
      |VisitorsOf(s.visitors, k)|
      == Uv(s, k) + |Of(s.detail, s.ledger.firsts * s.ledger.lost, k)| + |Of(s.detail, s.ledger.firsts * Flying(s), k)|
  {
    SoloIsApart(steps, k);
    ApartNeverRepeats(steps, k);
    SetAccounted(steps, k);
  }

  /** Without lost upserts or unanswered questions the daily statistics are a function of the detail table. */
  lemma SoloExact(steps: seq<Step>, k: Key)
    requires SoloRun(steps) && Clean(Reached(steps))
    ensures
      var s := Reached(steps);
      && Pv(s, k) == |Rows(s, k)|
      && Uv(s, k) == |Addresses(s.detail, k)|
      && VisitorsOf(s.visitors, k) == Addresses(s.detail, k)
      && (k in s.stat <==> Rows(s, k) != {})
  {
    SoloIsApart(steps, k);
    ApartIsExact(steps, k);
  }
}
