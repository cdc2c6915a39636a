/** When an Update is kept although others run at the same time, and when it is lost. */
module UpdateRaces {
  import opened Prelude
  import opened Base62
  import opened LinkStore
  import opened LinkBook
  import opened IssueMachine

  // ---------------------------------------------------------------- one statement

  /** The statement of an Update goes through. */
  ghost predicate UpdateLands(cfg: Config, s: State, step: Step)
    requires |cfg.alphabet| == 62
  {
    step.Statement? && At(s, step.r).Rewriting? && At(After(cfg, s, step), step.r).Rewrote?
  }

  /** The fields that an Update was not given are in the table as it read them. */
  ghost predicate AsRead(s: State, r: nat)
    requires At(s, r).Rewriting? && At(s, r).read.id in s.table
  {
    var pc := At(s, r);
    var now := s.table[pc.read.id];
    (pc.longUrl.None? ==> pc.read.lurl == now.lurl) && (pc.expireAt.None? ==> pc.read.expireAt == now.expireAt)
  }

  lemma ReadIsStored(cfg: Config, s: State, r: nat)
    requires Inv(cfg, s) && At(s, r).Rewriting?
    ensures Version(cfg, s.table, At(s, r).read) && RowDrawn(cfg, s.drawn, s.table[At(s, r).read.id])
  {
    assert PcOk(cfg, s.drawn, s.table, At(s, r));
  }

  /** In every sound state, the statement of an Update leaves the present row changed in the given fields only if
      and only if the fields that were not given are as they were read. */
  lemma KeptIff(cfg: Config, s: State, r: nat)
    requires Inv(cfg, s) && UpdateLands(cfg, s, Statement(r, false))
    ensures
      var pc, t := At(s, r), After(cfg, s, Statement(r, false));
      && pc.read.id in s.table
      && (t.table == s.table[pc.read.id := Rewrite(cfg, s.table[pc.read.id], pc.longUrl, pc.expireAt)] <==> AsRead(s, r))
  {
    var pc, t := At(s, r), After(cfg, s, Statement(r, false));
    ReadIsStored(cfg, s, r);
    var now := s.table[pc.read.id];
    var wanted, written := Rewrite(cfg, now, pc.longUrl, pc.expireAt), Rewrite(cfg, pc.read, pc.longUrl, pc.expireAt);
    assert t.table == s.table[pc.read.id := written];
    assert t.table[pc.read.id] == written;
    assert now.md5 == cfg.hash(now.lurl);
    if !AsRead(s, r) {
      assert s.table[pc.read.id := wanted][pc.read.id] == wanted;
    }
  }

  // ---------------------------------------------------------------- whole runs

  /** The row that the statements so far were meant to leave under an id: each changes the given fields of what the
      ones before it left. */
  ghost function Intended(cfg: Config, steps: seq<Step>, id: nat): Option<Row>
    requires cfg.Valid()
  {
    if steps == [] then None
    else
      var front, last := steps[..|steps| - 1], steps[|steps| - 1];
      var s, before := Run(cfg, EMPTY, front), Intended(cfg, front, id);
      if UpdateLands(cfg, s, last) && At(s, last.r).read.id == id && before.Some? then
        Some(Rewrite(cfg, before.value, At(s, last.r).longUrl, At(s, last.r).expireAt))
      else if Inserts(cfg, s, last) && s.nextId == id then
        Some(NewRow(cfg, id, At(s, last.r).url, Encode(cfg.alphabet, At(s, last.r).n)))
      else before
  }

  ghost predicate Inserts(cfg: Config, s: State, step: Step)
    requires |cfg.alphabet| == 62
  {
    step.Statement? && At(s, step.r).Inserting? && At(After(cfg, s, step), step.r).Inserted?
  }

  /** This step is not the statement of an Update that finds the link changed since it read it. */
  ghost predicate NotOutdated(cfg: Config, s: State, step: Step, id: nat)
    requires |cfg.alphabet| == 62
  {
    UpdateLands(cfg, s, step) && At(s, step.r).read.id == id && id in s.table ==> AsRead(s, step.r)
  }

  lemma RewrittenRow(cfg: Config, s: State, step: Step, id: nat)
    requires Inv(cfg, s) && UpdateLands(cfg, s, step) && At(s, step.r).read.id == id
    ensures id in s.table
    ensures After(cfg, s, step).table == s.table[id := Rewrite(cfg, At(s, step.r).read, At(s, step.r).longUrl, At(s, step.r).expireAt)]
  {
    ReadIsStored(cfg, s, step.r);
  }

  lemma OtherRow(cfg: Config, s: State, step: Step, id: nat)
    requires Inv(cfg, s) && !(UpdateLands(cfg, s, step) && At(s, step.r).read.id == id) && !(Inserts(cfg, s, step) && s.nextId == id)
    ensures ById(After(cfg, s, step).table, id) == ById(s.table, id)
  {
    if step.Statement? {
      OtherStatement(cfg, s, step.r, step.fails, id);
    } else {
      assert After(cfg, s, step).table == s.table;
    }
  }

  lemma OtherStatement(cfg: Config, s: State, r: nat, fails: bool, id: nat)
    requires Inv(cfg, s) && !(UpdateLands(cfg, s, Statement(r, fails)) && At(s, r).read.id == id)
    requires !(Inserts(cfg, s, Statement(r, fails)) && s.nextId == id)
    ensures ById(StatementNext(cfg, s, r, fails).table, id) == ById(s.table, id)
  {
  }

  /** The same, as a statement about the one row. */
  lemma LandsAsIntendedIff(cfg: Config, s: State, step: Step, id: nat)
    requires Inv(cfg, s) && UpdateLands(cfg, s, step) && At(s, step.r).read.id == id
    ensures id in s.table
    ensures ById(After(cfg, s, step).table, id) == Some(Rewrite(cfg, s.table[id], At(s, step.r).longUrl, At(s, step.r).expireAt))
       <==> AsRead(s, step.r)
  {
    RewrittenRow(cfg, s, step, id);
    assert step == Statement(step.r, false);
    KeptIff(cfg, s, step.r);
    var t, wanted := After(cfg, s, step).table, Rewrite(cfg, s.table[id], At(s, step.r).longUrl, At(s, step.r).expireAt);
    assert t == s.table[id := wanted] <==> t[id] == wanted;
  }

  /** One step keeps the table as intended exactly if it is not outdated. */
  lemma IntendedStep(cfg: Config, steps: seq<Step>, id: nat)
    requires cfg.Valid() && steps != []
    requires Intended(cfg, steps[..|steps| - 1], id) == ById(Run(cfg, EMPTY, steps[..|steps| - 1]).table, id)
    ensures Intended(cfg, steps, id) == ById(Run(cfg, EMPTY, steps).table, id)
       <==> NotOutdated(cfg, Run(cfg, EMPTY, steps[..|steps| - 1]), steps[|steps| - 1], id)
  {
    var front, last := steps[..|steps| - 1], steps[|steps| - 1];
    var s := Run(cfg, EMPTY, front);
    RunInv(cfg, front);
    if UpdateLands(cfg, s, last) && At(s, last.r).read.id == id {
      LandsAsIntendedIff(cfg, s, last, id);
    } else if !(Inserts(cfg, s, last) && s.nextId == id) {
      OtherRow(cfg, s, last, id);
    }
  }

  /** After the first n steps the row under the id is what the statements were meant to leave. */
  ghost predicate KeptAt(cfg: Config, steps: seq<Step>, id: nat, n: nat)
    requires cfg.Valid() && n <= |steps|
  {
    Intended(cfg, steps[..n], id) == ById(Run(cfg, EMPTY, steps[..n]).table, id)
  }

  /** Step n is not outdated. */
  ghost predicate TimelyAt(cfg: Config, steps: seq<Step>, id: nat, n: nat)
    requires cfg.Valid() && n < |steps|
  {
    NotOutdated(cfg, Run(cfg, EMPTY, steps[..n]), steps[n], id)
  }

  lemma KeptStep(cfg: Config, steps: seq<Step>, id: nat, n: nat, next: nat)
    requires cfg.Valid() && next == n + 1 <= |steps| && KeptAt(cfg, steps, id, n)
    ensures KeptAt(cfg, steps, id, next) <==> TimelyAt(cfg, steps, id, n)
  {
    var longer := steps[..next];
    assert longer[..|longer| - 1] == steps[..n] && longer[|longer| - 1] == steps[n];
    IntendedStep(cfg, longer, id);
  }

  lemma {:induction false} KeptUntil(cfg: Config, steps: seq<Step>, id: nat, n: nat)
    requires cfg.Valid() && n <= |steps|
    ensures (forall m | 0 <= m <= n :: KeptAt(cfg, steps, id, m)) <==> (forall m | 0 <= m < n :: TimelyAt(cfg, steps, id, m))
  {
    if n == 0 {
      assert steps[..0] == [];
    } else {
      var h := n - 1;
      KeptUntil(cfg, steps, id, h);
      if KeptAt(cfg, steps, id, h) {
        KeptStep(cfg, steps, id, h, n);
      }
    }
  }

  /** Over a whole run, however the requests interleave: the row under an id is at every point what the statements so
      far were meant to leave if and only if every Update of it finds the fields it was not given as it read them. */
  lemma AllKeptIff(cfg: Config, steps: seq<Step>, id: nat)
    requires cfg.Valid()
    ensures (forall n | 0 <= n <= |steps| :: KeptAt(cfg, steps, id, n)) <==> (forall n | 0 <= n < |steps| :: TimelyAt(cfg, steps, id, n))
  {
    KeptUntil(cfg, steps, id, |steps|);
  }
}
