/** Which interleavings of requests leave no cached row outdated, so that a lookup by code answers as the table. */
module CacheRaces {
  import opened Prelude
  import opened Base62
  import opened LinkStore
  import opened LinkBook
  import opened IssueMachine

  // ---------------------------------------------------------------- exact caches, exact lookups

  /** Every cached row is the table's, every cached id the right one, and every placeholder true. */
  ghost predicate Coherent(s: State) {
    IdsOk(s.table, s.caches.ids) && SurlsOk(s.table, s.caches.surls)
  }

  /** What a lookup has found so far is what the table says now. */
  ghost predicate LookExact(table: Table, key: Key, look: Look) {
    match look
    case Start => true
    case Missed(found) => found == Query(table, key)
    case Primed(row) => Query(table, key) == Some(row)
    case Hit(id) => Query(table, key) == ById(table, id)
    case Reread(id, found) => found == ById(table, id) == Query(table, key)
    case Answer(found) => found == Query(table, key)
  }

  /** What a lookup is about to cache is what the table says now. */
  ghost predicate LookSafe(table: Table, look: Look) {
    match look
    case Missed(found) => found.Some? ==> found == ById(table, found.value.id)
    case Primed(row) => ById(table, row.id) == Some(row)
    case Reread(id, found) => found == ById(table, id)
    case _ => true
  }

  /** By md5 an answer may be wrong, because of placeholders; but no wrong row is ever cached. */
  ghost predicate Trusty(cfg: Config, table: Table, pc: Pc) {
    KeyOf(cfg, pc).Some? ==>
      LookSafe(table, pc.look) && (!pc.Knowing? ==> LookExact(table, KeyOf(cfg, pc).value, pc.look))
  }

  /** Between its statement and the deletion of its cache keys. */
  predicate Writing(pc: Pc) {
    pc.Inserted? || pc.Rewrote?
  }

  /** The index entry of this key, if there is one, is right. */
  ghost predicate IndexRight(table: Table, caches: Caches, key: Key) {
    match IndexEntry(caches, key)
    case None => true
    case Some(None) => Query(table, key).None?
    case Some(Some(id)) => Query(table, key) == ById(table, id)
  }

  lemma SurlIndexRight(table: Table, caches: Caches, surl: string)
    requires Keyed(table) && (surl in caches.surls ==> SurlOk(table, surl, caches.surls[surl]))
    ensures IndexRight(table, caches, SurlKey(surl))
  {
    if surl in caches.surls && caches.surls[surl].Some? {
      FoundBySurl(table, caches.surls[surl].value, surl);
    }
  }

  lemma LookStaysExact(table: Table, caches: Caches, key: Key, look: Look)
    requires Keyed(table) && IdsOk(table, caches.ids) && IndexRight(table, caches, key) && LookExact(table, key, look)
    ensures LookExact(table, key, LookNext(table, caches, key, look))
  {
  }

  lemma LookStaysSafe(table: Table, caches: Caches, key: Key, look: Look)
    requires Keyed(table) && LookSafe(table, look)
    ensures LookSafe(table, LookNext(table, caches, key, look))
  {
  }

  /** A lookup that is right so far caches nothing wrong. */
  lemma CachesStayExact(table: Table, caches: Caches, key: Key, look: Look)
    requires Keyed(table) && IdsOk(table, caches.ids) && SurlsOk(table, caches.surls)
    requires LookSafe(table, look) && (!key.Md5Key? ==> LookExact(table, key, look))
    ensures IdsOk(table, CachesNext(caches, key, look).ids) && SurlsOk(table, CachesNext(caches, key, look).surls)
  {
    if key.SurlKey? && look.Missed? && look.found.None? {
      NoneBySurl(table, key.surl);
    }
  }

  lemma NoneBySurl(table: Table, surl: string)
    requires BySurl(table, surl).None?
    ensures forall id :: !HasSurl(table, id, surl)
  {
  }

  // ---------------------------------------------------------------- writes apart from lookups

  /** An entry whose key a request is about to delete. */
  ghost predicate OpenId(s: State, id: nat) {
    exists r :: At(s, r).Rewrote? && At(s, r).was.id == id
  }

  ghost predicate OpenSurl(s: State, surl: string) {
    exists r :: At(s, r).Inserted? && At(s, r).row.surl == surl
  }

  /** Only entries that are about to be deleted may be wrong, and every lookup is right so far. */
  ghost predicate Exact(cfg: Config, s: State) {
    && (forall id | id in s.caches.ids :: s.caches.ids[id] == ById(s.table, id) || OpenId(s, id))
    && (forall surl | surl in s.caches.surls :: SurlOk(s.table, surl, s.caches.surls[surl]) || OpenSurl(s, surl))
    && (forall r :: Trusty(cfg, s.table, At(s, r)))
  }

  /** Nobody is between a statement and the deletion of its keys. */
  ghost predicate Settled(s: State) {
    forall r :: !Writing(At(s, r))
  }

  /** No lookup has begun that is not yet acted on. */
  ghost predicate OthersRest(cfg: Config, s: State, r: nat) {
    forall q | q != r :: KeyOf(cfg, At(s, q)).Some? ==> At(s, q).look == Start
  }

  /** Lookups and writes do not overlap: a statement that changes the table meets no lookup under way, a lookup
      goes on only when all keys of written rows are deleted, and nobody dies before deleting them. */
  ghost predicate Calm(cfg: Config, s: State, step: Step)
    requires |cfg.alphabet| == 62
  {
    match step
    case Lookup(r) => Settled(s)
    case Statement(r, _) => After(cfg, s, step).table != s.table ==> OthersRest(cfg, s, r)
    case Die(r) => !Writing(At(s, r))
    case _ => true
  }

  ghost predicate CalmRun(cfg: Config, s: State, steps: seq<Step>)
    requires |cfg.alphabet| == 62
  {
    forall i | 0 <= i < |steps| :: Calm(cfg, Run(cfg, s, steps[..i]), steps[i])
  }

  lemma SettledIsCoherent(cfg: Config, s: State)
    requires Exact(cfg, s) && Settled(s)
    ensures Coherent(s)
  {
    assert forall id :: !OpenId(s, id);
    assert forall surl :: !OpenSurl(s, surl);
  }

  /** A step of r that writes no row and leaves no wrong entry behind. */
  lemma SameTable(cfg: Config, s: State, t: State, r: nat)
    requires Exact(cfg, s) && t.table == s.table && t.pcs == s.pcs[r := At(t, r)] && !Writing(At(s, r))
    requires forall id | id in t.caches.ids :: t.caches.ids[id] == ById(s.table, id) || (id in s.caches.ids && t.caches.ids[id] == s.caches.ids[id])
    requires forall surl | surl in t.caches.surls ::
      SurlOk(s.table, surl, t.caches.surls[surl]) || (surl in s.caches.surls && t.caches.surls[surl] == s.caches.surls[surl])
    requires Trusty(cfg, s.table, At(t, r))
    ensures Exact(cfg, t)
  {
    OthersStayOpen(s, t, r);
    forall q
      ensures Trusty(cfg, t.table, At(t, q))
    {
      if q != r {
        assert At(t, q) == At(s, q);
      }
    }
  }

  lemma OthersStayOpen(s: State, t: State, r: nat)
    requires t.pcs == s.pcs[r := At(t, r)]
    ensures forall id :: OpenId(s, id) ==> OpenId(t, id) || (At(s, r).Rewrote? && At(s, r).was.id == id)
    ensures forall surl :: OpenSurl(s, surl) ==> OpenSurl(t, surl) || (At(s, r).Inserted? && At(s, r).row.surl == surl)
  {
    forall id | OpenId(s, id)
      ensures OpenId(t, id) || (At(s, r).Rewrote? && At(s, r).was.id == id)
    {
      var q :| At(s, q).Rewrote? && At(s, q).was.id == id;
      assert q != r ==> At(t, q) == At(s, q);
    }
    forall surl | OpenSurl(s, surl)
      ensures OpenSurl(t, surl) || (At(s, r).Inserted? && At(s, r).row.surl == surl)
    {
      var q :| At(s, q).Inserted? && At(s, q).row.surl == surl;
      assert q != r ==> At(t, q) == At(s, q);
    }
  }

  lemma LookupKeepsExact(cfg: Config, s: State, r: nat)
    requires Inv(cfg, s) && Exact(cfg, s) && Settled(s)
    ensures Exact(cfg, LookupNext(cfg, s, r))
  {
    var pc, key := At(s, r), KeyOf(cfg, At(s, r));
    SettledIsCoherent(cfg, s);
    if key.Some? {
      assert Trusty(cfg, s.table, pc);
      if pc.look.Answer? {
        SameTable(cfg, s, LookupNext(cfg, s, r), r);
      } else {
        LookingKeepsExact(cfg, s, r, pc, key.value);
      }
    }
  }

  lemma LookingKeepsExact(cfg: Config, s: State, r: nat, pc: Pc, key: Key)
    requires TableOk(cfg, s.drawn, s.table, s.nextId) && Exact(cfg, s) && Settled(s) && Coherent(s)
    requires pc == At(s, r) && KeyOf(cfg, pc) == Some(key) && !pc.look.Answer? && Trusty(cfg, s.table, pc)
    ensures Exact(cfg, LookupNext(cfg, s, r))
  {
    var look := LookNext(s.table, s.caches, key, pc.look);
    LookStaysSafe(s.table, s.caches, key, pc.look);
    CachesStayExact(s.table, s.caches, key, pc.look);
    if !pc.Knowing? {
      KeyIsRight(cfg, s, pc);
      LookStaysExact(s.table, s.caches, key, pc.look);
    }
    LookTrusty(cfg, s.table, pc, key, look);
    SameTable(cfg, s, LookupNext(cfg, s, r), r);
  }

  lemma LookTrusty(cfg: Config, table: Table, pc: Pc, key: Key, look: Look)
    requires KeyOf(cfg, pc) == Some(key) && LookSafe(table, look) && (!pc.Knowing? ==> LookExact(table, key, look))
    ensures Trusty(cfg, table, WithLook(pc, look)) && KeyOf(cfg, WithLook(pc, look)) == Some(key)
  {
  }

  lemma KeyIsRight(cfg: Config, s: State, pc: Pc)
    requires TableOk(cfg, s.drawn, s.table, s.nextId) && Coherent(s) && KeyOf(cfg, pc).Some? && !pc.Knowing?
    ensures IndexRight(s.table, s.caches, KeyOf(cfg, pc).value)
  {
    var key := KeyOf(cfg, pc).value;
    if key.SurlKey? {
      SurlIndexRight(s.table, s.caches, key.surl);
    }
  }

  /** A written row makes wrong only entries whose keys its writer is about to delete. */
  lemma WriteKeepsExact(cfg: Config, s: State, t: State, r: nat, row: Row)
    requires Inv(cfg, s) && Exact(cfg, s) && OthersRest(cfg, s, r)
    requires t.table == s.table[row.id := row] && t.caches == s.caches && t.pcs == s.pcs[r := At(t, r)] && !Writing(At(s, r))
    requires row.id in s.table ==> row.surl == s.table[row.id].surl && At(t, r).Rewrote? && At(t, r).was.id == row.id
    requires row.id !in s.table ==> At(t, r) == Inserted(row)
    ensures Exact(cfg, t)
  {
    OthersStayOpen(s, t, r);
    WrittenId(cfg, s, t, r, row);
    forall surl | surl in t.caches.surls
      ensures SurlOk(t.table, surl, t.caches.surls[surl]) || OpenSurl(t, surl)
    {
      if !OpenSurl(s, surl) {
        WrittenSurl(s.table, row, surl, s.caches.surls[surl]);
      }
    }
    OthersStayTrusty(cfg, s, t, r);
  }

  lemma WrittenId(cfg: Config, s: State, t: State, r: nat, row: Row)
    requires CachesOk(cfg, s.table, s.caches) && Exact(cfg, s)
    requires t.table == s.table[row.id := row] && t.caches == s.caches
    requires row.id in s.table ==> At(t, r).Rewrote? && At(t, r).was.id == row.id
    requires forall id :: OpenId(s, id) ==> OpenId(t, id)
    ensures forall id | id in t.caches.ids :: t.caches.ids[id] == ById(t.table, id) || OpenId(t, id)
  {
    if row.id in s.table {
      assert OpenId(t, row.id);
    }
  }

  lemma OthersStayTrusty(cfg: Config, s: State, t: State, r: nat)
    requires OthersRest(cfg, s, r) && t.pcs == s.pcs[r := At(t, r)] && Writing(At(t, r))
    ensures forall q :: Trusty(cfg, t.table, At(t, q))
  {
    forall q
      ensures Trusty(cfg, t.table, At(t, q))
    {
      if q != r {
        assert At(t, q) == At(s, q);
      }
    }
  }

  lemma WrittenSurl(table: Table, row: Row, surl: string, entry: Option<nat>)
    requires row.id in table ==> row.surl == table[row.id].surl
    requires SurlOk(table, surl, entry)
    ensures SurlOk(table[row.id := row], surl, entry) || (row.id !in table && surl == row.surl)
  {
    var after := table[row.id := row];
    if entry.Some? {
      assert HasSurl(table, entry.value, surl);
    } else if row.id in table || surl != row.surl {
      forall id
        ensures !HasSurl(after, id, surl)
      {
        assert !HasSurl(table, id, surl);
      }
    }
  }

  lemma StatementKeepsExact(cfg: Config, s: State, r: nat, fails: bool)
    requires Inv(cfg, s) && Exact(cfg, s) && Calm(cfg, s, Statement(r, fails))
    ensures Exact(cfg, StatementNext(cfg, s, r, fails))
  {
    var pc, t := At(s, r), StatementNext(cfg, s, r, fails);
    if t.table == s.table {
      VainStatementKeepsExact(cfg, s, r, fails);
    } else if pc.Inserting? {
      InsertKeepsExact(cfg, s, r, fails, pc);
    } else {
      RewriteKeepsExact(cfg, s, r, fails, pc);
    }
  }

  lemma VainStatementKeepsExact(cfg: Config, s: State, r: nat, fails: bool)
    requires |cfg.alphabet| == 62 && Exact(cfg, s) && StatementNext(cfg, s, r, fails).table == s.table
    ensures Exact(cfg, StatementNext(cfg, s, r, fails))
  {
    if At(s, r).Inserting? || At(s, r).Rewriting? {
      SameTable(cfg, s, StatementNext(cfg, s, r, fails), r);
    }
  }

  lemma InsertKeepsExact(cfg: Config, s: State, r: nat, fails: bool, pc: Pc)
    requires Inv(cfg, s) && Exact(cfg, s) && OthersRest(cfg, s, r) && pc == At(s, r) && pc.Inserting?
    requires StatementNext(cfg, s, r, fails).table != s.table
    ensures Exact(cfg, StatementNext(cfg, s, r, fails))
  {
    var row := NewRow(cfg, s.nextId, pc.url, Encode(cfg.alphabet, pc.n));
    WriteKeepsExact(cfg, s, StatementNext(cfg, s, r, fails), r, row);
  }

  lemma RewriteKeepsExact(cfg: Config, s: State, r: nat, fails: bool, pc: Pc)
    requires Inv(cfg, s) && Exact(cfg, s) && OthersRest(cfg, s, r) && pc == At(s, r) && pc.Rewriting?
    requires StatementNext(cfg, s, r, fails).table != s.table
    ensures Exact(cfg, StatementNext(cfg, s, r, fails))
  {
    assert PcOk(cfg, s.drawn, s.table, pc);
    var row := Rewrite(cfg, pc.read, pc.longUrl, pc.expireAt);
    WriteKeepsExact(cfg, s, StatementNext(cfg, s, r, fails), r, row);
  }

  lemma DropKeepsExact(cfg: Config, s: State, r: nat)
    requires Exact(cfg, s)
    ensures Exact(cfg, DropKeysNext(s, r))
  {
    var t := DropKeysNext(s, r);
    if t != s {
      OthersStayOpen(s, t, r);
      forall q
        ensures Trusty(cfg, t.table, At(t, q))
      {
        if q != r {
          assert At(t, q) == At(s, q);
        }
      }
    }
  }

  lemma EvictKeepsExact(cfg: Config, s: State, gone: Caches)
    requires Exact(cfg, s)
    ensures Exact(cfg, s.(caches := Without(s.caches, gone)))
  {
    var t := s.(caches := Without(s.caches, gone));
    assert forall q :: At(t, q) == At(s, q);
    assert forall id :: OpenId(s, id) ==> OpenId(t, id);
    assert forall surl :: OpenSurl(s, surl) ==> OpenSurl(t, surl);
  }

  /** One step. */
  lemma CalmKeepsExact(cfg: Config, s: State, step: Step)
    requires Inv(cfg, s) && Exact(cfg, s) && Calm(cfg, s, step)
    ensures Exact(cfg, After(cfg, s, step))
  {
    match step
    case Lookup(r) => LookupKeepsExact(cfg, s, r);
    case Statement(r, fails) => StatementKeepsExact(cfg, s, r, fails);
    case DropKeys(r) => DropKeepsExact(cfg, s, r);
    case Evict(gone) => EvictKeepsExact(cfg, s, gone);
    case _ =>
      var r := step.r;
      if After(cfg, s, step) != s {
        SameTable(cfg, s, After(cfg, s, step), r);
      }
  }

  lemma {:induction false} CalmRunKeepsExact(cfg: Config, s: State, steps: seq<Step>)
    requires Inv(cfg, s) && Exact(cfg, s) && CalmRun(cfg, s, steps)
    ensures Exact(cfg, Run(cfg, s, steps))
  {
    if steps != [] {
      var n := |steps| - 1;
      assert CalmRun(cfg, s, steps[..n]) by {
        forall i | 0 <= i < n
          ensures Calm(cfg, Run(cfg, s, steps[..n][..i]), steps[..n][i])
        {
          assert steps[..n][..i] == steps[..i];
        }
      }
      CalmRunKeepsExact(cfg, s, steps[..n]);
      RunKeepsInv(cfg, s, steps[..n]);
      CalmKeepsExact(cfg, Run(cfg, s, steps[..n]), steps[n]);
    }
  }

  lemma EmptyIsExact(cfg: Config)
    requires cfg.Valid()
    ensures Inv(cfg, EMPTY) && Exact(cfg, EMPTY)
  {
    RunInv(cfg, []);
  }

  /** Any number of interleaved requests whose lookups and writes do not overlap: whenever no key is left to delete,
      no cache entry by id or code is outdated. */
  lemma NothingOutdated(cfg: Config, steps: seq<Step>)
    requires cfg.Valid() && CalmRun(cfg, EMPTY, steps) && Settled(Run(cfg, EMPTY, steps))
    ensures Coherent(Run(cfg, EMPTY, steps))
  {
    EmptyIsExact(cfg);
    CalmRunKeepsExact(cfg, EMPTY, steps);
    SettledIsCoherent(cfg, Run(cfg, EMPTY, steps));
  }

  /** The lookup by code with which a Show or an Update begins has come to this answer. */
  predicate Answers(s: State, r: nat, code: string, found: Option<Row>) {
    var pc := At(s, r);
    (pc.Resolving? || pc.Locating?) && pc.code == code && pc.look == Answer(found)
  }

  lemma ExactAnswer(cfg: Config, s: State, r: nat, code: string, found: Option<Row>)
    requires Exact(cfg, s) && Answers(s, r, code, found)
    ensures found == BySurl(s.table, code)
  {
    assert Trusty(cfg, s.table, At(s, r));
  }

  /** Then every lookup by code answers exactly as the table does. */
  lemma AnswersAsTable(cfg: Config, steps: seq<Step>, r: nat, code: string, found: Option<Row>)
    requires cfg.Valid() && CalmRun(cfg, EMPTY, steps) && Answers(Run(cfg, EMPTY, steps), r, code, found)
    ensures found == BySurl(Run(cfg, EMPTY, steps).table, code)
  {
    EmptyIsExact(cfg);
    CalmRunKeepsExact(cfg, EMPTY, steps);
    ExactAnswer(cfg, Run(cfg, EMPTY, steps), r, code, found);
  }

  // ---------------------------------------------------------------- lookups that meet no statement

  /** No lookup is under way, and nobody is writing. */
  ghost predicate Quiet(cfg: Config, s: State) {
    Settled(s) && forall r :: KeyOf(cfg, At(s, r)).Some? ==> At(s, r).look == Start
  }

  lemma QuietIsExact(cfg: Config, s: State)
    requires Coherent(s) && Quiet(cfg, s)
    ensures Exact(cfg, s)
  {
  }

  lemma StaysSettled(cfg: Config, s: State, step: Step)
    requires |cfg.alphabet| == 62 && Settled(s) && !step.Statement?
    ensures Settled(After(cfg, s, step))
  {
    var t := After(cfg, s, step);
    forall q
      ensures !Writing(At(t, q))
    {
      assert !Writing(At(s, q));
    }
  }

  lemma SettledIsCalm(cfg: Config, s: State, step: Step)
    requires |cfg.alphabet| == 62 && Settled(s) && !step.Statement?
    ensures Calm(cfg, s, step)
  {
    if step.Die? {
      assert !Writing(At(s, step.r));
    }
  }

  lemma {:induction false} NoStatementIsCalm(cfg: Config, s: State, steps: seq<Step>)
    requires |cfg.alphabet| == 62 && Settled(s) && forall i | 0 <= i < |steps| :: !steps[i].Statement?
    ensures CalmRun(cfg, s, steps) && Settled(Run(cfg, s, steps))
  {
    if steps != [] {
      var n := |steps| - 1;
      NoStatementIsCalm(cfg, s, steps[..n]);
      StaysSettled(cfg, Run(cfg, s, steps[..n]), steps[n]);
      forall i | 0 <= i < |steps|
        ensures Calm(cfg, Run(cfg, s, steps[..i]), steps[i])
      {
        if i < n {
          assert steps[..n][..i] == steps[..i] && steps[..n][i] == steps[i];
        } else {
          SettledIsCalm(cfg, Run(cfg, s, steps[..n]), steps[n]);
        }
      }
    }
  }

  /** From any sound state with coherent caches and no request under way: a lookup by code that meets no statement
      answers exactly as the table, whatever lookups, deletions, deaths and evictions it meets. */
  lemma LookupAnswersTable(cfg: Config, s: State, steps: seq<Step>, r: nat, code: string, found: Option<Row>)
    requires Inv(cfg, s) && Coherent(s) && Quiet(cfg, s)
    requires forall i | 0 <= i < |steps| :: !steps[i].Statement?
    requires Answers(Run(cfg, s, steps), r, code, found)
    ensures found == BySurl(s.table, code)
  {
    QuietIsExact(cfg, s);
    NoStatementIsCalm(cfg, s, steps);
    CalmRunKeepsExact(cfg, s, steps);
    TableStays(cfg, s, steps);
    ExactAnswer(cfg, Run(cfg, s, steps), r, code, found);
  }

  lemma {:induction false} TableStays(cfg: Config, s: State, steps: seq<Step>)
    requires |cfg.alphabet| == 62 && forall i | 0 <= i < |steps| :: !steps[i].Statement?
    ensures Run(cfg, s, steps).table == s.table
  {
    if steps != [] {
      TableStays(cfg, s, steps[..|steps| - 1]);
      assert After(cfg, Run(cfg, s, steps[..|steps| - 1]), steps[|steps| - 1]).table == Run(cfg, s, steps[..|steps| - 1]).table;
    }
  }

  // ---------------------------------------------------------------- one request alone

  ghost predicate OthersIdle(s: State, r: nat) {
    forall q | q != r :: At(s, q).Idle?
  }

  /** Only r takes steps, and does not die before it has deleted its keys; entries may be evicted. */
  ghost predicate Alone(cfg: Config, s: State, steps: seq<Step>, r: nat)
    requires |cfg.alphabet| == 62
  {
    forall i | 0 <= i < |steps| :: OwnStep(Run(cfg, s, steps[..i]), steps[i], r)
  }

  predicate OwnStep(s: State, step: Step, r: nat) {
    step.Evict? || (step.r == r && (step.Die? ==> !Writing(At(s, r))))
  }

  lemma OwnStepIsCalm(cfg: Config, s: State, step: Step, r: nat)
    requires |cfg.alphabet| == 62 && OthersIdle(s, r) && OwnStep(s, step, r)
    ensures OthersIdle(After(cfg, s, step), r)
    ensures step.Lookup? && Writing(At(s, r)) ==> After(cfg, s, step) == s
    ensures !(step.Lookup? && Writing(At(s, r))) ==> Calm(cfg, s, step)
  {
    assert forall q | q != r :: At(After(cfg, s, step), q) == At(s, q);
  }

  lemma {:induction false} AloneKeepsExact(cfg: Config, s: State, steps: seq<Step>, r: nat)
    requires Inv(cfg, s) && Exact(cfg, s) && OthersIdle(s, r) && Alone(cfg, s, steps, r)
    ensures Exact(cfg, Run(cfg, s, steps)) && OthersIdle(Run(cfg, s, steps), r)
  {
    if steps != [] {
      var n := |steps| - 1;
      assert Alone(cfg, s, steps[..n], r) by {
        assert forall i | 0 <= i < n :: steps[..n][..i] == steps[..i];
      }
      AloneKeepsExact(cfg, s, steps[..n], r);
      RunKeepsInv(cfg, s, steps[..n]);
      var s' := Run(cfg, s, steps[..n]);
      OwnStepIsCalm(cfg, s', steps[n], r);
      if !(steps[n].Lookup? && Writing(At(s', r))) {
        CalmKeepsExact(cfg, s', steps[n]);
      }
    }
  }

  /** A request that runs alone from start to end, whichever it is and however it ends, leaves coherent caches
      coherent. */
  lemma AloneLeavesNothingOutdated(cfg: Config, s: State, steps: seq<Step>, r: nat)
    requires Inv(cfg, s) && Coherent(s) && OthersIdle(s, r) && At(s, r).Idle?
    requires Alone(cfg, s, steps, r) && At(Run(cfg, s, steps), r).Idle?
    ensures Coherent(Run(cfg, s, steps))
  {
    QuietIsExact(cfg, s);
    AloneKeepsExact(cfg, s, steps, r);
    var t := Run(cfg, s, steps);
    assert forall q :: !Writing(At(t, q));
    SettledIsCoherent(cfg, t);
  }
}
