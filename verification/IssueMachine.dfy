/** Any number of Convert, Update and Show requests at once, interleaved at every read, write and cache access.

    Each cached lookup is broken into its cache reads, its query and its cache writes; each statement and the
    deletion of its cache keys are separate steps; entries may be evicted, requests may die, and an INCR may
    fail (it then yields 0) at any point.  So the caches may hold outdated rows and wrong placeholders. */
module IssueMachine {
  import opened Prelude
  import opened Base62
  import opened CodeDraw
  import opened LinkStore
  import opened LinkBook

  datatype Key = Md5Key(md5: string) | SurlKey(surl: string) | IdKey(id: nat)

  /** Progress of one cached lookup. */
  datatype Look =
    | Start
    | Missed(found: Option<Row>)        // the index key was absent, the query has answered
    | Primed(row: Row)                  // ... and its row has been cached under the primary key
    | Hit(id: nat)                      // the index key gave an id
    | Reread(id: nat, found: Option<Row>) // the primary key was absent, the query has answered
    | Answer(found: Option<Row>)

  datatype Caches = Caches(ids: map<nat, Option<Row>>, md5s: map<string, Option<nat>>, surls: map<string, Option<nat>>)

  /** Where a request is. */
  datatype Pc =
    | Idle
    | Knowing(url: string, look: Look)                // Convert looks the md5 up
    | Checking(url: string, look: Look)               // ... and the md5 as a code
    | Drawing(url: string)
    | Inserting(url: string, n: nat)                  // holding a number whose code is allowed
    | Inserted(row: Row)                              // before the cache keys are deleted
    | Locating(code: string, longUrl: Option<string>, expireAt: Option<Time>, look: Look) // Update looks the code up
    | Reloading(read: Row, longUrl: Option<string>, expireAt: Option<Time>, look: Look) // the model looks the id up again
    | Rewriting(read: Row, longUrl: Option<string>, expireAt: Option<Time>, was: Row)
    | Rewrote(was: Row)                               // before the cache keys are deleted
    | Resolving(code: string, look: Look)             // Show looks the code up

  /** `drawn` are the numbers that Next has returned. */
  datatype State = State(counter: nat, drawn: set<nat>, table: Table, nextId: nat, caches: Caches, pcs: map<nat, Pc>)

  datatype Step =
    | Convert(r: nat, url: string)
    | Update(r: nat, code: string, longUrl: Option<string>, expireAt: Option<Time>)
    | Show(r: nat, code: string)
    | Lookup(r: nat)
    | Next(r: nat, fails: bool)
    | Statement(r: nat, fails: bool)
    | DropKeys(r: nat)
    | Die(r: nat)
    | Evict(gone: Caches)

  function At(s: State, r: nat): Pc {
    if r in s.pcs then s.pcs[r] else Idle
  }

  // ---------------------------------------------------------------- steps

  function IndexEntry(caches: Caches, key: Key): Option<Option<nat>> {
    match key
    case Md5Key(m) => if m in caches.md5s then Some(caches.md5s[m]) else None
    case SurlKey(s) => if s in caches.surls then Some(caches.surls[s]) else None
    case IdKey(id) => Some(Some(id))
  }

  function WithIndex(caches: Caches, key: Key, entry: Option<nat>): Caches {
    match key
    case Md5Key(m) => caches.(md5s := caches.md5s[m := entry])
    case SurlKey(s) => caches.(surls := caches.surls[s := entry])
    case IdKey(_) => caches
  }

  ghost function Query(table: Table, key: Key): Option<Row> {
    match key
    case Md5Key(m) => ByMd5(table, m)
    case SurlKey(s) => BySurl(table, s)
    case IdKey(id) => ById(table, id)
  }

  ghost function LookNext(table: Table, caches: Caches, key: Key, look: Look): Look {
    match look
    case Start =>
      (match IndexEntry(caches, key)
       case None => Missed(Query(table, key))
       case Some(None) => Answer(None)
       case Some(Some(id)) => Hit(id))
    case Missed(found) => if found.Some? then Primed(found.value) else Answer(None)
    case Primed(row) => Answer(Some(row))
    case Hit(id) => if id in caches.ids then Answer(caches.ids[id]) else Reread(id, ById(table, id))
    case Reread(_, found) => Answer(found)
    case Answer(_) => look
  }

  function CachesNext(caches: Caches, key: Key, look: Look): Caches {
    match look
    case Missed(found) =>
      if found.Some? then caches.(ids := caches.ids[found.value.id := found]) else WithIndex(caches, key, None)
    case Primed(row) => WithIndex(caches, key, Some(row.id))
    case Reread(id, found) => caches.(ids := caches.ids[id := found])
    case _ => caches
  }

  function Without(caches: Caches, gone: Caches): Caches {
    Caches(caches.ids - gone.ids.Keys, caches.md5s - gone.md5s.Keys, caches.surls - gone.surls.Keys)
  }

  function WithoutRow(caches: Caches, id: nat, row: Row): Caches {
    Caches(caches.ids - {id}, caches.md5s - {row.md5}, caches.surls - {row.surl})
  }

  /** The lookup that a request is in the middle of. */
  function KeyOf(cfg: Config, pc: Pc): Option<Key> {
    match pc
    case Knowing(url, _) => Some(Md5Key(cfg.hash(url)))
    case Checking(url, _) => Some(SurlKey(cfg.hash(url)))
    case Locating(code, _, _, _) => Some(SurlKey(code))
    case Reloading(read, _, _, _) => Some(IdKey(read.id))
    case Resolving(code, _) => Some(SurlKey(code))
    case _ => None
  }

  function Rewrite(cfg: Config, row: Row, longUrl: Option<string>, expireAt: Option<Time>): Row {
    row.(lurl := if longUrl.Some? then longUrl.value else row.lurl,
         md5 := if longUrl.Some? then cfg.hash(longUrl.value) else row.md5,
         expireAt := if expireAt.Some? then expireAt else row.expireAt)
  }

  /** What a request does with the answer of its lookup. */
  function Proceed(pc: Pc, found: Option<Row>): Pc {
    match pc
    case Knowing(url, _) => if found.Some? then Idle else Checking(url, Start)
    case Checking(url, _) => if found.Some? then Idle else Drawing(url)
    case Locating(_, longUrl, expireAt, _) => if found.Some? then Reloading(found.value, longUrl, expireAt, Start) else Idle
    case Reloading(read, longUrl, expireAt, _) => if found.Some? then Rewriting(read, longUrl, expireAt, found.value) else Idle
    case _ => Idle
  }

  function WithLook(pc: Pc, look: Look): Pc {
    match pc
    case Knowing(url, _) => Knowing(url, look)
    case Checking(url, _) => Checking(url, look)
    case Locating(code, longUrl, expireAt, _) => Locating(code, longUrl, expireAt, look)
    case Reloading(read, longUrl, expireAt, _) => Reloading(read, longUrl, expireAt, look)
    case Resolving(code, _) => Resolving(code, look)
    case _ => pc
  }

  function Moved(s: State, r: nat, pc: Pc): State {
    s.(pcs := s.pcs[r := pc])
  }

  ghost function LookupNext(cfg: Config, s: State, r: nat): State {
    var pc, key := At(s, r), KeyOf(cfg, At(s, r));
    if key.None? then s
    else if pc.look.Answer? then Moved(s, r, Proceed(pc, pc.look.found))
    else Moved(s, r, WithLook(pc, LookNext(s.table, s.caches, key.value, pc.look))).(caches := CachesNext(s.caches, key.value, pc.look))
  }

  /** INCR, then the blacklist: a rejected number is drawn again. */
  function NextNext(cfg: Config, s: State, r: nat, fails: bool): State
    requires |cfg.alphabet| == 62
  {
    var pc := At(s, r);
    if !pc.Drawing? then s
    else
      var e := Incr(0, fails);
      var n := Drawn(s.counter, e);
      Moved(s, r, if Encode(cfg.alphabet, n) in cfg.blacklist then pc else Inserting(pc.url, n)).(
        counter := CounterNext(s.counter, e), drawn := s.drawn + {n})
  }

  /** One INSERT or UPDATE, checked by the database: column widths and unique keys. */
  ghost function StatementNext(cfg: Config, s: State, r: nat, fails: bool): State
    requires |cfg.alphabet| == 62
  {
    match At(s, r)
    case Inserting(url, n) =>
      var row := NewRow(cfg, s.nextId, url, Encode(cfg.alphabet, n));
      if fails || !Fits(row) || !Unclaimed(s.table, row) then Moved(s, r, Idle)
      else Moved(s, r, Inserted(row)).(table := s.table[row.id := row], nextId := s.nextId + 1)
    case Rewriting(read, longUrl, expireAt, was) =>
      var row := Rewrite(cfg, read, longUrl, expireAt);
      if fails || !Fits(row) || !Unclaimed(s.table, row) then Moved(s, r, Idle)
      else Moved(s, r, Rewrote(was)).(table := if row.id in s.table then s.table[row.id := row] else s.table)
    case _ => s
  }

  function DropKeysNext(s: State, r: nat): State {
    match At(s, r)
    case Inserted(row) => Moved(s, r, Idle).(caches := WithoutRow(s.caches, 0, row))
    case Rewrote(was) => Moved(s, r, Idle).(caches := WithoutRow(s.caches, was.id, was))
    case _ => s
  }

  ghost function After(cfg: Config, s: State, step: Step): State
    requires |cfg.alphabet| == 62
  {
    match step
    case Convert(r, url) => if At(s, r).Idle? then Moved(s, r, Knowing(url, Start)) else s
    case Update(r, code, longUrl, expireAt) => if At(s, r).Idle? then Moved(s, r, Locating(code, longUrl, expireAt, Start)) else s
    case Show(r, code) => if At(s, r).Idle? then Moved(s, r, Resolving(code, Start)) else s
    case Lookup(r) => LookupNext(cfg, s, r)
    case Next(r, fails) => NextNext(cfg, s, r, fails)
    case Statement(r, fails) => StatementNext(cfg, s, r, fails)
    case DropKeys(r) => DropKeysNext(s, r)
    case Die(r) => Moved(s, r, Idle)
    case Evict(gone) => s.(caches := Without(s.caches, gone))
  }

  ghost function Run(cfg: Config, s: State, steps: seq<Step>): State
    requires |cfg.alphabet| == 62
  {
    if steps == [] then s else After(cfg, Run(cfg, s, steps[..|steps| - 1]), steps[|steps| - 1])
  }

  const EMPTY := State(0, {}, map[], 1, Caches(map[], map[], map[]), map[])

  // ---------------------------------------------------------------- what holds throughout

  /** A version of a row, perhaps outdated: the row is still there, and only URL, md5 and expiry may differ. */
  ghost predicate Version(cfg: Config, table: Table, row: Row) {
    && row.id in table && row.md5 == cfg.hash(row.lurl)
    && row == table[row.id].(lurl := row.lurl, md5 := row.md5, expireAt := row.expireAt)
  }

  ghost predicate VersionOf(cfg: Config, table: Table, key: Key, row: Row) {
    && Version(cfg, table, row)
    && (key.SurlKey? ==> row.surl == key.surl)
    && (key.IdKey? ==> row.id == key.id)
  }

  ghost predicate LookOk(cfg: Config, table: Table, key: Key, look: Look) {
    match look
    case Start => key.IdKey? ==> key.id in table
    case Missed(found) => found.Some? ==> VersionOf(cfg, table, key, found.value)
    case Primed(row) => VersionOf(cfg, table, key, row)
    case Hit(id) => IdOf(table, key, id)
    case Reread(id, found) => IdOf(table, key, id) && (found.Some? ==> VersionOf(cfg, table, key, found.value) && found.value.id == id)
    case Answer(found) => found.Some? ==> VersionOf(cfg, table, key, found.value)
  }

  ghost predicate IdOf(table: Table, key: Key, id: nat) {
    && id in table
    && (key.SurlKey? ==> HasSurl(table, id, key.surl))
    && (key.IdKey? ==> id == key.id)
  }

  ghost predicate PcOk(cfg: Config, drawn: set<nat>, table: Table, pc: Pc) {
    match pc
    case Knowing(url, look) => LookOk(cfg, table, Md5Key(cfg.hash(url)), look)
    case Checking(url, look) => LookOk(cfg, table, SurlKey(cfg.hash(url)), look)
    case Inserting(_, n) => |cfg.alphabet| == 62 && n in drawn && Encode(cfg.alphabet, n) !in cfg.blacklist
    case Locating(code, _, _, look) => LookOk(cfg, table, SurlKey(code), look)
    case Reloading(read, _, _, look) => Version(cfg, table, read) && LookOk(cfg, table, IdKey(read.id), look)
    case Rewriting(read, _, _, was) => Version(cfg, table, read) && was.id == read.id
    case Resolving(code, look) => LookOk(cfg, table, SurlKey(code), look)
    case _ => true
  }

  ghost predicate CachesOk(cfg: Config, table: Table, caches: Caches) {
    && (forall id | id in caches.ids :: id in table)
    && (forall id | id in caches.ids && caches.ids[id].Some? :: caches.ids[id].value.id == id && Version(cfg, table, caches.ids[id].value))
    && (forall md5 | md5 in caches.md5s && caches.md5s[md5].Some? :: caches.md5s[md5].value in table)
    && (forall surl | surl in caches.surls && caches.surls[surl].Some? :: HasSurl(table, caches.surls[surl].value, surl))
  }

  ghost predicate TableOk(cfg: Config, drawn: set<nat>, table: Table, nextId: nat) {
    && cfg.Valid() && Keyed(table) && nextId > 0
    && forall id | id in table :: 0 < id < nextId && RowDrawn(cfg, drawn, table[id])
  }

  /** A row's md5 belongs to its URL, its code to a number that was drawn, and is allowed. */
  ghost predicate RowDrawn(cfg: Config, drawn: set<nat>, row: Row)
    requires |cfg.alphabet| == 62
  {
    && row.md5 == cfg.hash(row.lurl)
    && row.surl !in cfg.blacklist
    && exists n :: n in drawn && row.surl == Encode(cfg.alphabet, n)
  }

  /** Numbers are drawn up to the counter. */
  ghost predicate DrawnOk(s: State) {
    s.counter <= MAX_COUNTER && forall n | n in s.drawn :: n <= s.counter
  }

  /** A request that holds a positive number. */
  predicate Holds(s: State, r: nat, n: nat) {
    At(s, r).Inserting? && At(s, r).n == n > 0
  }

  /** A number is held by one request at most, and no row has its code. */
  ghost predicate HeldOk(cfg: Config, s: State)
    requires |cfg.alphabet| == 62
  {
    && (forall q, r, n | Holds(s, q, n) && Holds(s, r, n) :: q == r)
    && (forall r, n, id | Holds(s, r, n) && id in s.table :: s.table[id].surl != Encode(cfg.alphabet, n))
  }

  ghost predicate PcsOk(cfg: Config, s: State) {
    forall r :: PcOk(cfg, s.drawn, s.table, At(s, r))
  }

  ghost predicate Inv(cfg: Config, s: State) {
    && TableOk(cfg, s.drawn, s.table, s.nextId)
    && DrawnOk(s)
    && CachesOk(cfg, s.table, s.caches)
    && PcsOk(cfg, s)
    && HeldOk(cfg, s)
  }

  // ---------------------------------------------------------------- every step keeps it

  /** Rows stay, and change only in URL, md5 and expiry. */
  ghost predicate Grows(table: Table, table': Table) {
    forall id | id in table :: id in table' && SameLink(table[id], table'[id])
  }

  ghost predicate SameLink(row: Row, row': Row) {
    row' == row.(lurl := row'.lurl, md5 := row'.md5, expireAt := row'.expireAt)
  }

  lemma PcStaysOk(cfg: Config, drawn: set<nat>, drawn': set<nat>, table: Table, table': Table, pc: Pc)
    requires PcOk(cfg, drawn, table, pc) && drawn <= drawn' && Grows(table, table')
    ensures PcOk(cfg, drawn', table', pc)
  {
  }

  lemma LookStepOk(cfg: Config, table: Table, caches: Caches, key: Key, look: Look, drawn: set<nat>, nextId: nat)
    requires TableOk(cfg, drawn, table, nextId) && CachesOk(cfg, table, caches) && LookOk(cfg, table, key, look)
    ensures LookOk(cfg, table, key, LookNext(table, caches, key, look))
    ensures CachesOk(cfg, table, CachesNext(caches, key, look))
  {
    LookStaysOk(cfg, table, caches, key, look, drawn, nextId);
    CachesStayOk(cfg, table, caches, key, look);
  }

  lemma LookStaysOk(cfg: Config, table: Table, caches: Caches, key: Key, look: Look, drawn: set<nat>, nextId: nat)
    requires TableOk(cfg, drawn, table, nextId) && CachesOk(cfg, table, caches) && LookOk(cfg, table, key, look)
    ensures LookOk(cfg, table, key, LookNext(table, caches, key, look))
  {
    if look.Start? {
      QueryOk(cfg, table, key, drawn, nextId);
    }
  }

  /** A query answers with a row that fits its key. */
  lemma QueryOk(cfg: Config, table: Table, key: Key, drawn: set<nat>, nextId: nat)
    requires TableOk(cfg, drawn, table, nextId)
    ensures Query(table, key).Some? ==> VersionOf(cfg, table, key, Query(table, key).value)
  {
  }

  lemma CachesStayOk(cfg: Config, table: Table, caches: Caches, key: Key, look: Look)
    requires CachesOk(cfg, table, caches) && LookOk(cfg, table, key, look)
    ensures CachesOk(cfg, table, CachesNext(caches, key, look))
  {
  }

  /** The other requests are fine after a step of r if rows stay and drawn numbers stay drawn. */
  lemma OthersStayOk(cfg: Config, s: State, t: State, r: nat)
    requires PcsOk(cfg, s)
    requires s.drawn <= t.drawn && Grows(s.table, t.table)
    requires t.pcs == s.pcs[r := At(t, r)] && PcOk(cfg, t.drawn, t.table, At(t, r))
    ensures PcsOk(cfg, t)
  {
    forall q
      ensures PcOk(cfg, t.drawn, t.table, At(t, q))
    {
      if q != r {
        assert At(t, q) == At(s, q);
        PcStaysOk(cfg, s.drawn, t.drawn, s.table, t.table, At(s, q));
      }
    }
  }

  /** Steps that do not draw leave fewer numbers held. */
  lemma HeldStaysOk(cfg: Config, s: State, t: State, r: nat)
    requires |cfg.alphabet| == 62 && HeldOk(cfg, s)
    requires t.pcs == s.pcs[r := At(t, r)] && !At(t, r).Inserting?
    requires forall q: nat, n: nat, id: nat | Holds(t, q, n) && id in t.table && id !in s.table :: t.table[id].surl != Encode(cfg.alphabet, n)
    requires forall id | id in s.table && id in t.table :: t.table[id].surl == s.table[id].surl
    ensures HeldOk(cfg, t)
  {
    assert forall q, n :: Holds(t, q, n) ==> Holds(s, q, n);
  }

  lemma LookupKeepsInv(cfg: Config, s: State, r: nat)
    requires Inv(cfg, s)
    ensures Inv(cfg, LookupNext(cfg, s, r))
  {
    var pc, key, t := At(s, r), KeyOf(cfg, At(s, r)), LookupNext(cfg, s, r);
    if key.Some? {
      if !pc.look.Answer? {
        LookStepOk(cfg, s.table, s.caches, key.value, pc.look, s.drawn, s.nextId);
      }
      OthersStayOk(cfg, s, t, r);
      HeldStaysOk(cfg, s, t, r);
    }
  }

  /** More drawn numbers break no row. */
  lemma TableOkLater(cfg: Config, drawn: set<nat>, drawn': set<nat>, table: Table, nextId: nat)
    requires TableOk(cfg, drawn, table, nextId) && drawn <= drawn'
    ensures TableOk(cfg, drawn', table, nextId)
  {
    forall id | id in table
      ensures RowDrawn(cfg, drawn', table[id])
    {
      var n :| n in drawn && table[id].surl == Encode(cfg.alphabet, n);
      assert n in drawn';
    }
  }

  /** A drawn number is new unless the INCR failed: nobody holds it and no row has its code. */
  lemma NextKeepsInv(cfg: Config, s: State, r: nat, fails: bool)
    requires Inv(cfg, s)
    ensures Inv(cfg, NextNext(cfg, s, r, fails))
  {
    var pc, t := At(s, r), NextNext(cfg, s, r, fails);
    if pc.Drawing? {
      TableOkLater(cfg, s.drawn, t.drawn, s.table, s.nextId);
      OthersStayOk(cfg, s, t, r);
      DrawnIsNew(cfg, s, t, r);
    }
  }

  lemma DrawnIsNew(cfg: Config, s: State, t: State, r: nat)
    requires Inv(cfg, s) && t.table == s.table && t.pcs == s.pcs[r := At(t, r)]
    requires At(t, r).Inserting? ==> At(t, r).n == 0 || At(t, r).n > s.counter
    ensures HeldOk(cfg, t)
  {
    forall q: nat, n: nat | Holds(t, q, n)
      ensures q != r ==> Holds(s, q, n) && n <= s.counter
      ensures q == r ==> n > s.counter
    {
      if q != r {
        assert At(t, q) == At(s, q);
        assert PcOk(cfg, s.drawn, s.table, At(s, q));
      }
    }
    forall q: nat, n: nat, id: nat | Holds(t, q, n) && id in t.table
      ensures t.table[id].surl != Encode(cfg.alphabet, n)
    {
      if q == r {
        BeyondIsNew(cfg, s, n, id);
      }
    }
  }

  lemma BeyondIsNew(cfg: Config, s: State, n: nat, id: nat)
    requires TableOk(cfg, s.drawn, s.table, s.nextId) && DrawnOk(s) && n > s.counter && id in s.table
    ensures s.table[id].surl != Encode(cfg.alphabet, n)
  {
    assert RowDrawn(cfg, s.drawn, s.table[id]);
    var m :| m in s.drawn && s.table[id].surl == Encode(cfg.alphabet, m);
    if s.table[id].surl == Encode(cfg.alphabet, n) {
      EncodeInjective(cfg.alphabet, m, n);
    }
  }

  /** A written row leaves the table sound if it is, and the caches no worse than outdated. */
  lemma WriteOk(cfg: Config, s: State, row: Row, nextId: nat)
    requires TableOk(cfg, s.drawn, s.table, s.nextId) && CachesOk(cfg, s.table, s.caches)
    requires Unclaimed(s.table, row) && RowDrawn(cfg, s.drawn, row) && 0 < row.id < nextId && s.nextId <= nextId
    requires row.id in s.table ==> SameLink(s.table[row.id], row)
    ensures TableOk(cfg, s.drawn, s.table[row.id := row], nextId)
    ensures Grows(s.table, s.table[row.id := row])
    ensures CachesOk(cfg, s.table[row.id := row], s.caches)
  {
    CachesOutdateAtWorst(cfg, s.table, row, s.caches);
  }

  lemma CachesOutdateAtWorst(cfg: Config, was: Table, row: Row, caches: Caches)
    requires CachesOk(cfg, was, caches) && (row.id in was ==> SameLink(was[row.id], row))
    ensures CachesOk(cfg, was[row.id := row], caches)
  {
    var table := was[row.id := row];
    forall id | id in caches.ids && caches.ids[id].Some?
      ensures Version(cfg, table, caches.ids[id].value)
    {
      assert Version(cfg, was, caches.ids[id].value);
    }
    forall surl | surl in caches.surls && caches.surls[surl].Some?
      ensures HasSurl(table, caches.surls[surl].value, surl)
    {
      assert HasSurl(was, caches.surls[surl].value, surl);
    }
  }

  lemma InsertKeepsInv(cfg: Config, s: State, r: nat, fails: bool)
    requires Inv(cfg, s) && At(s, r).Inserting?
    ensures Inv(cfg, StatementNext(cfg, s, r, fails))
  {
    var pc, t := At(s, r), StatementNext(cfg, s, r, fails);
    assert PcOk(cfg, s.drawn, s.table, pc);
    if t.table != s.table {
      WriteOk(cfg, s, t.table[s.nextId], t.nextId);
    }
    OthersStayOk(cfg, s, t, r);
    forall q: nat, n: nat, id: nat | Holds(t, q, n) && id in t.table && id !in s.table
      ensures t.table[id].surl != Encode(cfg.alphabet, n)
    {
      assert Holds(s, q, n);
      if Encode(cfg.alphabet, n) == Encode(cfg.alphabet, pc.n) {
        EncodeInjective(cfg.alphabet, n, pc.n);
        assert Holds(s, r, n);
      }
    }
    HeldStaysOk(cfg, s, t, r);
  }

  lemma RewriteKeepsInv(cfg: Config, s: State, r: nat, fails: bool)
    requires Inv(cfg, s) && At(s, r).Rewriting?
    ensures Inv(cfg, StatementNext(cfg, s, r, fails))
  {
    var pc, t := At(s, r), StatementNext(cfg, s, r, fails);
    assert PcOk(cfg, s.drawn, s.table, pc);
    if At(t, r).Idle? {
      SmallStepKeepsInv(cfg, s, t, r);
    } else {
      RewrittenOk(cfg, s, t, r, Rewrite(cfg, pc.read, pc.longUrl, pc.expireAt));
    }
  }

  lemma RewrittenOk(cfg: Config, s: State, t: State, r: nat, row: Row)
    requires Inv(cfg, s) && Version(cfg, s.table, row) && Unclaimed(s.table, row)
    requires t == s.(table := s.table[row.id := row], pcs := s.pcs[r := At(t, r)]) && At(t, r).Rewrote?
    ensures Inv(cfg, t)
  {
    assert RowDrawn(cfg, s.drawn, s.table[row.id]);
    WriteOk(cfg, s, row, s.nextId);
    NoNewRow(cfg, s, t, r);
  }

  lemma NoNewRow(cfg: Config, s: State, t: State, r: nat)
    requires Inv(cfg, s) && TableOk(cfg, t.drawn, t.table, t.nextId) && CachesOk(cfg, t.table, t.caches)
    requires Grows(s.table, t.table) && (forall id | id in t.table :: id in s.table) && t.counter == s.counter && t.drawn == s.drawn
    requires t.pcs == s.pcs[r := At(t, r)] && PcOk(cfg, t.drawn, t.table, At(t, r)) && !At(t, r).Inserting?
    ensures Inv(cfg, t)
  {
    OthersStayOk(cfg, s, t, r);
    HeldStaysOk(cfg, s, t, r);
  }

  lemma SmallStepKeepsInv(cfg: Config, s: State, t: State, r: nat)
    requires Inv(cfg, s) && t.table == s.table && t.counter == s.counter && t.drawn == s.drawn && t.nextId == s.nextId
    requires t.pcs == s.pcs[r := At(t, r)] && (At(t, r).Idle? || (KeyOf(cfg, At(t, r)).Some? && At(t, r).look == Start && !At(t, r).Reloading?))
    requires CachesOk(cfg, s.table, t.caches)
    ensures Inv(cfg, t)
  {
    OthersStayOk(cfg, s, t, r);
    HeldStaysOk(cfg, s, t, r);
  }

  /** Every step of every request keeps the invariant. */
  lemma InvKept(cfg: Config, s: State, step: Step)
    requires Inv(cfg, s)
    ensures Inv(cfg, After(cfg, s, step))
  {
    match step
    case Lookup(r) => LookupKeepsInv(cfg, s, r);
    case Next(r, fails) => NextKeepsInv(cfg, s, r, fails);
    case Statement(r, fails) =>
      if At(s, r).Inserting? {
        InsertKeepsInv(cfg, s, r, fails);
      } else if At(s, r).Rewriting? {
        RewriteKeepsInv(cfg, s, r, fails);
      }
    case Convert(r, url) => BeginKeepsInv(cfg, s, r, Knowing(url, Start));
    case Show(r, code) => BeginKeepsInv(cfg, s, r, Resolving(code, Start));
    case Update(r, code, longUrl, expireAt) => BeginKeepsInv(cfg, s, r, Locating(code, longUrl, expireAt, Start));
    case DropKeys(r) => DropKeepsInv(cfg, s, r);
    case Die(r) => BeginKeepsInv(cfg, s, r, Idle);
    case Evict(gone) => EvictKeepsInv(cfg, s, gone);
  }

  lemma BeginKeepsInv(cfg: Config, s: State, r: nat, pc: Pc)
    requires Inv(cfg, s) && (pc.Idle? || (KeyOf(cfg, pc).Some? && pc.look == Start && !pc.Reloading?))
    ensures Inv(cfg, Moved(s, r, pc))
  {
    SmallStepKeepsInv(cfg, s, Moved(s, r, pc), r);
  }

  lemma DropKeepsInv(cfg: Config, s: State, r: nat)
    requires Inv(cfg, s)
    ensures Inv(cfg, DropKeysNext(s, r))
  {
    if DropKeysNext(s, r) != s {
      SmallStepKeepsInv(cfg, s, DropKeysNext(s, r), r);
    }
  }

  lemma EvictKeepsInv(cfg: Config, s: State, gone: Caches)
    requires Inv(cfg, s)
    ensures Inv(cfg, s.(caches := Without(s.caches, gone)))
  {
    var t := s.(caches := Without(s.caches, gone));
    assert forall q :: At(t, q) == At(s, q);
    assert forall q, n :: Holds(t, q, n) == Holds(s, q, n);
  }

  lemma {:induction false} RunInv(cfg: Config, steps: seq<Step>)
    requires cfg.Valid()
    ensures Inv(cfg, Run(cfg, EMPTY, steps))
  {
    if steps != [] {
      RunInv(cfg, steps[..|steps| - 1]);
      InvKept(cfg, Run(cfg, EMPTY, steps[..|steps| - 1]), steps[|steps| - 1]);
    }
  }

  // ---------------------------------------------------------------- every run

  /** In every reachable state no two rows share a code or an md5, and each row's md5 is the hash of its URL, its
      code the encoding of a number that Next returned, allowed, and at most 11 characters long. */
  lemma AlwaysSound(cfg: Config, steps: seq<Step>, i: nat, j: nat)
    requires cfg.Valid()
    requires i in Run(cfg, EMPTY, steps).table && j in Run(cfg, EMPTY, steps).table
    ensures
      var s := Run(cfg, EMPTY, steps);
      && (i != j ==> s.table[i].surl != s.table[j].surl && s.table[i].md5 != s.table[j].md5)
      && s.table[i].md5 == cfg.hash(s.table[i].lurl)
      && (exists n :: n in s.drawn && s.table[i].surl == Encode(cfg.alphabet, n))
      && s.table[i].surl !in cfg.blacklist
      && 1 <= |s.table[i].surl| <= MAX_SURL
  {
    RunInv(cfg, steps);
    var s := Run(cfg, EMPTY, steps);
    assert RowDrawn(cfg, s.drawn, s.table[i]);
    var n :| n in s.drawn && s.table[i].surl == Encode(cfg.alphabet, n);
    CodeFitsColumn(cfg.alphabet, n);
  }

  lemma StepGrows(cfg: Config, s: State, step: Step)
    requires Inv(cfg, s)
    ensures Grows(s.table, After(cfg, s, step).table)
  {
    if step.Statement? {
      StatementGrows(cfg, s, step.r, step.fails);
    } else {
      assert After(cfg, s, step).table == s.table;
    }
  }

  lemma StatementGrows(cfg: Config, s: State, r: nat, fails: bool)
    requires Inv(cfg, s)
    ensures Grows(s.table, StatementNext(cfg, s, r, fails).table)
  {
    var pc := At(s, r);
    if pc.Rewriting? {
      assert PcOk(cfg, s.drawn, s.table, pc);
      RewritingGrows(cfg, s, r, fails, pc);
    } else if pc.Inserting? {
      InsertingGrows(cfg, s, r, fails, pc);
    } else {
      assert StatementNext(cfg, s, r, fails) == s;
    }
  }

  lemma RewritingGrows(cfg: Config, s: State, r: nat, fails: bool, pc: Pc)
    requires |cfg.alphabet| == 62 && pc.Rewriting? && pc == At(s, r) && Version(cfg, s.table, pc.read)
    ensures Grows(s.table, StatementNext(cfg, s, r, fails).table)
  {
    VersionGrows(cfg, s.table, pc.read, pc.longUrl, pc.expireAt);
  }

  lemma InsertingGrows(cfg: Config, s: State, r: nat, fails: bool, pc: Pc)
    requires |cfg.alphabet| == 62 && pc.Inserting? && pc == At(s, r) && s.nextId !in s.table
    ensures Grows(s.table, StatementNext(cfg, s, r, fails).table)
  {
    NewRowGrows(s.table, s.nextId, NewRow(cfg, s.nextId, pc.url, Encode(cfg.alphabet, pc.n)));
  }

  lemma NewRowGrows(table: Table, id: nat, row: Row)
    requires id !in table
    ensures Grows(table, table[id := row])
  {
  }

  lemma VersionGrows(cfg: Config, table: Table, read: Row, longUrl: Option<string>, expireAt: Option<Time>)
    requires Version(cfg, table, read)
    ensures Grows(table, table[read.id := Rewrite(cfg, read, longUrl, expireAt)])
  {
  }

  /** However the requests interleave, a row keeps its code for good. */
  lemma {:induction false} CodeNeverChanges(cfg: Config, steps: seq<Step>, n: nat, id: nat)
    requires cfg.Valid() && n <= |steps| && id in Run(cfg, EMPTY, steps[..n]).table
    ensures id in Run(cfg, EMPTY, steps).table
    ensures Run(cfg, EMPTY, steps).table[id].surl == Run(cfg, EMPTY, steps[..n]).table[id].surl
  {
    if n == |steps| {
      assert steps[..n] == steps;
    } else {
      var front := steps[..|steps| - 1];
      assert front[..n] == steps[..n];
      CodeNeverChanges(cfg, front, n, id);
      RunInv(cfg, front);
      StepGrows(cfg, Run(cfg, EMPTY, front), steps[|steps| - 1]);
    }
  }

  /** An INSERT with a number from a successful INCR is refused for the URL's sake only, never for its code. */
  lemma FreshNumberNeverCollides(cfg: Config, steps: seq<Step>, r: nat)
    requires cfg.Valid()
    requires At(Run(cfg, EMPTY, steps), r).Inserting? && At(Run(cfg, EMPTY, steps), r).n > 0
    ensures
      var s := Run(cfg, EMPTY, steps);
      var url, n := At(s, r).url, At(s, r).n;
      var t := After(cfg, s, Statement(r, false));
      if ByMd5(s.table, cfg.hash(url)).None? && |url| <= MAX_LURL
      then t.table == s.table[s.nextId := NewRow(cfg, s.nextId, url, Encode(cfg.alphabet, n))]
      else t.table == s.table && At(t, r).Idle?
  {
    RunInv(cfg, steps);
    FreshInsert(cfg, Run(cfg, EMPTY, steps), r);
  }

  lemma FreshInsert(cfg: Config, s: State, r: nat)
    requires Inv(cfg, s) && At(s, r).Inserting? && At(s, r).n > 0
    ensures
      var row := NewRow(cfg, s.nextId, At(s, r).url, Encode(cfg.alphabet, At(s, r).n));
      && row.id !in s.table
      && (Unclaimed(s.table, row) <==> ByMd5(s.table, row.md5).None?)
      && (Fits(row) <==> |row.lurl| <= MAX_LURL)
  {
    var n := At(s, r).n;
    var row := NewRow(cfg, s.nextId, At(s, r).url, Encode(cfg.alphabet, n));
    assert Holds(s, r, n);
    assert BySurl(s.table, row.surl).None?;
    UnclaimedMeans(s.table, row);
    assert PcOk(cfg, s.drawn, s.table, At(s, r));
    CodeFitsColumn(cfg.alphabet, n);
  }

  /** No two requests ever hold the same number, unless INCR failed for both. */
  lemma NumbersAreDistinct(cfg: Config, steps: seq<Step>, q: nat, r: nat)
    requires cfg.Valid() && q != r
    requires At(Run(cfg, EMPTY, steps), q).Inserting? && At(Run(cfg, EMPTY, steps), r).Inserting?
    requires At(Run(cfg, EMPTY, steps), q).n == At(Run(cfg, EMPTY, steps), r).n
    ensures At(Run(cfg, EMPTY, steps), q).n == 0
  {
    RunInv(cfg, steps);
    var s := Run(cfg, EMPTY, steps);
    if At(s, q).n > 0 {
      assert Holds(s, q, At(s, q).n) && Holds(s, r, At(s, q).n);
    }
  }

  /** A lookup by code may answer with an outdated version, never with another link: an Update only ever
      rewrites the row it was asked for. */
  lemma LookupByCodeIsThatLink(cfg: Config, steps: seq<Step>, r: nat)
    requires cfg.Valid()
    requires At(Run(cfg, EMPTY, steps), r).Locating? && At(Run(cfg, EMPTY, steps), r).look.Answer?
    ensures
      var s := Run(cfg, EMPTY, steps);
      var code, found := At(s, r).code, At(s, r).look.found;
      found.Some? ==> HasSurl(s.table, found.value.id, code) && found.value.surl == code && found.value.md5 == cfg.hash(found.value.lurl)
  {
    RunInv(cfg, steps);
    var s := Run(cfg, EMPTY, steps);
    assert PcOk(cfg, s.drawn, s.table, At(s, r));
  }

  lemma RunOneMore(cfg: Config, s: State, steps: seq<Step>, step: Step)
    requires cfg.Valid()
    ensures Run(cfg, s, steps + [step]) == After(cfg, Run(cfg, s, steps), step)
  {
    assert (steps + [step])[..|steps|] == steps;
  }

  lemma {:induction false} RunSplit(cfg: Config, s: State, front: seq<Step>, back: seq<Step>)
    requires cfg.Valid()
    ensures Run(cfg, s, front + back) == Run(cfg, Run(cfg, s, front), back)
  {
    if back == [] {
      assert front + back == front;
    } else {
      RunSplit(cfg, s, front, back[..|back| - 1]);
      assert (front + back)[..|front + back| - 1] == front + back[..|back| - 1];
    }
  }

  lemma {:induction false} RunKeepsInv(cfg: Config, s: State, steps: seq<Step>)
    requires Inv(cfg, s)
    ensures Inv(cfg, Run(cfg, s, steps))
  {
    if steps != [] {
      RunKeepsInv(cfg, s, steps[..|steps| - 1]);
      InvKept(cfg, Run(cfg, s, steps[..|steps| - 1]), steps[|steps| - 1]);
    }
  }

  // ---------------------------------------------------------------- where a stored code of 0 comes from

  /** This step is an INCR that fails, or that Redis refuses at its limit. */
  ghost predicate IncrFails(cfg: Config, s: State, step: Step) {
    step.Next? && At(s, step.r).Drawing? && (step.fails || s.counter >= MAX_COUNTER)
  }

  lemma {:induction false} ZeroIsFailure(cfg: Config, steps: seq<Step>) returns (i: nat)
    requires cfg.Valid() && 0 in Run(cfg, EMPTY, steps).drawn
    ensures i < |steps| && IncrFails(cfg, Run(cfg, EMPTY, steps[..i]), steps[i])
  {
    var n := |steps| - 1;
    var s := Run(cfg, EMPTY, steps[..n]);
    if 0 in s.drawn {
      i := ZeroIsFailure(cfg, steps[..n]);
      assert steps[..n][..i] == steps[..i];
    } else {
      i := n;
    }
  }

  /** A stored code of 0 means that an INCR has failed. */
  lemma ZeroCodeMeansFailure(cfg: Config, steps: seq<Step>, id: nat) returns (i: nat)
    requires cfg.Valid() && id in Run(cfg, EMPTY, steps).table
    requires Run(cfg, EMPTY, steps).table[id].surl == Encode(cfg.alphabet, 0)
    ensures i < |steps| && IncrFails(cfg, Run(cfg, EMPTY, steps[..i]), steps[i])
  {
    RunInv(cfg, steps);
    var s := Run(cfg, EMPTY, steps);
    assert RowDrawn(cfg, s.drawn, s.table[id]);
    var n :| n in s.drawn && s.table[id].surl == Encode(cfg.alphabet, n);
    EncodeInjective(cfg.alphabet, n, 0);
    i := ZeroIsFailure(cfg, steps);
  }
}
