/** A request that runs alone among interleaved ones: it does exactly what it does in the serial service. */
module LoneRequests {
  import opened Prelude
  import opened Base62
  import opened CodeDraw
  import opened LinkStore
  import opened LinkBook
  import opened IssueMachine
  import opened CacheRaces

  /** After its first step, only steps of r that go on with it, none failing; entries may be evicted. */
  predicate GoesOn(steps: seq<Step>, r: nat) {
    forall i | 0 <= i < |steps| :: GoesOnStep(steps[i], r)
  }

  predicate GoesOnStep(step: Step, r: nat) {
    match step
    case Lookup(q) => q == r
    case Next(q, fails) => q == r && !fails
    case Statement(q, fails) => q == r && !fails
    case DropKeys(q) => q == r
    case Evict(_) => true
    case _ => false
  }

  /** The invariant, exactness and solitude, all kept while r goes on. */
  ghost predicate Steady(cfg: Config, s: State, r: nat) {
    Inv(cfg, s) && Exact(cfg, s) && OthersIdle(s, r)
  }

  lemma StaysSteady(cfg: Config, s: State, step: Step, r: nat)
    requires Steady(cfg, s, r) && GoesOnStep(step, r)
    ensures Steady(cfg, After(cfg, s, step), r)
  {
    InvKept(cfg, s, step);
    OwnStepIsCalm(cfg, s, step, r);
    if !(step.Lookup? && Writing(At(s, r))) {
      CalmKeepsExact(cfg, s, step);
    }
  }

  lemma LoneIsSettled(cfg: Config, s: State, r: nat)
    requires Steady(cfg, s, r) && !Writing(At(s, r))
    ensures Coherent(s)
  {
    assert forall q :: !Writing(At(s, q));
    SettledIsCoherent(cfg, s);
  }

  // ---------------------------------------------------------------- Update

  /** The table that this Update is meant to leave: the link's row in the given fields, if it can be written. */
  ghost function UpdatedTable(cfg: Config, table: Table, code: string, longUrl: Option<string>, expireAt: Option<Time>): Table {
    var found := BySurl(table, code);
    if found.None? then table
    else
      var row := found.value;
      var url := if longUrl.Some? then longUrl.value else row.lurl;
      var changed := Row(row.id, row.createBy, row.isDel, url, if longUrl.Some? then cfg.hash(url) else row.md5, row.surl,
                         if expireAt.Some? then expireAt else row.expireAt);
      if |url| <= MAX_LURL && |changed.surl| <= MAX_SURL && |changed.md5| <= MD5_LENGTH && Unclaimed(table, changed)
      then table[row.id := changed] else table
  }

  /** Where the Update is, and what it has read. */
  ghost predicate UpdateOk(cfg: Config, s: State, r: nat, table: Table, code: string, longUrl: Option<string>, expireAt: Option<Time>) {
    match At(s, r)
    case Locating(c, l, e, _) => s.table == table && c == code && l == longUrl && e == expireAt
    case Reloading(read, l, e, _) => s.table == table && BySurl(table, code) == Some(read) && l == longUrl && e == expireAt
    case Rewriting(read, l, e, _) => s.table == table && BySurl(table, code) == Some(read) && l == longUrl && e == expireAt
    case Rewrote(_) => s.table == UpdatedTable(cfg, table, code, longUrl, expireAt)
    case Idle => s.table == UpdatedTable(cfg, table, code, longUrl, expireAt)
    case _ => false
  }

  lemma UpdateLookup(cfg: Config, s: State, r: nat, table: Table, code: string, longUrl: Option<string>, expireAt: Option<Time>)
    requires Steady(cfg, s, r) && UpdateOk(cfg, s, r, table, code, longUrl, expireAt)
    ensures UpdateOk(cfg, LookupNext(cfg, s, r), r, table, code, longUrl, expireAt)
  {
    var pc := At(s, r);
    assert Trusty(cfg, s.table, pc) && PcOk(cfg, s.drawn, s.table, pc);
    if pc.Locating? && pc.look.Answer? {
      assert pc.look.found == BySurl(table, code);
    }
    if pc.Reloading? && pc.look.Answer? {
      FoundRow(table, code, pc.read);
      assert pc.look.found == ById(table, pc.read.id);
    }
  }

  lemma FoundRow(table: Table, code: string, row: Row)
    requires BySurl(table, code) == Some(row) && Keyed(table)
    ensures row.id in table && table[row.id] == row
  {
  }

  lemma UpdateStatement(cfg: Config, s: State, r: nat, table: Table, code: string, longUrl: Option<string>, expireAt: Option<Time>)
    requires Steady(cfg, s, r) && UpdateOk(cfg, s, r, table, code, longUrl, expireAt)
    ensures UpdateOk(cfg, StatementNext(cfg, s, r, false), r, table, code, longUrl, expireAt)
  {
    var pc := At(s, r);
    if pc.Rewriting? {
      FoundRow(table, code, pc.read);
      var row := pc.read;
      var url := if longUrl.Some? then longUrl.value else row.lurl;
      assert Rewrite(cfg, row, longUrl, expireAt)
          == Row(row.id, row.createBy, row.isDel, url, if longUrl.Some? then cfg.hash(url) else row.md5, row.surl,
                 if expireAt.Some? then expireAt else row.expireAt);
    }
  }

  lemma UpdateStep(cfg: Config, s: State, step: Step, r: nat, table: Table, code: string, longUrl: Option<string>, expireAt: Option<Time>)
    requires Steady(cfg, s, r) && UpdateOk(cfg, s, r, table, code, longUrl, expireAt) && GoesOnStep(step, r)
    ensures UpdateOk(cfg, After(cfg, s, step), r, table, code, longUrl, expireAt)
  {
    match step
    case Lookup(_) => UpdateLookup(cfg, s, r, table, code, longUrl, expireAt);
    case Statement(_, _) => UpdateStatement(cfg, s, r, table, code, longUrl, expireAt);
    case _ =>
  }

  lemma {:induction false} UpdateGoesOn(cfg: Config, s: State, steps: seq<Step>, r: nat, table: Table, code: string,
                                        longUrl: Option<string>, expireAt: Option<Time>)
    requires Steady(cfg, s, r) && UpdateOk(cfg, s, r, table, code, longUrl, expireAt) && GoesOn(steps, r)
    ensures Steady(cfg, Run(cfg, s, steps), r) && UpdateOk(cfg, Run(cfg, s, steps), r, table, code, longUrl, expireAt)
  {
    if steps != [] {
      var n := |steps| - 1;
      UpdateGoesOn(cfg, s, steps[..n], r, table, code, longUrl, expireAt);
      StaysSteady(cfg, Run(cfg, s, steps[..n]), steps[n], r);
      UpdateStep(cfg, Run(cfg, s, steps[..n]), steps[n], r, table, code, longUrl, expireAt);
    }
  }

  /** From any sound state with coherent caches and no request under way, an Update that runs alone to its end changes
      its link in the given fields, or nothing if there is no such link or the database refuses the row; and it leaves
      the caches coherent. */
  lemma LoneUpdate(cfg: Config, s: State, steps: seq<Step>, r: nat, code: string, longUrl: Option<string>, expireAt: Option<Time>)
    requires Inv(cfg, s) && Coherent(s) && OthersIdle(s, r) && At(s, r).Idle? && GoesOn(steps, r)
    requires At(Run(cfg, After(cfg, s, Update(r, code, longUrl, expireAt)), steps), r).Idle?
    ensures
      var t := Run(cfg, After(cfg, s, Update(r, code, longUrl, expireAt)), steps);
      t.table == UpdatedTable(cfg, s.table, code, longUrl, expireAt) && Coherent(t)
  {
    var begun := After(cfg, s, Update(r, code, longUrl, expireAt));
    Begins(cfg, s, Update(r, code, longUrl, expireAt), r);
    UpdateGoesOn(cfg, begun, steps, r, s.table, code, longUrl, expireAt);
    LoneIsSettled(cfg, Run(cfg, begun, steps), r);
  }

  lemma Begins(cfg: Config, s: State, step: Step, r: nat)
    requires Inv(cfg, s) && Coherent(s) && OthersIdle(s, r) && At(s, r).Idle?
    requires (step.Update? || step.Convert?) && step.r == r
    ensures Steady(cfg, After(cfg, s, step), r)
  {
    QuietIsExact(cfg, s);
    InvKept(cfg, s, step);
    OwnStepIsCalm(cfg, s, step, r);
    CalmKeepsExact(cfg, s, step);
  }

  // ---------------------------------------------------------------- Convert

  /** The table that this conversion leaves: a known URL changes nothing; any other gets a row under the code of the
      last number drawn, unless it is too long. */
  ghost function ConvertedTable(cfg: Config, s: State, url: string, n: nat): Table
    requires |cfg.alphabet| == 62
  {
    if ByMd5(s.table, cfg.hash(url)).Some? || |url| > MAX_LURL then s.table
    else s.table[s.nextId := Row(s.nextId, "", 0, url, cfg.hash(url), Encode(cfg.alphabet, n), None)]
  }

  /** Everything drawn since state s, up to n, is blacklisted. */
  ghost predicate RejectedUpTo(cfg: Config, s: State, n: nat)
    requires |cfg.alphabet| == 62
  {
    forall k: nat | s.counter < k < n :: Encode(cfg.alphabet, k) in cfg.blacklist
  }

  /** Where the conversion that began in state s is. */
  ghost predicate ConvertOk(cfg: Config, s: State, t: State, r: nat, url: string)
    requires |cfg.alphabet| == 62
  {
    var known := ByMd5(s.table, cfg.hash(url)).Some?;
    match At(t, r)
    case Knowing(u, look) =>
      && u == url && t.table == s.table && t.counter == s.counter && t.nextId == s.nextId
      && IndexRight(t.table, t.caches, Md5Key(cfg.hash(url))) && LookExact(t.table, Md5Key(cfg.hash(url)), look)
    case Checking(u, _) => u == url && t.table == s.table && t.counter == s.counter && t.nextId == s.nextId && !known
    case Drawing(u) =>
      && u == url && t.table == s.table && t.nextId == s.nextId && !known
      && s.counter <= t.counter && RejectedUpTo(cfg, s, t.counter + 1)
    case Inserting(u, n) =>
      && u == url && t.table == s.table && t.nextId == s.nextId && !known && n == t.counter && Ended(cfg, s, t)
    case Inserted(row) => t.table == ConvertedTable(cfg, s, url, t.counter) && !known && Ended(cfg, s, t)
    case Idle => t.table == ConvertedTable(cfg, s, url, t.counter) && if known then t.counter == s.counter else Ended(cfg, s, t)
    case _ => false
  }

  /** The last number drawn is the first one whose code is allowed. */
  ghost predicate Ended(cfg: Config, s: State, t: State)
    requires |cfg.alphabet| == 62
  {
    s.counter < t.counter && RejectedUpTo(cfg, s, t.counter) && Encode(cfg.alphabet, t.counter) !in cfg.blacklist
  }

  /** No stored code is as long as an md5. */
  lemma NoCodeIsHash(cfg: Config, s: State, url: string)
    requires Inv(cfg, s)
    ensures BySurl(s.table, cfg.hash(url)).None?
  {
    forall id | id in s.table
      ensures s.table[id].surl != cfg.hash(url)
    {
      assert RowDrawn(cfg, s.drawn, s.table[id]);
      var n :| n in s.drawn && s.table[id].surl == Encode(cfg.alphabet, n);
      CodeFitsColumn(cfg.alphabet, n);
    }
  }

  lemma ConvertLookup(cfg: Config, s: State, t: State, r: nat, url: string)
    requires Steady(cfg, t, r) && ConvertOk(cfg, s, t, r, url)
    ensures ConvertOk(cfg, s, LookupNext(cfg, t, r), r, url)
  {
    var pc, key := At(t, r), KeyOf(cfg, At(t, r));
    if key.Some? {
      assert Trusty(cfg, t.table, pc);
      LoneIsSettled(cfg, t, r);
      if pc.Checking? {
        NoCodeIsHash(cfg, t, url);
      } else {
        KnowingLookup(cfg, s, t, r, url);
      }
    }
  }

  lemma KnowingLookup(cfg: Config, s: State, t: State, r: nat, url: string)
    requires Steady(cfg, t, r) && Coherent(t) && ConvertOk(cfg, s, t, r, url) && At(t, r).Knowing?
    ensures ConvertOk(cfg, s, LookupNext(cfg, t, r), r, url)
  {
    var look, key := At(t, r).look, Md5Key(cfg.hash(url));
    LookStaysExact(t.table, t.caches, key, look);
    Md5IndexStaysRight(t.table, t.caches, key, look);
  }

  lemma Md5IndexStaysRight(table: Table, caches: Caches, key: Key, look: Look)
    requires Keyed(table) && key.Md5Key? && IndexRight(table, caches, key) && LookExact(table, key, look)
    ensures IndexRight(table, CachesNext(caches, key, look), key)
  {
  }

  lemma ConvertNext(cfg: Config, s: State, t: State, r: nat, url: string)
    requires cfg.Valid() && ConvertOk(cfg, s, t, r, url) && NextNext(cfg, t, r, false).counter < MAX_COUNTER
    ensures ConvertOk(cfg, s, NextNext(cfg, t, r, false), r, url)
  {
  }

  lemma ConvertStatement(cfg: Config, s: State, t: State, r: nat, url: string)
    requires Steady(cfg, t, r) && ConvertOk(cfg, s, t, r, url) && t.counter < MAX_COUNTER
    ensures ConvertOk(cfg, s, StatementNext(cfg, t, r, false), r, url)
  {
    var pc := At(t, r);
    if pc.Inserting? {
      FreshInsert(cfg, t, r);
    }
  }

  lemma ConvertStep(cfg: Config, s: State, t: State, step: Step, r: nat, url: string)
    requires Steady(cfg, t, r) && ConvertOk(cfg, s, t, r, url) && GoesOnStep(step, r)
    requires After(cfg, t, step).counter < MAX_COUNTER
    ensures ConvertOk(cfg, s, After(cfg, t, step), r, url)
  {
    match step
    case Lookup(_) => ConvertLookup(cfg, s, t, r, url);
    case Next(_, _) => ConvertNext(cfg, s, t, r, url);
    case Statement(_, _) => ConvertStatement(cfg, s, t, r, url);
    case _ =>
  }

  lemma {:induction false} ConvertGoesOn(cfg: Config, s: State, begun: State, steps: seq<Step>, r: nat, url: string)
    requires Steady(cfg, begun, r) && ConvertOk(cfg, s, begun, r, url) && GoesOn(steps, r)
    requires Run(cfg, begun, steps).counter < MAX_COUNTER
    ensures Steady(cfg, Run(cfg, begun, steps), r) && ConvertOk(cfg, s, Run(cfg, begun, steps), r, url)
  {
    if steps != [] {
      var n := |steps| - 1;
      var t := Run(cfg, begun, steps[..n]);
      CounterGrows(cfg, t, steps[n]);
      ConvertGoesOn(cfg, s, begun, steps[..n], r, url);
      StaysSteady(cfg, t, steps[n], r);
      ConvertStep(cfg, s, t, steps[n], r, url);
    }
  }

  lemma CounterGrows(cfg: Config, t: State, step: Step)
    requires |cfg.alphabet| == 62
    ensures t.counter <= After(cfg, t, step).counter
  {
  }

  /** From any sound state with coherent caches, with no placeholder that wrongly denies the URL's md5 and no request
      under way, a conversion that runs alone to its end, before the counter runs out, changes nothing if the URL is
      known; and otherwise inserts its row under the first allowed code of a number that it draws. */
  lemma LoneConvert(cfg: Config, s: State, steps: seq<Step>, r: nat, url: string)
    requires Inv(cfg, s) && Coherent(s) && OthersIdle(s, r) && At(s, r).Idle? && GoesOn(steps, r)
    requires IndexRight(s.table, s.caches, Md5Key(cfg.hash(url)))
    requires At(Run(cfg, After(cfg, s, Convert(r, url)), steps), r).Idle?
    requires Run(cfg, After(cfg, s, Convert(r, url)), steps).counter < MAX_COUNTER
    ensures
      var t := Run(cfg, After(cfg, s, Convert(r, url)), steps);
      && t.table == ConvertedTable(cfg, s, url, t.counter) && Coherent(t)
      && if ByMd5(s.table, cfg.hash(url)).Some? then t.counter == s.counter else Ended(cfg, s, t)
  {
    var begun := After(cfg, s, Convert(r, url));
    Begins(cfg, s, Convert(r, url), r);
    ConvertGoesOn(cfg, s, begun, steps, r, url);
    LoneIsSettled(cfg, Run(cfg, begun, steps), r);
  }
}
