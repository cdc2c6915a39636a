/** Two ways in which an Update that succeeded is undone by another one, from any sound state. */
module LostUpdates {
  import opened Prelude
  import opened LinkStore
  import opened LinkBook
  import opened IssueMachine
  import opened CacheRaces

  /** Every other request is where it was, and the database unchanged. */
  ghost predicate OnlyMoved(s: State, t: State, r: nat, pc: Pc) {
    && t.table == s.table && t.nextId == s.nextId && t.counter == s.counter && t.drawn == s.drawn
    && At(t, r) == pc
    && forall q | q != r :: At(t, q) == At(s, q)
  }

  /** There is always one more request. */
  lemma {:induction false} Unused(taken: set<nat>) returns (p: nat)
    ensures forall x | x in taken :: x < p
  {
    p := 0;
    if taken != {} {
      var x :| x in taken;
      var rest := taken - {x};
      p := Unused(rest);
      assert forall y | y in taken :: y == x || y in rest;
      p := if p <= x then x + 1 else p;
    }
  }

  // ---------------------------------------------------------------- lookups in a few steps

  /** A request's lookup advances twice. */
  ghost function Twice(cfg: Config, s: State, r: nat): State {
    LookupNext(cfg, LookupNext(cfg, s, r), r)
  }

  lemma TwiceIsRun(cfg: Config, s: State, steps: seq<Step>, r: nat) returns (longer: seq<Step>)
    requires cfg.Valid()
    ensures Run(cfg, s, longer) == Twice(cfg, Run(cfg, s, steps), r)
  {
    RunOneMore(cfg, s, steps, Lookup(r));
    RunOneMore(cfg, s, steps + [Lookup(r)], Lookup(r));
    longer := steps + [Lookup(r)] + [Lookup(r)];
  }

  /** The caches hold this version of a link, at both levels. */
  predicate Holding(s: State, row: Row) {
    && row.id in s.caches.ids && s.caches.ids[row.id] == Some(row)
    && row.surl in s.caches.surls && s.caches.surls[row.surl] == Some(row.id)
  }

  /** With cold caches a Show queries the table. */
  lemma ColdQuery(cfg: Config, s: State, p: nat, row: Row)
    requires cfg.Valid() && At(s, p).Idle? && BySurl(s.table, row.surl) == Some(row)
    ensures OnlyMoved(s, LookupNext(cfg, After(cfg, After(cfg, s, Evict(s.caches)), Show(p, row.surl)), p), p,
                      Resolving(row.surl, Missed(Some(row))))
  {
    var s1 := After(cfg, s, Evict(s.caches));
    assert s1.caches == Caches(map[], map[], map[]) && OnlyMoved(s, s1, p, Idle);
    var s2 := After(cfg, s1, Show(p, row.surl));
    assert OnlyMoved(s, s2, p, Resolving(row.surl, Start));
  }

  lemma QueryStep(cfg: Config, s: State, p: nat, row: Row) returns (steps: seq<Step>)
    requires cfg.Valid() && At(s, p).Idle? && BySurl(s.table, row.surl) == Some(row)
    ensures OnlyMoved(s, Run(cfg, s, steps), p, Resolving(row.surl, Missed(Some(row))))
  {
    var evict, show := Evict(s.caches), Show(p, row.surl);
    ColdQuery(cfg, s, p, row);
    RunOneMore(cfg, s, [], evict);
    RunOneMore(cfg, s, [] + [evict], show);
    RunOneMore(cfg, s, [] + [evict] + [show], Lookup(p));
    steps := [] + [evict] + [show] + [Lookup(p)];
  }

  /** What was queried is cached at both levels, whatever has happened meanwhile. */
  lemma FillStep(cfg: Config, s: State, p: nat, row: Row) returns (steps: seq<Step>)
    requires cfg.Valid() && At(s, p) == Resolving(row.surl, Missed(Some(row)))
    ensures OnlyMoved(s, Run(cfg, s, steps), p, Idle) && Holding(Run(cfg, s, steps), row)
  {
    var s1 := LookupNext(cfg, s, p);
    assert OnlyMoved(s, s1, p, Resolving(row.surl, Primed(row)));
    var s2 := Twice(cfg, s, p);
    assert OnlyMoved(s, s2, p, Resolving(row.surl, Answer(Some(row)))) && Holding(s2, row);
    steps := TwiceIsRun(cfg, s, [], p);
    RunOneMore(cfg, s, steps, Lookup(p));
    steps := steps + [Lookup(p)];
  }

  /** An Update takes the version that the caches hold. */
  lemma TakeStep(cfg: Config, s: State, r: nat, longUrl: Option<string>, expireAt: Option<Time>, row: Row) returns (steps: seq<Step>)
    requires cfg.Valid() && At(s, r).Idle? && Holding(s, row)
    ensures OnlyMoved(s, Run(cfg, s, steps), r, Rewriting(row, longUrl, expireAt, row)) && Holding(Run(cfg, s, steps), row)
  {
    RunOneMore(cfg, s, [], Update(r, row.surl, longUrl, expireAt));
    steps := [] + [Update(r, row.surl, longUrl, expireAt)];
    var s1 := Run(cfg, s, steps);
    assert OnlyMoved(s, s1, r, Locating(row.surl, longUrl, expireAt, Start)) && Holding(s1, row);
    TakeByCode(cfg, s1, r, longUrl, expireAt, row);
    steps := TwiceIsRun(cfg, s, steps, r);
    RunOneMore(cfg, s, steps, Lookup(r));
    steps := steps + [Lookup(r)];
    TakeById(cfg, Run(cfg, s, steps), r, longUrl, expireAt, row);
    steps := TwiceIsRun(cfg, s, steps, r);
    RunOneMore(cfg, s, steps, Lookup(r));
    steps := steps + [Lookup(r)];
  }

  lemma TakeByCode(cfg: Config, s: State, r: nat, longUrl: Option<string>, expireAt: Option<Time>, row: Row)
    requires At(s, r) == Locating(row.surl, longUrl, expireAt, Start) && Holding(s, row)
    ensures OnlyMoved(s, LookupNext(cfg, Twice(cfg, s, r), r), r, Reloading(row, longUrl, expireAt, Start))
    ensures LookupNext(cfg, Twice(cfg, s, r), r).caches == s.caches
  {
    var s1 := LookupNext(cfg, s, r);
    assert OnlyMoved(s, s1, r, Locating(row.surl, longUrl, expireAt, Hit(row.id))) && s1.caches == s.caches;
    var s2 := Twice(cfg, s, r);
    assert OnlyMoved(s, s2, r, Locating(row.surl, longUrl, expireAt, Answer(Some(row)))) && s2.caches == s.caches;
  }

  lemma TakeById(cfg: Config, s: State, r: nat, longUrl: Option<string>, expireAt: Option<Time>, row: Row)
    requires At(s, r) == Reloading(row, longUrl, expireAt, Start) && Holding(s, row)
    ensures OnlyMoved(s, LookupNext(cfg, Twice(cfg, s, r), r), r, Rewriting(row, longUrl, expireAt, row))
    ensures LookupNext(cfg, Twice(cfg, s, r), r).caches == s.caches
  {
    var s1 := LookupNext(cfg, s, r);
    assert OnlyMoved(s, s1, r, Reloading(row, longUrl, expireAt, Hit(row.id))) && s1.caches == s.caches;
    var s2 := Twice(cfg, s, r);
    assert OnlyMoved(s, s2, r, Reloading(row, longUrl, expireAt, Answer(Some(row)))) && s2.caches == s.caches;
  }

  /** An Update can take the row as it is now: a Show caches it first. */
  lemma ReadRow(cfg: Config, s: State, p: nat, r: nat, longUrl: Option<string>, expireAt: Option<Time>, row: Row)
    returns (steps: seq<Step>)
    requires cfg.Valid() && p != r && At(s, p).Idle? && At(s, r).Idle? && BySurl(s.table, row.surl) == Some(row)
    ensures OnlyMoved(s, Run(cfg, s, steps), r, Rewriting(row, longUrl, expireAt, row)) && Holding(Run(cfg, s, steps), row)
  {
    var query := QueryStep(cfg, s, p, row);
    var s1 := Run(cfg, s, query);
    var fill := FillStep(cfg, s1, p, row);
    var s2 := Run(cfg, s1, fill);
    var take := TakeStep(cfg, s2, r, longUrl, expireAt, row);
    RunSplit(cfg, s, query, fill);
    RunSplit(cfg, s, query + fill, take);
    steps := query + fill + take;
  }

  // ---------------------------------------------------------------- the statements

  /** The row with a new URL, and the row with a new expiry. */
  function Moved(cfg: Config, row: Row, url: string): Row {
    row.(lurl := url, md5 := cfg.hash(url))
  }

  function Timed(row: Row, expireAt: Time): Row {
    row.(expireAt := Some(expireAt))
  }

  lemma Unopposed(cfg: Config, s: State, row: Row, moved: Row)
    requires TableOk(cfg, s.drawn, s.table, s.nextId) && BySurl(s.table, row.surl) == Some(row)
    requires moved.id == row.id && moved.surl == row.surl && ByMd5(s.table, moved.md5).None?
    ensures row.id in s.table && s.table[row.id] == row
    ensures Unclaimed(s.table, row) && Unclaimed(s.table, moved)
  {
    forall id | id in s.table && id != row.id
      ensures s.table[id].surl != row.surl && s.table[id].md5 != moved.md5 && s.table[id].md5 != row.md5
    {
      assert !HasMd5(s.table, id, moved.md5);
    }
  }

  lemma MoveStep(cfg: Config, s: State, q: nat, row: Row, url: string)
    requires Inv(cfg, s) && BySurl(s.table, row.surl) == Some(row) && Fits(row)
    requires |url| <= MAX_LURL && ByMd5(s.table, cfg.hash(url)).None?
    requires At(s, q) == Rewriting(row, Some(url), None, row)
    ensures
      var t := After(cfg, s, Statement(q, false));
      && t == s.(table := s.table[row.id := Moved(cfg, row, url)], pcs := s.pcs[q := Rewrote(row)])
      && row.id in s.table && s.table[row.id] == row && Unclaimed(s.table, row)
  {
    Unopposed(cfg, s, row, Moved(cfg, row, url));
    assert Rewrite(cfg, row, Some(url), None) == Moved(cfg, row, url);
  }

  lemma TimeStep(cfg: Config, s: State, r: nat, was: Table, row: Row, url: string, expireAt: Time)
    requires cfg.Valid() && row.id in was && was[row.id] == row && Unclaimed(was, row) && Fits(row)
    requires s.table == was[row.id := Moved(cfg, row, url)]
    requires At(s, r) == Rewriting(row, None, Some(expireAt), row)
    ensures
      var t := After(cfg, s, Statement(r, false));
      && t.table == was[row.id := Timed(row, expireAt)]
      && t.pcs == s.pcs[r := Rewrote(row)]
  {
    assert Rewrite(cfg, row, None, Some(expireAt)) == Timed(row, expireAt);
    assert Unclaimed(s.table, Timed(row, expireAt));
    assert s.table[row.id := Timed(row, expireAt)] == was[row.id := Timed(row, expireAt)];
  }

  // ---------------------------------------------------------------- overlapping Updates

  /** From any sound state, with two Updates at once, one of a link's URL and one of its expiry: both statements can
      succeed, and yet the link ends with its old URL. */
  lemma LostUpdate(cfg: Config, s: State, q: nat, r: nat, row: Row, url: string, expireAt: Time) returns (steps: seq<Step>)
    requires Inv(cfg, s) && q != r && At(s, q).Idle? && At(s, r).Idle?
    requires BySurl(s.table, row.surl) == Some(row) && Fits(row)
    requires |url| <= MAX_LURL && ByMd5(s.table, cfg.hash(url)).None?
    ensures |steps| > 0
    ensures At(Run(cfg, s, steps), q).Rewrote? && At(Run(cfg, s, steps), r).Rewrote?
    ensures Run(cfg, s, steps[..|steps| - 1]).table == s.table[row.id := Moved(cfg, row, url)]
    ensures Run(cfg, s, steps).table == s.table[row.id := Timed(row, expireAt)]
  {
    var p := Unused(s.pcs.Keys + {q, r});
    var first := ReadRow(cfg, s, p, q, Some(url), None, row);
    var s1 := Run(cfg, s, first);
    RunKeepsInv(cfg, s, first);
    var second := ReadRow(cfg, s1, p, r, None, Some(expireAt), row);
    var s2 := Run(cfg, s1, second);
    RunKeepsInv(cfg, s1, second);
    RunSplit(cfg, s, first, second);
    MoveStep(cfg, s2, q, row, url);
    var s3 := After(cfg, s2, Statement(q, false));
    TimeStep(cfg, s3, r, s.table, row, url, expireAt);
    RunOneMore(cfg, s, first + second, Statement(q, false));
    RunOneMore(cfg, s, first + second + [Statement(q, false)], Statement(r, false));
    steps := first + second + [Statement(q, false)] + [Statement(r, false)];
    assert steps[..|steps| - 1] == first + second + [Statement(q, false)];
  }

  // ---------------------------------------------------------------- a Show in between

  /** An Update of the URL, about to write, comes to its end. */
  lemma UpdateEnds(cfg: Config, s: State, q: nat, row: Row, url: string) returns (steps: seq<Step>)
    requires Inv(cfg, s) && BySurl(s.table, row.surl) == Some(row) && Fits(row)
    requires |url| <= MAX_LURL && ByMd5(s.table, cfg.hash(url)).None?
    requires At(s, q) == Rewriting(row, Some(url), None, row)
    ensures
      var t := Run(cfg, s, steps);
      && t.table == s.table[row.id := Moved(cfg, row, url)] && At(t, q).Idle?
      && (forall r | r != q :: At(t, r) == At(s, r))
      && row.id in s.table && s.table[row.id] == row && Unclaimed(s.table, row)
  {
    MoveStep(cfg, s, q, row, url);
    var t := After(cfg, s, Statement(q, false));
    assert At(t, q).Rewrote? && forall r | r != q :: At(t, r) == At(s, r);
    DropsKeys(cfg, t, q);
    RunOneMore(cfg, s, [], Statement(q, false));
    RunOneMore(cfg, s, [] + [Statement(q, false)], DropKeys(q));
    steps := [] + [Statement(q, false)] + [DropKeys(q)];
  }

  lemma DropsKeys(cfg: Config, s: State, q: nat)
    requires |cfg.alphabet| == 62 && At(s, q).Rewrote?
    ensures OnlyMoved(s, After(cfg, s, DropKeys(q)), q, Idle)
  {
  }

  /** An Update of the URL runs from start to end. */
  lemma UpdateRuns(cfg: Config, s: State, o: nat, q: nat, row: Row, url: string) returns (steps: seq<Step>)
    requires Inv(cfg, s) && q != o && At(s, q).Idle? && At(s, o).Idle?
    requires BySurl(s.table, row.surl) == Some(row) && Fits(row)
    requires |url| <= MAX_LURL && ByMd5(s.table, cfg.hash(url)).None?
    ensures
      var t := Run(cfg, s, steps);
      && t.table == s.table[row.id := Moved(cfg, row, url)] && (forall r :: At(t, r) == At(s, r))
      && row.id in s.table && s.table[row.id] == row && Unclaimed(s.table, row)
  {
    var read := ReadRow(cfg, s, o, q, Some(url), None, row);
    RunKeepsInv(cfg, s, read);
    var write := UpdateEnds(cfg, Run(cfg, s, read), q, row, url);
    RunSplit(cfg, s, read, write);
    steps := read + write;
  }

  /** A Show queries the row; an Update of the URL runs from start to end; the Show caches what it has. */
  lemma ShowKeepsOldRow(cfg: Config, s: State, p: nat, q: nat, o: nat, row: Row, url: string) returns (steps: seq<Step>)
    requires Inv(cfg, s) && p != q && p != o && q != o && At(s, p).Idle? && At(s, q).Idle? && At(s, o).Idle?
    requires BySurl(s.table, row.surl) == Some(row) && Fits(row)
    requires |url| <= MAX_LURL && ByMd5(s.table, cfg.hash(url)).None?
    ensures
      var t := Run(cfg, s, steps);
      && t.table == s.table[row.id := Moved(cfg, row, url)] && Holding(t, row)
      && (forall r :: At(t, r) == At(s, r))
      && row.id in s.table && s.table[row.id] == row && Unclaimed(s.table, row)
  {
    var query := QueryStep(cfg, s, p, row);
    var s1 := Run(cfg, s, query);
    RunKeepsInv(cfg, s, query);
    var update := UpdateRuns(cfg, s1, o, q, row, url);
    RunSplit(cfg, s, query, update);
    var fill := FillStep(cfg, Run(cfg, s1, update), p, row);
    RunSplit(cfg, s, query + update, fill);
    steps := query + update + fill;
  }

  /** Nor need two Updates overlap: one of the URL has ended before one of the expiry begins, and every request is
      where it was; and still the latter writes the old URL back, because a Show in between has cached the row. */
  lemma LostToShow(cfg: Config, s: State, q: nat, r: nat, row: Row, url: string, expireAt: Time)
    returns (until: seq<Step>, after: seq<Step>)
    requires Inv(cfg, s) && q != r && At(s, q).Idle? && At(s, r).Idle?
    requires BySurl(s.table, row.surl) == Some(row) && Fits(row)
    requires |url| <= MAX_LURL && ByMd5(s.table, cfg.hash(url)).None?
    ensures
      var t := Run(cfg, s, until);
      && (forall o :: At(t, o) == At(s, o))
      && t.table == s.table[row.id := Moved(cfg, row, url)]
      && At(Run(cfg, t, after), r).Rewrote?
      && Run(cfg, t, after).table == s.table[row.id := Timed(row, expireAt)]
  {
    var p := Unused(s.pcs.Keys + {q, r});
    until := ShowKeepsOldRow(cfg, s, p, q, r, row, url);
    var t := Run(cfg, s, until);
    var take := TakeStep(cfg, t, r, None, Some(expireAt), row);
    TimeStep(cfg, Run(cfg, t, take), r, s.table, row, url, expireAt);
    RunOneMore(cfg, t, take, Statement(r, false));
    after := take + [Statement(r, false)];
  }

  // ---------------------------------------------------------------- dying before the keys are deleted

  /** A Show whose code the caches hold answers with the row that they hold. */
  lemma CachedShow(cfg: Config, s: State, o: nat, row: Row) returns (steps: seq<Step>)
    requires cfg.Valid() && At(s, o).Idle? && Holding(s, row)
    ensures Answers(Run(cfg, s, steps), o, row.surl, Some(row)) && Run(cfg, s, steps).table == s.table
  {
    RunOneMore(cfg, s, [], Show(o, row.surl));
    steps := [] + [Show(o, row.surl)];
    var s1 := Run(cfg, s, steps);
    assert At(s1, o) == Resolving(row.surl, Start) && Holding(s1, row);
    CachedLookup(cfg, s1, o, row);
    steps := TwiceIsRun(cfg, s, steps, o);
  }

  lemma CachedLookup(cfg: Config, s: State, o: nat, row: Row)
    requires At(s, o) == Resolving(row.surl, Start) && Holding(s, row)
    ensures At(Twice(cfg, s, o), o) == Resolving(row.surl, Answer(Some(row))) && Twice(cfg, s, o).table == s.table
  {
    var s1 := LookupNext(cfg, s, o);
    assert At(s1, o) == Resolving(row.surl, Hit(row.id)) && s1.caches == s.caches;
  }

  lemma WritesAndDies(cfg: Config, s: State, q: nat, row: Row, url: string)
    requires Inv(cfg, s) && BySurl(s.table, row.surl) == Some(row) && Fits(row)
    requires |url| <= MAX_LURL && ByMd5(s.table, cfg.hash(url)).None?
    requires At(s, q) == Rewriting(row, Some(url), None, row) && Holding(s, row)
    ensures
      var t := After(cfg, After(cfg, s, Statement(q, false)), Die(q));
      && t.table == s.table[row.id := Moved(cfg, row, url)] && Holding(t, row)
      && (forall r :: At(t, r) == if r == q then Idle else At(s, r))
  {
    MoveStep(cfg, s, q, row, url);
    var t := After(cfg, s, Statement(q, false));
    assert Holding(t, row) && forall r :: r != q ==> At(t, r) == At(s, r);
    Dies(cfg, t, q, row);
  }

  lemma Dies(cfg: Config, s: State, q: nat, row: Row)
    requires |cfg.alphabet| == 62 && Holding(s, row)
    ensures OnlyMoved(s, After(cfg, s, Die(q)), q, Idle) && Holding(After(cfg, s, Die(q)), row)
  {
  }

  /** An Update that dies after its statement leaves the old row in the caches: with every request where it was, a Show
      that begins only then answers the old URL. */
  lemma DiesOutdated(cfg: Config, s: State, q: nat, o: nat, row: Row, url: string) returns (until: seq<Step>, after: seq<Step>)
    requires Inv(cfg, s) && q != o && At(s, q).Idle? && At(s, o).Idle?
    requires BySurl(s.table, row.surl) == Some(row) && Fits(row)
    requires |url| <= MAX_LURL && ByMd5(s.table, cfg.hash(url)).None?
    ensures
      var t := Run(cfg, s, until);
      && (forall r :: At(t, r) == At(s, r))
      && t.table == s.table[row.id := Moved(cfg, row, url)]
      && Answers(Run(cfg, t, after), o, row.surl, Some(row)) && Run(cfg, t, after).table == t.table
  {
    var p := Unused(s.pcs.Keys + {q, o});
    var read := ReadRow(cfg, s, p, q, Some(url), None, row);
    var s1 := Run(cfg, s, read);
    RunKeepsInv(cfg, s, read);
    WritesAndDies(cfg, s1, q, row, url);
    RunOneMore(cfg, s, read, Statement(q, false));
    RunOneMore(cfg, s, read + [Statement(q, false)], Die(q));
    until := read + [Statement(q, false)] + [Die(q)];
    after := CachedShow(cfg, Run(cfg, s, until), o, row);
  }
}
