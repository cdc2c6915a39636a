/** Whole serial runs of the short-link service: conversions, lookups, updates and evictions in any order. */
module LinkRuns {
  import opened Prelude
  import opened Base62
  import opened CodeDraw
  import opened LinkStore
  import opened Text
  import opened LinkBook

  /** One request and its answer.  `code` and `draws` tell which code a conversion answered with or stored. */
  datatype Event =
    | Conversion(url: string, env: Surroundings, code: string, draws: nat, answer: ConvertReply)
    | Showing(code: string, now: Time, filterFails: bool, shown: ShowReply)
    | Updating(code: string, longUrl: string, expireAt: string, fails: bool, updated: UpdateReply)
    | Eviction(md5s: set<string>)

  ghost predicate Step(cfg: Config, locations: string -> set<nat>, s: Book, e: Event, t: Book)
    requires |cfg.alphabet| == 62
  {
    match e
    case Conversion(url, env, code, draws, answer) => Converts(cfg, locations, url, env, code, draws, s, t, answer)
    case Showing(code, now, filterFails, shown) => t == s && shown == Shows(locations, code, now, filterFails, s)
    case Updating(code, longUrl, expireAt, fails, updated) => Rewrites(cfg, code, longUrl, expireAt, fails, s, t, updated)
    case Eviction(md5s) => t == s.(vain := s.vain - md5s)
  }

  /** A run: its books before, between and after its events. */
  datatype Run = Run(cfg: Config, locations: string -> set<nat>, books: seq<Book>, events: seq<Event>)
  {
    ghost predicate StepAt(i: nat)
      requires i < |events| && |books| == |events| + 1 && |cfg.alphabet| == 62
    {
      Step(cfg, locations, books[i], events[i], books[i + 1])
    }

    ghost predicate Valid() {
      && |books| == |events| + 1
      && BookOk(cfg, books[0])
      && forall i | 0 <= i < |events| :: StepAt(i)
    }
  }

  // ---------------------------------------------------------------- what every step keeps

  ghost function SurlAfter(table: Table, row: Row, surl: string): Option<Row> {
    if surl == row.surl then Some(row) else if HasSurl(table, row.id, surl) then None else BySurl(table, surl)
  }

  ghost function Md5After(table: Table, row: Row, md5: string): Option<Row> {
    if md5 == row.md5 then Some(row) else if HasMd5(table, row.id, md5) then None else ByMd5(table, md5)
  }

  /** Lookups after one row was added or rewritten. */
  lemma Replaced(table: Table, row: Row)
    requires Keyed(table) && Unclaimed(table, row)
    ensures Keyed(table[row.id := row])
    ensures forall surl :: BySurl(table[row.id := row], surl) == SurlAfter(table, row, surl)
    ensures forall md5 :: ByMd5(table[row.id := row], md5) == Md5After(table, row, md5)
  {
    var after := table[row.id := row];
    forall surl
      ensures BySurl(after, surl) == SurlAfter(table, row, surl)
    {
      assert HasSurl(after, row.id, row.surl);
      assert forall id | id != row.id :: HasSurl(after, id, surl) <==> HasSurl(table, id, surl);
    }
    forall md5
      ensures ByMd5(after, md5) == Md5After(table, row, md5)
    {
      assert HasMd5(after, row.id, row.md5);
      assert forall id | id != row.id :: HasMd5(after, id, md5) <==> HasMd5(table, id, md5);
    }
  }

  /** The row that a request writes, if any. */
  ghost predicate Writes(cfg: Config, s: Book, e: Event, t: Book, row: Row) {
    && t.table == s.table[row.id := row]
    && Unclaimed(s.table, row)
    && match e
       case Conversion(url, _, code, _, answer) =>
         (answer.Fresh? || answer.FilterError?) && row == NewRow(cfg, s.nextId, url, code) && row.id !in s.table
       case Updating(code, _, _, _, updated) =>
         && updated.Updated? && row.id in s.table && BySurl(s.table, code) == Some(s.table[row.id])
         && row.surl == s.table[row.id].surl == code && row.lurl == updated.url && row.expireAt == updated.expireAt
         && row.md5 == cfg.hash(row.lurl)
       case _ => false
  }

  /** A step writes one row, or leaves the table alone. */
  lemma OneRow(cfg: Config, locations: string -> set<nat>, s: Book, e: Event, t: Book)
    requires BookOk(cfg, s) && Step(cfg, locations, s, e, t)
    ensures t.table == s.table || exists row :: Writes(cfg, s, e, t, row)
  {
    match e
    case Conversion(url, env, code, draws, answer) =>
      if answer.Fresh? || answer.FilterError? {
        var row := NewRow(cfg, s.nextId, url, code);
        UnclaimedMeans(s.table, row);
        assert Writes(cfg, s, e, t, row);
      }
    case Updating(code, longUrl, expireAt, fails, updated) =>
      if updated.Updated? {
        var found := BySurl(s.table, code).value;
        var row := Rewritten(cfg, found, longUrl, ReadExpiry(cfg, expireAt).value);
        assert RowOk(cfg, s.counter, found);
        assert Writes(cfg, s, e, t, row);
      }
    case _ =>
  }

  lemma CounterBounded(c: nat, incr: nat -> Incr, k: nat)
    requires c <= MAX_COUNTER
    ensures c <= CounterAt(c, incr, k) <= MAX_COUNTER
  {
    if k > 0 {
      CounterBounded(c, incr, k - 1);
    }
  }

  /** A later counter breaks no row. */
  lemma OkLater(cfg: Config, s: Book, c: nat)
    requires BookOk(cfg, s) && s.counter <= c <= MAX_COUNTER
    ensures BookOk(cfg, s.(counter := c))
  {
    forall id | id in s.table
      ensures RowOk(cfg, c, s.table[id])
    {
      IssuedLater(cfg.alphabet, s.counter, c, s.table[id].surl);
    }
  }

  /** Nor does a row that is sound itself. */
  lemma OkWritten(cfg: Config, s: Book, row: Row, nextId: nat)
    requires BookOk(cfg, s) && Unclaimed(s.table, row) && RowOk(cfg, s.counter, row)
    requires 0 < row.id < nextId && s.nextId <= nextId
    ensures BookOk(cfg, s.(table := s.table[row.id := row], nextId := nextId))
  {
    Replaced(s.table, row);
  }

  /** Every step of the service keeps the book: unique codes and md5s, an md5 that is the hash of the URL, and a
      code that is issued and not blacklisted. */
  lemma OkKept(cfg: Config, locations: string -> set<nat>, s: Book, e: Event, t: Book)
    requires BookOk(cfg, s) && Step(cfg, locations, s, e, t)
    ensures BookOk(cfg, t)
  {
    match e
    case Conversion(url, env, code, draws, answer) =>
      if env.reachable && !Seen(cfg, s, url) {
        ConversionKeepsOk(cfg, locations, s, e, t);
      }
    case Updating(code, longUrl, expireAt, fails, updated) =>
      if updated.Updated? {
        var row := BySurl(s.table, code).value;
        var row' := Rewritten(cfg, row, longUrl, ReadExpiry(cfg, expireAt).value);
        assert RowOk(cfg, s.counter, row) && RowOk(cfg, s.counter, row');
        OkWritten(cfg, s, row', s.nextId);
      }
    case _ =>
  }

  lemma ConversionKeepsOk(cfg: Config, locations: string -> set<nat>, s: Book, e: Event, t: Book)
    requires BookOk(cfg, s) && Step(cfg, locations, s, e, t)
    requires e.Conversion? && e.env.reachable && !Seen(cfg, s, e.url)
    ensures BookOk(cfg, t)
  {
    var incr, draws := e.env.incr, e.draws;
    var s' := s.(counter := CounterAt(s.counter, incr, draws));
    CounterBounded(s.counter, incr, draws);
    CounterBounded(s.counter, incr, draws - 1);
    OkLater(cfg, s, s'.counter);
    assert IssuedUpTo(cfg.alphabet, s'.counter, e.code);
    if t.table != s.table {
      var row := NewRow(cfg, s.nextId, e.url, e.code);
      UnclaimedMeans(s.table, row);
      OkWritten(cfg, s', row, s.nextId + 1);
    }
  }

  lemma {:induction false} RunOk(run: Run, i: nat)
    requires run.Valid() && i <= |run.events|
    ensures BookOk(run.cfg, run.books[i])
  {
    if i > 0 {
      RunOk(run, i - 1);
      assert run.StepAt(i - 1);
      OkKept(run.cfg, run.locations, run.books[i - 1], run.events[i - 1], run.books[i]);
    }
  }

  lemma CodeStays(cfg: Config, locations: string -> set<nat>, s: Book, e: Event, t: Book, id: nat)
    requires BookOk(cfg, s) && Step(cfg, locations, s, e, t) && id in s.table
    ensures id in t.table && t.table[id].surl == s.table[id].surl
  {
    OneRow(cfg, locations, s, e, t);
  }

  /** No row ever disappears, and no row's code ever changes. */
  lemma {:induction false} CodesAreForever(run: Run, i: nat, j: nat, id: nat)
    requires run.Valid() && i <= j <= |run.events|
    requires id in run.books[i].table
    ensures id in run.books[j].table && run.books[j].table[id].surl == run.books[i].table[id].surl
  {
    if i < j {
      CodesAreForever(run, i, j - 1, id);
      RunOk(run, j - 1);
      assert run.StepAt(j - 1);
      CodeStays(run.cfg, run.locations, run.books[j - 1], run.events[j - 1], run.books[j], id);
    }
  }

  // ---------------------------------------------------------------- create, then show

  datatype Link = Link(url: string, expireAt: Option<Time>)

  /** What a code entered by event i is asked to stand for before event j. */
  function LastWritten(cfg: Config, events: seq<Event>, code: string, url: string, i: nat, j: nat): Link
    requires i < j <= |events|
    decreases j
  {
    if j == i + 1 then Link(url, None) else After(cfg, events[j - 1], code, LastWritten(cfg, events, code, url, i, j - 1))
  }

  /** ... once this event, if it is a successful Update of the code, has asked for something else. */
  function After(cfg: Config, e: Event, code: string, link: Link): Link {
    if e.Updating? && e.code == code && e.updated.Updated? then Requested(cfg, e.longUrl, e.expireAt, link) else link
  }

  /** The link with the given URL and expiry, where they are given. */
  function Requested(cfg: Config, longUrl: string, expireAt: string, link: Link): Link {
    Link(if TrimSpace(longUrl) == "" then link.url else TrimSpace(longUrl),
         if TrimSpace(expireAt) == "" then link.expireAt else cfg.parseExpiry(TrimSpace(expireAt)))
  }

  ghost predicate StandsFor(b: Book, code: string, link: Link) {
    var row := BySurl(b.table, code);
    row.Some? && row.value.lurl == link.url && row.value.expireAt == link.expireAt
  }

  /** A conversion that inserts its row, whether or not the filter then fails. */
  predicate EntersRow(e: Event) {
    e.Conversion? && (e.answer.Fresh? || e.answer.FilterError?)
  }

  lemma LinkStep(cfg: Config, locations: string -> set<nat>, s: Book, e: Event, t: Book, code: string, link: Link)
    requires BookOk(cfg, s) && Step(cfg, locations, s, e, t) && StandsFor(s, code, link)
    ensures StandsFor(t, code, After(cfg, e, code, link))
    ensures s.bits <= t.bits
  {
    if e.Updating? && e.updated.Updated? {
      UpdateLink(cfg, locations, s, e, t, code, link);
    } else {
      OneRow(cfg, locations, s, e, t);
      if t.table != s.table {
        var row :| Writes(cfg, s, e, t, row);
        Replaced(s.table, row);
        assert BySurl(t.table, code) == SurlAfter(s.table, row, code);
      }
    }
  }

  lemma UpdateLink(cfg: Config, locations: string -> set<nat>, s: Book, e: Event, t: Book, code: string, link: Link)
    requires BookOk(cfg, s) && Step(cfg, locations, s, e, t) && StandsFor(s, code, link) && e.Updating? && e.updated.Updated?
    ensures StandsFor(t, code, After(cfg, e, code, link))
  {
    UpdateWrites(cfg, locations, s, e, t);
    OneRow(cfg, locations, s, e, t);
    if t.table != s.table {
      var row :| Writes(cfg, s, e, t, row);
      Replaced(s.table, row);
      assert BySurl(t.table, code) == SurlAfter(s.table, row, code);
    }
  }

  lemma Entered(cfg: Config, locations: string -> set<nat>, s: Book, e: Event, t: Book)
    requires BookOk(cfg, s) && Step(cfg, locations, s, e, t) && EntersRow(e)
    ensures BySurl(t.table, e.code) == Some(NewRow(cfg, s.nextId, e.url, e.code))
    ensures e.answer.Fresh? ==> e.answer.text == cfg.domain + e.code && locations(e.code) <= t.bits
    ensures cfg.hash(e.url) !in t.vain
  {
    var row := NewRow(cfg, s.nextId, e.url, e.code);
    UnclaimedMeans(s.table, row);
    Replaced(s.table, row);
    assert BySurl(t.table, e.code) == SurlAfter(s.table, row, e.code);
  }

  lemma {:induction false} LinkHolds(run: Run, i: nat, j: nat)
    requires run.Valid() && i < j <= |run.events| && EntersRow(run.events[i])
    ensures StandsFor(run.books[j], run.events[i].code, LastWritten(run.cfg, run.events, run.events[i].code, run.events[i].url, i, j))
    ensures run.events[i].answer.Fresh? ==> run.locations(run.events[i].code) <= run.books[j].bits
  {
    RunOk(run, j - 1);
    assert run.StepAt(j - 1);
    if j == i + 1 {
      Entered(run.cfg, run.locations, run.books[i], run.events[i], run.books[j]);
    } else {
      LinkHolds(run, i, j - 1);
      LinkStep(run.cfg, run.locations, run.books[j - 1], run.events[j - 1], run.books[j], run.events[i].code,
               LastWritten(run.cfg, run.events, run.events[i].code, run.events[i].url, i, j - 1));
    }
  }

  /** Once a code was returned as fresh, every later lookup without an error gives the URL last written under it,
      until that expires. */
  lemma CreateThenShow(run: Run, i: nat, j: nat, code: string)
    requires run.Valid() && i < j < |run.events|
    requires run.events[i].Conversion? && run.events[i].answer == Fresh(run.cfg.domain + code)
    requires run.events[j].Showing? && run.events[j].code == code && !run.events[j].filterFails
    ensures
      var link := LastWritten(run.cfg, run.events, code, run.events[i].url, i, j);
      run.events[j].shown == if link.expireAt.Some? && link.expireAt.value <= run.events[j].now then Gone else Redirect(link.url)
  {
    RunOk(run, i);
    assert run.StepAt(i);
    Entered(run.cfg, run.locations, run.books[i], run.events[i], run.books[i + 1]);
    assert (run.cfg.domain + code)[|run.cfg.domain|..] == code;
    assert (run.cfg.domain + run.events[i].code)[|run.cfg.domain|..] == run.events[i].code;
    LinkHolds(run, i, j);
    assert run.StepAt(j);
  }

  /** A row whose code failed to enter the filter is shown exactly when the filter answers for it by chance. */
  lemma OrphanedRow(run: Run, i: nat, j: nat)
    requires run.Valid() && i < j < |run.events|
    requires run.events[i].Conversion? && run.events[i].answer.FilterError?
    requires run.events[j].Showing? && run.events[j].code == run.events[i].code && !run.events[j].filterFails
    ensures
      var link := LastWritten(run.cfg, run.events, run.events[i].code, run.events[i].url, i, j);
      var live := link.expireAt.None? || link.expireAt.value > run.events[j].now;
      run.events[j].shown == if run.locations(run.events[i].code) <= run.books[j].bits && live then Redirect(link.url) else Gone
  {
    LinkHolds(run, i, j);
    assert run.StepAt(j);
  }

  // ---------------------------------------------------------------- the outcome of each request

  /** A successful Update answers with the requested URL and expiry, where they are given, and with the link's present
      ones otherwise; the table differs in that row alone, which has them, the md5 of its URL, and nothing else new. */
  lemma UpdateWrites(cfg: Config, locations: string -> set<nat>, s: Book, e: Event, t: Book)
    requires BookOk(cfg, s) && Step(cfg, locations, s, e, t) && e.Updating? && e.updated.Updated?
    ensures BySurl(s.table, e.code).Some?
    ensures
      var row := BySurl(s.table, e.code).value;
      var link := Requested(cfg, e.longUrl, e.expireAt, Link(row.lurl, row.expireAt));
      && e.updated == Updated(link.url, link.expireAt)
      && t.table == s.table[row.id := Row(row.id, row.createBy, row.isDel, link.url, cfg.hash(link.url), e.code, link.expireAt)]
  {
    var row := BySurl(s.table, e.code).value;
    assert RowOk(cfg, s.counter, row);
  }

  /** An Update succeeds exactly if it names a link and something to change, the expiry can be read, the statement does
      not fail, the URL fits its column, and no other link has it. */
  lemma UpdateSucceedsIff(cfg: Config, locations: string -> set<nat>, s: Book, e: Event, t: Book)
    requires BookOk(cfg, s) && Step(cfg, locations, s, e, t) && e.Updating?
    ensures e.updated.Updated? <==>
      && TrimSpace(e.code) != "" && BySurl(s.table, e.code).Some?
      && (TrimSpace(e.longUrl) != "" || TrimSpace(e.expireAt) != "")
      && (TrimSpace(e.expireAt) != "" ==> cfg.parseExpiry(TrimSpace(e.expireAt)).Some?)
      && !e.fails
      && (TrimSpace(e.longUrl) != "" ==> |TrimSpace(e.longUrl)| <= MAX_LURL && Free(cfg, s.table, e.code, TrimSpace(e.longUrl)))
      && (TrimSpace(e.longUrl) == "" ==> |BySurl(s.table, e.code).value.lurl| <= MAX_LURL)
    ensures !e.updated.Updated? ==> t == s
  {
    var found := BySurl(s.table, e.code);
    if found.Some? {
      assert RowOk(cfg, s.counter, found.value) && HasSurl(s.table, found.value.id, e.code);
      forall url
        ensures Free(cfg, s.table, e.code, url) <==>
          forall id | id in s.table && id != found.value.id :: s.table[id].md5 != cfg.hash(url)
      {
        OnlyOwner(cfg, s.table, found.value, url);
      }
    }
  }

  /** No link but perhaps this code's has the URL's md5. */
  ghost predicate Free(cfg: Config, table: Table, code: string, url: string) {
    ByMd5(table, cfg.hash(url)).Some? ==> ByMd5(table, cfg.hash(url)).value.surl == code
  }

  lemma OnlyOwner(cfg: Config, table: Table, row: Row, url: string)
    requires Keyed(table) && row.id in table && table[row.id] == row
    ensures Free(cfg, table, row.surl, url) <==> forall id | id in table && id != row.id :: table[id].md5 != cfg.hash(url)
  {
    forall id | HasMd5(table, id, cfg.hash(url))
      ensures ByMd5(table, cfg.hash(url)) == Some(table[id])
    {
      FoundByMd5(table, id, cfg.hash(url));
    }
  }

  /** A conversion is fresh exactly if the URL is reachable, new and not too long, the code is new, and neither
      statement nor filter fails; it tells that the URL is known exactly if the URL is reachable, stored and not
      denied; and it answers with the code under which the URL is stored. */
  lemma ConvertOutcome(cfg: Config, locations: string -> set<nat>, s: Book, e: Event, t: Book)
    requires BookOk(cfg, s) && Step(cfg, locations, s, e, t) && e.Conversion?
    ensures
      var stored := ByMd5(s.table, cfg.hash(e.url));
      && (e.answer.Fresh? || e.answer.FilterError? <==>
            e.env.reachable && stored.None? && BySurl(s.table, e.code).None? && |e.url| <= MAX_LURL && !e.env.insertFails)
      && (e.answer.Fresh? ==> !e.env.addFails) && (e.answer.FilterError? ==> e.env.addFails)
      && (e.answer.Already? <==> e.env.reachable && stored.Some? && cfg.hash(e.url) !in s.vain)
      && (e.answer.Unreachable? <==> !e.env.reachable)
      && e.answer != NilNil
    ensures EntersRow(e) || e.answer.Already? ==>
      BySurl(t.table, e.code).Some? && BySurl(t.table, e.code).value.md5 == cfg.hash(e.url)
    ensures EntersRow(e) ==> t.table == s.table[s.nextId := Row(s.nextId, "", 0, e.url, cfg.hash(e.url), e.code, None)]
    ensures !EntersRow(e) ==> t.table == s.table && t.bits == s.bits
    ensures e.answer.Already? ==> t == s
  {
    if EntersRow(e) {
      Entered(cfg, locations, s, e, t);
    } else if e.answer.Already? {
      var row := ByMd5(s.table, cfg.hash(e.url)).value;
      FoundBySurl(s.table, row.id, e.code);
    }
  }

  /** Show redirects exactly if the filter answers for the code and a stored link that has not expired has it; then to
      that link's URL. */
  lemma ShowOutcome(cfg: Config, locations: string -> set<nat>, s: Book, e: Event, t: Book, url: string)
    requires BookOk(cfg, s) && Step(cfg, locations, s, e, t) && e.Showing?
    ensures t == s
    ensures e.shown == Redirect(url) <==>
      && !e.filterFails && locations(e.code) <= s.bits
      && exists id :: HasSurl(s.table, id, e.code) && s.table[id].lurl == url
                   && (s.table[id].expireAt.Some? ==> e.now < s.table[id].expireAt.value)
    ensures e.shown == Gone ==> !e.filterFails
  {
    forall id | HasSurl(s.table, id, e.code)
      ensures BySurl(s.table, e.code) == Some(s.table[id])
    {
      FoundBySurl(s.table, id, e.code);
    }
  }

  /** What Create answers: the full link for a fresh URL, the notice with it for a known one, both with the code under
      which the URL is stored; an error in every other case. */
  lemma CreateAnswers(cfg: Config, locations: string -> set<nat>, s: Book, e: Event, t: Book)
    requires BookOk(cfg, s) && Step(cfg, locations, s, e, t) && e.Conversion?
    ensures
      var a, stored := CreateAnswer(cfg.domain, e.answer), ByMd5(t.table, cfg.hash(e.url));
      && (a.Created? <==> e.answer.Fresh? || e.answer.Already?)
      && (a.Created? ==> stored.Some?)
      && (e.answer.Fresh? ==> a.shortUrl == cfg.domain + stored.value.surl)
      && (e.answer.Already? ==> a.shortUrl == NOTICE + cfg.domain + stored.value.surl)
  {
    ConvertOutcome(cfg, locations, s, e, t);
    OkKept(cfg, locations, s, e, t);
    if e.answer.Fresh? || e.answer.Already? {
      var row := BySurl(t.table, e.code).value;
      FoundByMd5(t.table, row.id, cfg.hash(e.url));
    }
  }

  // ---------------------------------------------------------------- converting again

  /** The code's row has this md5, and the cache does not deny it. */
  ghost predicate KnownAs(b: Book, code: string, md5: string) {
    var row := BySurl(b.table, code);
    row.Some? && row.value.md5 == md5 && md5 !in b.vain
  }

  /** A successful Update that moves this code to a URL with another md5. */
  predicate MovesAway(cfg: Config, e: Event, code: string, md5: string) {
    e.Updating? && e.code == code && e.updated.Updated? && cfg.hash(e.updated.url) != md5
  }

  lemma KnownStep(cfg: Config, locations: string -> set<nat>, s: Book, e: Event, t: Book, code: string, md5: string)
    requires BookOk(cfg, s) && Step(cfg, locations, s, e, t) && KnownAs(s, code, md5) && !MovesAway(cfg, e, code, md5)
    ensures KnownAs(t, code, md5)
  {
    var known := BySurl(s.table, code).value;
    FoundByMd5(s.table, known.id, md5);
    OneRow(cfg, locations, s, e, t);
    if t.table != s.table {
      var row :| Writes(cfg, s, e, t, row);
      Replaced(s.table, row);
      assert BySurl(t.table, code) == SurlAfter(s.table, row, code);
    }
  }

  lemma {:induction false} StaysKnown(run: Run, i: nat, j: nat, code: string, md5: string)
    requires run.Valid() && i <= j <= |run.events| && KnownAs(run.books[i], code, md5)
    requires forall k | i <= k < j :: !MovesAway(run.cfg, run.events[k], code, md5)
    ensures KnownAs(run.books[j], code, md5)
  {
    if i < j {
      StaysKnown(run, i, j - 1, code, md5);
      RunOk(run, j - 1);
      assert run.StepAt(j - 1);
      KnownStep(run.cfg, run.locations, run.books[j - 1], run.events[j - 1], run.books[j], code, md5);
    }
  }

  /** Once a URL has a code, converting it again answers with that code and changes nothing, neither table nor
      counter, as long as no Update moved the code to another URL. */
  lemma ConvertAgain(run: Run, i: nat, j: nat)
    requires run.Valid() && i < j < |run.events|
    requires EntersRow(run.events[i]) || (run.events[i].Conversion? && run.events[i].answer.Already?)
    requires run.events[j].Conversion? && run.cfg.hash(run.events[j].url) == run.cfg.hash(run.events[i].url) && run.events[j].env.reachable
    requires forall k | i < k < j :: !MovesAway(run.cfg, run.events[k], run.events[i].code, run.cfg.hash(run.events[i].url))
    ensures run.events[j].answer == Already(NOTICE + run.cfg.domain + run.events[i].code)
    ensures run.books[j + 1] == run.books[j]
  {
    var code, md5 := run.events[i].code, run.cfg.hash(run.events[i].url);
    RunOk(run, i);
    assert KnownAs(run.books[i + 1], code, md5) by {
      assert run.StepAt(i);
      if EntersRow(run.events[i]) {
        Entered(run.cfg, run.locations, run.books[i], run.events[i], run.books[i + 1]);
      } else {
        var row := ByMd5(run.books[i].table, md5).value;
        FoundBySurl(run.books[i].table, row.id, code);
      }
    }
    StaysKnown(run, i + 1, j, code, md5);
    RunOk(run, j);
    var row := BySurl(run.books[j].table, code).value;
    FoundByMd5(run.books[j].table, row.id, md5);
    assert run.StepAt(j);
  }

  /** A conversion's code never contains a '/' that the alphabet does not have. */
  lemma CodeHasNoSlash(cfg: Config, locations: string -> set<nat>, s: Book, e: Event, t: Book)
    requires BookOk(cfg, s) && Step(cfg, locations, s, e, t) && '/' !in cfg.alphabet
    requires EntersRow(e) || (e.Conversion? && e.answer.Already?)
    ensures '/' !in e.code
  {
    if EntersRow(e) {
      EncodeCanonical(cfg.alphabet, DrawAt(s.counter, e.env.incr, e.draws - 1));
    } else {
      IssuedHasNoSlash(cfg, s.counter, ByMd5(s.table, cfg.hash(e.url)).value);
    }
  }

  lemma IssuedHasNoSlash(cfg: Config, counter: nat, row: Row)
    requires cfg.Valid() && RowOk(cfg, counter, row) && '/' !in cfg.alphabet
    ensures '/' !in row.surl
  {
    var n: nat :| n <= counter && row.surl == Encode(cfg.alphabet, n);
    EncodeCanonical(cfg.alphabet, n);
  }

  /** What Create reads off Convert's answer is the stored code: always for a fresh one, and for a known one
      exactly when the domain ends in '/'. */
  lemma CreateReturnsTheCode(cfg: Config, locations: string -> set<nat>, s: Book, e: Event, t: Book)
    requires BookOk(cfg, s) && Step(cfg, locations, s, e, t) && '/' !in cfg.alphabet
    requires e.Conversion? && (e.answer.Fresh? || e.answer.Already?)
    ensures exists id :: HasSurl(t.table, id, e.code) && t.table[id].md5 == cfg.hash(e.url)
    ensures CreateAnswer(cfg.domain, e.answer).shortCode == e.code <==> e.answer.Fresh? || EndsInSlash(cfg.domain)
  {
    CodeHasNoSlash(cfg, locations, s, e, t);
    if e.answer.Fresh? {
      FreshCodeRecovered(cfg.domain, e.code);
      Entered(cfg, locations, s, e, t);
    } else {
      KnownCodeRecovered(cfg.domain, e.code);
    }
  }

  // ---------------------------------------------------------------- where denials come from

  /** A conversion that looks this md5 up in vain, and does not insert its row either. */
  predicate LooksInVain(cfg: Config, e: Event, md5: string) {
    e.Conversion? && e.answer.InsertError? && cfg.hash(e.url) == md5
  }

  /** The placeholder of this md5 goes: it is evicted, its row is inserted, or a row that has it is rewritten. */
  ghost predicate Uncovers(cfg: Config, s: Book, e: Event, md5: string) {
    match e
    case Eviction(md5s) => md5 in md5s
    case Conversion(url, _, _, _, answer) => (answer.Fresh? || answer.FilterError?) && cfg.hash(url) == md5
    case Updating(code, _, _, _, updated) =>
      updated.Updated? && BySurl(s.table, code).Some? && BySurl(s.table, code).value.md5 == md5
    case Showing(_, _, _, _) => false
  }

  /** A successful Update that gives a link this md5. */
  predicate Installs(cfg: Config, e: Event, md5: string) {
    e.Updating? && e.updated.Updated? && cfg.hash(e.updated.url) == md5
  }

  lemma VainStep(cfg: Config, locations: string -> set<nat>, s: Book, e: Event, t: Book, md5: string)
    requires BookOk(cfg, s) && Step(cfg, locations, s, e, t)
    ensures md5 in t.vain <==> LooksInVain(cfg, e, md5) || (md5 in s.vain && !Uncovers(cfg, s, e, md5))
  {
  }

  /** Throughout a run an md5 is remembered as vain exactly since a conversion looked it up in vain, until something
      uncovers it. */
  lemma {:induction false} VainSince(run: Run, i: nat, j: nat, md5: string)
    requires run.Valid() && i <= j <= |run.events|
    ensures md5 in run.books[j].vain <==>
      || (md5 in run.books[i].vain && Covered(run, i, j, md5))
      || exists k :: i <= k < j && LooksInVain(run.cfg, run.events[k], md5) && Covered(run, k + 1, j, md5)
  {
    if i < j {
      VainSince(run, i, j - 1, md5);
      RunOk(run, j - 1);
      assert run.StepAt(j - 1);
      var s, e, t := run.books[j - 1], run.events[j - 1], run.books[j];
      VainStep(run.cfg, run.locations, s, e, t, md5);
      if md5 in s.vain && !Uncovers(run.cfg, s, e, md5) && !(md5 in run.books[i].vain && Covered(run, i, j - 1, md5)) {
        var k :| i <= k < j - 1 && LooksInVain(run.cfg, run.events[k], md5) && Covered(run, k + 1, j - 1, md5);
        assert Covered(run, k + 1, j, md5);
      }
      if LooksInVain(run.cfg, e, md5) {
        assert Covered(run, j - 1 + 1, j, md5);
      }
    }
  }

  /** Nothing uncovers the md5 between two points of a run. */
  ghost predicate Covered(run: Run, i: nat, j: nat, md5: string)
    requires run.Valid() && j <= |run.events|
  {
    forall k | i <= k < j :: !Uncovers(run.cfg, run.books[k], run.events[k], md5)
  }

  /** Which md5s exist after a step. */
  lemma ExistsStep(cfg: Config, locations: string -> set<nat>, s: Book, e: Event, t: Book, md5: string)
    requires BookOk(cfg, s) && Step(cfg, locations, s, e, t) && !Uncovers(cfg, s, e, md5)
    ensures ByMd5(t.table, md5).Some? <==> ByMd5(s.table, md5).Some? || Installs(cfg, e, md5)
  {
    OneRow(cfg, locations, s, e, t);
    if t.table != s.table {
      var row :| Writes(cfg, s, e, t, row);
      Replaced(s.table, row);
      assert ByMd5(t.table, md5) == Md5After(s.table, row, md5);
    }
  }

  lemma DenialStep(cfg: Config, locations: string -> set<nat>, s: Book, e: Event, t: Book, md5: string)
    requires BookOk(cfg, s) && Step(cfg, locations, s, e, t)
    ensures Denied(t, md5) <==> md5 in s.vain && !Uncovers(cfg, s, e, md5) && (Denied(s, md5) || Installs(cfg, e, md5))
  {
    VainStep(cfg, locations, s, e, t, md5);
    if !Uncovers(cfg, s, e, md5) {
      ExistsStep(cfg, locations, s, e, t, md5);
    }
  }

  /** A lookup in vain, then an Update that installs the md5, and nothing that uncovers it since the lookup. */
  ghost predicate DeniedBy(run: Run, i: nat, k: nat, j: nat, md5: string)
    requires run.Valid() && j <= |run.events|
  {
    && i < k < j
    && LooksInVain(run.cfg, run.events[i], md5) && Installs(run.cfg, run.events[k], md5)
    && Covered(run, i + 1, j, md5)
  }

  lemma {:induction false} DeniedByMeans(run: Run, i: nat, k: nat, j: nat, md5: string)
    requires run.Valid() && j <= |run.events| && DeniedBy(run, i, k, j, md5)
    ensures Denied(run.books[j], md5)
  {
    var h := j - 1;
    RunOk(run, h);
    assert run.StepAt(h);
    DenialStep(run.cfg, run.locations, run.books[h], run.events[h], run.books[j], md5);
    if k == h {
      VainSince(run, i, h, md5);
      assert LooksInVain(run.cfg, run.events[i], md5) && Covered(run, i + 1, h, md5);
    } else {
      DeniedByMeans(run, i, k, h, md5);
    }
  }

  lemma {:induction false} DeniedMeans(run: Run, j: nat, md5: string)
    requires run.Valid() && j <= |run.events| && md5 !in run.books[0].vain && Denied(run.books[j], md5)
    ensures exists i, k :: DeniedBy(run, i, k, j, md5)
  {
    var h := j - 1;
    RunOk(run, h);
    assert run.StepAt(h);
    DenialStep(run.cfg, run.locations, run.books[h], run.events[h], run.books[j], md5);
    VainSince(run, 0, h, md5);
    if Denied(run.books[h], md5) {
      DeniedMeans(run, h, md5);
    }
    DeniedHow(run, h, j, md5);
  }

  /** At any point of a run an md5 that exists is denied if and only if a conversion looked it up in vain, an Update
      installed it afterwards, and nothing has uncovered it since that lookup. */
  lemma DeniedIff(run: Run, j: nat, md5: string)
    requires run.Valid() && j <= |run.events| && md5 !in run.books[0].vain
    ensures Denied(run.books[j], md5) <==> exists i, k :: DeniedBy(run, i, k, j, md5)
  {
    if Denied(run.books[j], md5) {
      DeniedMeans(run, j, md5);
    } else if i: nat, k: nat :| DeniedBy(run, i, k, j, md5) {
      DeniedByMeans(run, i, k, j, md5);
    }
  }

  lemma DeniedHow(run: Run, h: nat, j: nat, md5: string)
    requires run.Valid() && j == h + 1 <= |run.events| && md5 in run.books[h].vain
    requires !Uncovers(run.cfg, run.books[h], run.events[h], md5)
    requires (exists i, k :: DeniedBy(run, i, k, h, md5)) || Installs(run.cfg, run.events[h], md5)
    requires exists i :: 0 <= i < h && LooksInVain(run.cfg, run.events[i], md5) && Covered(run, i + 1, h, md5)
    ensures exists i, k :: DeniedBy(run, i, k, j, md5)
  {
    if i: nat, k: nat :| DeniedBy(run, i, k, h, md5) {
      assert DeniedBy(run, i, k, j, md5);
    } else {
      var i :| 0 <= i < h && LooksInVain(run.cfg, run.events[i], md5) && Covered(run, i + 1, h, md5);
      assert DeniedBy(run, i, h, j, md5);
    }
  }
}
