/** The short-link service: Convert, Show, Update and Create of Shortener/internal/logic, each proved to be a step
    of LinkBook whatever the caches hold. */
module Shortener {
  import opened Prelude
  import opened Base62
  import opened CodeDraw
  import opened LinkStore
  import opened Text
  import opened LinkBook
  import opened LinkRuns

  /** A Bloom filter over Redis bits; which bits an entry sets is up to the library. */
  class BloomFilter {
    const locations: string -> set<nat>
    var bits: set<nat>

    constructor (locations: string -> set<nat>)
      ensures this.locations == locations && bits == {}
    {
      this.locations := locations;
      bits := {};
    }

    predicate Has(data: string)
      reads this
    {
      locations(data) <= bits
    }

    /** Whatever was added, or looked present before, looks present afterwards. */
    method Add(data: string, fails: bool) returns (ok: bool)
      modifies this
      ensures ok == !fails
      ensures bits == if fails then old(bits) else old(bits) + locations(data)
    {
      if !fails {
        bits := bits + locations(data);
      }
      return !fails;
    }
  }

  class Service {
    const cfg: Config
    const model: ShortUrlMapModel
    const sequence: RedisSequence
    const filter: BloomFilter

    /** What a client can tell. */
    ghost function View(): Book
      reads this, model, sequence, filter
    {
      Book(sequence.counter, model.table, model.nextId, filter.bits, model.Vain())
    }

    ghost predicate Valid()
      reads this, model, sequence, filter
    {
      && cfg.Valid()
      && model.TableOk() && model.Coherent()
      && sequence.counter <= MAX_COUNTER
      && (forall id | id in model.idCache :: id < model.nextId)
      && (forall id | id in model.table :: RowOk(cfg, sequence.counter, model.table[id]))
    }

    lemma ViewIsOk()
      requires Valid()
      ensures BookOk(cfg, View())
    {
    }

    constructor (cfg: Config, locations: string -> set<nat>)
      requires cfg.Valid()
      ensures Valid() && View() == Book(0, map[], 1, {}, {}) && fresh(model) && fresh(sequence) && fresh(filter)
      ensures this.cfg == cfg && filter.locations == locations
    {
      this.cfg := cfg;
      model := new ShortUrlMapModel();
      sequence := new RedisSequence(0);
      filter := new BloomFilter(locations);
    }

    /** The drawing loop ends: see CodeDraw.LoopEndsIff. */
    ghost predicate CanDraw(env: nat -> Incr)
      requires |cfg.alphabet| == 62
      reads sequence
    {
      Ends(cfg.alphabet, cfg.blacklist, sequence.counter, env)
    }

    /** If this conversion comes to drawing a number, the drawing loop ends. */
    ghost predicate Returns(url: string, env: Surroundings)
      requires |cfg.alphabet| == 62
      reads this, model, sequence, filter
    {
      env.reachable && !Seen(cfg, View(), url) ==> CanDraw(env.incr)
    }

    /** No stored code is as long as an md5, so Convert's check for a link to itself, which looks the md5 up
        as a code, never finds one. */
    lemma SelfCheckNeverFires(url: string)
      requires Valid()
      ensures BySurl(model.table, cfg.hash(url)).None?
    {
      forall id | id in model.table
        ensures model.table[id].surl != cfg.hash(url)
      {
        var n: nat :| n <= sequence.counter && model.table[id].surl == Encode(cfg.alphabet, n);
        CodeFitsColumn(cfg.alphabet, n);
      }
    }

    /** Convert: the URL is known, or gets a new code. */
    method Convert(url: string, env: Surroundings) returns (r: ConvertReply, ghost code: string, ghost draws: nat)
      requires Valid() && Returns(url, env)
      modifies model, sequence, filter
      ensures Valid()
      ensures Converts(cfg, filter.locations, url, env, code, draws, old(View()), View(), r)
    {
      draws, code := 0, "";
      if !env.reachable {
        return Unreachable, code, draws;
      }
      var u, short := LookUp(url);
      if u.Some? {
        code := u.value.surl;
        return Already(NOTICE + cfg.domain + u.value.surl), code, draws;
      }
      if short.Some? {
        return NilNil, code, draws;
      }
      r, code, draws := Issue(url, env);
    }

    /** Steps 1.3 and 1.4 of Convert: the row with this URL's md5, then the row with the md5 as its code.
        (The base path of a hexadecimal digest is the digest.) */
    method LookUp(url: string) returns (u: Option<Row>, short: Option<Row>)
      requires Valid()
      modifies model
      ensures Valid() && View() == old(View()).(vain := old(model.Vain()) + if u.None? then {cfg.hash(url)} else {})
      ensures u == if cfg.hash(url) in old(model.Vain()) then None else ByMd5(model.table, cfg.hash(url))
      ensures short == None
    {
      var longUrl := cfg.hash(url);
      short := None;
      u := model.FindOneByMd5(longUrl);
      if u.None? {
        SelfCheckNeverFires(url);
        short := model.FindOneBySurl(longUrl);
      }
    }

    /** Steps 2 to 5 of Convert. */
    method Issue(url: string, env: Surroundings) returns (r: ConvertReply, ghost code: string, ghost draws: nat)
      requires Valid() && CanDraw(env.incr)
      modifies model, sequence, filter
      ensures Valid()
      ensures Draws(cfg, env.incr, old(View()), code, draws)
      ensures Stores(cfg, filter.locations, url, code, env,
                     old(View()).(counter := CounterAt(old(sequence.counter), env.incr, draws)), View(), r)
    {
      var short;
      short, draws := Draw(env.incr);
      code := short;
      r := Store(url, short, env);
    }

    /** Step 2 and 3 of Convert. */
    method Draw(env: nat -> Incr) returns (short: string, ghost draws: nat)
      requires Valid() && CanDraw(env)
      modifies sequence
      ensures Valid()
      ensures Draws(cfg, env, old(View()), short, draws)
      ensures sequence.counter == CounterAt(old(sequence.counter), env, draws)
      ensures IssuedUpTo(cfg.alphabet, sequence.counter, short) && |short| <= MAX_SURL
    {
      var n;
      short, n := DrawCode(cfg.alphabet, cfg.blacklist, sequence, env);
      draws := n;
      DrawnCodeIsNew(old(sequence.counter), env, draws);
    }

    lemma DrawnCodeIsNew(c: nat, env: nat -> Incr, draws: nat)
      requires cfg.Valid() && draws >= 1 && sequence.counter == CounterAt(c, env, draws)
      requires Keyed(model.table) && forall id | id in model.table :: RowOk(cfg, c, model.table[id])
      ensures forall id | id in model.table :: RowOk(cfg, sequence.counter, model.table[id])
      ensures IssuedUpTo(cfg.alphabet, sequence.counter, Encode(cfg.alphabet, DrawAt(c, env, draws - 1)))
      ensures DrawAt(c, env, draws - 1) != 0 ==> BySurl(model.table, Encode(cfg.alphabet, DrawAt(c, env, draws - 1))).None?
    {
      CounterGrows(c, env, 0, draws - 1);
      CounterGrows(c, env, 0, draws);
      forall id | id in model.table
        ensures RowOk(cfg, sequence.counter, model.table[id])
      {
        IssuedLater(cfg.alphabet, c, sequence.counter, model.table[id].surl);
      }
      if DrawAt(c, env, draws - 1) != 0 {
        NewCode(cfg.alphabet, c, DrawAt(c, env, draws - 1));
      }
    }

    /** Step 4 and 5 of Convert. */
    method Store(url: string, short: string, env: Surroundings) returns (r: ConvertReply)
      requires Valid() && IssuedUpTo(cfg.alphabet, sequence.counter, short) && short !in cfg.blacklist && |short| <= MAX_SURL
      modifies model, filter
      ensures Valid()
      ensures Stores(cfg, filter.locations, url, short, env, old(View()), View(), r)
    {
      var w := model.Insert(NewRow(cfg, 0, url, short), env.insertFails);
      if w != Written {
        return InsertError;
      }
      assert RowOk(cfg, sequence.counter, NewRow(cfg, old(model.nextId), url, short));
      var ok := filter.Add(short, env.addFails);
      if !ok {
        return FilterError;
      }
      return Fresh(cfg.domain + short);
    }

    /** Create: Convert, and the code read off its reply.  Convert's (nil, nil), which Create would dereference,
        does not occur. */
    method Create(longUrl: string, env: Surroundings) returns (r: CreateReply, ghost resp: ConvertReply, ghost code: string, ghost draws: nat)
      requires Valid() && (!Blank(longUrl) ==> Returns(longUrl, env))
      modifies model, sequence, filter
      ensures Valid()
      ensures Blank(longUrl) ==> r == CreateError && View() == old(View())
      ensures !Blank(longUrl) ==>
        Converts(cfg, filter.locations, longUrl, env, code, draws, old(View()), View(), resp) && r == CreateAnswer(cfg.domain, resp)
      ensures r.Created? <==> !Blank(longUrl) && (resp.Fresh? || resp.Already?)
      ensures r.Created? ==>
        && r.shortUrl == (if resp.Fresh? then cfg.domain + code else NOTICE + cfg.domain + code)
        && BySurl(model.table, code).Some? && BySurl(model.table, code).value.md5 == cfg.hash(longUrl)
    {
      resp, code, draws := NilNil, "", 0;
      if Blank(longUrl) {
        return CreateError, resp, code, draws;
      }
      var c;
      ViewIsOk();
      ghost var s := View();
      c, code, draws := Convert(longUrl, env);
      resp := c;
      CodeIsStored(longUrl, env, code, draws, s, resp);
      match c {
        case Fresh(shortURL) =>
          r := Created(shortURL, CodeOf(cfg.domain, shortURL));
        case Already(shortURL) =>
          r := Created(shortURL, CodeOf(cfg.domain, shortURL));
        case NilNil =>
          assert false;
        case _ =>
          r := CreateError;
      }
    }

    /** The code that a conversion answers with is that of the URL's row. */
    lemma CodeIsStored(url: string, env: Surroundings, code: string, draws: nat, s: Book, r: ConvertReply)
      requires BookOk(cfg, s) && Converts(cfg, filter.locations, url, env, code, draws, s, View(), r)
      ensures r.Fresh? ==> r.text == cfg.domain + code
      ensures r.Already? ==> r.text == NOTICE + cfg.domain + code
      ensures r != NilNil
      ensures r.Fresh? || r.Already? ==> BySurl(model.table, code).Some? && BySurl(model.table, code).value.md5 == cfg.hash(url)
    {
      ConvertOutcome(cfg, filter.locations, s, Conversion(url, env, code, draws, r), View());
    }

    /** The cached lookup that Show and Update start from. */
    method Find(code: string) returns (record: Option<Row>)
      requires Valid()
      modifies model
      ensures Valid() && View() == old(View())
      ensures model.md5Cache == old(model.md5Cache)
      ensures record == BySurl(model.table, code)
      ensures record.Some? ==> record.value.id in model.table && model.table[record.value.id] == record.value
    {
      record := model.FindOneBySurl(code);
    }

    /** Show: the filter, the cached lookup, then the expiry. */
    method Show(code: string, now: Time, filterFails: bool) returns (r: ShowReply)
      requires Valid()
      modifies model
      ensures Valid() && View() == old(View())
      ensures r == Shows(filter.locations, code, now, filterFails, View())
    {
      if filterFails {
        return ShowError;
      }
      var ok := filter.Has(code);
      if !ok {
        return Gone;
      }
      var record := Find(code);
      if record.None? {
        return ShowError;
      }
      if record.value.expireAt.Some? && !(record.value.expireAt.value > now) {
        return Gone;
      }
      return Redirect(record.value.lurl);
    }

    /** Update: the row found by the code is rewritten; id and code stay.  A new md5 that was looked up
        before, and denied, stays denied. */
    method Update(code: string, longUrl: string, expireAt: string, fails: bool) returns (r: UpdateReply)
      requires Valid()
      modifies model
      ensures Valid()
      ensures Rewrites(cfg, code, longUrl, expireAt, fails, old(View()), View(), r)
      ensures r.Updated? ==>
        var row := BySurl(old(model.table), code).value;
        var md5 := Rewritten(cfg, row, longUrl, ReadExpiry(cfg, expireAt).value).md5;
        model.Stale() == old(model.Stale()) + (if md5 in old(model.md5Cache) then {md5} else {}) - {row.md5}
    {
      if Blank(code) {
        return BadRequest;
      }
      var newLongURL := TrimSpace(longUrl);
      var newExpireAtRaw := TrimSpace(expireAt);
      if newLongURL == "" && newExpireAtRaw == "" {
        return BadRequest;
      }
      var record := Find(code);
      if record.None? {
        return NoLink;
      }
      var updated := Updating(record.value, newLongURL, newExpireAtRaw);
      if updated.None? {
        return BadExpiry;
      }
      var w := Save(record.value, updated.value, fails);
      if w != Written {
        return UpdateError;
      }
      return Updated(updated.value.lurl, updated.value.expireAt);
    }

    /** Steps 2 and 3 of Update: what is not given is kept. */
    method Updating(record: Row, newLongURL: string, newExpireAtRaw: string) returns (updated: Option<Row>)
      ensures updated == if newExpireAtRaw != "" && cfg.parseExpiry(newExpireAtRaw).None? then None
        else Some(record.(lurl := if newLongURL == "" then record.lurl else newLongURL,
                          md5 := if newLongURL == "" then record.md5 else cfg.hash(newLongURL),
                          expireAt := if newExpireAtRaw == "" then record.expireAt else cfg.parseExpiry(newExpireAtRaw)))
    {
      var updatedLongURL, updatedMd5 := record.lurl, record.md5;
      if newLongURL != "" {
        updatedLongURL, updatedMd5 := newLongURL, cfg.hash(newLongURL);
      }
      var updatedExpireAt := record.expireAt;
      if newExpireAtRaw != "" {
        updatedExpireAt := cfg.parseExpiry(newExpireAtRaw);
        if updatedExpireAt.None? {
          return None;
        }
      }
      return Some(Row(record.id, record.createBy, record.isDel, updatedLongURL, updatedMd5, record.surl, updatedExpireAt));
    }

    /** The statement of Update, on the row that was read. */
    method Save(ghost row: Row, updated: Row, fails: bool) returns (w: WriteResult)
      requires Valid() && row.id in model.table && model.table[row.id] == row
      requires updated.id == row.id && updated.surl == row.surl && updated.md5 == cfg.hash(updated.lurl)
      modifies model
      ensures Valid()
      ensures w == if !fails && |updated.lurl| <= MAX_LURL && Unclaimed(old(model.table), updated) then Written else Refused
      ensures !w.Written? ==> View() == old(View())
      ensures w.Written? ==> View() == old(View()).(table := old(model.table)[row.id := updated], vain := old(model.Vain()) - {row.md5})
      ensures w.Written? ==>
        model.Stale() == old(model.Stale()) + (if updated.md5 in old(model.md5Cache) then {updated.md5} else {}) - {row.md5}
    {
      assert RowOk(cfg, sequence.counter, row);
      CodeLength(cfg.alphabet, sequence.counter, row.surl);
      w := model.Update(updated, fails);
      assert RowOk(cfg, sequence.counter, updated);
    }

    /** Redis drops cache entries: a client sees nothing, but md5s remembered as vain may be forgotten. */
    method Evict(ids: set<nat>, md5s: set<string>, surls: set<string>)
      requires Valid()
      modifies model
      ensures Valid()
      ensures View() == old(View()).(vain := old(model.Vain()) - md5s)
    {
      model.Evict(ids, md5s, surls);
    }
  }
}
