/** The short-link service as its callers see it, with no cache in between: the counter, the table, the filter and
    the md5s that a cache placeholder wrongly denies; and what each request does to them. */
module LinkBook {
  import opened Prelude
  import opened Base62
  import opened CodeDraw
  import opened LinkStore
  import opened Text

  /** What Convert puts before the full short link of an already converted URL. */
  const NOTICE := "该链接已经被转过了："

  /** Configuration and libraries: `hash` is the hexadecimal MD5, `parseExpiry` the accepted time layouts. */
  datatype Config = Config(
    alphabet: string,
    blacklist: set<string>,
    domain: string,
    hash: string -> string,
    parseExpiry: string -> Option<Time>)
  {
    ghost predicate Valid() {
      ValidAlphabet(alphabet) && forall u :: |hash(u)| == MD5_LENGTH
    }
  }

  /** NilNil is Go's (nil, nil). */
  datatype ConvertReply = Unreachable | Already(text: string) | NilNil | InsertError | FilterError | Fresh(text: string)

  /** What happens around one conversion: the probe of the URL, the INCRs, the statement, the filter. */
  datatype Surroundings = Surroundings(reachable: bool, incr: nat -> Incr, insertFails: bool, addFails: bool)

  datatype ShowReply = Gone | ShowError | Redirect(url: string)

  datatype UpdateReply = BadRequest | NoLink | BadExpiry | UpdateError | Updated(url: string, expireAt: Option<Time>)

  datatype CreateReply = CreateError | Created(shortUrl: string, shortCode: string)

  /** A stored row: its md5 belongs to its URL, its code is an issued number's and is not blacklisted. */
  ghost predicate RowOk(cfg: Config, counter: nat, row: Row)
    requires |cfg.alphabet| == 62
  {
    && row.md5 == cfg.hash(row.lurl)
    && row.surl !in cfg.blacklist
    && IssuedUpTo(cfg.alphabet, counter, row.surl)
  }

  ghost predicate IssuedUpTo(alphabet: string, counter: nat, code: string)
    requires |alphabet| == 62
  {
    exists n: nat :: n <= counter && code == Encode(alphabet, n)
  }

  /** The code of a number beyond the counter is new. */
  lemma NewCode(alphabet: string, counter: nat, n: nat)
    requires ValidAlphabet(alphabet) && n > counter
    ensures !IssuedUpTo(alphabet, counter, Encode(alphabet, n))
  {
    forall m: nat | m <= counter
      ensures Encode(alphabet, m) != Encode(alphabet, n)
    {
      if Encode(alphabet, m) == Encode(alphabet, n) {
        EncodeInjective(alphabet, m, n);
      }
    }
  }

  lemma IssuedLater(alphabet: string, c: nat, c': nat, code: string)
    requires |alphabet| == 62 && c <= c' && IssuedUpTo(alphabet, c, code)
    ensures IssuedUpTo(alphabet, c', code)
  {
    var n: nat :| n <= c && code == Encode(alphabet, n);
  }

  /** The row that Update writes: what is not given stays, and the md5 follows the URL. */
  function Rewritten(cfg: Config, row: Row, longUrl: string, expireAt: Option<Time>): Row {
    row.(lurl := if Blank(longUrl) then row.lurl else TrimSpace(longUrl),
         md5 := if Blank(longUrl) then row.md5 else cfg.hash(TrimSpace(longUrl)),
         expireAt := if expireAt.Some? then expireAt else row.expireAt)
  }

  /** What a client can tell of the state: everything but the caches, and the md5s whose lookup is cached as vain. */
  datatype Book = Book(counter: nat, table: Table, nextId: nat, bits: set<nat>, vain: set<string>)

  /** An md5 that exists and is denied. */
  ghost predicate Denied(b: Book, md5: string) {
    md5 in b.vain && ByMd5(b.table, md5).Some?
  }

  /** What every book of a run satisfies. */
  ghost predicate BookOk(cfg: Config, b: Book) {
    && cfg.Valid()
    && Keyed(b.table)
    && b.counter <= MAX_COUNTER && b.nextId > 0
    && (forall id | id in b.table :: 0 < id < b.nextId && RowOk(cfg, b.counter, b.table[id]))
  }

  /** The row that Convert inserts. */
  function NewRow(cfg: Config, id: nat, url: string, code: string): Row {
    Row(id, "", 0, url, cfg.hash(url), code, None)
  }

  /** Storing a new code: the row first, then the filter, so that a failing filter leaves a row behind. */
  ghost predicate Stores(cfg: Config, locations: string -> set<nat>, url: string, code: string, env: Surroundings,
                         s: Book, t: Book, r: ConvertReply)
  {
    var taken := ByMd5(s.table, cfg.hash(url)).Some? || BySurl(s.table, code).Some?;
    && r == (if env.insertFails || taken || |url| > MAX_LURL then InsertError
             else if env.addFails then FilterError
             else Fresh(cfg.domain + code))
    && t.counter == s.counter
    && t.table == (if r.InsertError? then s.table else s.table[s.nextId := NewRow(cfg, s.nextId, url, code)])
    && t.nextId == (if r.InsertError? then s.nextId else s.nextId + 1)
    && t.bits == (if r.Fresh? then s.bits + locations(code) else s.bits)
    && t.vain == (if r.InsertError? then s.vain else s.vain - {cfg.hash(url)})
  }

  /** A code is the first of this request's draws that is not blacklisted; only a failed INCR can make it a used one. */
  ghost predicate Draws(cfg: Config, incr: nat -> Incr, s: Book, code: string, draws: nat)
    requires |cfg.alphabet| == 62
  {
    && draws >= 1 && (EndsSoon(cfg.alphabet, cfg.blacklist, s.counter, incr) ==> draws <= |cfg.blacklist| + 1)
    && code == Encode(cfg.alphabet, DrawAt(s.counter, incr, draws - 1)) && code !in cfg.blacklist
    && (forall k: nat | k < draws - 1 :: Rejected(cfg.alphabet, cfg.blacklist, s.counter, incr, k))
    && (DrawAt(s.counter, incr, draws - 1) != 0 ==> BySurl(s.table, code).None?)
  }

  /** A row has this URL's md5, and no placeholder denies it. */
  ghost predicate Seen(cfg: Config, s: Book, url: string) {
    ByMd5(s.table, cfg.hash(url)).Some? && cfg.hash(url) !in s.vain
  }

  /** A conversion: a known URL answers with its code; any other draws a code, inserts a row and enters the filter.
      A URL whose md5 is denied also draws, and then fails to insert.  An md5 that was looked up in vain is
      remembered as vain until its row is inserted. */
  ghost predicate Converts(cfg: Config, locations: string -> set<nat>, url: string, env: Surroundings, code: string, draws: nat,
                           s: Book, t: Book, r: ConvertReply)
    requires |cfg.alphabet| == 62
  {
    if !env.reachable then r == Unreachable && t == s
    else if Seen(cfg, s, url) then
      code == ByMd5(s.table, cfg.hash(url)).value.surl && r == Already(NOTICE + cfg.domain + code) && t == s
    else
      && Draws(cfg, env.incr, s, code, draws)
      && Stores(cfg, locations, url, code, env,
                s.(counter := CounterAt(s.counter, env.incr, draws), vain := s.vain + {cfg.hash(url)}), t, r)
  }

  /** What Create answers on Convert's reply, reading the code off the text. */
  function CreateAnswer(domain: string, r: ConvertReply): CreateReply {
    if r.Fresh? || r.Already? then Created(r.text, CodeOf(domain, r.text)) else CreateError
  }

  function CodeOf(domain: string, shortUrl: string): string {
    AfterLastSlash(TrimPrefix(TrimPrefix(TrimPrefix(shortUrl, domain), "https://"), "http://"))
  }

  /** Create reads a fresh code back exactly when it has no '/'. */
  lemma FreshCodeRecovered(domain: string, code: string)
    ensures CodeOf(domain, domain + code) == code <==> '/' !in code
  {
    assert TrimPrefix(domain + code, domain) == code;
    if '/' !in code {
      assert '/' in "https://" && '/' in "http://";
      assert "https://"[6] == '/' && "http://"[5] == '/';
      NoSlashInTail(code);
    } else {
      NoSlashInTail(TrimPrefix(TrimPrefix(code, "https://"), "http://"));
    }
  }

  /** It reads a known code back exactly when, besides, the domain ends in '/': the text starts with the notice. */
  lemma KnownCodeRecovered(domain: string, code: string)
    ensures CodeOf(domain, NOTICE + domain + code) == code <==> '/' !in code && EndsInSlash(domain)
  {
    var text := NOTICE + domain + code;
    if '/' in code {
      NoSlashInTail(TrimPrefix(TrimPrefix(TrimPrefix(text, domain), "https://"), "http://"));
    } else if domain <= text {
      // Such a domain has no '/', so nothing else is cut off, and too much is left.
      ShiftedPrefix(NOTICE, domain, code, |domain|);
      assert domain[..|domain|] == domain;
      var rest := text[|domain|..];
      assert '/' !in rest;
      assert "https://"[6] == '/' && "http://"[5] == '/';
      NoSlashInTail(rest);
      assert |rest| > |code|;
    } else {
      assert text[0] == NOTICE[0];
      TailAppend(NOTICE + domain, code);
    }
  }

  /** Resolving a code: the filter, the table, then the expiry. */
  ghost function Shows(locations: string -> set<nat>, code: string, now: Time, filterFails: bool, s: Book): ShowReply {
    var found := BySurl(s.table, code);
    if filterFails then ShowError
    else if !(locations(code) <= s.bits) then Gone
    else if found.None? then ShowError
    else if found.value.expireAt.Some? && found.value.expireAt.value <= now then Gone
    else Redirect(found.value.lurl)
  }

  /** What an Update request says about the expiry: nothing, a time, or an unreadable text, which is None. */
  function ReadExpiry(cfg: Config, expireAt: string): Option<Option<Time>> {
    if Blank(expireAt) then Some(None)
    else if cfg.parseExpiry(TrimSpace(expireAt)).Some? then Some(cfg.parseExpiry(TrimSpace(expireAt)))
    else None
  }

  /** An Update: the row found by the code is rewritten; id and code stay.  The old md5 is no longer remembered as
      vain; the new one may be. */
  ghost predicate Rewrites(cfg: Config, code: string, longUrl: string, expireAt: string, fails: bool,
                           s: Book, t: Book, r: UpdateReply)
  {
    var row, expiry := BySurl(s.table, code), ReadExpiry(cfg, expireAt);
    if Blank(code) || (Blank(longUrl) && Blank(expireAt)) then r == BadRequest && t == s
    else if row.None? then r == NoLink && t == s
    else if expiry.None? then r == BadExpiry && t == s
    else
      var row' := Rewritten(cfg, row.value, longUrl, expiry.value);
      if fails || |row'.lurl| > MAX_LURL || !Unclaimed(s.table, row') then r == UpdateError && t == s
      else
        && r == Updated(row'.lurl, row'.expireAt)
        && t == s.(table := s.table[row'.id := row'], vain := s.vain - {row.value.md5})
  }

  lemma CodeLength(alphabet: string, counter: nat, code: string)
    requires |alphabet| == 62 && counter <= MAX_COUNTER && IssuedUpTo(alphabet, counter, code)
    ensures 1 <= |code| <= MAX_SURL
  {
    var n: nat :| n <= counter && code == Encode(alphabet, n);
    CodeFitsColumn(alphabet, n);
  }
}
