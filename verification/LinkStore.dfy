/** The table short_url_map behind its two cache levels, as Shortener/model/shorturlmapmodel_gen.go uses them.

    go-zero's CachedConn and MySQL are the environment: an index lookup caches the id under the index key and
    the row under the primary key, a miss caches a not-found placeholder, a statement deletes the given keys
    only if it succeeds, and any entry may be evicted at any time. */
module LinkStore {
  import opened Prelude

  type Time = int

  const MAX_SURL := 11
  const MAX_LURL := 2048
  const MD5_LENGTH := 32

  datatype Row = Row(id: nat, createBy: string, isDel: nat, lurl: string, md5: string, surl: string, expireAt: Option<Time>)

  type Table = map<nat, Row>

  // ---------------------------------------------------------------- the table alone

  ghost predicate HasSurl(table: Table, id: nat, surl: string) {
    id in table && table[id].surl == surl
  }

  ghost predicate HasMd5(table: Table, id: nat, md5: string) {
    id in table && table[id].md5 == md5
  }

  /** Primary key, and the two unique keys. */
  ghost predicate Keyed(table: Table) {
    && (forall id | id in table :: table[id].id == id)
    && (forall i, j | i in table && j in table :: table[i].surl == table[j].surl ==> i == j)
    && (forall i, j | i in table && j in table :: table[i].md5 == table[j].md5 ==> i == j)
  }

  /** Direct lookups, with no cache in between. */
  ghost function ById(table: Table, id: nat): Option<Row> {
    if id in table then Some(table[id]) else None
  }

  ghost function BySurl(table: Table, surl: string): Option<Row> {
    if exists id :: HasSurl(table, id, surl) then var id :| HasSurl(table, id, surl); Some(table[id]) else None
  }

  ghost function ByMd5(table: Table, md5: string): Option<Row> {
    if exists id :: HasMd5(table, id, md5) then var id :| HasMd5(table, id, md5); Some(table[id]) else None
  }

  /** The column widths; the other columns have no limit that a caller here can reach. */
  predicate Fits(row: Row) {
    |row.surl| <= MAX_SURL && |row.lurl| <= MAX_LURL && |row.md5| <= MD5_LENGTH
  }

  /** Whether no other row holds one of this row's unique values. */
  predicate Unclaimed(table: Table, row: Row) {
    forall id | id in table && id != row.id :: table[id].surl != row.surl && table[id].md5 != row.md5
  }

  lemma FoundBySurl(table: Table, id: nat, surl: string)
    requires Keyed(table) && HasSurl(table, id, surl)
    ensures BySurl(table, surl) == Some(table[id])
  {
  }

  lemma FoundByMd5(table: Table, id: nat, md5: string)
    requires Keyed(table) && HasMd5(table, id, md5)
    ensures ByMd5(table, md5) == Some(table[id])
  {
  }

  lemma UnclaimedMeans(table: Table, row: Row)
    requires row.id !in table
    ensures Unclaimed(table, row) <==> ByMd5(table, row.md5).None? && BySurl(table, row.surl).None?
  {
    if !Unclaimed(table, row) {
      var id :| id in table && id != row.id && !(table[id].surl != row.surl && table[id].md5 != row.md5);
      assert HasSurl(table, id, row.surl) || HasMd5(table, id, row.md5);
    }
  }

  // ---------------------------------------------------------------- the table and its caches

  /** The primary level answers exactly as the table, found or not. */
  ghost predicate IdsOk(table: Table, ids: map<nat, Option<Row>>) {
    forall id | id in ids :: ids[id] == ById(table, id)
  }

  /** So does the surl level. */
  ghost predicate SurlsOk(table: Table, surls: map<string, Option<nat>>) {
    forall s | s in surls :: SurlOk(table, s, surls[s])
  }

  ghost predicate SurlOk(table: Table, s: string, entry: Option<nat>) {
    if entry.Some? then HasSurl(table, entry.value, s) else forall id :: !HasSurl(table, id, s)
  }

  /** An id that the md5 level holds is right; but it may deny an md5 that exists. */
  ghost predicate Md5sSound(table: Table, md5s: map<string, Option<nat>>) {
    forall m | m in md5s && md5s[m].Some? :: HasMd5(table, md5s[m].value, m)
  }

  /** A not-found placeholder hides an existing row. */
  ghost predicate Hidden(table: Table, md5s: map<string, Option<nat>>, m: string) {
    m in md5s && md5s[m].None? && exists id :: HasMd5(table, id, m)
  }

  ghost function HiddenMd5s(table: Table, md5s: map<string, Option<nat>>): set<string> {
    set m | m in md5s && Hidden(table, md5s, m)
  }

  /** The md5s that were looked up in vain, and whose placeholders are still there. */
  ghost function VainMd5s(md5s: map<string, Option<nat>>): set<string> {
    set m | m in md5s && md5s[m].None?
  }

  /** A new row is noticed by the primary level unless its id was looked up before and not dropped. */
  lemma AddRow(table: Table, id: nat, row: Row, ids: map<nat, Option<Row>>, dropped: nat)
    requires IdsOk(table, ids) && id !in table
    ensures IdsOk(table[id := row], ids - {dropped}) <==> id !in ids || id == dropped
  {
    if id in ids && id != dropped {
      assert (ids - {dropped})[id].None?;
    }
  }

  lemma AddSurl(table: Table, id: nat, row: Row, surls: map<string, Option<nat>>)
    requires SurlsOk(table, surls) && id !in table
    ensures SurlsOk(table[id := row], surls - {row.surl})
  {
    var after := table[id := row];
    forall s | s in surls && s != row.surl
      ensures SurlOk(after, s, surls[s])
    {
      assert SurlOk(table, s, surls[s]);
      assert forall i :: HasSurl(after, i, s) ==> HasSurl(table, i, s);
    }
  }

  lemma AddMd5(table: Table, id: nat, row: Row, md5s: map<string, Option<nat>>)
    requires id !in table && forall i :: !HasMd5(table, i, row.md5)
    ensures HiddenMd5s(table[id := row], md5s - {row.md5}) == HiddenMd5s(table, md5s)
  {
    var after := table[id := row];
    forall m
      ensures Hidden(after, md5s - {row.md5}, m) <==> Hidden(table, md5s, m)
    {
      if m != row.md5 {
        SameOwners(table, after, m);
      }
    }
  }

  lemma SameOwners(table: Table, after: Table, m: string)
    requires forall i :: HasMd5(after, i, m) <==> HasMd5(table, i, m)
    ensures (exists i :: HasMd5(after, i, m)) <==> (exists i :: HasMd5(table, i, m))
  {
  }

  /** Rewriting a row under a new surl is noticed by the surl level unless the new surl was never looked up. */
  lemma RewriteSurl(table: Table, row: Row, surls: map<string, Option<nat>>)
    requires SurlsOk(table, surls) && row.id in table && Unclaimed(table, row)
    ensures
      var was := table[row.id].surl;
      SurlsOk(table[row.id := row], surls - {was}) <==> row.surl == was || row.surl !in surls
  {
    var was, after := table[row.id].surl, table[row.id := row];
    forall s | s in surls && s != was
      ensures SurlOk(after, s, surls[s]) <==> s != row.surl
    {
      assert SurlOk(table, s, surls[s]);
      assert HasSurl(after, row.id, row.surl);
      assert s != row.surl ==> forall i :: HasSurl(after, i, s) <==> HasSurl(table, i, s);
      assert s == row.surl ==> forall i :: !HasSurl(table, i, s);
    }
    if row.surl != was && row.surl in surls {
      assert row.surl in surls - {was};
    }
  }

  lemma RewriteRow(table: Table, row: Row, ids: map<nat, Option<Row>>)
    requires IdsOk(table, ids)
    ensures IdsOk(table[row.id := row], ids - {row.id})
  {
  }

  lemma RewriteMd5Sound(table: Table, row: Row, md5s: map<string, Option<nat>>)
    requires Md5sSound(table, md5s) && row.id in table
    ensures Md5sSound(table[row.id := row], md5s - {table[row.id].md5})
  {
    forall m | m in md5s && md5s[m].Some? && m != table[row.id].md5
      ensures HasMd5(table[row.id := row], md5s[m].value, m)
    {
      assert HasMd5(table, md5s[m].value, m);
    }
  }

  /** Rewriting a row hides the new md5 exactly if it had been looked up before, and unhides the old one. */
  lemma RewriteMd5(table: Table, row: Row, md5s: map<string, Option<nat>>)
    requires Keyed(table) && Md5sSound(table, md5s) && row.id in table && Unclaimed(table, row)
    ensures HiddenMd5s(table[row.id := row], md5s - {table[row.id].md5})
         == HiddenMd5s(table, md5s) + (if row.md5 in md5s then {row.md5} else {}) - {table[row.id].md5}
  {
    var was, after := table[row.id].md5, table[row.id := row];
    assert HasMd5(after, row.id, row.md5);
    forall m
      ensures Hidden(after, md5s - {was}, m) <==> m != was && (Hidden(table, md5s, m) || (m == row.md5 && m in md5s))
    {
      if m == row.md5 && m != was {
        assert forall i :: !HasMd5(table, i, m);
      } else if m != was {
        assert forall i :: HasMd5(after, i, m) <==> HasMd5(table, i, m);
        SameOwners(table, after, m);
      }
    }
  }

  lemma DropSurl(table: Table, id: nat, surls: map<string, Option<nat>>)
    requires SurlsOk(table, surls) && id in table
    ensures SurlsOk(table - {id}, surls - {table[id].surl})
  {
    forall s | s in surls && s != table[id].surl
      ensures SurlOk(table - {id}, s, surls[s])
    {
      assert SurlOk(table, s, surls[s]);
      assert forall i :: HasSurl(table - {id}, i, s) ==> HasSurl(table, i, s);
    }
  }

  lemma DropMd5(table: Table, id: nat, md5s: map<string, Option<nat>>)
    requires Keyed(table) && id in table
    ensures HiddenMd5s(table - {id}, md5s - {table[id].md5}) == HiddenMd5s(table, md5s) - {table[id].md5}
  {
    forall m
      ensures Hidden(table - {id}, md5s - {table[id].md5}, m) <==> Hidden(table, md5s, m) && m != table[id].md5
    {
      if m != table[id].md5 {
        assert forall i :: HasMd5(table - {id}, i, m) <==> HasMd5(table, i, m);
        SameOwners(table, table - {id}, m);
      }
    }
  }

  lemma DropMd5Sound(table: Table, id: nat, md5s: map<string, Option<nat>>)
    requires Md5sSound(table, md5s) && id in table
    ensures Md5sSound(table - {id}, md5s - {table[id].md5})
  {
    forall m | m in md5s && md5s[m].Some? && m != table[id].md5
      ensures HasMd5(table - {id}, md5s[m].value, m)
    {
      assert HasMd5(table, md5s[m].value, m);
    }
  }

  /** What an inserted row does to table and caches. */
  lemma InsertEffects(table: Table, id: nat, row: Row, ids: map<nat, Option<Row>>, md5s: map<string, Option<nat>>,
                 surls: map<string, Option<nat>>, dropped: nat)
    requires Keyed(table) && IdsOk(table, ids) && SurlsOk(table, surls) && Md5sSound(table, md5s)
    requires id !in table && row.id == id && Unclaimed(table, row)
    ensures
      var after := table[id := row];
      && Keyed(after)
      && (IdsOk(after, ids - {dropped}) <==> id !in ids || id == dropped)
      && SurlsOk(after, surls - {row.surl}) && Md5sSound(after, md5s - {row.md5})
      && HiddenMd5s(after, md5s - {row.md5}) == HiddenMd5s(table, md5s)
  {
    AddRow(table, id, row, ids, dropped);
    AddSurl(table, id, row, surls);
    AddMd5(table, id, row, md5s);
  }

  /** What a rewritten one does. */
  lemma RewriteEffects(table: Table, row: Row, ids: map<nat, Option<Row>>, md5s: map<string, Option<nat>>, surls: map<string, Option<nat>>)
    requires Keyed(table) && IdsOk(table, ids) && SurlsOk(table, surls) && Md5sSound(table, md5s)
    requires row.id in table && Unclaimed(table, row)
    ensures
      var after, was := table[row.id := row], table[row.id];
      && Keyed(after) && IdsOk(after, ids - {row.id})
      && (SurlsOk(after, surls - {was.surl}) <==> row.surl == was.surl || row.surl !in surls)
      && Md5sSound(after, md5s - {was.md5})
      && HiddenMd5s(after, md5s - {was.md5}) == HiddenMd5s(table, md5s) + (if row.md5 in md5s then {row.md5} else {}) - {was.md5}
  {
    RewriteRow(table, row, ids);
    RewriteSurl(table, row, surls);
    RewriteMd5Sound(table, row, md5s);
    RewriteMd5(table, row, md5s);
  }

  datatype WriteResult = Written | NotFound | Refused

  class ShortUrlMapModel {
    var table: Table
    var nextId: nat
    var idCache: map<nat, Option<Row>>
    var md5Cache: map<string, Option<nat>>
    var surlCache: map<string, Option<nat>>

    ghost predicate TableOk()
      reads this
    {
      Keyed(table) && nextId > 0 && forall id | id in table :: 0 < id < nextId
    }

    ghost predicate Coherent()
      reads this
    {
      IdsOk(table, idCache) && SurlsOk(table, surlCache) && Md5sSound(table, md5Cache)
    }

    /** The md5s that the cache wrongly denies. */
    ghost function Stale(): set<string>
      reads this
    {
      HiddenMd5s(table, md5Cache)
    }

    ghost function Vain(): set<string>
      reads this
    {
      VainMd5s(md5Cache)
    }

    constructor ()
      ensures TableOk() && Coherent()
      ensures table == map[] && idCache == map[] && md5Cache == map[] && surlCache == map[] && nextId == 1
    {
      table, nextId := map[], 1;
      idCache, md5Cache, surlCache := map[], map[], map[];
    }

    // -------------------------------------------------------------- lookups

    /** FindOne: the primary cache, then the table. */
    method FindOne(id: nat) returns (resp: Option<Row>)
      requires TableOk() && Coherent()
      modifies `idCache
      ensures resp == ById(table, id)
      ensures Coherent() && idCache.Keys == old(idCache.Keys) + {id}
    {
      if id in idCache {
        return idCache[id];
      }
      resp := if id in table then Some(table[id]) else None;
      idCache := idCache[id := resp];
    }

    /** FindOneBySurl: the surl key to an id, the id to a row.  Both cache levels together answer exactly as
        the table would. */
    method FindOneBySurl(surl: string) returns (resp: Option<Row>)
      requires TableOk() && Coherent()
      modifies `idCache, `surlCache
      ensures resp == BySurl(table, surl)
      ensures Coherent()
      ensures surlCache.Keys == old(surlCache.Keys) + {surl}
      ensures idCache.Keys == old(idCache.Keys) + if resp.Some? then {resp.value.id} else {}
    {
      if surl in surlCache {
        assert SurlOk(table, surl, surlCache[surl]);
        match surlCache[surl] {
          case None =>
            resp := None;
          case Some(id) =>
            FoundBySurl(table, id, surl);
            resp := FindOne(id);
        }
      } else if id :| id in table && table[id].surl == surl {
        FoundBySurl(table, id, surl);
        resp := Some(table[id]);
        idCache := idCache[id := resp];
        surlCache := surlCache[surl := Some(id)];
      } else {
        resp := None;
        surlCache := surlCache[surl := None];
      }
    }

    /** FindOneByMd5: likewise, except that a stale placeholder is believed. */
    method FindOneByMd5(md5: string) returns (resp: Option<Row>)
      requires TableOk() && Coherent()
      modifies `idCache, `md5Cache
      ensures resp == (if md5 in old(Stale()) then None else ByMd5(table, md5))
           == if md5 in old(Vain()) then None else ByMd5(table, md5)
      ensures Coherent()
      ensures Stale() == old(Stale()) && Vain() == old(Vain()) + if resp.None? then {md5} else {}
      ensures md5Cache.Keys == old(md5Cache.Keys) + {md5}
      ensures idCache.Keys == old(idCache.Keys) + if resp.Some? then {resp.value.id} else {}
    {
      if md5 in md5Cache {
        match md5Cache[md5] {
          case None =>
            resp := None;
          case Some(id) =>
            FoundByMd5(table, id, md5);
            resp := FindOne(id);
        }
      } else if id :| id in table && table[id].md5 == md5 {
        FoundByMd5(table, id, md5);
        resp := Some(table[id]);
        idCache := idCache[id := resp];
        md5Cache := md5Cache[md5 := Some(id)];
      } else {
        resp := None;
        md5Cache := md5Cache[md5 := None];
      }
    }

    // -------------------------------------------------------------- statements

    /** Insert: the row gets the next id, but the deleted primary key is that of data's own id, which Convert leaves
        zero.  So a placeholder already cached under the new id would survive, and nothing else can go wrong. */
    method Insert(data: Row, fails: bool) returns (r: WriteResult)
      requires TableOk() && Coherent()
      modifies this
      ensures TableOk()
      ensures r == if !fails && Fits(data) && ByMd5(old(table), data.md5).None? && BySurl(old(table), data.surl).None? then Written else Refused
      ensures r != Written ==> unchanged(this)
      ensures r == Written ==>
        && nextId == old(nextId) + 1
        && table == old(table)[old(nextId) := data.(id := old(nextId))]
        && idCache == old(idCache) - {data.id}
        && md5Cache == old(md5Cache) - {data.md5}
        && surlCache == old(surlCache) - {data.surl}
      ensures Coherent() <==> r != Written || old(nextId !in idCache) || data.id == old(nextId)
      ensures Stale() == old(Stale())
    {
      var row := data.(id := nextId);
      UnclaimedMeans(table, row);
      if fails || !Fits(row) || !Unclaimed(table, row) {
        return Refused;
      }
      InsertEffects(table, nextId, row, idCache, md5Cache, surlCache, data.id);
      table := table[nextId := row];
      idCache, md5Cache, surlCache := idCache - {data.id}, md5Cache - {data.md5}, surlCache - {data.surl};
      nextId := nextId + 1;
      return Written;
    }

    /** Update: the keys to delete come from the row as it is now, read through the primary cache.
        The new md5's own key is not among them. */
    method Update(newData: Row, fails: bool) returns (r: WriteResult)
      requires TableOk() && Coherent()
      modifies this
      ensures TableOk() && nextId == old(nextId)
      ensures r == if newData.id !in old(table) then NotFound
                   else if !fails && Fits(newData) && Unclaimed(old(table), newData) then Written else Refused
      ensures r != Written ==> (
        && Coherent() && table == old(table)
        && idCache.Keys == old(idCache.Keys) + {newData.id} && md5Cache == old(md5Cache) && surlCache == old(surlCache))
      ensures r == Written ==> (
        && table == old(table)[newData.id := newData]
        && idCache.Keys == old(idCache.Keys) - {newData.id}
        && md5Cache == old(md5Cache) - {old(table)[newData.id].md5}
        && surlCache == old(surlCache) - {old(table)[newData.id].surl})
      ensures r == Written ==>
        (Coherent() <==> newData.surl == old(table)[newData.id].surl || newData.surl !in old(surlCache))
      ensures r == Written ==>
        Stale() == old(Stale()) + (if newData.md5 in old(md5Cache) then {newData.md5} else {}) - {old(table)[newData.id].md5}
    {
      var data := FindOne(newData.id);
      if data.None? {
        return NotFound;
      }
      var was := data.value;
      if fails || !Fits(newData) || !Unclaimed(table, newData) {
        return Refused;
      }
      RewriteEffects(table, newData, idCache, md5Cache, surlCache);
      table := table[newData.id := newData];
      idCache, md5Cache, surlCache := idCache - {was.id}, md5Cache - {was.md5}, surlCache - {was.surl};
      return Written;
    }

    /** Delete: removes the row and its three keys. */
    method Delete(id: nat, fails: bool) returns (r: WriteResult)
      requires TableOk() && Coherent()
      modifies this
      ensures TableOk() && Coherent() && nextId == old(nextId)
      ensures r == if id !in old(table) then NotFound else if fails then Refused else Written
      ensures r != Written ==> (
        && table == old(table)
        && idCache.Keys == old(idCache.Keys) + {id} && md5Cache == old(md5Cache) && surlCache == old(surlCache))
      ensures r == Written ==> (
        && table == old(table) - {id}
        && idCache.Keys == old(idCache.Keys) - {id}
        && md5Cache == old(md5Cache) - {old(table)[id].md5}
        && surlCache == old(surlCache) - {old(table)[id].surl})
      ensures r == Written ==> Stale() == old(Stale()) - {old(table)[id].md5}
    {
      var data := FindOne(id);
      if data.None? {
        return NotFound;
      }
      var was := data.value;
      if fails {
        return Refused;
      }
      DropSurl(table, id, surlCache);
      DropMd5Sound(table, id, md5Cache);
      DropMd5(table, id, md5Cache);
      table := table - {id};
      idCache, md5Cache, surlCache := idCache - {id}, md5Cache - {was.md5}, surlCache - {was.surl};
      return Written;
    }

    /** Redis may drop any entries at any time. */
    method Evict(ids: set<nat>, md5s: set<string>, surls: set<string>)
      requires TableOk() && Coherent()
      modifies `idCache, `md5Cache, `surlCache
      ensures Coherent()
      ensures idCache == old(idCache) - ids && md5Cache == old(md5Cache) - md5s && surlCache == old(surlCache) - surls
      ensures Stale() == old(Stale()) - md5s
    {
      idCache, md5Cache, surlCache := idCache - ids, md5Cache - md5s, surlCache - surls;
    }
  }

  /** The smallest wrong denial: an md5 is looked up in vain, and then an Update gives it to a link. */
  method WrongDenial(was: string, md5: string) returns (answer: Option<Row>, ghost stored: Option<Row>)
    requires was != md5 && |was| <= MD5_LENGTH && |md5| <= MD5_LENGTH
    ensures answer == None && stored.Some? && stored.value.md5 == md5
  {
    var model := new ShortUrlMapModel();
    var row := Row(0, "", 0, "https://example.com/a", was, "1", None);
    var w := model.Insert(row, false);
    answer := model.FindOneByMd5(md5);
    assert HasMd5(model.table, 1, was);
    w := model.Update(row.(id := 1, md5 := md5), false);
    assert HasMd5(model.table, 1, md5);
    FoundByMd5(model.table, 1, md5);
    answer := model.FindOneByMd5(md5);
    stored := ByMd5(model.table, md5);
  }
}
