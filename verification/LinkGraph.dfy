/** Links and edges as relations: the tables, their constraints, and the statements that the
    database store issues. The in-memory store is proved to behave like this. */
module LinkGraph {
  import opened Uuids

  type Time = int
  const ZERO_TIME: Time := 0

  datatype LinkRow = LinkRow(url: string, retrievedAt: Time)
  datatype EdgeRow = EdgeRow(src: Uuid, dst: Uuid, updatedAt: Time)
  datatype Db = Db(links: map<Uuid, LinkRow>, edges: map<Uuid, EdgeRow>)

  function Max(a: Time, b: Time): Time { if a < b then b else a }

  predicate Joins(e: EdgeRow, src: Uuid, dst: Uuid) {
    e.src == src && e.dst == dst
  }

  /** UNIQUE (url). */
  ghost predicate UrlsUnique(links: map<Uuid, LinkRow>) {
    forall i, j :: i in links && j in links && links[i].url == links[j].url ==> i == j
  }

  /** The two foreign keys. */
  ghost predicate EndpointsExist(db: Db) {
    forall e :: e in db.edges ==> db.edges[e].src in db.links && db.edges[e].dst in db.links
  }

  /** UNIQUE (src, dst). */
  ghost predicate PairsUnique(db: Db) {
    forall d, e :: d in db.edges && e in db.edges && Joins(db.edges[d], db.edges[e].src, db.edges[e].dst) ==> d == e
  }

  ghost predicate Consistent(db: Db) {
    UrlsUnique(db.links) && EndpointsExist(db) && PairsUnique(db)
  }

  ghost predicate HasUrl(db: Db, url: string) {
    exists i :: i in db.links && db.links[i].url == url
  }

  /** INSERT INTO links ... ON CONFLICT (url) DO UPDATE SET retrieved_at = GREATEST(...), where `id`
      is the identifier returned. */
  ghost predicate LinkUpserted(db: Db, db': Db, url: string, ts: Time, id: Uuid) {
    && db'.edges == db.edges
    && if HasUrl(db, url) then
         id in db.links && db.links[id].url == url
         && db'.links == db.links[id := LinkRow(url, Max(db.links[id].retrievedAt, ts))]
       else
         id !in db.links && db'.links == db.links[id := LinkRow(url, ts)]
  }

  ghost predicate HasEdge(db: Db, src: Uuid, dst: Uuid) {
    exists e :: e in db.edges && Joins(db.edges[e], src, dst)
  }

  /** INSERT INTO edges ... ON CONFLICT (src, dst) DO UPDATE SET updated_at = now(). */
  ghost predicate EdgeUpserted(db: Db, db': Db, src: Uuid, dst: Uuid, now: Time, id: Uuid) {
    && db'.links == db.links
    && db'.edges == db.edges[id := EdgeRow(src, dst, now)]
    && if HasEdge(db, src, dst) then id in db.edges && Joins(db.edges[id], src, dst)
       else id !in db.edges
  }

  /** DELETE FROM edges WHERE src = ... AND updated_at < ... */
  function StaleEdgesRemoved(db: Db, src: Uuid, before: Time): Db {
    db.(edges := map e | e in db.edges && !(db.edges[e].src == src && db.edges[e].updatedAt < before) :: db.edges[e])
  }

  predicate InRange(from: Uuid, to: Uuid, id: Uuid) {
    Number(from) <= Number(id) < Number(to)
  }

  /** SELECT ... FROM links WHERE id >= ... AND id < ... AND retrieved_at < ... */
  ghost function LinkScan(db: Db, from: Uuid, to: Uuid, before: Time): set<Uuid> {
    set i | i in db.links && InRange(from, to, i) && db.links[i].retrievedAt < before
  }

  /** SELECT ... FROM edges WHERE src >= ... AND src < ... AND updated_at < ... */
  ghost function EdgeScan(db: Db, from: Uuid, to: Uuid, before: Time): set<Uuid> {
    set e | e in db.edges && InRange(from, to, db.edges[e].src) && db.edges[e].updatedAt < before
  }

  // ----- the statements keep the constraints

  lemma LinkUpsertKeeps(db: Db, db': Db, url: string, ts: Time, id: Uuid)
    requires Consistent(db) && LinkUpserted(db, db', url, ts, id)
    ensures Consistent(db')
    ensures db.links.Keys <= db'.links.Keys
    ensures forall i :: i in db.links ==>
              db'.links[i].url == db.links[i].url && db'.links[i].retrievedAt >= db.links[i].retrievedAt
    ensures forall u :: HasUrl(db', u) <==> HasUrl(db, u) || u == url
  {
    assert db'.links[id].url == url;
    forall u ensures HasUrl(db', u) <==> HasUrl(db, u) || u == url {
      if HasUrl(db, u) { var i :| i in db.links && db.links[i].url == u; assert db'.links[i].url == u; }
      if HasUrl(db', u) && u != url { var i :| i in db'.links && db'.links[i].url == u; assert i in db.links; }
    }
  }

  lemma EdgeUpsertKeeps(db: Db, db': Db, src: Uuid, dst: Uuid, now: Time, id: Uuid)
    requires Consistent(db) && EdgeUpserted(db, db', src, dst, now, id)
    requires src in db.links && dst in db.links
    ensures Consistent(db') && db.edges.Keys <= db'.edges.Keys
    ensures forall e :: e in db.edges && e != id ==> db'.edges[e] == db.edges[e]
  {
    hide PairsUnique, Joins, HasEdge, UrlsUnique;
    PairsKept(db, db', src, dst, now, id);
  }

  lemma PairsKept(db: Db, db': Db, src: Uuid, dst: Uuid, now: Time, id: Uuid)
    requires PairsUnique(db) && EdgeUpserted(db, db', src, dst, now, id)
    ensures PairsUnique(db')
  {
    forall d, e | d in db'.edges && e in db'.edges && Joins(db'.edges[d], db'.edges[e].src, db'.edges[e].dst)
      ensures d == e
    {
      if HasEdge(db, src, dst) { assert Joins(db.edges[id], src, dst); }
    }
  }

  lemma RemoveKeeps(db: Db, src: Uuid, before: Time)
    requires Consistent(db)
    ensures Consistent(StaleEdgesRemoved(db, src, before))
  {
  }

  // ----- repeated upserts

  ghost function Latest(ts: seq<Time>): Time
    requires |ts| > 0
  {
    if |ts| == 1 then ts[0] else Max(Latest(ts[..|ts| - 1]), ts[|ts| - 1])
  }

  ghost predicate LinkHistory(dbs: seq<Db>, url: string, ts: seq<Time>, ids: seq<Uuid>) {
    && |dbs| == |ts| + 1 == |ids| + 1 && Consistent(dbs[0])
    && forall k :: 0 <= k < |ts| ==> LinkUpserted(dbs[k], dbs[k + 1], url, ts[k], ids[k])
  }

  /** Upserting the same new URL again and again always returns the same identifier, and the row ends
      with the greatest timestamp, whatever the order. */
  lemma {:induction false} LinkHistoryLatest(dbs: seq<Db>, url: string, ts: seq<Time>, ids: seq<Uuid>)
    requires |ts| > 0 && LinkHistory(dbs, url, ts, ids) && !HasUrl(dbs[0], url)
    ensures Consistent(dbs[|ts|]) && forall k :: 0 <= k < |ids| ==> ids[k] == ids[0]
    ensures ids[0] in dbs[|ts|].links && dbs[|ts|].links[ids[0]] == LinkRow(url, Latest(ts))
  {
    var n := |ts| - 1;
    if n > 0 {
      assert LinkHistory(dbs[..n + 1], url, ts[..n], ids[..n]);
      LinkHistoryLatest(dbs[..n + 1], url, ts[..n], ids[..n]);
      assert dbs[n].links[ids[0]].url == url;
      assert forall k :: 0 <= k < n ==> ids[k] == ids[..n][k];
    }
    LinkUpsertKeeps(dbs[n], dbs[n + 1], url, ts[n], ids[n]);
  }

  // ----- the statements, spelled out

  /** The row of the URL keeps its identifier and takes the later timestamp, or a row is added; no other
      row and no edge is touched. */
  lemma LinkUpsertSpelled(db: Db, db': Db, url: string, ts: Time, id: Uuid)
    requires LinkUpserted(db, db', url, ts, id)
    ensures db'.edges == db.edges && db'.links.Keys == db.links.Keys + {id} && db'.links[id].url == url
    ensures forall i :: i in db.links && i != id ==> db'.links[i] == db.links[i]
    ensures (exists i :: i in db.links && db.links[i].url == url) <==> id in db.links
    ensures id in db.links ==>
              && db.links[id].url == url
              && db'.links[id].retrievedAt == (if db.links[id].retrievedAt > ts then db.links[id].retrievedAt else ts)
    ensures id !in db.links ==> db'.links[id].retrievedAt == ts
  {
    assert (exists i :: i in db.links && db.links[i].url == url) <==> HasUrl(db, url);
  }

  /** The edge between the two links keeps its identifier and is stamped now, or one is added; no other
      edge and no link is touched. */
  lemma EdgeUpsertSpelled(db: Db, db': Db, src: Uuid, dst: Uuid, now: Time, id: Uuid)
    requires EdgeUpserted(db, db', src, dst, now, id)
    ensures db'.links == db.links && db'.edges.Keys == db.edges.Keys + {id}
    ensures db'.edges[id].src == src && db'.edges[id].dst == dst && db'.edges[id].updatedAt == now
    ensures forall e :: e in db.edges && e != id ==> db'.edges[e] == db.edges[e]
    ensures (exists e :: e in db.edges && db.edges[e].src == src && db.edges[e].dst == dst) <==> id in db.edges
    ensures id in db.edges ==> db.edges[id].src == src && db.edges[id].dst == dst
  {
    if e :| e in db.edges && db.edges[e].src == src && db.edges[e].dst == dst { assert Joins(db.edges[e], src, dst); }
    if HasEdge(db, src, dst) { assert Joins(db.edges[id], src, dst); }
  }

  /** Exactly the edges of the source stamped strictly before the time are gone. */
  lemma RemovalSpelled(db: Db, src: Uuid, before: Time)
    ensures var db' := StaleEdgesRemoved(db, src, before);
            && db'.links == db.links
            && (forall e :: e in db'.edges <==> e in db.edges && (db.edges[e].src != src || db.edges[e].updatedAt >= before))
            && forall e :: e in db'.edges ==> db'.edges[e] == db.edges[e]
  {
  }
}
