/** The in-memory link graph: four maps over shared records, kept in agreement by every operation. */
module LinkStore {
  import opened Uuids
  import opened LinkGraph

  class Link {
    var id: Uuid
    var url: string
    var retrievedAt: Time

    constructor (id: Uuid, url: string, retrievedAt: Time)
      ensures this.id == id && this.url == url && this.retrievedAt == retrievedAt
    {
      this.id, this.url, this.retrievedAt := id, url, retrievedAt;
    }
  }

  class Edge {
    var id: Uuid
    var src: Uuid
    var dst: Uuid
    var updatedAt: Time

    constructor (id: Uuid, src: Uuid, dst: Uuid, updatedAt: Time)
      ensures this.id == id && this.src == src && this.dst == dst && this.updatedAt == updatedAt
    {
      this.id, this.src, this.dst, this.updatedAt := id, src, dst, updatedAt;
    }
  }

  /** A clock that never goes back; it may stand still between two readings. */
  class Clock {
    var time: Time

    constructor ()
    {
      time := ZERO_TIME;
    }

    method Now() returns (t: Time)
      modifies this
      ensures t == time >= old(time)
    {
      var tick: int :| tick >= 0;
      time := time + tick;
      return time;
    }
  }

  // ----- fresh identifiers

  function Padded(bs: seq<Byte>, k: nat): (r: seq<Byte>)
    ensures |r| == k + |bs|
    decreases k
  {
    if k == 0 then bs else [0] + Padded(bs, k - 1)
  }

  lemma {:induction false} PaddedValue(bs: seq<Byte>, k: nat)
    ensures Value(Padded(bs, k)) == Value(bs)
  {
    if k > 0 {
      PaddedValue(bs, k - 1);
      assert Padded(bs, k)[1..] == Padded(bs, k - 1);
    }
  }

  lemma AtMostSixteen(n: nat)
    requires n <= MAX_VALUE
    ensures |BytesOf(n)| <= 16 && Value(BytesOf(n)) == n
  {
    BytesOfValue(n);
    PowValues();
    if |BytesOf(n)| > 16 { PowMonotone(16, |BytesOf(n)| - 1); }
  }

  /** The UUID that a 128-bit number is the value of. */
  function UuidOf(n: nat): (u: Uuid)
    requires n <= MAX_VALUE
    ensures Number(u) == n
  {
    AtMostSixteen(n);
    PaddedValue(BytesOf(n), 16 - |BytesOf(n)|);
    Uuid(Padded(BytesOf(n), 16 - |BytesOf(n)|))
  }

  function Numbers(us: set<Uuid>): set<nat> { set u | u in us :: Number(u) }

  lemma {:induction false} NumbersSize(us: set<Uuid>)
    ensures |Numbers(us)| <= |us|
    decreases |us|
  {
    if us != {} {
      var u :| u in us;
      NumbersSize(us - {u});
      assert Numbers(us) == Numbers(us - {u}) + {Number(u)};
    }
  }

  lemma {:induction false} Below(n: nat, s: set<nat>)
    requires forall i: nat :: i < n ==> i in s
    ensures n <= |s|
  {
    if n > 0 { Below(n - 1, s - {n - 1}); }
  }

  /** The retry loop around uuid.New can end exactly because the table is not full. */
  lemma FreshExists(used: set<Uuid>)
    requires |used| <= MAX_VALUE
    ensures exists n: nat :: n <= MAX_VALUE && n !in Numbers(used)
  {
    NumbersSize(used);
    if forall n: nat :: n <= MAX_VALUE ==> n in Numbers(used) {
      Below(MAX_VALUE + 1, Numbers(used));
    }
  }

  /** Any identifier that is not in use. */
  method NewId(used: set<Uuid>) returns (id: Uuid)
    requires |used| <= MAX_VALUE
    ensures id !in used
  {
    FreshExists(used);
    var n: nat :| n <= MAX_VALUE && n !in Numbers(used);
    return UuidOf(n);
  }

  // ----- the maps as values

  ghost predicate NoDuplicates<T>(s: seq<T>) {
    forall i, j :: 0 <= i < j < |s| ==> s[i] != s[j]
  }

  function Elements<T>(s: seq<T>): set<T> { set x | x in s }

  lemma ElementsNone<T>(s: seq<T>)
    ensures Elements(s[..0]) == {}
  {
  }

  lemma ElementsNext<T>(s: seq<T>, i: nat)
    requires i < |s|
    ensures Elements(s[..i + 1]) == Elements(s[..i]) + {s[i]}
  {
    assert s[..i + 1] == s[..i] + [s[i]];
  }

  /** The URL index is the inverse of the URL column. */
  ghost predicate Indexed(links: map<Uuid, LinkRow>, index: map<string, Uuid>) {
    && (forall u :: u in index ==> index[u] in links && links[index[u]].url == u)
    && forall i :: i in links ==> links[i].url in index && index[links[i].url] == i
  }

  function ListOf(lists: map<Uuid, seq<Uuid>>, src: Uuid): seq<Uuid> {
    if src in lists then lists[src] else []
  }

  ghost predicate Lists(edges: map<Uuid, EdgeRow>, src: Uuid, list: seq<Uuid>) {
    NoDuplicates(list) && forall e :: e in list <==> e in edges && edges[e].src == src
  }

  /** Each list has no duplicates and holds exactly the edges of its source. */
  ghost predicate Listed(edges: map<Uuid, EdgeRow>, lists: map<Uuid, seq<Uuid>>) {
    forall s :: Lists(edges, s, ListOf(lists, s))
  }

  ghost predicate Agree(db: Db, index: map<string, Uuid>, lists: map<Uuid, seq<Uuid>>) {
    Consistent(db) && Indexed(db.links, index) && Listed(db.edges, lists)
  }

  lemma IndexedUrls(db: Db, index: map<string, Uuid>, url: string)
    requires Indexed(db.links, index)
    ensures HasUrl(db, url) <==> url in index
    ensures url in index ==> index[url] in db.links && db.links[index[url]].url == url
  {
    if url in index { assert db.links[index[url]].url == url; }
  }

  lemma UpsertRow(db: Db, db': Db, url: string, ts: Time, id: Uuid)
    requires HasUrl(db, url) <==> id in db.links
    requires id in db.links ==> db.links[id].url == url
    requires db' == db.(links := db.links[id := LinkRow(url, if id in db.links then Max(db.links[id].retrievedAt, ts) else ts)])
    ensures LinkUpserted(db, db', url, ts, id)
  {
    hide HasUrl;
  }

  lemma LinkUpsertAgrees(db: Db, db': Db, index: map<string, Uuid>, lists: map<Uuid, seq<Uuid>>, url: string, ts: Time, id: Uuid)
    requires Agree(db, index, lists) && LinkUpserted(db, db', url, ts, id)
    ensures Agree(db', index[url := id], lists)
  {
    LinkUpsertKeeps(db, db', url, ts, id);
    hide Consistent, Listed;
    IndexedUrls(db, index, url);
  }

  lemma UpsertEdgeRow(db: Db, db': Db, src: Uuid, dst: Uuid, now: Time, id: Uuid)
    requires if id in db.edges then db.edges[id].src == src && db.edges[id].dst == dst else !HasEdge(db, src, dst)
    requires db' == db.(edges := db.edges[id := EdgeRow(src, dst, now)])
    ensures EdgeUpserted(db, db', src, dst, now, id)
  {
    if id in db.edges { assert Joins(db.edges[id], src, dst); }
  }

  lemma EdgeRefreshAgrees(db: Db, db': Db, index: map<string, Uuid>, lists: map<Uuid, seq<Uuid>>, now: Time, id: Uuid)
    requires Agree(db, index, lists) && id in db.edges
    requires EdgeUpserted(db, db', db.edges[id].src, db.edges[id].dst, now, id)
    ensures Agree(db', index, lists)
  {
    EdgeUpsertKeeps(db, db', db.edges[id].src, db.edges[id].dst, now, id);
    hide Consistent, Indexed, NoDuplicates, ListOf, HasEdge;
    assert Listed(db'.edges, lists) by {
      forall s ensures Lists(db'.edges, s, ListOf(lists, s)) {
        assert Lists(db.edges, s, ListOf(lists, s));
      }
    }
  }

  lemma EdgeInsertAgrees(db: Db, db': Db, index: map<string, Uuid>, lists: map<Uuid, seq<Uuid>>, src: Uuid, dst: Uuid, now: Time, id: Uuid)
    requires Agree(db, index, lists) && EdgeUpserted(db, db', src, dst, now, id) && !HasEdge(db, src, dst)
    requires src in db.links && dst in db.links
    ensures Agree(db', index, lists[src := ListOf(lists, src) + [id]])
  {
    EdgeUpsertKeeps(db, db', src, dst, now, id);
    hide Consistent, Indexed, HasEdge;
    var lists' := lists[src := ListOf(lists, src) + [id]];
    assert Listed(db'.edges, lists') by {
      forall s ensures Lists(db'.edges, s, ListOf(lists', s)) {
        ListsInserted(db.edges, s, ListOf(lists, s), EdgeRow(src, dst, now), id);
      }
    }
  }

  lemma ListsInserted(edges: map<Uuid, EdgeRow>, s: Uuid, list: seq<Uuid>, edge: EdgeRow, id: Uuid)
    requires Lists(edges, s, list) && id !in edges
    ensures Lists(edges[id := edge], s, if s == edge.src then list + [id] else list)
  {
    assert id !in list;
  }

  lemma RemoveAgrees(db: Db, index: map<string, Uuid>, lists: map<Uuid, seq<Uuid>>, src: Uuid, before: Time, retain: seq<Uuid>)
    requires Agree(db, index, lists) && Lists(StaleEdgesRemoved(db, src, before).edges, src, retain)
    ensures Agree(StaleEdgesRemoved(db, src, before), index, lists[src := retain])
  {
    RemoveKeeps(db, src, before);
    hide Consistent, Indexed, NoDuplicates;
    var edges', lists' := StaleEdgesRemoved(db, src, before).edges, lists[src := retain];
    forall s ensures Lists(edges', s, ListOf(lists', s)) {
      assert Lists(db.edges, s, ListOf(lists, s));
    }
  }

  /** An edge exists exactly if the list of its source holds it. */
  lemma EdgeInList(db: Db, src: Uuid, dst: Uuid, list: seq<Uuid>)
    requires Lists(db.edges, src, list)
    ensures HasEdge(db, src, dst) <==> exists k :: 0 <= k < |list| && db.edges[list[k]].dst == dst
  {
    hide NoDuplicates;
    if HasEdge(db, src, dst) {
      var e :| e in db.edges && Joins(db.edges[e], src, dst);
      assert e in list;
    }
    if k :| 0 <= k < |list| && db.edges[list[k]].dst == dst {
      assert list[k] in list;
      assert Joins(db.edges[list[k]], src, dst);
    }
  }

  // ----- the store

  class InMemoryGraph {
    var links: map<Uuid, Link>
    var edges: map<Uuid, Edge>
    var linkURLIndex: map<string, Link>
    var linkEdgeMap: map<Uuid, seq<Uuid>>

    // the two tables that the maps represent, and the URL index by identifier
    ghost var rows: Db
    ghost var index: map<string, Uuid>
    ghost var linkRepr: set<Link>
    ghost var edgeRepr: set<Edge>

    /** Link records sit under their own identifiers, and the index shares them. */
    ghost predicate LinksTied()
      reads this, linkRepr
    {
      && links.Keys == rows.links.Keys
      && (forall i :: i in links ==>
           links[i] in linkRepr && links[i].id == i && links[i].url == rows.links[i].url && links[i].retrievedAt == rows.links[i].retrievedAt)
      && linkURLIndex.Keys == index.Keys
      && forall u :: u in linkURLIndex ==> index[u] in links && linkURLIndex[u] == links[index[u]]
    }

    /** Edge records sit under their own identifiers, with the contents of `table`. */
    ghost predicate EdgesHold(table: map<Uuid, EdgeRow>)
      reads this, edgeRepr
    {
      && edges.Keys == table.Keys
      && forall e :: e in edges ==>
           edges[e] in edgeRepr && edges[e].id == e && edges[e].src == table[e].src && edges[e].dst == table[e].dst
           && edges[e].updatedAt == table[e].updatedAt
    }

    ghost predicate Valid()
      reads this, linkRepr, edgeRepr
    {
      LinksTied() && EdgesHold(rows.edges) && Agree(rows, index, linkEdgeMap)
    }

    constructor ()
      ensures Valid() && rows.links.Keys == {} && rows.edges.Keys == {}
    {
      links, edges, linkURLIndex, linkEdgeMap := map[], map[], map[], map[];
      rows, index, linkRepr, edgeRepr := Db(map[], map[]), map[], {}, {};
    }

    /** Inserts the link, or refreshes the stored one with the same URL: its identifier stays and
        its timestamp never decreases. The caller's record receives the identifier. */
    method UpsertLink(link: Link)
      requires Valid() && link !in linkRepr
      requires link.url in linkURLIndex || |links| <= MAX_VALUE
      modifies this`links, this`linkURLIndex, this`rows, this`index, this`linkRepr, linkRepr, link
      ensures Valid() && link !in linkRepr && fresh(linkRepr - old(linkRepr))
      ensures link.url == old(link.url) && link.retrievedAt == old(link.retrievedAt)
      ensures LinkUpserted(old(rows), rows, link.url, link.retrievedAt, link.id)
      ensures edges == old(edges) && |links| <= |old(links)| + 1
    {
      hide Consistent, Agree, LinkUpserted;
      if link.url in linkURLIndex {
        RefreshLink(link);
      } else {
        InsertLink(link);
      }
    }

    lemma KnownUrl(url: string)
      requires Valid()
      ensures HasUrl(rows, url) <==> url in linkURLIndex
      ensures url in linkURLIndex ==> url in index && index[url] in rows.links && rows.links[index[url]].url == url
      ensures url in linkURLIndex ==>
                linkURLIndex[url].id == index[url] && index[url] in links && links[index[url]] == linkURLIndex[url]
    {
      hide EdgesHold;
      IndexedUrls(rows, index, url);
    }

    lemma LinkOwners()
      requires LinksTied()
      ensures links.Keys == rows.links.Keys
      ensures forall i :: i in links ==> links[i] in linkRepr && links[i].id == i && links[i].retrievedAt == rows.links[i].retrievedAt
    {
    }

    lemma EdgeOwners(table: map<Uuid, EdgeRow>)
      requires EdgesHold(table)
      ensures edges.Keys == table.Keys
      ensures forall e :: e in edges ==>
                edges[e] in edgeRepr && edges[e].id == e && edges[e].src == table[e].src && edges[e].dst == table[e].dst
                && edges[e].updatedAt == table[e].updatedAt
    {
    }

    method RefreshLink(link: Link)
      requires Valid() && link !in linkRepr && link.url in linkURLIndex
      modifies this`rows, linkRepr, link
      ensures Valid()
      ensures link.url == old(link.url) && link.retrievedAt == old(link.retrievedAt)
      ensures LinkUpserted(old(rows), rows, link.url, link.retrievedAt, link.id)
    {
      hide Agree, LinksTied, EdgesHold, HasUrl, LinkUpserted;
      ghost var db, url, ts := rows, link.url, link.retrievedAt;
      KnownUrl(url);
      LinkOwners();
      var existing := linkURLIndex[link.url];
      ghost var id, was := existing.id, existing.retrievedAt;
      link.id := existing.id;
      var origTs := existing.retrievedAt;
      existing.id, existing.url, existing.retrievedAt := link.id, link.url, link.retrievedAt;
      if origTs > existing.retrievedAt {
        existing.retrievedAt := origTs;
      }
      rows := db.(links := db.links[id := LinkRow(url, Max(was, ts))]);
      assert LinksTied() by { assert index == index[url := id]; LinkSet(id, existing); }
      assert EdgesHold(rows.edges) by { EdgesFramed(rows.edges); }
      assert LinkUpserted(db, rows, url, ts, id) by { UpsertRow(db, rows, url, ts, id); }
      LinkUpsertAgrees(db, rows, index, linkEdgeMap, url, ts, id);
      assert index == index[url := id];
    }

    method InsertLink(link: Link)
      requires Valid() && link !in linkRepr && link.url !in linkURLIndex && |links| <= MAX_VALUE
      modifies this`links, this`linkURLIndex, this`rows, this`index, this`linkRepr, link
      ensures Valid() && link !in linkRepr && fresh(linkRepr - old(linkRepr))
      ensures link.url == old(link.url) && link.retrievedAt == old(link.retrievedAt)
      ensures LinkUpserted(old(rows), rows, link.url, link.retrievedAt, link.id)
      ensures |links| <= |old(links)| + 1
    {
      hide Valid, LinkUpserted;
      ValidKeys();
      link.id := NewId(links.Keys);
      var lCopy := new Link(link.id, link.url, link.retrievedAt);
      assert Valid() by { Framed(); }
      PutLink(lCopy);
    }

    method PutLink(l: Link)
      requires Valid() && l.id !in links && l.url !in linkURLIndex
      modifies this`links, this`linkURLIndex, this`rows, this`index, this`linkRepr
      ensures Valid() && linkRepr == old(linkRepr) + {l}
      ensures LinkUpserted(old(rows), rows, l.url, l.retrievedAt, l.id)
      ensures |links| == |old(links)| + 1
    {
      hide Agree, EdgesHold, HasUrl, LinksTied, LinkUpserted;
      ghost var db, index0, url, ts, id := rows, index, l.url, l.retrievedAt, l.id;
      KnownUrl(url);
      LinkOwners();
      InsertedSize(links, id, l);
      linkURLIndex := linkURLIndex[l.url := l];
      links := links[l.id := l];
      rows := db.(links := db.links[id := LinkRow(url, ts)]);
      index := index0[url := id];
      linkRepr := linkRepr + {l};
      assert LinksTied() by { LinkSet(id, l); }
      assert EdgesHold(rows.edges) by { EdgesFramed(rows.edges); }
      assert LinkUpserted(db, rows, url, ts, id) by { UpsertRow(db, rows, url, ts, id); }
      LinkUpsertAgrees(db, rows, index0, linkEdgeMap, url, ts, id);
    }

    lemma ValidKeys()
      requires Valid()
      ensures links.Keys == rows.links.Keys && edges.Keys == rows.edges.Keys
      ensures |links.Keys| == |links| && |edges.Keys| == |edges|
    {
      hide Agree;
    }

    /** The tables satisfy their constraints. */
    lemma Constraints()
      requires Valid()
      ensures Consistent(rows)
    {
      hide LinksTied, EdgesHold, Consistent, Indexed, Listed;
    }

    /** Nothing of the store has changed. */
    twostate lemma Framed()
      requires old(Valid()) && unchanged(this)
      requires forall l :: l in old(linkRepr) ==> unchanged(l)
      requires forall e :: e in old(edgeRepr) ==> unchanged(e)
      ensures Valid()
    {
      hide Agree;
    }

    /** The record at `i` was written, and its rows with it. */
    twostate lemma LinkSet(i: Uuid, new l: Link)
      requires old(LinksTied()) && l.id == i && (i in old(links) ==> old(links)[i] == l)
      requires links == old(links)[i := l] && linkURLIndex == old(linkURLIndex)[l.url := l] && index == old(index)[l.url := i]
      requires linkRepr == old(linkRepr) + {l}
      requires rows.links == old(rows).links[i := LinkRow(l.url, l.retrievedAt)]
      requires forall j :: j in old(links) && j != i ==> unchanged(old(links)[j])
      ensures LinksTied()
    {
    }

    /** The record at `i` was written, and its row with it. */
    twostate lemma EdgeSet(i: Uuid, new e: Edge)
      requires old(EdgesHold(rows.edges)) && e.id == i
      requires edges == old(edges)[i := e] && edgeRepr == old(edgeRepr) + {e}
      requires rows.edges == old(rows).edges[i := EdgeRow(e.src, e.dst, e.updatedAt)]
      requires forall j :: j in old(edges) && j != i ==> unchanged(old(edges)[j])
      ensures EdgesHold(rows.edges)
    {
    }

    /** Nothing that the edge map depends on has changed. */
    twostate lemma EdgesFramed(table: map<Uuid, EdgeRow>)
      requires old(EdgesHold(table)) && edges == old(edges) && edgeRepr == old(edgeRepr)
      requires forall e :: e in old(edges) ==> unchanged(old(edges)[e])
      ensures EdgesHold(table)
    {
    }

    /** Nothing that the link maps depend on has changed. */
    twostate lemma LinksFramed()
      requires old(LinksTied()) && links == old(links) && linkRepr == old(linkRepr) && linkURLIndex == old(linkURLIndex) && index == old(index)
      requires rows.links == old(rows).links && forall i :: i in old(links) ==> unchanged(old(links)[i])
      ensures LinksTied()
    {
    }

    /** A copy of the stored record, if there is one. */
    method FindLink(id: Uuid) returns (found: bool, link: Link?)
      requires Valid()
      ensures found <==> id in rows.links
      ensures found ==> link != null && fresh(link) && link.id == id && LinkRow(link.url, link.retrievedAt) == rows.links[id]
      ensures !found ==> link == null
    {
      hide Agree;
      if id !in links { return false, null; }
      link := new Link(links[id].id, links[id].url, links[id].retrievedAt);
      return true, link;
    }

    lemma ListHere(src: Uuid)
      requires Valid()
      ensures Lists(rows.edges, src, ListOf(linkEdgeMap, src))
    {
      hide LinksTied, EdgesHold, Consistent, Indexed, Lists, ListOf;
    }

    /** Fails when an endpoint is unknown. Otherwise refreshes the edge between the endpoints, or
        inserts one; the caller's record becomes a copy of it. */
    method UpsertEdge(edge: Edge, clock: Clock) returns (ok: bool)
      requires Valid() && edge !in edgeRepr && |edges| <= MAX_VALUE
      modifies this`edges, this`linkEdgeMap, this`rows, this`edgeRepr, edgeRepr, edge, clock
      ensures Valid() && edge !in edgeRepr && fresh(edgeRepr - old(edgeRepr))
      ensures clock.time >= old(clock.time)
      ensures ok <==> old(edge.src) in links && old(edge.dst) in links
      ensures links == old(links) && linkRepr == old(linkRepr)
      ensures !ok ==> rows == old(rows) && unchanged(edge) && unchanged(clock)
      ensures ok ==> EdgeUpserted(old(rows), rows, old(edge.src), old(edge.dst), edge.updatedAt, edge.id)
      ensures ok ==> edge.src == old(edge.src) && edge.dst == old(edge.dst) && edge.updatedAt == clock.time
      ensures |edges| <= |old(edges)| + 1
    {
      hide Valid, EdgeUpserted, HasEdge;
      ValidKeys();
      if edge.src !in links || edge.dst !in links { return false; }
      var existing := FindEdge(edge.src, edge.dst);
      if existing != null {
        RefreshEdge(existing, edge, clock);
      } else {
        InsertEdge(edge, clock);
      }
      return true;
    }

    /** The stored edge between two links, found in the list of its source. */
    method FindEdge(src: Uuid, dst: Uuid) returns (existing: Edge?)
      requires Valid()
      ensures existing != null ==> existing.id in edges && edges[existing.id] == existing && existing in edgeRepr
      ensures existing != null ==> existing.src == src && existing.dst == dst
      ensures existing == null <==> !HasEdge(rows, src, dst)
    {
      hide Agree, NoDuplicates, HasEdge, LinksTied, EdgesHold, ListOf;
      var list := ListOf(linkEdgeMap, src);
      ListHere(src);
      EdgeInList(rows, src, dst, list);
      EdgeOwners(rows.edges);
      var i := 0;
      while i < |list|
        invariant 0 <= i <= |list|
        invariant forall k :: 0 <= k < i ==> rows.edges[list[k]].dst != dst
      {
        assert list[i] in list;
        existing := edges[list[i]];
        if existing.src == src && existing.dst == dst { return existing; }
        i := i + 1;
      }
      return null;
    }

    method RefreshEdge(existing: Edge, edge: Edge, clock: Clock)
      requires Valid() && existing.id in edges && edges[existing.id] == existing && edge !in edgeRepr
      requires existing.src == edge.src && existing.dst == edge.dst
      modifies this`rows, existing, edge, clock
      ensures Valid() && clock.time >= old(clock.time)
      ensures EdgeUpserted(old(rows), rows, old(edge.src), old(edge.dst), edge.updatedAt, edge.id)
      ensures edge.src == old(edge.src) && edge.dst == old(edge.dst) && edge.updatedAt == clock.time
    {
      hide Agree, LinksTied, EdgesHold, EdgeUpserted;
      ghost var db, id, src, dst := rows, existing.id, edge.src, edge.dst;
      EdgeOwners(rows.edges);
      existing.updatedAt := clock.Now();
      edge.id, edge.src, edge.dst, edge.updatedAt := existing.id, existing.src, existing.dst, existing.updatedAt;
      rows := db.(edges := db.edges[id := EdgeRow(src, dst, clock.time)]);
      assert EdgesHold(rows.edges) by { EdgeSet(id, existing); }
      assert LinksTied() by { LinksFramed(); }
      assert EdgeUpserted(db, rows, src, dst, clock.time, id) by { UpsertEdgeRow(db, rows, src, dst, clock.time, id); }
      EdgeRefreshAgrees(db, rows, index, linkEdgeMap, clock.time, id);
    }

    method InsertEdge(edge: Edge, clock: Clock)
      requires Valid() && edge !in edgeRepr && |edges| <= MAX_VALUE
      requires edge.src in rows.links && edge.dst in rows.links && !HasEdge(rows, edge.src, edge.dst)
      modifies this`edges, this`linkEdgeMap, this`rows, this`edgeRepr, edge, clock
      ensures Valid() && edge !in edgeRepr && fresh(edgeRepr - old(edgeRepr)) && clock.time >= old(clock.time)
      ensures EdgeUpserted(old(rows), rows, old(edge.src), old(edge.dst), edge.updatedAt, edge.id)
      ensures edge.src == old(edge.src) && edge.dst == old(edge.dst) && edge.updatedAt == clock.time
      ensures |edges| <= |old(edges)| + 1
    {
      hide Valid, HasEdge, EdgeUpserted;
      ValidKeys();
      edge.id := NewId(edges.Keys);
      edge.updatedAt := clock.Now();
      var eCopy := new Edge(edge.id, edge.src, edge.dst, edge.updatedAt);
      assert Valid() by { Framed(); }
      PutEdge(eCopy);
    }

    method PutEdge(e: Edge)
      requires Valid() && e.id !in edges
      requires e.src in rows.links && e.dst in rows.links && !HasEdge(rows, e.src, e.dst)
      modifies this`edges, this`linkEdgeMap, this`rows, this`edgeRepr
      ensures Valid() && edgeRepr == old(edgeRepr) + {e}
      ensures EdgeUpserted(old(rows), rows, e.src, e.dst, e.updatedAt, e.id)
      ensures |edges| == |old(edges)| + 1
    {
      hide Agree, HasEdge, LinksTied, EdgesHold, EdgeUpserted, ListOf;
      ghost var db, lists, src, dst, id, now := rows, linkEdgeMap, e.src, e.dst, e.id, e.updatedAt;
      EdgeOwners(rows.edges);
      InsertedSize(edges, id, e);
      edges := edges[e.id := e];
      linkEdgeMap := linkEdgeMap[e.src := ListOf(linkEdgeMap, e.src) + [e.id]];
      rows := db.(edges := db.edges[id := EdgeRow(src, dst, now)]);
      edgeRepr := edgeRepr + {e};
      assert EdgesHold(rows.edges) by { EdgeSet(id, e); }
      assert LinksTied() by { LinksFramed(); }
      assert EdgeUpserted(db, rows, src, dst, now, id) by { UpsertEdgeRow(db, rows, src, dst, now, id); }
      EdgeInsertAgrees(db, rows, index, lists, src, dst, now, id);
    }

    /** Deletes exactly the edges of `fromID` stamped before `updatedBefore`. */
    method RemoveStaleEdges(fromID: Uuid, updatedBefore: Time)
      requires Valid()
      modifies this`edges, this`linkEdgeMap, this`rows
      ensures Valid() && |edges| <= |old(edges)|
      ensures rows == StaleEdgesRemoved(old(rows), fromID, updatedBefore)
    {
      hide LinksTied, EdgesHold, Agree, ListOf, StaleEdgesRemoved, Lists;
      var retain := DropStale(fromID, updatedBefore);
      RemoveAgrees(rows, index, linkEdgeMap, fromID, updatedBefore, retain);
      StaleLinks(rows, fromID, updatedBefore);
      label dropped:
      linkEdgeMap := linkEdgeMap[fromID := retain];
      rows := StaleEdgesRemoved(rows, fromID, updatedBefore);
      LinksFramed();
      EdgesFramed@dropped(rows.edges);
    }

    /** Deletes the stale edges in the list of `fromID` and returns the others. */
    method DropStale(fromID: Uuid, updatedBefore: Time) returns (retain: seq<Uuid>)
      requires Valid()
      modifies this`edges
      ensures EdgesHold(StaleEdgesRemoved(rows, fromID, updatedBefore).edges)
      ensures Lists(StaleEdgesRemoved(rows, fromID, updatedBefore).edges, fromID, retain)
      ensures |edges| <= |old(edges)|
    {
      hide Agree, LinksTied, EdgesHold, ListOf, Lists, Retained, StaleEdgesRemoved, Remaining;
      ListHere(fromID);
      var list := ListOf(linkEdgeMap, fromID);
      ListsEdges(rows.edges, fromID, list);
      retain := [];
      RetainedNone(rows, updatedBefore);
      assert list[..0] == [];
      var i := 0;
      while i < |list|
        invariant 0 <= i <= |list| && |edges| <= |old(edges)|
        invariant EdgesHold(Remaining(rows, list[..i], updatedBefore))
        invariant Retained(rows, list[..i], updatedBefore, retain)
      {
        var edgeID := list[i];
        assert edgeID in list;
        RetainedNext(rows, list, i, updatedBefore, retain);
        EdgeOwners(Remaining(rows, list[..i], updatedBefore));
        var edge := edges[edgeID];
        if edge.updatedAt < updatedBefore {
          DropEdge(edgeID, Remaining(rows, list[..i], updatedBefore));
        } else {
          retain := retain + [edgeID];
        }
        i := i + 1;
      }
      assert list[..i] == list;
      RetainedAll(rows, fromID, updatedBefore, list, retain);
    }

    method DropEdge(edgeID: Uuid, ghost table: map<Uuid, EdgeRow>)
      requires EdgesHold(table)
      modifies this`edges
      ensures EdgesHold(table - {edgeID}) && |edges| <= |old(edges)|
    {
      SmallerWithout(edges, edgeID);
      edges := edges - {edgeID};
    }

    ghost predicate LinkRecords(list: seq<Link>, ids: seq<Uuid>)
      reads this
    {
      |list| == |ids| && forall k :: 0 <= k < |list| ==> ids[k] in links && list[k] == links[ids[k]]
    }

    ghost predicate EdgeRecords(list: seq<Edge>, ids: seq<Uuid>)
      reads this
    {
      |list| == |ids| && forall k :: 0 <= k < |list| ==> ids[k] in edges && list[k] == edges[ids[k]]
    }

    /** The links of a range of identifiers: string comparison of the texts selects them, and they
        are those that numeric comparison selects, each once. */
    method Links(fromID: Uuid, toID: Uuid, retrievedBefore: Time) returns (it: LinkIterator)
      requires Valid()
      ensures fresh(it) && it.curIndex == 0 && LinkRecords(it.links, it.ids)
      ensures Enumerates(it.ids, LinkScan(rows, fromID, toID, retrievedBefore))
      ensures NoDuplicates(it.ids)
      ensures forall i :: i in it.ids <==>
                i in rows.links && Number(fromID) <= Number(i) < Number(toID) && rows.links[i].retrievedAt < retrievedBefore
    {
      hide Agree, EdgesHold, LinksTied, Enumerates, Text, Less, Number, NoDuplicates;
      var from, to := Text(fromID), Text(toID);
      var list: seq<Link> := [];
      ghost var ids: seq<Uuid> := [];
      ghost var scan := LinkScan(rows, fromID, toID, retrievedBefore);
      LinkOwners();
      EnumeratesNone(scan - links.Keys);
      var rest := links.Keys;
      while rest != {}
        invariant rest <= links.Keys
        invariant LinkRecords(list, ids)
        invariant Enumerates(ids, scan - rest)
        decreases |rest|
      {
        var linkID :| linkID in rest;
        var link, id := links[linkID], Text(linkID);
        TextOrder(linkID, toID);
        TextOrder(linkID, fromID);
        EnumeratesNext(ids, scan, rest, linkID);
        rest := rest - {linkID};
        if Less(id, to) && !Less(id, from) && link.retrievedAt < retrievedBefore {
          list := list + [link];
          ids := ids + [linkID];
        }
      }
      assert scan - rest == scan;
      LinksSpelled(ids, rows, fromID, toID, retrievedBefore);
      it := new LinkIterator(list, ids);
    }

    /** The edges whose sources lie in a range of identifiers, found through the links and their edge
        lists: they are those that a scan of the edge table selects, each once. */
    method Edges(fromID: Uuid, toID: Uuid, updatedBefore: Time) returns (it: EdgeIterator)
      requires Valid()
      ensures fresh(it) && it.curIndex == 0 && EdgeRecords(it.edges, it.ids)
      ensures Enumerates(it.ids, EdgeScan(rows, fromID, toID, updatedBefore))
      ensures NoDuplicates(it.ids)
      ensures forall e :: e in it.ids <==>
                && e in rows.edges && Number(fromID) <= Number(rows.edges[e].src) < Number(toID)
                && rows.edges[e].updatedAt < updatedBefore
    {
      hide Agree, EdgesHold, LinksTied, Enumerates, Text, Less, Number, EdgesFrom, ListOf, NoDuplicates;
      var from, to := Text(fromID), Text(toID);
      var list: seq<Edge> := [];
      ghost var ids: seq<Uuid> := [];
      ghost var done: set<Uuid> := {};
      EdgesFromNone(rows, updatedBefore);
      EnumeratesNone(EdgesFrom(rows, {}, updatedBefore));
      var rest := links.Keys;
      while rest != {}
        invariant rest <= links.Keys
        invariant EdgeRecords(list, ids)
        invariant forall s :: s in done <==> s in links && s !in rest && InRange(fromID, toID, s)
        invariant Enumerates(ids, EdgesFrom(rows, done, updatedBefore))
        decreases |rest|
      {
        var linkID :| linkID in rest;
        var id := Text(linkID);
        TextOrder(linkID, toID);
        TextOrder(linkID, fromID);
        rest := rest - {linkID};
        if !(!Less(id, to) || Less(id, from)) {
          list, ids := AppendEdges(linkID, updatedBefore, list, ids, done);
          done := done + {linkID};
        }
      }
      ScanFrom(rows, index, linkEdgeMap, fromID, toID, updatedBefore, done) by { LinkOwners(); }
      EdgesSpelled(ids, rows, fromID, toID, updatedBefore);
      it := new EdgeIterator(list, ids);
    }

    method AppendEdges(linkID: Uuid, updatedBefore: Time, before: seq<Edge>, ghost idsBefore: seq<Uuid>, ghost done: set<Uuid>)
      returns (list: seq<Edge>, ghost ids: seq<Uuid>)
      requires Valid() && linkID !in done && EdgeRecords(before, idsBefore)
      requires Enumerates(idsBefore, EdgesFrom(rows, done, updatedBefore))
      ensures EdgeRecords(list, ids)
      ensures Enumerates(ids, EdgesFrom(rows, done + {linkID}, updatedBefore))
    {
      hide Agree, EdgesHold, LinksTied, Enumerates, EdgesFrom, ListOf, Listing;
      EdgeOwners(rows.edges);
      ListHere(linkID);
      list, ids := before, idsBefore;
      var edgeIDs := ListOf(linkEdgeMap, linkID);
      ListingNone(rows, done, updatedBefore, edgeIDs);
      var i := 0;
      while i < |edgeIDs|
        invariant 0 <= i <= |edgeIDs|
        invariant EdgeRecords(list, ids)
        invariant Enumerates(ids, Listing(rows, done, updatedBefore, edgeIDs[..i]))
      {
        ListingNext(rows, linkID, done, updatedBefore, edgeIDs, i);
        EnumeratesMore(ids, Listing(rows, done, updatedBefore, edgeIDs[..i]), edgeIDs[i]);
        var edge := edges[edgeIDs[i]];
        if edge.updatedAt < updatedBefore {
          list, ids := list + [edge], ids + [edgeIDs[i]];
        }
        i := i + 1;
      }
      assert edgeIDs[..i] == edgeIDs;
      ListingAll(rows, linkID, done, updatedBefore, edgeIDs);
    }
  }

  class LinkIterator {
    var links: seq<Link>
    var curIndex: nat
    ghost var ids: seq<Uuid>

    constructor (links: seq<Link>, ghost ids: seq<Uuid>)
      ensures this.links == links && this.ids == ids && curIndex == 0
    {
      this.links, this.ids, curIndex := links, ids, 0;
    }

    method Next() returns (more: bool)
      modifies this`curIndex
      ensures more <==> old(curIndex) < |links|
      ensures curIndex == if more then old(curIndex) + 1 else old(curIndex)
    {
      if curIndex >= |links| { return false; }
      curIndex := curIndex + 1;
      return true;
    }

    /** A copy of the current record, as it is now. */
    method Current() returns (link: Link)
      requires 0 < curIndex <= |links|
      ensures fresh(link) && link.id == links[curIndex - 1].id
      ensures link.url == links[curIndex - 1].url && link.retrievedAt == links[curIndex - 1].retrievedAt
    {
      var l := links[curIndex - 1];
      link := new Link(l.id, l.url, l.retrievedAt);
    }
  }

  class EdgeIterator {
    var edges: seq<Edge>
    var curIndex: nat
    ghost var ids: seq<Uuid>

    constructor (edges: seq<Edge>, ghost ids: seq<Uuid>)
      ensures this.edges == edges && this.ids == ids && curIndex == 0
    {
      this.edges, this.ids, curIndex := edges, ids, 0;
    }

    method Next() returns (more: bool)
      modifies this`curIndex
      ensures more <==> old(curIndex) < |edges|
      ensures curIndex == if more then old(curIndex) + 1 else old(curIndex)
    {
      if curIndex >= |edges| { return false; }
      curIndex := curIndex + 1;
      return true;
    }

    /** A copy of the current record, as it is now. */
    method Current() returns (edge: Edge)
      requires 0 < curIndex <= |edges|
      ensures fresh(edge) && edge.id == edges[curIndex - 1].id && edge.src == edges[curIndex - 1].src
      ensures edge.dst == edges[curIndex - 1].dst && edge.updatedAt == edges[curIndex - 1].updatedAt
    {
      var e := edges[curIndex - 1];
      edge := new Edge(e.id, e.src, e.dst, e.updatedAt);
    }
  }

  // ----- scans as values

  /** `s` holds the elements of `all`, each once. */
  ghost predicate Enumerates<T(!new)>(s: seq<T>, all: set<T>) {
    NoDuplicates(s) && forall x :: x in s <==> x in all
  }

  lemma LinksSpelled(ids: seq<Uuid>, db: Db, from: Uuid, to: Uuid, before: Time)
    requires Enumerates(ids, LinkScan(db, from, to, before))
    ensures NoDuplicates(ids)
    ensures forall i :: i in ids <==> i in db.links && Number(from) <= Number(i) < Number(to) && db.links[i].retrievedAt < before
  {
  }

  lemma EdgesSpelled(ids: seq<Uuid>, db: Db, from: Uuid, to: Uuid, before: Time)
    requires Enumerates(ids, EdgeScan(db, from, to, before))
    ensures NoDuplicates(ids)
    ensures forall e :: e in ids <==>
              e in db.edges && Number(from) <= Number(db.edges[e].src) < Number(to) && db.edges[e].updatedAt < before
  {
  }

  lemma EnumeratesNone<T(!new)>(all: set<T>)
    requires all == {}
    ensures Enumerates([], all)
  {
  }

  lemma EnumeratesMore<T(!new)>(s: seq<T>, all: set<T>, x: T)
    requires Enumerates(s, all) && x !in all
    ensures Enumerates(s + [x], all + {x})
  {
  }

  lemma EnumeratesNext<T(!new)>(s: seq<T>, all: set<T>, rest: set<T>, x: T)
    requires Enumerates(s, all - rest) && x in rest
    ensures Enumerates(if x in all then s + [x] else s, all - (rest - {x}))
  {
    if x in all {
      EnumeratesMore(s, all - rest, x);
      assert all - (rest - {x}) == all - rest + {x};
    } else {
      assert all - (rest - {x}) == all - rest;
    }
  }

  ghost function EdgesFrom(db: Db, srcs: set<Uuid>, before: Time): set<Uuid> {
    set e | e in db.edges && db.edges[e].src in srcs && db.edges[e].updatedAt < before
  }

  /** The edges from `srcs` and those among `ids`. */
  ghost function Listing(db: Db, srcs: set<Uuid>, before: Time, ids: seq<Uuid>): set<Uuid> {
    set e | e in db.edges && (db.edges[e].src in srcs || e in ids) && db.edges[e].updatedAt < before
  }

  lemma EdgesFromNone(db: Db, before: Time)
    ensures EdgesFrom(db, {}, before) == {}
  {
  }

  lemma ListingNone(db: Db, srcs: set<Uuid>, before: Time, ids: seq<Uuid>)
    ensures Listing(db, srcs, before, ids[..0]) == EdgesFrom(db, srcs, before)
  {
  }

  lemma ListingNext(db: Db, src: Uuid, srcs: set<Uuid>, before: Time, ids: seq<Uuid>, i: nat)
    requires Lists(db.edges, src, ids) && src !in srcs && i < |ids|
    ensures ids[i] in db.edges && ids[i] !in Listing(db, srcs, before, ids[..i])
    ensures db.edges[ids[i]].updatedAt < before ==>
              Listing(db, srcs, before, ids[..i + 1]) == Listing(db, srcs, before, ids[..i]) + {ids[i]}
    ensures db.edges[ids[i]].updatedAt >= before ==>
              Listing(db, srcs, before, ids[..i + 1]) == Listing(db, srcs, before, ids[..i])
  {
    assert ids[i] in ids;
    assert ids[..i + 1] == ids[..i] + [ids[i]];
    assert ids[i] !in ids[..i];
  }

  lemma ListingAll(db: Db, src: Uuid, srcs: set<Uuid>, before: Time, ids: seq<Uuid>)
    requires Lists(db.edges, src, ids)
    ensures Listing(db, srcs, before, ids) == EdgesFrom(db, srcs + {src}, before)
  {
    hide NoDuplicates;
  }

  lemma ScanFrom(db: Db, index: map<string, Uuid>, lists: map<Uuid, seq<Uuid>>, from: Uuid, to: Uuid, before: Time, srcs: set<Uuid>)
    requires Agree(db, index, lists) && forall s :: s in srcs <==> s in db.links && InRange(from, to, s)
    ensures EdgesFrom(db, srcs, before) == EdgeScan(db, from, to, before)
  {
    hide InRange, UrlsUnique, PairsUnique, Indexed, Listed;
  }

  lemma SmallerWithout<K, V>(m: map<K, V>, k: K)
    ensures |m - {k}| <= |m|
  {
    var n := m - {k};
    assert n.Keys == m.Keys - {k};
    assert |n.Keys| == |n| && |m.Keys| == |m|;
  }

  /** The rows left once the stale ones among `ids` are gone. */
  ghost function Remaining(db: Db, ids: seq<Uuid>, before: Time): map<Uuid, EdgeRow> {
    map e | e in db.edges && !(e in ids && db.edges[e].updatedAt < before) :: db.edges[e]
  }

  ghost predicate Retained(db: Db, ids: seq<Uuid>, before: Time, retain: seq<Uuid>) {
    && NoDuplicates(retain)
    && forall e :: e in retain <==> e in ids && e in db.edges && db.edges[e].updatedAt >= before
  }

  lemma RetainedNone(db: Db, before: Time)
    ensures Retained(db, [], before, []) && Remaining(db, [], before) == db.edges
  {
  }

  lemma RetainedNext(db: Db, list: seq<Uuid>, i: nat, before: Time, retain: seq<Uuid>)
    requires i < |list| && NoDuplicates(list) && list[i] in db.edges && Retained(db, list[..i], before, retain)
    ensures list[i] in Remaining(db, list[..i], before)
    ensures Remaining(db, list[..i], before)[list[i]] == db.edges[list[i]]
    ensures db.edges[list[i]].updatedAt >= before ==> Retained(db, list[..i + 1], before, retain + [list[i]])
    ensures db.edges[list[i]].updatedAt >= before ==> Remaining(db, list[..i + 1], before) == Remaining(db, list[..i], before)
    ensures db.edges[list[i]].updatedAt < before ==> Retained(db, list[..i + 1], before, retain)
    ensures db.edges[list[i]].updatedAt < before ==>
              Remaining(db, list[..i + 1], before) == Remaining(db, list[..i], before) - {list[i]}
  {
    assert list[..i + 1] == list[..i] + [list[i]];
    assert list[i] !in list[..i];
  }

  lemma RetainedAll(db: Db, src: Uuid, before: Time, list: seq<Uuid>, retain: seq<Uuid>)
    requires Lists(db.edges, src, list) && Retained(db, list, before, retain)
    ensures Lists(StaleEdgesRemoved(db, src, before).edges, src, retain)
    ensures Remaining(db, list, before) == StaleEdgesRemoved(db, src, before).edges
  {
  }

  lemma ListsEdges(edges: map<Uuid, EdgeRow>, src: Uuid, list: seq<Uuid>)
    requires Lists(edges, src, list)
    ensures NoDuplicates(list) && forall e :: e in list ==> e in edges && edges[e].src == src
  {
  }

  lemma StaleLinks(db: Db, src: Uuid, before: Time)
    ensures StaleEdgesRemoved(db, src, before).links == db.links
  {
  }

  lemma InsertedSize<K, V>(m: map<K, V>, k: K, v: V)
    requires k !in m
    ensures |m[k := v]| == |m| + 1
  {
    var n := m[k := v];
    assert n.Keys == m.Keys + {k};
    assert |n.Keys| == |n| && |m.Keys| == |m|;
  }
}
