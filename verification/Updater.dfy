/** The graph updater of the crawler, on the in-memory store. */
module Updater {
  import opened Uuids
  import opened LinkGraph
  import opened LinkStore

  datatype Payload = Payload(linkID: Uuid, url: string, noFollowLinks: seq<string>, links: seq<string>)

  // ----- what one payload does to the tables

  function Refreshed(db: Db, i: Uuid, ts: Time): Time {
    if i in db.links then Max(db.links[i].retrievedAt, ts) else ts
  }

  /** A known link keeps its URL; a new one has a URL that was found; the timestamp is exact. */
  ghost predicate LinkFound(db: Db, db': Db, url: string, ts: Time, others: set<string>, i: Uuid)
    requires i in db'.links
  {
    && (if i in db.links then db'.links[i].url == db.links[i].url else db'.links[i].url in others + {url})
    && db'.links[i].retrievedAt == StampOf(db, i, db'.links[i].url, url, ts, others)
  }

  /** The links once `url` was retrieved at `ts` and the URLs in `others` were discovered. */
  ghost predicate LinksFound(db: Db, db': Db, url: string, ts: Time, others: set<string>) {
    && db.links.Keys <= db'.links.Keys
    && (forall i :: i in db'.links ==> LinkFound(db, db', url, ts, others, i))
    && (forall u :: u in others + {url} ==> HasUrl(db', u))
  }

  function StampOf(db: Db, i: Uuid, u: string, url: string, ts: Time, others: set<string>): Time {
    if u == url then Refreshed(db, i, ts)
    else if u in others then Refreshed(db, i, ZERO_TIME)
    else if i in db.links then db.links[i].retrievedAt
    else ZERO_TIME
  }

  ghost predicate Touched(db: Db, edge: EdgeRow, src: Uuid, urls: set<string>) {
    edge.src == src && edge.dst in db.links && db.links[edge.dst].url in urls
  }

  /** An edge from `src` to one of `urls` was stamped between `cutoff` and `now`; any other is as before. */
  ghost predicate EdgeFound(db: Db, db': Db, src: Uuid, urls: set<string>, cutoff: Time, now: Time, e: Uuid)
    requires e in db'.edges
  {
    if Touched(db', db'.edges[e], src, urls) then
      cutoff <= db'.edges[e].updatedAt <= now
    else
      e in db.edges && db'.edges[e] == db.edges[e]
  }

  ghost predicate EdgesKept(db: Db, db': Db) {
    forall e :: e in db.edges ==> e in db'.edges && Joins(db'.edges[e], db.edges[e].src, db.edges[e].dst)
  }

  ghost predicate AllLinked(db: Db, src: Uuid, urls: set<string>) {
    forall d :: d in db.links && db.links[d].url in urls ==> HasEdge(db, src, d)
  }

  /** The edges once `src` was linked to `urls` between `cutoff` and `now`. */
  ghost predicate EdgesFound(db: Db, db': Db, src: Uuid, urls: set<string>, cutoff: Time, now: Time) {
    && EdgesKept(db, db')
    && (forall e :: e in db'.edges ==> EdgeFound(db, db', src, urls, cutoff, now, e))
    && AllLinked(db', src, urls)
  }

  lemma LinkStep(db: Db, db1: Db, db2: Db, url: string, ts: Time, others: set<string>, u: string, id: Uuid)
    requires LinksFound(db, db1, url, ts, others) && Consistent(db1) && LinkUpserted(db1, db2, u, ZERO_TIME, id)
    requires ts >= ZERO_TIME
    ensures LinksFound(db, db2, url, ts, others + {u})
  {
    hide LinkFound, HasUrl;
    LinkUpsertKeeps(db1, db2, u, ZERO_TIME, id);
    assert HasUrl(db1, url) by { assert url in others + {url}; }
    forall i | i in db2.links ensures LinkFound(db, db2, url, ts, others + {u}, i) {
      LinkFoundStep(db, db1, db2, url, ts, others, u, id, i);
    }
    forall v | v in others + {u} + {url} ensures HasUrl(db2, v) {
      assert v != u ==> v in others + {url};
    }
  }

  lemma LinkFoundStep(db: Db, db1: Db, db2: Db, url: string, ts: Time, others: set<string>, u: string, id: Uuid, i: Uuid)
    requires db.links.Keys <= db1.links.Keys && Consistent(db1) && LinkUpserted(db1, db2, u, ZERO_TIME, id)
    requires ts >= ZERO_TIME && i in db2.links
    requires (i in db1.links ==> LinkFound(db, db1, url, ts, others, i)) && HasUrl(db1, url)
    ensures LinkFound(db, db2, url, ts, others + {u}, i)
  {
    if HasUrl(db1, u) {
      assert i in db1.links;
      assert i != id ==> db1.links[i].url != u;
    } else if i != id {
      assert db1.links[i].url != u;
    }
    hide HasUrl;
  }

  lemma FirstLink(db: Db, db1: Db, url: string, ts: Time, id: Uuid)
    requires Consistent(db) && LinkUpserted(db, db1, url, ts, id)
    ensures LinksFound(db, db1, url, ts, {}) && id in db1.links && db1.links[id].url == url
  {
    LinkUpsertKeeps(db, db1, url, ts, id);
  }

  lemma EdgesKeptByLink(db: Db, db1: Db, db2: Db, src: Uuid, urls: set<string>, cutoff: Time, now: Time, u: string, ts: Time, id: Uuid)
    requires Consistent(db1) && EdgesFound(db, db1, src, urls, cutoff, now) && LinkUpserted(db1, db2, u, ts, id)
    requires forall v :: v in urls ==> HasUrl(db1, v)
    ensures EdgesFound(db, db2, src, urls, cutoff, now)
  {
    hide EdgeFound, EdgesKept, AllLinked, HasUrl, HasEdge, LinkUpserted, Consistent;
    KeptByLink(db, db1, db2, u, ts, id);
    forall e | e in db2.edges ensures EdgeFound(db, db2, src, urls, cutoff, now, e) {
      EdgeKeptByLink(db, db1, db2, src, urls, cutoff, now, u, ts, id, e);
    }
    LinkedByLink(db1, db2, src, urls, u, ts, id);
  }

  lemma KeptByLink(db: Db, db1: Db, db2: Db, u: string, ts: Time, id: Uuid)
    requires EdgesKept(db, db1) && LinkUpserted(db1, db2, u, ts, id)
    ensures EdgesKept(db, db2) && db2.edges == db1.edges
  {
  }

  lemma EdgeKeptByLink(db: Db, db1: Db, db2: Db, src: Uuid, urls: set<string>, cutoff: Time, now: Time, u: string, ts: Time, id: Uuid, e: Uuid)
    requires Consistent(db1) && LinkUpserted(db1, db2, u, ts, id)
    requires e in db1.edges && EdgeFound(db, db1, src, urls, cutoff, now, e)
    ensures e in db2.edges && EdgeFound(db, db2, src, urls, cutoff, now, e)
  {
    LinkUpsertKeeps(db1, db2, u, ts, id);
    assert db1.edges[e].dst in db1.links;
    hide HasUrl;
  }

  lemma LinkedByLink(db1: Db, db2: Db, src: Uuid, urls: set<string>, u: string, ts: Time, id: Uuid)
    requires AllLinked(db1, src, urls) && LinkUpserted(db1, db2, u, ts, id)
    requires forall v :: v in urls ==> HasUrl(db1, v)
    ensures AllLinked(db2, src, urls)
  {
    forall d | d in db2.links && db2.links[d].url in urls ensures HasEdge(db2, src, d) {
      assert d in db1.links;
      assert HasEdge(db1, src, d);
    }
  }

  lemma EdgeStep(db: Db, db1: Db, db2: Db, src: Uuid, urls: set<string>, cutoff: Time, now: Time, u: string, dst: Uuid, now': Time, id: Uuid)
    requires Consistent(db1) && EdgesFound(db, db1, src, urls, cutoff, now) && EdgeUpserted(db1, db2, src, dst, now', id)
    requires dst in db1.links && db1.links[dst].url == u && cutoff <= now' && now <= now'
    ensures EdgesFound(db, db2, src, urls + {u}, cutoff, now')
  {
    hide EdgeFound, EdgesKept, AllLinked, HasEdge, Consistent, EdgeUpserted;
    KeptByEdge(db, db1, db2, src, dst, now', id);
    forall e | e in db2.edges ensures EdgeFound(db, db2, src, urls + {u}, cutoff, now', e) {
      EdgeFoundByEdge(db, db1, db2, src, urls, cutoff, now, u, dst, now', id, e);
    }
    LinkedByEdge(db1, db2, src, urls, u, dst, now', id);
  }

  lemma KeptByEdge(db: Db, db1: Db, db2: Db, src: Uuid, dst: Uuid, now: Time, id: Uuid)
    requires EdgesKept(db, db1) && EdgeUpserted(db1, db2, src, dst, now, id)
    ensures EdgesKept(db, db2)
    ensures forall e :: e in db2.edges && e != id ==> e in db1.edges
  {
  }

  lemma EdgeFoundByEdge(db: Db, db1: Db, db2: Db, src: Uuid, urls: set<string>, cutoff: Time, now: Time, u: string, dst: Uuid, now': Time, id: Uuid, e: Uuid)
    requires Consistent(db1) && EdgeUpserted(db1, db2, src, dst, now', id)
    requires dst in db1.links && db1.links[dst].url == u && cutoff <= now' && now <= now'
    requires e in db2.edges && (e != id ==> e in db1.edges && EdgeFound(db, db1, src, urls, cutoff, now, e))
    ensures EdgeFound(db, db2, src, urls + {u}, cutoff, now', e)
  {
    assert e != id ==> !Joins(db1.edges[e], src, dst);
  }

  lemma LinkedByEdge(db1: Db, db2: Db, src: Uuid, urls: set<string>, u: string, dst: Uuid, now: Time, id: Uuid)
    requires Consistent(db1) && AllLinked(db1, src, urls) && EdgeUpserted(db1, db2, src, dst, now, id)
    requires dst in db1.links && db1.links[dst].url == u
    ensures AllLinked(db2, src, urls + {u})
  {
    forall d | d in db2.links && db2.links[d].url in urls + {u} ensures HasEdge(db2, src, d) {
      if db2.links[d].url == u {
        assert Joins(db2.edges[id], src, d);
      } else {
        var e :| e in db1.edges && Joins(db1.edges[e], src, d);
        assert Joins(db2.edges[e], src, d);
      }
    }
  }

  /** The edges after the stale ones of `src` are gone. An old edge is left unless it started at `src`,
      was stamped before `cutoff`, and led to none of `urls`. */
  ghost predicate EdgesProcessed(db: Db, db': Db, src: Uuid, urls: set<string>, cutoff: Time, now: Time) {
    && (forall e :: e in db'.edges ==> EdgeFound(db, db', src, urls, cutoff, now, e))
    && (forall e :: e in db.edges ==> OldEdge(db, db', src, urls, cutoff, e))
    && AllLinked(db', src, urls)
  }

  ghost predicate OldEdge(db: Db, db': Db, src: Uuid, urls: set<string>, cutoff: Time, e: Uuid)
    requires e in db.edges
  {
    && (e in db'.edges <==> Touched(db', db.edges[e], src, urls) || !(db.edges[e].src == src && db.edges[e].updatedAt < cutoff))
    && (e in db'.edges ==> Joins(db'.edges[e], db.edges[e].src, db.edges[e].dst))
  }

  lemma RemovalStep(db: Db, db1: Db, src: Uuid, urls: set<string>, cutoff: Time, now: Time)
    requires EdgesFound(db, db1, src, urls, cutoff, now)
    ensures EdgesProcessed(db, StaleEdgesRemoved(db1, src, cutoff), src, urls, cutoff, now)
  {
    var db' := StaleEdgesRemoved(db1, src, cutoff);
    forall d | d in db'.links && db'.links[d].url in urls ensures HasEdge(db', src, d) {
      assert HasEdge(db1, src, d);
      var e :| e in db1.edges && Joins(db1.edges[e], src, d);
      assert EdgeFound(db, db1, src, urls, cutoff, now, e);
      assert e in db'.edges && Joins(db'.edges[e], src, d);
    }
    hide HasEdge;
    forall e | e in db.edges ensures OldEdge(db, db', src, urls, cutoff, e) {
      assert EdgeFound(db, db1, src, urls, cutoff, now, e);
    }
    forall e | e in db'.edges ensures EdgeFound(db, db', src, urls, cutoff, now, e) {
      assert EdgeFound(db, db1, src, urls, cutoff, now, e);
    }
  }

  /** The outgoing edges of the source: one to each URL in the payload, and the old ones that were
      stamped at the cutoff or after it. */
  lemma Outgoing(db: Db, db': Db, src: Uuid, urls: set<string>, cutoff: Time, now: Time, d: Uuid)
    requires Consistent(db') && EdgesProcessed(db, db', src, urls, cutoff, now)
    ensures HasEdge(db', src, d) <==>
            d in db'.links && (db'.links[d].url in urls || KeptEdge(db, src, d, cutoff))
  {
  }

  ghost predicate KeptEdge(db: Db, src: Uuid, d: Uuid, cutoff: Time) {
    exists e :: e in db.edges && Joins(db.edges[e], src, d) && db.edges[e].updatedAt >= cutoff
  }

  /** No edge was stamped after `now`. */
  ghost predicate Stamped(db: Db, now: Time) {
    forall e :: e in db.edges ==> db.edges[e].updatedAt <= now
  }

  /** If the clock moved between the last stamp and the cutoff, the source links to the URLs of the
      payload and to nothing else. */
  lemma ClockMovedOn(db: Db, db': Db, src: Uuid, urls: set<string>, cutoff: Time, now: Time, d: Uuid)
    requires Consistent(db') && EdgesProcessed(db, db', src, urls, cutoff, now)
    requires Stamped(db, cutoff - 1)
    ensures HasEdge(db', src, d) <==> d in db'.links && db'.links[d].url in urls
  {
    Outgoing(db, db', src, urls, cutoff, now, d);
  }

  /** What one payload leaves behind. */
  ghost predicate Processed(db: Db, db': Db, payload: Payload, src: Uuid, ts: Time, cutoff: Time, now: Time) {
    && LinksFound(db, db', payload.url, ts, Elements(payload.noFollowLinks) + Elements(payload.links))
    && src in db'.links && db'.links[src].url == payload.url
    && EdgesProcessed(db, db', src, Elements(payload.links), cutoff, now)
  }

  class GraphUpdater {
    const updater: InMemoryGraph

    constructor (updater: InMemoryGraph)
      ensures this.updater == updater
    {
      this.updater := updater;
    }

    /** Never fails, and passes the payload on. */
    method Process(payload: Payload, clock: Clock) returns (processed: Payload, ok: bool, ghost src: Uuid, ghost ts: Time, ghost cutoff: Time)
      requires updater.Valid() && clock.time >= ZERO_TIME
      requires |updater.links| + |payload.noFollowLinks| + |payload.links| <= MAX_VALUE
      requires |updater.edges| + |payload.links| <= MAX_VALUE
      modifies updater, updater.linkRepr, updater.edgeRepr, clock
      ensures ok && processed == payload && updater.Valid()
      ensures old(clock.time) <= ts <= cutoff <= clock.time
      ensures Processed(old(updater.rows), updater.rows, payload, src, ts, cutoff, clock.time)
      ensures Stamped(old(updater.rows), old(clock.time)) ==> Stamped(updater.rows, clock.time)
    {
      hide Stamped, InMemoryGraph.Valid, LinksFound, EdgesFound, EdgesProcessed, LinkUpserted, Elements, HasUrl, Consistent, StaleEdgesRemoved;
      var g := updater;
      ghost var db := g.rows;
      g.Constraints();
      var now := clock.Now();
      assert g.Valid();
      var link := new Link(payload.linkID, payload.url, now);
      g.UpsertLink(link);
      ts, src := now, link.id;
      FirstLink(db, g.rows, payload.url, ts, src);
      EdgesAlone(db, g.rows, payload.url, ts, src);
      UpsertNoFollow(payload, db, ts, src);
      var removeEdgesOlderThan := clock.Now();
      assert g.Valid();
      cutoff := removeEdgesOlderThan;
      EdgesStart(db, g.rows, src, cutoff, clock.time);
      UpsertLinks(payload, clock, link.id, db, ts, cutoff);
      ghost var db1 := g.rows;
      RemovalStep(db, db1, src, Elements(payload.links), cutoff, clock.time);
      g.RemoveStaleEdges(link.id, removeEdgesOlderThan);
      StaleLinks(db1, src, cutoff);
      FoundLinks(db, db1, g.rows, payload.url, ts, Elements(payload.noFollowLinks) + Elements(payload.links));
      if Stamped(db, old(clock.time)) {
        StampsKept(db, g.rows, src, Elements(payload.links), cutoff, clock.time, old(clock.time));
      }
      return payload, true, src, ts, cutoff;
    }

    method UpsertLinks(payload: Payload, clock: Clock, src: Uuid, ghost db: Db, ghost ts: Time, ghost cutoff: Time)
      requires updater.Valid() && ts >= ZERO_TIME && cutoff <= clock.time
      requires |updater.links| + |payload.links| <= MAX_VALUE + 1 && |updater.edges| + |payload.links| <= MAX_VALUE + 1
      requires LinksFound(db, updater.rows, payload.url, ts, Elements(payload.noFollowLinks))
      requires EdgesFound(db, updater.rows, src, {}, cutoff, clock.time)
      requires src in updater.rows.links && updater.rows.links[src].url == payload.url
      modifies updater, updater.linkRepr, updater.edgeRepr, clock
      ensures updater.Valid() && clock.time >= old(clock.time)
      ensures LinksFound(db, updater.rows, payload.url, ts, Elements(payload.noFollowLinks) + Elements(payload.links))
      ensures EdgesFound(db, updater.rows, src, Elements(payload.links), cutoff, clock.time)
      ensures src in updater.rows.links && updater.rows.links[src].url == payload.url
    {
      hide InMemoryGraph.Valid, LinksFound, EdgesFound, LinkUpserted, EdgeUpserted, Elements, HasUrl, Consistent;
      var g := updater;
      ghost var noFollow := Elements(payload.noFollowLinks);
      ElementsNone(payload.links);
      assert noFollow + {} == noFollow;
      var i := 0;
      while i < |payload.links|
        invariant 0 <= i <= |payload.links| && clock.time >= old(clock.time)
        invariant g.Valid() && fresh(g.linkRepr - old(g.linkRepr)) && fresh(g.edgeRepr - old(g.edgeRepr))
        invariant |g.links| <= |old(g.links)| + i && |g.edges| <= |old(g.edges)| + i
        invariant LinksFound(db, g.rows, payload.url, ts, noFollow + Elements(payload.links[..i]))
        invariant EdgesFound(db, g.rows, src, Elements(payload.links[..i]), cutoff, clock.time)
        invariant src in g.rows.links && g.rows.links[src].url == payload.url
      {
        ghost var urls, u, now, db1 := Elements(payload.links[..i]), payload.links[i], clock.time, g.rows;
        ElementsNext(payload.links, i);
        g.Constraints();
        var dst := Discover(payload.links[i]);
        ghost var db2 := g.rows;
        LinkLemmas(db, db1, db2, payload.url, ts, noFollow, urls, u, dst, src, cutoff, now);
        g.Constraints();
        ghost var id := Connect(src, dst, clock);
        EdgeLemmas(db, db2, g.rows, payload.url, ts, noFollow + urls + {u}, urls, u, dst, src, cutoff, now, clock.time, id);
        assert noFollow + urls + {u} == noFollow + (urls + {u});
        i := i + 1;
      }
      assert payload.links[..i] == payload.links;
    }

    /** Upserts the link of `url`. */
    method Discover(url: string) returns (id: Uuid)
      requires updater.Valid() && |updater.links| <= MAX_VALUE
      modifies updater, updater.linkRepr
      ensures updater.Valid() && fresh(updater.linkRepr - old(updater.linkRepr))
      ensures updater.edges == old(updater.edges) && updater.edgeRepr == old(updater.edgeRepr)
      ensures |updater.links| <= |old(updater.links)| + 1
      ensures LinkUpserted(old(updater.rows), updater.rows, url, ZERO_TIME, id)
    {
      hide InMemoryGraph.Valid, LinkUpserted;
      var dst := new Link(NIL_UUID, url, ZERO_TIME);
      updater.UpsertLink(dst);
      return dst.id;
    }

    /** Upserts the edge between two known links. */
    method Connect(src: Uuid, dst: Uuid, clock: Clock) returns (ghost id: Uuid)
      requires updater.Valid() && src in updater.rows.links && dst in updater.rows.links && |updater.edges| <= MAX_VALUE
      modifies updater, updater.edgeRepr, clock
      ensures updater.Valid() && clock.time >= old(clock.time) && fresh(updater.edgeRepr - old(updater.edgeRepr))
      ensures updater.links == old(updater.links) && updater.linkRepr == old(updater.linkRepr)
      ensures |updater.edges| <= |old(updater.edges)| + 1
      ensures EdgeUpserted(old(updater.rows), updater.rows, src, dst, clock.time, id)
    {
      hide InMemoryGraph.Valid, EdgeUpserted;
      updater.ValidKeys();
      var edge := new Edge(NIL_UUID, src, dst, ZERO_TIME);
      var ok := updater.UpsertEdge(edge, clock);
      assert ok;
      id := edge.id;
    }

    method UpsertNoFollow(payload: Payload, ghost db: Db, ghost ts: Time, ghost src: Uuid)
      requires updater.Valid() && ts >= ZERO_TIME && |updater.links| + |payload.noFollowLinks| <= MAX_VALUE + 1
      requires LinksFound(db, updater.rows, payload.url, ts, {}) && updater.rows.edges == db.edges
      requires src in updater.rows.links && updater.rows.links[src].url == payload.url
      modifies updater, updater.linkRepr
      ensures updater.Valid() && fresh(updater.linkRepr - old(updater.linkRepr))
      ensures updater.edges == old(updater.edges) && updater.edgeRepr == old(updater.edgeRepr)
      ensures |updater.links| <= |old(updater.links)| + |payload.noFollowLinks|
      ensures LinksFound(db, updater.rows, payload.url, ts, Elements(payload.noFollowLinks)) && updater.rows.edges == db.edges
      ensures src in updater.rows.links && updater.rows.links[src].url == payload.url
    {
      hide InMemoryGraph.Valid, LinksFound, LinkUpserted, Elements, HasUrl, Consistent;
      var g := updater;
      ElementsNone(payload.noFollowLinks);
      var i := 0;
      while i < |payload.noFollowLinks|
        invariant 0 <= i <= |payload.noFollowLinks|
        invariant g.Valid() && fresh(g.linkRepr - old(g.linkRepr))
        invariant g.edges == old(g.edges) && g.edgeRepr == old(g.edgeRepr) && |g.links| <= |old(g.links)| + i
        invariant LinksFound(db, g.rows, payload.url, ts, Elements(payload.noFollowLinks[..i])) && g.rows.edges == db.edges
        invariant src in g.rows.links && g.rows.links[src].url == payload.url
      {
        ghost var before, u := g.rows, payload.noFollowLinks[i];
        ElementsNext(payload.noFollowLinks, i);
        g.Constraints();
        ghost var id := Discover(payload.noFollowLinks[i]);
        LinkUpsertKeeps(before, g.rows, u, ZERO_TIME, id);
        LinkStep(db, before, g.rows, payload.url, ts, Elements(payload.noFollowLinks[..i]), u, id);
        EdgesAlone(before, g.rows, u, ZERO_TIME, id);
        i := i + 1;
      }
      assert payload.noFollowLinks[..i] == payload.noFollowLinks;
    }
  }

  lemma EdgesAlone(db: Db, db': Db, u: string, ts: Time, id: Uuid)
    requires LinkUpserted(db, db', u, ts, id)
    ensures db'.edges == db.edges
  {
  }

  lemma EdgesStart(db: Db, db1: Db, src: Uuid, cutoff: Time, now: Time)
    requires db1.edges == db.edges
    ensures EdgesFound(db, db1, src, {}, cutoff, now)
  {
  }

  lemma FoundLinks(db: Db, db1: Db, db2: Db, url: string, ts: Time, others: set<string>)
    requires LinksFound(db, db1, url, ts, others) && db2.links == db1.links
    ensures LinksFound(db, db2, url, ts, others)
  {
    forall i | i in db2.links ensures LinkFound(db, db2, url, ts, others, i) {
      assert LinkFound(db, db1, url, ts, others, i);
    }
    forall u | u in others + {url} ensures HasUrl(db2, u) { assert HasUrl(db1, u); }
  }

  /** What upserting the link of the next URL keeps. */
  lemma LinkLemmas(db: Db, db1: Db, db2: Db, url: string, ts: Time, noFollow: set<string>, urls: set<string>, u: string, id: Uuid, src: Uuid, cutoff: Time, now: Time)
    requires Consistent(db1) && LinkUpserted(db1, db2, u, ZERO_TIME, id) && ts >= ZERO_TIME
    requires LinksFound(db, db1, url, ts, noFollow + urls) && EdgesFound(db, db1, src, urls, cutoff, now)
    requires src in db1.links
    ensures LinksFound(db, db2, url, ts, noFollow + urls + {u}) && EdgesFound(db, db2, src, urls, cutoff, now)
    ensures id in db2.links && db2.links[id].url == u && src in db2.links && db2.links[src].url == db1.links[src].url
  {
    hide HasUrl, LinkFound, EdgesFound, Consistent;
    LinkUpsertKeeps(db1, db2, u, ZERO_TIME, id);
    LinkStep(db, db1, db2, url, ts, noFollow + urls, u, id);
    forall v | v in urls ensures HasUrl(db1, v) { assert v in noFollow + urls + {url}; }
    EdgesKeptByLink(db, db1, db2, src, urls, cutoff, now, u, ZERO_TIME, id);
  }

  /** What upserting the edge to it keeps. */
  lemma EdgeLemmas(db: Db, db2: Db, db3: Db, url: string, ts: Time, others: set<string>, urls: set<string>, u: string, dst: Uuid, src: Uuid, cutoff: Time, now: Time, now': Time, id: Uuid)
    requires Consistent(db2) && EdgeUpserted(db2, db3, src, dst, now', id) && cutoff <= now' && now <= now'
    requires LinksFound(db, db2, url, ts, others) && EdgesFound(db, db2, src, urls, cutoff, now)
    requires dst in db2.links && db2.links[dst].url == u
    ensures LinksFound(db, db3, url, ts, others) && EdgesFound(db, db3, src, urls + {u}, cutoff, now')
    ensures db3.links == db2.links
  {
    hide LinksFound, EdgesFound, Consistent, HasEdge;
    FoundLinks(db, db2, db3, url, ts, others);
    EdgeStep(db, db2, db3, src, urls, cutoff, now, u, dst, now', id);
  }

  // ----- what callers see

  /** The links after one payload, row by row. */
  lemma LinksSpelled(db: Db, db': Db, payload: Payload, src: Uuid, ts: Time, cutoff: Time, now: Time)
    requires Processed(db, db', payload, src, ts, cutoff, now)
    ensures forall i :: i in db.links ==> i in db'.links && db'.links[i].url == db.links[i].url
    ensures forall i :: i in db'.links && i !in db.links ==>
              var u := db'.links[i].url;
              && (u == payload.url || u in payload.noFollowLinks || u in payload.links)
              && db'.links[i].retrievedAt == if u == payload.url then ts else 0
    ensures forall i :: i in db.links ==>
              var u, t := db.links[i].url, db.links[i].retrievedAt;
              db'.links[i].retrievedAt ==
                if u == payload.url then (if t > ts then t else ts)
                else if (u in payload.noFollowLinks || u in payload.links) && t < 0 then 0
                else t
    ensures src in db'.links && db'.links[src].url == payload.url
    ensures forall u :: u == payload.url || u in payload.noFollowLinks || u in payload.links ==>
              exists i :: i in db'.links && db'.links[i].url == u
  {
    hide EdgesProcessed;
    var others := Elements(payload.noFollowLinks) + Elements(payload.links);
    forall i | i in db'.links ensures LinkFound(db, db', payload.url, ts, others, i) {
    }
    forall u | u == payload.url || u in payload.noFollowLinks || u in payload.links
      ensures exists i :: i in db'.links && db'.links[i].url == u
    {
      assert u in others + {payload.url} && HasUrl(db', u);
    }
  }

  /** The edges after one payload: those of other sources are untouched; the source has one to each
      link found, stamped between the cutoff and now, and of the others it had, unchanged, exactly
      those stamped at the cutoff or after it. */
  lemma EdgesSpelled(db: Db, db': Db, payload: Payload, src: Uuid, ts: Time, cutoff: Time, now: Time)
    requires Processed(db, db', payload, src, ts, cutoff, now) && Consistent(db')
    ensures forall e :: e in db.edges && db.edges[e].src != src ==> e in db'.edges && db'.edges[e] == db.edges[e]
    ensures forall e :: e in db'.edges && db'.edges[e].src != src ==> e in db.edges && db'.edges[e] == db.edges[e]
    ensures forall d :: d in db'.links && db'.links[d].url in payload.links ==>
              exists e :: e in db'.edges && db'.edges[e].src == src && db'.edges[e].dst == d
    ensures forall e :: e in db'.edges && db'.edges[e].src == src && db'.links[db'.edges[e].dst].url in payload.links ==>
              cutoff <= db'.edges[e].updatedAt <= now
    ensures forall e :: e in db'.edges && db'.edges[e].src == src && db'.links[db'.edges[e].dst].url !in payload.links ==>
              e in db.edges && db'.edges[e] == db.edges[e] && db.edges[e].updatedAt >= cutoff
    ensures forall e :: e in db.edges && db.edges[e].src == src && db.edges[e].updatedAt >= cutoff ==>
              e in db'.edges && db'.edges[e].src == src && db'.edges[e].dst == db.edges[e].dst
  {
    hide LinksFound, UrlsUnique, PairsUnique;
    var urls := Elements(payload.links);
    forall e | e in db.edges ensures OldEdge(db, db', src, urls, cutoff, e) {
    }
    forall e | e in db'.edges ensures EdgeFound(db, db', src, urls, cutoff, now, e) {
    }
    forall d | d in db'.links && db'.links[d].url in payload.links
      ensures exists e :: e in db'.edges && db'.edges[e].src == src && db'.edges[e].dst == d
    {
      assert HasEdge(db', src, d);
      var e :| e in db'.edges && Joins(db'.edges[e], src, d);
    }
  }

  /** The clock stays ahead of every stamp. */
  lemma StampsKept(db: Db, db': Db, src: Uuid, urls: set<string>, cutoff: Time, now: Time, t0: Time)
    requires EdgesProcessed(db, db', src, urls, cutoff, now) && Stamped(db, t0) && t0 <= now
    ensures Stamped(db', now)
  {
    forall e | e in db'.edges ensures db'.edges[e].updatedAt <= now {
      assert EdgeFound(db, db', src, urls, cutoff, now, e);
    }
  }

  /** Identifiers and URLs stay, no timestamp goes back, and the URLs that were found are added. */
  lemma NothingLost(db: Db, db': Db, payload: Payload, src: Uuid, ts: Time, cutoff: Time, now: Time)
    requires Processed(db, db', payload, src, ts, cutoff, now)
    ensures forall i :: i in db.links ==> i in db'.links && db'.links[i].url == db.links[i].url
    ensures forall i :: i in db.links ==> db'.links[i].retrievedAt >= db.links[i].retrievedAt
    ensures db'.links[src].retrievedAt >= ts
    ensures forall u :: HasUrl(db', u) <==>
              HasUrl(db, u) || u == payload.url || u in payload.noFollowLinks || u in payload.links
  {
    hide EdgesProcessed;
    var others := Elements(payload.noFollowLinks) + Elements(payload.links);
    assert LinkFound(db, db', payload.url, ts, others, src);
    forall i | i in db.links
      ensures i in db'.links && db'.links[i].url == db.links[i].url && db'.links[i].retrievedAt >= db.links[i].retrievedAt
    {
      assert LinkFound(db, db', payload.url, ts, others, i);
    }
    forall u ensures HasUrl(db', u) <==> HasUrl(db, u) || u == payload.url || u in payload.noFollowLinks || u in payload.links {
      UrlsFound(db, db', payload.url, ts, others, u);
    }
  }

  lemma UrlsFound(db: Db, db': Db, url: string, ts: Time, others: set<string>, u: string)
    requires LinksFound(db, db', url, ts, others)
    ensures HasUrl(db', u) <==> HasUrl(db, u) || u in others + {url}
  {
    if HasUrl(db, u) {
      var i :| i in db.links && db.links[i].url == u;
      assert LinkFound(db, db', url, ts, others, i);
    }
    if HasUrl(db', u) {
      var i :| i in db'.links && db'.links[i].url == u;
      assert LinkFound(db, db', url, ts, others, i);
    }
  }

  datatype Crawl = Crawl(payload: Payload, src: Uuid, ts: Time, cutoff: Time, now: Time)

  /** Payloads processed one after the other, with a clock that moves on before each cutoff. */
  ghost predicate History(dbs: seq<Db>, crawls: seq<Crawl>) {
    && |dbs| == |crawls| + 1 && (forall k :: 0 <= k < |dbs| ==> Consistent(dbs[k]))
    && forall k :: 0 <= k < |crawls| ==> Crawled(dbs[k], dbs[k + 1], crawls[k])
  }

  ghost predicate Crawled(db: Db, db': Db, c: Crawl) {
    Processed(db, db', c.payload, c.src, c.ts, c.cutoff, c.now) && Stamped(db, c.cutoff - 1)
  }

  /** The page `s` at `url` links to exactly the URLs in `links`. */
  ghost predicate LinksTo(db: Db, s: Uuid, url: string, links: seq<string>) {
    && s in db.links && db.links[s].url == url && (forall u :: u in links ==> HasUrl(db, u))
    && forall d :: HasEdge(db, s, d) <==> d in db.links && db.links[d].url in links
  }

  lemma CrawlSets(db: Db, db': Db, c: Crawl)
    requires Consistent(db') && Crawled(db, db', c)
    ensures LinksTo(db', c.src, c.payload.url, c.payload.links)
  {
    hide LinkFound, HasUrl, HasEdge, EdgesProcessed, Consistent, Stamped;
    var urls := Elements(c.payload.links);
    forall d ensures HasEdge(db', c.src, d) <==> d in db'.links && db'.links[d].url in c.payload.links {
      ClockMovedOn(db, db', c.src, urls, c.cutoff, c.now, d);
    }
    forall u | u in c.payload.links ensures HasUrl(db', u) {
      assert u in Elements(c.payload.noFollowLinks) + urls + {c.payload.url};
    }
  }

  lemma CrawlLeaves(db: Db, db': Db, c: Crawl, s: Uuid, url: string, links: seq<string>)
    requires Consistent(db) && Consistent(db') && Crawled(db, db', c) && c.payload.url != url && LinksTo(db, s, url, links)
    ensures LinksTo(db', s, url, links)
  {
    hide HasUrl, HasEdge, EdgesProcessed, Consistent, Stamped, LinksFound, Elements;
    NothingLost(db, db', c.payload, c.src, c.ts, c.cutoff, c.now);
    forall d ensures HasEdge(db', s, d) <==> d in db'.links && db'.links[d].url in links {
      SameEdges(db, db', c.src, Elements(c.payload.links), c.cutoff, c.now, s, d);
      SameTargets(db, db', links, d);
    }
  }

  /** Another page's edges are untouched. */
  lemma SameEdges(db: Db, db': Db, src: Uuid, urls: set<string>, cutoff: Time, now: Time, s: Uuid, d: Uuid)
    requires EdgesProcessed(db, db', src, urls, cutoff, now) && s != src
    ensures HasEdge(db', s, d) <==> HasEdge(db, s, d)
  {
    if HasEdge(db', s, d) {
      var e :| e in db'.edges && Joins(db'.edges[e], s, d);
      assert EdgeFound(db, db', src, urls, cutoff, now, e);
    }
    if HasEdge(db, s, d) {
      var e :| e in db.edges && Joins(db.edges[e], s, d);
      assert OldEdge(db, db', src, urls, cutoff, e);
    }
  }

  /** No new link can take a URL that is already there. */
  lemma SameTargets(db: Db, db': Db, links: seq<string>, d: Uuid)
    requires Consistent(db') && forall u :: u in links ==> HasUrl(db, u)
    requires forall i :: i in db.links ==> i in db'.links && db'.links[i].url == db.links[i].url
    ensures d in db'.links && db'.links[d].url in links <==> d in db.links && db.links[d].url in links
  {
    if d in db'.links && db'.links[d].url in links {
      assert HasUrl(db, db'.links[d].url);
      var i :| i in db.links && db.links[i].url == db'.links[d].url;
      assert i == d;
    }
  }

  /** The outgoing links of a page are those of its last crawl, whatever was crawled after it. */
  lemma {:induction false} LastCrawlWins(dbs: seq<Db>, crawls: seq<Crawl>, m: nat)
    requires History(dbs, crawls) && m < |crawls|
    requires forall k :: m < k < |crawls| ==> crawls[k].payload.url != crawls[m].payload.url
    ensures LinksTo(dbs[|crawls|], crawls[m].src, crawls[m].payload.url, crawls[m].payload.links)
    decreases |crawls|
  {
    hide LinksTo, Consistent, Crawled;
    var n := |crawls| - 1;
    if m == n {
      CrawlSets(dbs[m], dbs[m + 1], crawls[m]);
    } else {
      LastCrawlWins(dbs[..n + 1], crawls[..n], m);
      CrawlLeaves(dbs[n], dbs[n + 1], crawls[n], crawls[m].src, crawls[m].payload.url, crawls[m].payload.links);
    }
  }
}
