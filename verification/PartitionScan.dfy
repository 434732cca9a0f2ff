/** Scanning the link graph partition by partition. */
module PartitionScan {
  import opened Uuids
  import opened Partition
  import opened LinkGraph
  import opened LinkStore

  predicate Excluded(u: Uuid) {
    Number(u) == MAX_VALUE
  }

  /** The links that a scan of the partitions up to `p` should have seen. */
  ghost function Upto(db: Db, p: nat, n: nat, before: Time): set<Uuid>
    requires p <= n
  {
    set i | i in db.links && (p == n || Number(i) < Start(p, n)) && !Excluded(i) && db.links[i].retrievedAt < before
  }

  lemma UptoNone(db: Db, n: nat, before: Time)
    requires 0 < n
    ensures Upto(db, 0, n, before) == {}
  {
    hide Number;
  }

  lemma RangeMeans(p: nat, n: nat, u: Uuid)
    requires p < n
    ensures Start(p, n) <= End(p, n) <= MAX_VALUE
    ensures p + 1 < n ==> Start(p + 1, n) == End(p, n)
    ensures p + 1 == n ==> (Number(u) < End(p, n) <==> !Excluded(u))
    ensures p + 1 < n && Number(u) < End(p, n) ==> !Excluded(u)
  {
    hide Value, Pow256;
    SizeBound(p, n);
    SizeBound(p + 1, n);
    ValueBound(u.bytes);
    PowValues();
  }

  /** One more partition, scanned at one time: what the scan sees is new, and nothing is missed. */
  lemma UptoNext(db: Db, p: nat, n: nat, from: Uuid, to: Uuid, before: Time)
    requires p < n && Number(from) == Start(p, n) && Number(to) == End(p, n)
    ensures Upto(db, p + 1, n, before) == Upto(db, p, n, before) + LinkScan(db, from, to, before)
    ensures forall t :: Upto(db, p, n, t) !! LinkScan(db, from, to, before)
  {
    hide Start, End, Number, Excluded;
    forall i | i in db.links
      ensures (i in Upto(db, p + 1, n, before) <==> i in Upto(db, p, n, before) || i in LinkScan(db, from, to, before))
    {
      RangeMeans(p, n, i);
    }
  }

  lemma UptoMonotone(db: Db, p: nat, n: nat, t: Time, t': Time)
    requires p <= n && t <= t'
    ensures Upto(db, p, n, t) <= Upto(db, p, n, t')
  {
    hide Start, Excluded;
  }

  /** All partitions together select what one full scan selects. */
  lemma UptoAll(db: Db, n: nat, t: Time)
    requires 0 < n
    ensures Upto(db, n, n, t) == LinkScan(db, NIL_UUID, MAX_UUID, t)
  {
    hide Number, Start;
    Extremes();
    forall i | i in db.links ensures Number(i) < MAX_VALUE <==> !Excluded(i) { RangeMeans(0, 1, i); }
  }

  lemma ScanMonotone(db: Db, from: Uuid, to: Uuid, t: Time, t': Time)
    requires t <= t'
    ensures LinkScan(db, from, to, t) <= LinkScan(db, from, to, t')
  {
    hide InRange;
  }

  /** `seen` marks the texts of `ids` and no other. */
  ghost predicate Marks(seen: map<string, bool>, ids: set<Uuid>) {
    |seen| == |ids| && forall u :: Text(u) in seen <==> u in ids
  }

  lemma MarksNext(seen: map<string, bool>, ids: set<Uuid>, id: Uuid)
    requires Marks(seen, ids) && id !in ids
    ensures Text(id) !in seen && Marks(seen[Text(id) := true], ids + {id})
  {
    hide Text;
    InsertedSize(seen, Text(id), true);
    var seen' := seen[Text(id) := true];
    forall u ensures Text(u) in seen' <==> u in ids + {id} { TextOrder(u, id); }
  }

  /** Drains one iterator. No link in it was seen before. */
  method Collect(it: LinkIterator, before: map<string, bool>, ghost idsBefore: set<Uuid>) returns (seen: map<string, bool>, ghost ids: set<Uuid>)
    requires |it.links| == |it.ids| && forall k :: 0 <= k < |it.links| ==> it.links[k].id == it.ids[k]
    requires it.curIndex == 0 && NoDuplicates(it.ids) && Elements(it.ids) !! idsBefore && Marks(before, idsBefore)
    modifies it`curIndex
    ensures Marks(seen, ids) && ids == idsBefore + Elements(it.ids)
  {
    hide Marks, Text, NoDuplicates, Elements;
    seen, ids := before, idsBefore;
    ElementsNone(it.ids);
    var more := it.Next();
    ghost var i := 0;
    while more
      invariant it.curIndex == (if more then i + 1 else i) <= |it.links| && (!more ==> i == |it.links|)
      invariant Marks(seen, ids) && ids == idsBefore + Elements(it.ids[..i])
      decreases |it.links| - i
    {
      var link := it.Current();
      ElementsNext(it.ids, i);
      ElementsOnce(it.ids, i, idsBefore);
      MarksNext(seen, ids, link.id);
      assert Text(link.id) !in seen;
      seen := seen[Text(link.id) := true];
      ids := ids + {link.id};
      more := it.Next();
      i := i + 1;
    }
    assert it.ids[..i] == it.ids;
  }

  lemma ElementsOnce<T>(s: seq<T>, i: nat, before: set<T>)
    requires i < |s| && NoDuplicates(s) && Elements(s) !! before
    ensures s[i] !in before + Elements(s[..i])
  {
    assert s[i] in s;
  }

  /** Counts the links that the partitions yield. It fails exactly if there are more than 255
      partitions; otherwise every link but the one at the greatest identifier is counted once, as in
      a full scan, up to links that are stamped while it runs. */
  method IteratePartitionedLinks(g: InMemoryGraph, clock: Clock, numPartitions: int) returns (ok: bool, n: nat, ghost ids: set<Uuid>)
    requires g.Valid()
    modifies clock
    ensures ok <==> numPartitions <= 255
    ensures ok ==> n == |ids|
    ensures ok && numPartitions <= 0 ==> ids == {}
    ensures ok && numPartitions > 0 ==>
              (forall i :: i in g.rows.links && Number(i) < MAX_VALUE && g.rows.links[i].retrievedAt < old(clock.time) ==> i in ids)
              && forall i :: i in ids ==> i in g.rows.links && Number(i) < MAX_VALUE && g.rows.links[i].retrievedAt < clock.time
    ensures ok && numPartitions > 0 ==> LinkScan(g.rows, NIL_UUID, MAX_UUID, old(clock.time)) <= ids
    ensures ok && numPartitions > 0 ==> ids <= LinkScan(g.rows, NIL_UUID, MAX_UUID, clock.time)
  {
    hide Marks, InMemoryGraph.Valid, Upto, LinkScan, InMemoryGraph.LinkRecords, Start, End, Encodable;
    var seen: map<string, bool> := map[];
    ids := {};
    MarksNone();
    if numPartitions <= 0 { return true, 0, {}; }
    EncodableIff(numPartitions);
    UptoNone(g.rows, numPartitions, old(clock.time));
    UptoNone(g.rows, numPartitions, clock.time);
    var partition := 0;
    while partition < numPartitions
      invariant 0 <= partition <= numPartitions && old(clock.time) <= clock.time
      invariant g.Valid() && Marks(seen, ids)
      invariant Upto(g.rows, partition, numPartitions, old(clock.time)) <= ids <= Upto(g.rows, partition, numPartitions, clock.time)
      invariant forall p :: 0 <= p < partition ==> Encodable(p, numPartitions)
    {
      var encoded: bool;
      encoded, seen, ids := ScanPartition(g, clock, partition, numPartitions, seen, ids, old(clock.time));
      if !encoded { return false, 0, {}; }
      partition := partition + 1;
    }
    UptoAll(g.rows, numPartitions, old(clock.time));
    UptoAll(g.rows, numPartitions, clock.time);
    MarksSize(seen, ids);
    FullSpelled(g.rows, old(clock.time));
    FullSpelled(g.rows, clock.time);
    return true, |seen|, ids;
  }

  /** One partition, scanned at the time of its turn. */
  method ScanPartition(g: InMemoryGraph, clock: Clock, p: nat, n: nat, before: map<string, bool>, ghost idsBefore: set<Uuid>, ghost t0: Time)
    returns (encoded: bool, seen: map<string, bool>, ghost ids: set<Uuid>)
    requires g.Valid() && p < n && t0 <= clock.time && Marks(before, idsBefore)
    requires Upto(g.rows, p, n, t0) <= idsBefore <= Upto(g.rows, p, n, clock.time)
    modifies clock
    ensures g.Valid() && old(clock.time) <= clock.time && (encoded <==> Encodable(p, n))
    ensures encoded ==> Marks(seen, ids) && Upto(g.rows, p + 1, n, t0) <= ids <= Upto(g.rows, p + 1, n, clock.time)
  {
    hide Marks, InMemoryGraph.Valid, Upto, LinkScan, InMemoryGraph.LinkRecords, Start, End, Encodable;
    var range := PartitionRange(p, n);
    if !range.Range? { return false, before, idsBefore; }
    var now := clock.Now();
    assert g.Valid();
    UptoStep(g.rows, p, n, range.from, range.to, t0, old(clock.time), now, idsBefore);
    var it := g.Links(range.from, range.to, now);
    Yielded(g, it, LinkScan(g.rows, range.from, range.to, now));
    seen, ids := Collect(it, before, idsBefore);
    return true, seen, ids;
  }

  lemma UptoStep(db: Db, p: nat, n: nat, from: Uuid, to: Uuid, t0: Time, t: Time, now: Time, ids: set<Uuid>)
    requires p < n && Number(from) == Start(p, n) && Number(to) == End(p, n)
    requires t0 <= t <= now && Upto(db, p, n, t0) <= ids <= Upto(db, p, n, t)
    ensures ids !! LinkScan(db, from, to, now)
    ensures Upto(db, p + 1, n, t0) <= ids + LinkScan(db, from, to, now) <= Upto(db, p + 1, n, now)
  {
    hide Upto, LinkScan, Start, End, Number;
    UptoMonotone(db, p, n, t, now);
    UptoNext(db, p, n, from, to, now);
    UptoNext(db, p, n, from, to, t0);
    ScanMonotone(db, from, to, t0, now);
  }

  lemma FullSpelled(db: Db, t: Time)
    ensures forall i :: i in LinkScan(db, NIL_UUID, MAX_UUID, t) <==>
              i in db.links && Number(i) < MAX_VALUE && db.links[i].retrievedAt < t
  {
    hide Number;
    Extremes();
  }

  /** When every link is older than the scan, only the greatest identifier is left out. */
  lemma FullScan(db: Db, t: Time)
    requires forall i :: i in db.links ==> db.links[i].retrievedAt < t
    ensures LinkScan(db, NIL_UUID, MAX_UUID, t) == db.links.Keys - {MAX_UUID}
  {
    hide Number;
    Extremes();
    forall i | i in db.links ensures i in LinkScan(db, NIL_UUID, MAX_UUID, t) <==> i != MAX_UUID {
      RangeMeans(0, 1, i);
      TextOrder(i, MAX_UUID);
    }
  }

  lemma MarksNone()
    ensures Marks(map[], {})
  {
  }

  lemma MarksSize(seen: map<string, bool>, ids: set<Uuid>)
    requires Marks(seen, ids)
    ensures |seen| == |ids|
  {
  }

  lemma Yielded(g: InMemoryGraph, it: LinkIterator, scan: set<Uuid>)
    requires g.Valid() && g.LinkRecords(it.links, it.ids) && Enumerates(it.ids, scan)
    ensures |it.links| == |it.ids| && forall k :: 0 <= k < |it.links| ==> it.links[k].id == it.ids[k]
    ensures NoDuplicates(it.ids) && Elements(it.ids) == scan
  {
    hide Agree, InMemoryGraph.EdgesHold;
  }
}
