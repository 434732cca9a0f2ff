/** The iterators over search results: pages of ten hits, fetched on demand from a ranked list. */
module Paging {
  import opened Wrappers

  const BATCH: nat := 10

  /** The answer to one search: the number of matches and one page of them. */
  datatype SearchResult<+T> = Found(total: nat, hits: seq<T>) | SearchFailed

  function PageOf<T>(ranked: seq<T>, from: nat): seq<T> {
    if from >= |ranked| then [] else if from + BATCH >= |ranked| then ranked[from..] else ranked[from..from + BATCH]
  }

  /** A page has the next ten hits, or those that are left. */
  lemma PageSpelled<T>(ranked: seq<T>, from: nat)
    ensures |PageOf(ranked, from)| == if from >= |ranked| then 0 else if |ranked| - from < 10 then |ranked| - from else 10
    ensures forall i :: 0 <= i < |PageOf(ranked, from)| ==> PageOf(ranked, from)[i] == ranked[from + i]
  {
  }

  /** An iterator that started at `offset` and has made `searches` searches: it stands at hit `rsIdx`
      of the page that starts at `from`, which is hit `cumIdx` of the ranked list. */
  ghost predicate Paged<T>(ranked: seq<T>, offset: nat, searches: nat, from: nat, rs: SearchResult<T>, rsIdx: nat, cumIdx: nat) {
    && rs.Found? && rs.total == |ranked| && rs.hits == PageOf(ranked, from)
    && searches > 0 && from == offset + BATCH * (searches - 1)
    && rsIdx <= |rs.hits| && from + rsIdx == cumIdx
    && (searches > 1 ==> rsIdx > 0)
  }

  lemma FirstPage<T>(ranked: seq<T>, offset: nat)
    ensures Paged(ranked, offset, 1, offset, Found(|ranked|, PageOf(ranked, offset)), 0, offset)
  {
  }

  /** Inside a page the next hit is there; at its end the page was full and the next one has a hit. */
  lemma NextHit<T>(ranked: seq<T>, offset: nat, searches: nat, from: nat, rs: SearchResult<T>, rsIdx: nat, cumIdx: nat)
    requires Paged(ranked, offset, searches, from, rs, rsIdx, cumIdx) && cumIdx < rs.total
    ensures rsIdx < |rs.hits| ==>
              rs.hits[rsIdx] == ranked[cumIdx] && Paged(ranked, offset, searches, from, rs, rsIdx + 1, cumIdx + 1)
    ensures rsIdx >= |rs.hits| ==>
              var hits := PageOf(ranked, from + BATCH);
              && |hits| > 0 && hits[0] == ranked[cumIdx]
              && Paged(ranked, offset, searches + 1, from + BATCH, Found(|ranked|, hits), 1, cumIdx + 1)
  {
  }

  /** The pages needed for `n` hits; one search is made even if there are none. */
  function Pages(n: int): nat {
    if n <= BATCH then 1 else (n + BATCH - 1) / BATCH
  }

  lemma SearchCount<T>(ranked: seq<T>, offset: nat, searches: nat, from: nat, rs: SearchResult<T>, rsIdx: nat, cumIdx: nat)
    requires Paged(ranked, offset, searches, from, rs, rsIdx, cumIdx) && cumIdx >= |ranked|
    ensures searches == Pages(|ranked| - offset)
    ensures searches == if |ranked| - offset <= 10 then 1 else (|ranked| - offset + 9) / 10
  {
    assert rsIdx > 0 ==> cumIdx == |ranked|;
    assert rsIdx <= BATCH;
  }

  function From<T>(ranked: seq<T>, offset: nat): seq<T> {
    if offset >= |ranked| then [] else ranked[offset..]
  }

  // ----- Elasticsearch

  /** The server, with the documents that match one query, best first. A search may fail. */
  class Server<T> {
    const ranked: seq<T>

    constructor (ranked: seq<T>)
      ensures this.ranked == ranked
    {
      this.ranked := ranked;
    }

    method RunSearch(from: nat) returns (rs: SearchResult<T>)
      ensures rs.SearchFailed? || rs == Found(|ranked|, PageOf(ranked, from))
    {
      var up: bool :| true;
      if !up { return SearchFailed; }
      return Found(|ranked|, PageOf(ranked, from));
    }

    /** Opens an iterator at `offset`, with the first page already fetched. */
    method Search(offset: nat) returns (it: EsIterator?<T>)
      ensures it != null ==> fresh(it) && it.es == this && it.offset == offset && it.Valid() && !it.failed && it.cumIdx == offset
    {
      var rs := RunSearch(offset);
      if rs.SearchFailed? { return null; }
      it := new EsIterator(this, offset, rs);
    }
  }

  class EsIterator<T> {
    const es: Server<T>
    var from: nat
    var cumIdx: nat
    var rsIdx: nat
    var rs: SearchResult<T>
    var latchedDoc: Option<T>
    var failed: bool
    ghost const offset: nat
    ghost var searches: nat

    ghost predicate Valid()
      reads this
    {
      failed || Paged(es.ranked, offset, searches, from, rs, rsIdx, cumIdx)
    }

    constructor (es: Server<T>, offset: nat, rs: SearchResult<T>)
      requires rs == Found(|es.ranked|, PageOf(es.ranked, offset))
      ensures this.es == es && this.offset == offset && Valid() && !failed && cumIdx == offset
    {
      this.es, this.offset, this.from, this.rs := es, offset, offset, rs;
      cumIdx, rsIdx, latchedDoc, failed, searches := offset, 0, None, false, 1;
      FirstPage(es.ranked, offset);
    }

    /** Latches the next document of the ranked list, unless there is none or a search fails. */
    method Next() returns (more: bool)
      requires Valid()
      modifies this
      ensures Valid() && (old(failed) ==> failed && !more)
      ensures more ==> old(cumIdx) < |es.ranked| && latchedDoc == Some(es.ranked[old(cumIdx)]) && cumIdx == old(cumIdx) + 1
      ensures !more ==> cumIdx == old(cumIdx) && latchedDoc == old(latchedDoc) && (failed || cumIdx >= |es.ranked|)
      ensures more ==> !failed
    {
      hide Paged, PageOf;
      if failed { return false; }
      PagedTotal(es.ranked, offset, searches, from, rs, rsIdx, cumIdx);
      if cumIdx >= rs.total { return false; }
      NextHit(es.ranked, offset, searches, from, rs, rsIdx, cumIdx);
      if rsIdx >= |rs.hits| {
        from := from + BATCH;
        rs := es.RunSearch(from);
        searches := searches + 1;
        if rs.SearchFailed? {
          failed := true;
          return false;
        }
        rsIdx := 0;
      }
      latchedDoc := Some(rs.hits[rsIdx]);
      cumIdx := cumIdx + 1;
      rsIdx := rsIdx + 1;
      return true;
    }

    /** Reads everything: the ranked list from the offset on, in order, in the least number of
        searches; after a failed search, a first part of it. */
    method Drain() returns (docs: seq<T>)
      requires Valid() && !failed && cumIdx == offset
      modifies this
      ensures !failed ==> docs == From(es.ranked, offset) && searches == Pages(|es.ranked| - offset)
      ensures docs <= From(es.ranked, offset)
      ensures docs <= if offset <= |es.ranked| then es.ranked[offset..] else []
      ensures !failed ==> docs == if offset <= |es.ranked| then es.ranked[offset..] else []
      ensures !failed ==> searches == if |es.ranked| - offset <= 10 then 1 else (|es.ranked| - offset + 9) / 10
    {
      hide Paged;
      docs := [];
      var more := Next();
      while more
        invariant Valid() && (more ==> !failed && offset < cumIdx <= |es.ranked| && latchedDoc == Some(es.ranked[cumIdx - 1]))
        invariant !more && !failed ==> cumIdx >= |es.ranked|
        invariant |docs| == (if more then cumIdx - 1 else cumIdx) - offset && (cumIdx <= |es.ranked| || cumIdx == offset)
        invariant forall i :: 0 <= i < |docs| ==> offset + i < |es.ranked| && docs[i] == es.ranked[offset + i]
        decreases more, |es.ranked| - cumIdx
      {
        docs := docs + [latchedDoc.value];
        more := Next();
      }
      FirstPart(es.ranked, offset, docs);
      if !failed { SearchCount(es.ranked, offset, searches, from, rs, rsIdx, cumIdx); }
    }
  }

  lemma PagedTotal<T>(ranked: seq<T>, offset: nat, searches: nat, from: nat, rs: SearchResult<T>, rsIdx: nat, cumIdx: nat)
    requires Paged(ranked, offset, searches, from, rs, rsIdx, cumIdx)
    ensures rs.Found? && rs.total == |ranked|
  {
  }

  lemma FirstPart<T>(ranked: seq<T>, offset: nat, docs: seq<T>)
    requires forall i :: 0 <= i < |docs| ==> offset + i < |ranked| && docs[i] == ranked[offset + i]
    ensures docs <= From(ranked, offset)
    ensures |docs| == |From(ranked, offset)| ==> docs == From(ranked, offset)
    ensures From(ranked, offset) == if offset <= |ranked| then ranked[offset..] else []
  {
    if docs != [] { assert docs[|docs| - 1] == ranked[offset + |docs| - 1]; }
  }
}
