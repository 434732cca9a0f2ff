/** The in-memory text indexer: the documents, what the search index holds of them, and the iterator
    over search results. */
module TextIndex {
  import opened Uuids
  import opened Paging
  import opened Wrappers

  type Time = int

  datatype Document = Document(linkID: Uuid, url: string, title: string, content: string, indexedAt: Time, pageRank: real)

  const EMPTY := Document(NIL_UUID, "", "", "", 0, 0.0)

  /** What the search index sees of a document. */
  datatype BleveDoc = BleveDoc(title: string, content: string, pageRank: real)

  function MakeBleveDoc(d: Document): BleveDoc {
    BleveDoc(d.title, d.content, d.pageRank)
  }

  type Docs = map<string, Document>
  type Indexed = map<string, BleveDoc>

  /** A query ranks the keys of the matching entries. */
  type Query = Indexed -> seq<string>

  ghost predicate Ranks(q: Query) {
    forall idx, k :: k in q(idx) ==> k in idx
  }

  datatype IndexResult = Ok | ErrMissingLinkID | ErrIndex

  // ----- the effect on the documents

  /** The document replaces the stored one, except that a stored score stays. */
  function WithDoc(docs: Docs, doc: Document): Docs {
    var key := Text(doc.linkID);
    docs[key := if key in docs then doc.(pageRank := docs[key].pageRank) else doc]
  }

  /** The score replaces the stored one; an unknown document is created for it. */
  function WithScore(docs: Docs, id: Uuid, score: real): Docs {
    var key := Text(id);
    docs[key := (if key in docs then docs[key] else EMPTY.(linkID := id)).(pageRank := score)]
  }

  /** Indexing documents and updating scores can be done in either order. */
  lemma ScoreAndDocCommute(docs: Docs, doc: Document, id: Uuid, score: real)
    ensures WithScore(WithDoc(docs, doc), id, score) == WithDoc(WithScore(docs, id, score), doc)
  {
    hide Text;
    TextOrder(doc.linkID, id);
  }

  lemma ScoresCommute(docs: Docs, id: Uuid, score: real, id': Uuid, score': real)
    requires id != id'
    ensures WithScore(WithScore(docs, id, score), id', score') == WithScore(WithScore(docs, id', score'), id, score)
  {
    hide Text;
    TextOrder(id, id');
  }

  /** Documents sit under the text of their identifiers; every indexed key has its document, with the
      same title and content. */
  ghost predicate Stored(docs: Docs, index: Indexed) {
    && (forall k :: k in docs ==> Text(docs[k].linkID) == k)
    && (forall k :: k in index ==> k in docs && index[k].title == docs[k].title && index[k].content == docs[k].content)
  }

  /** What a score update does to the documents. */
  lemma ScoreSpelled(docs: Docs, idx: Indexed, id: Uuid, score: real)
    requires Stored(docs, idx)
    ensures var key, docs' := Text(id), WithScore(docs, id, score);
            && docs'.Keys == docs.Keys + {key} && (forall k :: k in docs && k != key ==> docs'[k] == docs[k])
            && docs'[key].linkID == id && docs'[key].pageRank == score
            && (key in docs ==> docs'[key] == docs[key].(pageRank := score))
            && (key !in docs ==> docs'[key] == Document(id, "", "", "", 0, score))
  {
    hide Text;
    if Text(id) in docs { TextOrder(docs[Text(id)].linkID, id); }
  }

  /** A score update keeps what is stored in order, whether the index takes it or not. */
  lemma ScoreStored(docs: Docs, idx: Indexed, id: Uuid, score: real)
    requires Stored(docs, idx)
    ensures Stored(WithScore(docs, id, score), idx)
    ensures Stored(WithScore(docs, id, score), idx[Text(id) := MakeBleveDoc(WithScore(docs, id, score)[Text(id)])])
  {
    hide Text, WithScore, Stored;
    ScoreSpelled(docs, idx, id, score);
    var key, docs' := Text(id), WithScore(docs, id, score);
    assert docs' == docs[key := docs'[key]];
    StoredUpdate(docs, idx, key, docs'[key]);
  }

  /** A document that agrees with what the index has of it, and one that the index follows. */
  lemma StoredUpdate(docs: Docs, idx: Indexed, key: string, doc: Document)
    requires Stored(docs, idx) && Text(doc.linkID) == key
    requires key in docs ==> doc.title == docs[key].title && doc.content == docs[key].content
    ensures Stored(docs[key := doc], idx) && Stored(docs[key := doc], idx[key := MakeBleveDoc(doc)])
  {
    hide Text;
  }

  class InMemoryBleveIndexer {
    var docs: Docs
    var idx: Indexed

    ghost predicate Valid()
      reads this
    {
      Stored(docs, idx)
    }

    constructor ()
      ensures Valid() && docs == map[] && idx == map[]
    {
      docs, idx := map[], map[];
    }

    /** Stores a document stamped `now`; the score of a stored one stays. A failure leaves everything
        as it was. */
    method Index(doc: Document, now: Time) returns (stamped: Document, r: IndexResult)
      requires Valid()
      modifies this
      ensures Valid()
      ensures r.ErrMissingLinkID? <==> doc.linkID == NIL_UUID
      ensures stamped == if r.ErrMissingLinkID? then doc else doc.(indexedAt := now)
      ensures r.Ok? ==>
                var key := Text(doc.linkID);
                && docs.Keys == old(docs.Keys) + {key} && (forall k :: k in old(docs) && k != key ==> docs[k] == old(docs)[k])
                && docs[key].linkID == doc.linkID && docs[key].url == doc.url && docs[key].title == doc.title
                && docs[key].content == doc.content && docs[key].indexedAt == now
                && docs[key].pageRank == if key in old(docs) then old(docs)[key].pageRank else doc.pageRank
      ensures r.Ok? ==>
                var key := Text(doc.linkID);
                && idx.Keys == old(idx.Keys) + {key} && (forall k :: k in old(idx) && k != key ==> idx[k] == old(idx)[k])
                && idx[key].title == doc.title && idx[key].content == doc.content
                && idx[key].pageRank == if key in old(docs) then old(docs)[key].pageRank else doc.pageRank
      ensures r.Ok? ==> docs == WithDoc(old(docs), stamped)
      ensures r.Ok? ==> idx == old(idx)[Text(doc.linkID) := MakeBleveDoc(docs[Text(doc.linkID)])]
      ensures !r.Ok? ==> docs == old(docs) && idx == old(idx)
    {
      hide Text;
      if doc.linkID == NIL_UUID { return doc, ErrMissingLinkID; }
      stamped := doc.(indexedAt := now);
      var dCopy := stamped;
      var key := Text(dCopy.linkID);
      if key in docs { dCopy := dCopy.(pageRank := docs[key].pageRank); }
      var indexed: bool :| true;
      if !indexed { return stamped, ErrIndex; }
      idx := idx[key := MakeBleveDoc(dCopy)];
      docs := docs[key := dCopy];
      return stamped, Ok;
    }

    /** Sets a score. A failure of the search index leaves the new score with the document only. */
    method UpdateScore(linkID: Uuid, score: real) returns (r: IndexResult)
      requires Valid()
      modifies this
      ensures Valid() && !r.ErrMissingLinkID?
      ensures var key := Text(linkID);
              && docs.Keys == old(docs.Keys) + {key} && (forall k :: k in old(docs) && k != key ==> docs[k] == old(docs)[k])
              && docs[key].linkID == linkID && docs[key].pageRank == score
              && (key in old(docs) ==> docs[key] == old(docs)[key].(pageRank := score))
              && (key !in old(docs) ==> docs[key] == Document(linkID, "", "", "", 0, score))
      ensures r.Ok? ==>
                var key := Text(linkID);
                && idx.Keys == old(idx.Keys) + {key} && (forall k :: k in old(idx) && k != key ==> idx[k] == old(idx)[k])
                && idx[key].title == docs[key].title && idx[key].content == docs[key].content && idx[key].pageRank == score
      ensures docs == WithScore(old(docs), linkID, score)
      ensures idx == if r.Ok? then old(idx)[Text(linkID) := MakeBleveDoc(docs[Text(linkID)])] else old(idx)
    {
      hide Text, Stored;
      ScoreSpelled(docs, idx, linkID, score);
      ScoreStored(docs, idx, linkID, score);
      var key := Text(linkID);
      var doc := if key in docs then docs[key] else EMPTY.(linkID := linkID);
      doc := doc.(pageRank := score);
      docs := docs[key := doc];
      var indexed: bool :| true;
      if !indexed { return ErrIndex; }
      idx := idx[key := MakeBleveDoc(doc)];
      return Ok;
    }

    method FindByID(key: string) returns (doc: Option<Document>)
      ensures doc == if key in docs then Some(docs[key]) else None
    {
      if key in docs { return Some(docs[key]); }
      return None;
    }

    method RunSearch(q: Query, from: nat) returns (rs: SearchResult<string>)
      ensures rs.SearchFailed? || rs == Found(|q(idx)|, PageOf(q(idx), from))
    {
      var up: bool :| true;
      if !up { return SearchFailed; }
      var ranked := q(idx);
      return Found(|ranked|, PageOf(ranked, from));
    }

    /** Opens an iterator at `offset`, with the first page already fetched. */
    method Search(q: Query, offset: nat) returns (it: BleveIterator?)
      ensures it != null ==> fresh(it) && it.indexer == this && it.offset == offset && it.query == q
      ensures it != null ==> it.Ready(q(idx)) && !it.failed && it.cumIdx == offset
    {
      var rs := RunSearch(q, offset);
      if rs.SearchFailed? { return null; }
      it := new BleveIterator(this, q, offset, rs);
    }
  }

  /** Whatever a query ranks has a document. */
  lemma RankedFound(docs: Docs, idx: Indexed, q: Query, i: nat)
    requires Stored(docs, idx) && Ranks(q) && i < |q(idx)|
    ensures q(idx)[i] in docs
  {
    assert q(idx)[i] in q(idx);
  }

  class BleveIterator {
    const indexer: InMemoryBleveIndexer
    const query: Query
    var from: nat
    var rs: SearchResult<string>
    var rsIdx: nat
    var cumIdx: nat
    var latchedDoc: Option<Document>
    var failed: bool
    ghost const offset: nat
    ghost var searches: nat

    ghost predicate Ready(ranked: seq<string>)
      reads this
    {
      failed || Paged(ranked, offset, searches, from, rs, rsIdx, cumIdx)
    }

    constructor (indexer: InMemoryBleveIndexer, query: Query, offset: nat, rs: SearchResult<string>)
      requires rs == Found(|query(indexer.idx)|, PageOf(query(indexer.idx), offset))
      ensures this.indexer == indexer && this.query == query && this.offset == offset
      ensures Ready(query(indexer.idx)) && !failed && cumIdx == offset
    {
      this.indexer, this.query, this.offset, this.from, this.rs := indexer, query, offset, offset, rs;
      cumIdx, rsIdx, latchedDoc, failed, searches := offset, 0, None, false, 1;
      FirstPage(query(indexer.idx), offset);
    }

    /** Latches the document of the next key in the ranked list, unless there is none or a search
        fails. The document is always found. */
    method Next() returns (more: bool)
      requires indexer.Valid() && Ranks(query) && Ready(query(indexer.idx))
      modifies this
      ensures Ready(query(indexer.idx)) && (old(failed) ==> failed && !more) && (more ==> !failed)
      ensures more ==>
                var ranked := query(indexer.idx);
                && old(cumIdx) < |ranked| && ranked[old(cumIdx)] in indexer.docs
                && latchedDoc == Some(indexer.docs[ranked[old(cumIdx)]]) && cumIdx == old(cumIdx) + 1
      ensures !more ==> cumIdx == old(cumIdx) && latchedDoc == old(latchedDoc) && (failed || cumIdx >= |query(indexer.idx)|)
    {
      hide Paged, PageOf, Stored, Ranks;
      ghost var ranked := query(indexer.idx);
      if failed { return false; }
      PagedTotal(ranked, offset, searches, from, rs, rsIdx, cumIdx);
      if cumIdx >= rs.total { return false; }
      NextHit(ranked, offset, searches, from, rs, rsIdx, cumIdx);
      if rsIdx >= |rs.hits| {
        from := from + BATCH;
        rs := indexer.RunSearch(query, from);
        searches := searches + 1;
        if rs.SearchFailed? {
          failed := true;
          return false;
        }
        rsIdx := 0;
      }
      var nextID := rs.hits[rsIdx];
      RankedFound(indexer.docs, indexer.idx, query, cumIdx);
      latchedDoc := indexer.FindByID(nextID);
      rsIdx := rsIdx + 1;
      cumIdx := cumIdx + 1;
      return true;
    }

    /** Reads everything: the documents of the ranked list from the offset on, in order, in the least
        number of searches; after a failed search, a first part of it. */
    method Drain() returns (docs: seq<Document>)
      requires indexer.Valid() && Ranks(query) && Ready(query(indexer.idx)) && !failed && cumIdx == offset
      modifies this
      ensures Behind(indexer.docs, docs, From(query(indexer.idx), offset))
      ensures !failed ==> |docs| == |From(query(indexer.idx), offset)|
      ensures !failed ==> searches == Pages(|query(indexer.idx)| - offset)
      ensures |docs| <= |query(indexer.idx)| - offset || docs == []
      ensures forall i :: 0 <= i < |docs| ==>
                && offset + i < |query(indexer.idx)| && query(indexer.idx)[offset + i] in indexer.docs
                && docs[i] == indexer.docs[query(indexer.idx)[offset + i]]
      ensures !failed ==> |docs| == if offset <= |query(indexer.idx)| then |query(indexer.idx)| - offset else 0
      ensures !failed ==> searches == if |query(indexer.idx)| - offset <= 10 then 1 else (|query(indexer.idx)| - offset + 9) / 10
    {
      hide Paged, Ranks, Stored;
      ghost var ranked := query(indexer.idx);
      docs := [];
      var more := Next();
      while more
        invariant Ready(ranked) && (more ==> !failed && offset < cumIdx <= |ranked|)
        invariant more ==> ranked[cumIdx - 1] in indexer.docs && latchedDoc == Some(indexer.docs[ranked[cumIdx - 1]])
        invariant !more && !failed ==> cumIdx >= |ranked|
        invariant Behind(indexer.docs, docs, From(ranked, offset))
        invariant |docs| == (if more then cumIdx - 1 else cumIdx) - offset
        invariant cumIdx <= |ranked| || cumIdx == offset
        decreases more, |ranked| - cumIdx
      {
        docs := docs + [latchedDoc.value];
        more := Next();
      }
      if !failed { SearchCount(ranked, offset, searches, from, rs, rsIdx, cumIdx); }
    }
  }

  /** `found` are the documents behind the first of `keys`. */
  ghost predicate Behind(docs: Docs, found: seq<Document>, keys: seq<string>) {
    |found| <= |keys| && forall i :: 0 <= i < |found| ==> keys[i] in docs && found[i] == docs[keys[i]]
  }
}
