/** The retrieval logic shared by `ml/rag_engine.py` and the earlier copy in
    `backend/routes/rag.py`: product search with de-duplication by product id,
    and review search with a two-pass client-side filter and a fallback
    search when anything in the first attempt raises. The two copies differ
    only in the metadata filter of the review search, which is a parameter
    here. A run is described by its result and the requests it issued. */
module Retrieval {
  import opened PyText
  import opened PyValue
  import opened VectorStore

  /** Product candidates are always fetched 20 at a time. */
  const CANDIDATE_POOL: nat := 20
  /** The fallback review search asks for 50 neighbours. */
  const FALLBACK_POOL: nat := 50

  /** A product hit as returned to the caller (one record of `to_dict`). */
  datatype ProductHit = ProductHit(productId: Value, productName: Value, snippet: string,
                                   metadata: Metadata, score: Option<real>)

  /** A review hit as returned to the caller. */
  datatype ReviewHit = ReviewHit(reviewText: string, rating: Value, metadata: Metadata, score: Option<real>)

  /** What one call did: its result and the requests it issued, in order. */
  datatype Run<T> = Run(result: Result<T>, requests: seq<Request>)

  // ---------------------------------------------------------------------
  // Products
  // ---------------------------------------------------------------------

  /** The record built for one candidate document. The store exposes no
      distances, so the score is always None. */
  function ToProductHit(d: Doc): ProductHit {
    ProductHit(Get(d.metadata, "product_id"), Get(d.metadata, "product_name"), d.pageContent, d.metadata, None)
  }

  function HitsOf(docs: seq<Doc>): (hits: seq<ProductHit>)
    ensures |hits| == |docs|
  {
    seq(|docs|, i requires 0 <= i < |docs| => ToProductHit(docs[i]))
  }

  /** The loop that turns candidate documents into records. */
  method CandidateHits(docs: seq<Doc>) returns (results: seq<ProductHit>)
    ensures results == HitsOf(docs)
  {
    results := [];
    var i := 0;
    while i < |docs|
      invariant 0 <= i <= |docs|
      invariant results == HitsOf(docs[..i])
    {
      assert HitsOf(docs[..i + 1]) == HitsOf(docs[..i]) + [ToProductHit(docs[i])];
      results := results + [ToProductHit(docs[i])];
      i := i + 1;
    }
    assert docs[..i] == docs;
  }

  predicate HasId(hits: seq<ProductHit>, id: Value) {
    exists i :: 0 <= i < |hits| && hits[i].productId == id
  }

  /** Position of the first hit carrying `id`. */
  function FirstIndex(hits: seq<ProductHit>, id: Value): (i: nat)
    requires HasId(hits, id)
    ensures i < |hits| && hits[i].productId == id
    ensures forall j :: 0 <= j < i ==> hits[j].productId != id
  {
    if hits[0].productId == id then 0
    else
      assert HasId(hits[1..], id) by {
        var w :| 0 <= w < |hits| && hits[w].productId == id;
        assert hits[1..][w - 1] == hits[w];
      }
      1 + FirstIndex(hits[1..], id)
  }

  /** `drop_duplicates(subset=["product_id"], keep="first")`: a hit is kept
      when no earlier hit carries the same id (None ids count as one value). */
  function DropDuplicateIds(hits: seq<ProductHit>): seq<ProductHit> {
    if hits == [] then []
    else
      var init := hits[..|hits| - 1];
      if HasId(init, hits[|hits| - 1].productId) then DropDuplicateIds(init)
      else DropDuplicateIds(init) + [hits[|hits| - 1]]
  }

  /** The ranking step: `sort_values("score")` leaves the order alone because
      every score is None, then duplicates go and the first `k` remain. */
  function TopProducts(docs: seq<Doc>, k: nat): seq<ProductHit> {
    Take(DropDuplicateIds(HitsOf(docs)), k)
  }

  /** `get_top_products(query, k)` against collection `collection`, the
      backend having served `n` requests before. */
  function TopProductsRun(collection: string, query: string, k: nat,
                          answer: (nat, Request) -> Outcome, n: nat): Run<seq<ProductHit>>
  {
    if IsBlank(query) then Run(Ok([]), [])
    else
      var req := Request(collection, query, CANDIDATE_POOL, None);
      match Reply(answer(n, req), req)
      case Raised(c) => Run(Err(StoreFailure(c)), [req])
      case Found(docs) =>
        // an empty frame has no "score" column, so sort_values raises
        if docs == [] then Run(Err(KeyError("score")), [req])
        else Run(Ok(TopProducts(docs, k)), [req])
  }

  lemma FirstIndexOfPrefix(hits: seq<ProductHit>, m: nat, id: Value)
    requires m <= |hits| && HasId(hits[..m], id)
    ensures HasId(hits, id) && FirstIndex(hits, id) == FirstIndex(hits[..m], id)
  {
    var i0 := FirstIndex(hits[..m], id);
    assert hits[i0] == hits[..m][i0];
    var i1 := FirstIndex(hits, id);
    assert i1 <= i0;
    assert hits[..m][i1] == hits[i1];
  }

  /** An id missing from all but the last hit has its first index there. */
  lemma FirstIndexOfNewLast(hits: seq<ProductHit>)
    requires hits != [] && !HasId(hits[..|hits| - 1], hits[|hits| - 1].productId)
    ensures HasId(hits, hits[|hits| - 1].productId)
    ensures FirstIndex(hits, hits[|hits| - 1].productId) == |hits| - 1
  {
    var m := |hits| - 1;
    var id := hits[m].productId;
    assert HasId(hits, id) by { assert hits[m].productId == id; }
    forall j | 0 <= j < m ensures hits[j].productId != id {
      assert hits[..m][j] == hits[j];
    }
  }

  /** The hits kept from `hits` are those kept from all but its last one,
      followed by the last one when its id is new. */
  lemma DropDuplicatesStep(hits: seq<ProductHit>)
    requires hits != []
    ensures var init := hits[..|hits| - 1];
      DropDuplicateIds(hits) ==
        if HasId(init, hits[|hits| - 1].productId) then DropDuplicateIds(init)
        else DropDuplicateIds(init) + [hits[|hits| - 1]]
  {
  }

  /** Every kept hit is the first hit carrying its id. */
  lemma {:induction false} DropDuplicatesKeepsFirstHit(hits: seq<ProductHit>)
    ensures var r := DropDuplicateIds(hits);
      forall i :: 0 <= i < |r| ==> HasId(hits, r[i].productId) && r[i] == hits[FirstIndex(hits, r[i].productId)]
  {
    if hits != [] {
      var m := |hits| - 1;
      var init := hits[..m];
      var p := DropDuplicateIds(init);
      DropDuplicatesKeepsFirstHit(init);
      forall i | 0 <= i < |p|
        ensures HasId(hits, p[i].productId) && p[i] == hits[FirstIndex(hits, p[i].productId)]
      {
        assert p[i] == DropDuplicateIds(init)[i];
        assert HasId(init, DropDuplicateIds(init)[i].productId);
        assert HasId(init, p[i].productId);
        FirstIndexOfPrefix(hits, m, p[i].productId);
        assert hits[FirstIndex(init, p[i].productId)] == init[FirstIndex(init, p[i].productId)];
      }
      if !HasId(init, hits[m].productId) {
        FirstIndexOfNewLast(hits);
      }
    }
  }

  /** Kept hits carry ids that occur among the input hits. */
  lemma KeptIdsOccur(hits: seq<ProductHit>)
    ensures var r := DropDuplicateIds(hits);
      forall i :: 0 <= i < |r| ==> HasId(hits, r[i].productId)
  {
    DropDuplicatesKeepsFirstHit(hits);
  }

  /** Kept hits carry pairwise distinct ids. */
  lemma {:induction false} DropDuplicatesDistinct(hits: seq<ProductHit>)
    ensures var r := DropDuplicateIds(hits);
      forall i, j :: 0 <= i < j < |r| ==> r[i].productId != r[j].productId
  {
    if hits != [] {
      var m := |hits| - 1;
      var init := hits[..m];
      var p := DropDuplicateIds(init);
      DropDuplicatesDistinct(init);
      KeptIdsOccur(init);
      DropDuplicatesStep(hits);
      if !HasId(init, hits[m].productId) {
        var r := p + [hits[m]];
        forall i | 0 <= i < |p| ensures p[i].productId != hits[m].productId {
          assert p[i] == DropDuplicateIds(init)[i];
          assert HasId(init, p[i].productId);
        }
        forall i, j | 0 <= i < j < |r| ensures r[i].productId != r[j].productId {
          assert r[i] == p[i];
          if j < |p| {
            assert r[j] == p[j];
          }
        }
      }
    }
  }

  /** Every id among the hits survives de-duplication. */
  lemma {:induction false} DropDuplicatesCovers(hits: seq<ProductHit>, id: Value)
    requires HasId(hits, id)
    ensures HasId(DropDuplicateIds(hits), id)
  {
    var m := |hits| - 1;
    var init := hits[..m];
    var p := DropDuplicateIds(init);
    DropDuplicatesStep(hits);
    if HasId(init, id) {
      DropDuplicatesCovers(init, id);
      var w :| 0 <= w < |p| && p[w].productId == id;
      assert DropDuplicateIds(hits)[w] == p[w];
    } else {
      forall j | 0 <= j < m ensures hits[j].productId != id {
        assert init[j] == hits[j];
      }
      assert hits[m].productId == id;
      assert DropDuplicateIds(hits)[|p|] == hits[m];
    }
  }

  /** Kept hits appear in the order of their first occurrence. */
  lemma {:induction false} DropDuplicatesInOrder(hits: seq<ProductHit>)
    ensures var r := DropDuplicateIds(hits);
      forall i, j :: 0 <= i < j < |r| ==>
        HasId(hits, r[i].productId) && HasId(hits, r[j].productId) &&
        FirstIndex(hits, r[i].productId) < FirstIndex(hits, r[j].productId)
  {
    if hits != [] {
      var m := |hits| - 1;
      var init := hits[..m];
      var p := DropDuplicateIds(init);
      DropDuplicatesInOrder(init);
      KeptIdsOccur(init);
      DropDuplicatesStep(hits);
      forall i | 0 <= i < |p|
        ensures HasId(init, p[i].productId) && HasId(hits, p[i].productId)
        ensures FirstIndex(hits, p[i].productId) == FirstIndex(init, p[i].productId)
      {
        assert p[i] == DropDuplicateIds(init)[i];
        assert HasId(init, p[i].productId);
        FirstIndexOfPrefix(hits, m, p[i].productId);
      }
      forall i, j | 0 <= i < j < |p|
        ensures FirstIndex(init, p[i].productId) < FirstIndex(init, p[j].productId)
      {
        assert p[i] == DropDuplicateIds(init)[i] && p[j] == DropDuplicateIds(init)[j];
      }
      if !HasId(init, hits[m].productId) {
        FirstIndexOfNewLast(hits);
        var r := p + [hits[m]];
        forall i, j | 0 <= i < j < |r|
          ensures HasId(hits, r[i].productId) && HasId(hits, r[j].productId)
          ensures FirstIndex(hits, r[i].productId) < FirstIndex(hits, r[j].productId)
        {
          assert r[i] == p[i];
          if j < |p| {
            assert r[j] == p[j];
          } else {
            assert r[j] == hits[m];
          }
        }
      }
    }
  }

  /** De-duplication keeps, for every product id among the candidates,
      exactly its first candidate, and keeps them in candidate order. */
  lemma DropDuplicatesKeepsFirst(hits: seq<ProductHit>)
    ensures var r := DropDuplicateIds(hits);
      && (forall i, j :: 0 <= i < j < |r| ==> r[i].productId != r[j].productId)
      && (forall i :: 0 <= i < |r| ==> HasId(hits, r[i].productId) && r[i] == hits[FirstIndex(hits, r[i].productId)])
      && (forall id :: HasId(hits, id) ==> HasId(r, id))
      && (forall i, j :: 0 <= i < j < |r| ==>
            HasId(hits, r[i].productId) && HasId(hits, r[j].productId) &&
            FirstIndex(hits, r[i].productId) < FirstIndex(hits, r[j].productId))
  {
    DropDuplicatesDistinct(hits);
    DropDuplicatesKeepsFirstHit(hits);
    DropDuplicatesInOrder(hits);
    forall id | HasId(hits, id) ensures HasId(DropDuplicateIds(hits), id) {
      DropDuplicatesCovers(hits, id);
    }
  }

  /** Empty or whitespace-only queries return `[]` without a search. */
  lemma BlankQueryIssuesNoSearch(collection: string, query: string, k: nat,
                                 answer: (nat, Request) -> Outcome, n: nat)
    requires IsBlank(query)
    ensures TopProductsRun(collection, query, k, answer, n) == Run(Ok([]), [])
  {
  }

  /** Any other query issues exactly one search, for 20 candidates whatever
      `k` is, with no filter. */
  lemma CandidatePoolIsTwenty(collection: string, query: string, k: nat,
                              answer: (nat, Request) -> Outcome, n: nat)
    requires !IsBlank(query)
    ensures TopProductsRun(collection, query, k, answer, n).requests == [Request(collection, query, 20, None)]
  {
  }

  /** No candidates: the empty frame makes the sort raise instead of
      returning `[]`. */
  lemma NoCandidatesRaises(collection: string, query: string, k: nat,
                           answer: (nat, Request) -> Outcome, n: nat)
    requires !IsBlank(query)
    requires var req := Request(collection, query, CANDIDATE_POOL, None);
             Reply(answer(n, req), req) == Found([])
    ensures TopProductsRun(collection, query, k, answer, n).result == Err(KeyError("score"))
  {
  }

  /** A successful product search returns at most `k` hits with pairwise
      distinct product ids; each hit is the record of the first candidate
      carrying its id, built from that document's metadata and content with
      no score. */
  lemma TopProductsAreFirstDistinct(docs: seq<Doc>, k: nat)
    ensures var r := TopProducts(docs, k);
      && |r| <= k
      && (forall i, j :: 0 <= i < j < |r| ==> r[i].productId != r[j].productId)
      && (forall i :: 0 <= i < |r| ==>
            exists m :: 0 <= m < |docs| && r[i] == ToProductHit(docs[m])
                        && r[i].productId == Get(docs[m].metadata, "product_id")
                        && r[i].productName == Get(docs[m].metadata, "product_name")
                        && r[i].snippet == docs[m].pageContent
                        && r[i].score == None
                        && forall j :: 0 <= j < m ==> Get(docs[j].metadata, "product_id") != r[i].productId)
  {
    var hits := HitsOf(docs);
    var d := DropDuplicateIds(hits);
    var r := TopProducts(docs, k);
    DropDuplicatesKeepsFirst(hits);
    forall i, j | 0 <= i < j < |r| ensures r[i].productId != r[j].productId {
      assert r[i] == d[i] && r[j] == d[j];
    }
    forall i | 0 <= i < |r|
      ensures exists m :: 0 <= m < |docs| && r[i] == ToProductHit(docs[m])
                          && r[i].productId == Get(docs[m].metadata, "product_id")
                          && r[i].productName == Get(docs[m].metadata, "product_name")
                          && r[i].snippet == docs[m].pageContent
                          && r[i].score == None
                          && forall j :: 0 <= j < m ==> Get(docs[j].metadata, "product_id") != r[i].productId
    {
      assert r[i] == d[i];
      assert HasId(hits, d[i].productId) && d[i] == hits[FirstIndex(hits, d[i].productId)];
      var m := FirstIndex(hits, d[i].productId);
      forall j | 0 <= j < m ensures Get(docs[j].metadata, "product_id") != r[i].productId {
        assert hits[j] == ToProductHit(docs[j]);
      }
      assert hits[m] == ToProductHit(docs[m]);
    }
  }

  /** Each hit of `r` carries an id of `hits`, and `r` lists them in the
      order of their first occurrence in `hits`. */
  predicate InFirstOccurrenceOrder(hits: seq<ProductHit>, r: seq<ProductHit>) {
    forall i, j :: 0 <= i < j < |r| ==> IdsInOrder(hits, r[i], r[j])
  }

  /** The id of `a` first occurs in `hits` before the id of `b`. */
  predicate IdsInOrder(hits: seq<ProductHit>, a: ProductHit, b: ProductHit) {
    HasId(hits, a.productId) && HasId(hits, b.productId) &&
    FirstIndex(hits, a.productId) < FirstIndex(hits, b.productId)
  }

  /** Hits come in the order in which their ids first occur among the
      candidates. */
  lemma TopProductsInCandidateOrder(docs: seq<Doc>, k: nat)
    ensures InFirstOccurrenceOrder(HitsOf(docs), TopProducts(docs, k))
  {
    var hits := HitsOf(docs);
    var d := DropDuplicateIds(hits);
    var r := TopProducts(docs, k);
    DropDuplicatesInOrder(hits);
    forall i, j | 0 <= i < j < |r|
      ensures IdsInOrder(hits, r[i], r[j])
    {
      assert r[i] == d[i] && r[j] == d[j];
      assert DropDuplicateIds(hits)[i] == d[i] && DropDuplicateIds(hits)[j] == d[j];
      assert HasId(hits, d[i].productId) && HasId(hits, d[j].productId);
      assert FirstIndex(hits, d[i].productId) < FirstIndex(hits, d[j].productId);
    }
  }

  /** Every id among the candidates is represented once `k` is large enough:
      no product is lost. */
  lemma TopProductsCoverAllIds(docs: seq<Doc>, k: nat, m: nat)
    requires m < |docs| && |DropDuplicateIds(HitsOf(docs))| <= k
    ensures exists i :: 0 <= i < |TopProducts(docs, k)|
                        && TopProducts(docs, k)[i].productId == Get(docs[m].metadata, "product_id")
  {
    var hits := HitsOf(docs);
    var id := hits[m].productId;
    assert id == Get(docs[m].metadata, "product_id");
    assert HasId(hits, id);
    DropDuplicatesCovers(hits, id);
    var d := DropDuplicateIds(hits);
    assert TopProducts(docs, k) == d;
    var w :| 0 <= w < |d| && d[w].productId == id;
  }

  // ---------------------------------------------------------------------
  // Reviews
  // ---------------------------------------------------------------------

  /** The product a review search is for. An identifier counts as given when
      it is present and non-empty (Python truthiness). */
  datatype Target = Target(productId: Option<string>, productName: Option<string>) {
    predicate IdGiven() { productId.Some? && productId.value != "" }
    predicate NameGiven() { productName.Some? && productName.value != "" }
    predicate Identified() { IdGiven() || NameGiven() }

    /** The client-side predicate of every filter loop. */
    predicate Accepts(d: Doc) {
      || (IdGiven() && Get(d.metadata, "product_id") == Str(productId.value))
      || (NameGiven() && Get(d.metadata, "product_name") == Str(productName.value))
    }

    /** `product_name if product_name else product_id` */
    function QueryText(): string
      requires Identified()
    {
      if NameGiven() then productName.value else productId.value
    }

    /** `product_name if product_name else ""` */
    function FallbackText(): string {
      if NameGiven() then productName.value else ""
    }
  }

  /** The accepted documents, in order: the reference for what a filter loop
      collects when nothing stops it early. */
  function Matches(t: Target, docs: seq<Doc>): (r: seq<Doc>)
    ensures forall d :: d in r <==> d in docs && t.Accepts(d)
  {
    if docs == [] then []
    else (if t.Accepts(docs[0]) then [docs[0]] else []) + Matches(t, docs[1..])
  }

  /** When every document is accepted, the reference filter keeps them all. */
  lemma {:induction false} MatchesOfAccepted(t: Target, docs: seq<Doc>)
    requires forall d :: d in docs ==> t.Accepts(d)
    ensures Matches(t, docs) == docs
  {
    if docs != [] {
      assert docs[0] in docs;
      MatchesOfAccepted(t, docs[1..]);
      assert [docs[0]] + docs[1..] == docs;
    }
  }

  /** The first filter loop (also the fallback's loop), continuing from
      `acc`: append each accepted document, stop once `k` are collected. The
      length test follows every document, matched or not. */
  function FirstPass(docs: seq<Doc>, t: Target, k: nat, acc: seq<Doc>): seq<Doc>
    decreases |docs|
  {
    if docs == [] then acc
    else
      var acc' := if t.Accepts(docs[0]) then acc + [docs[0]] else acc;
      if |acc'| >= k then acc' else FirstPass(docs[1..], t, k, acc')
  }

  /** The second filter loop: append each accepted document not already
      collected, stop once `k` are collected. */
  function SecondPass(docs: seq<Doc>, t: Target, k: nat, acc: seq<Doc>): seq<Doc>
    decreases |docs|
  {
    if docs == [] then acc
    else if t.Accepts(docs[0]) then
      var acc' := if docs[0] in acc then acc else acc + [docs[0]];
      if |acc'| >= k then acc' else SecondPass(docs[1..], t, k, acc')
    else SecondPass(docs[1..], t, k, acc)
  }

  /** The record built for one review document; never a score. */
  function ToReviewHit(d: Doc): ReviewHit {
    ReviewHit(d.pageContent, Get(d.metadata, "rating"), d.metadata, None)
  }

  function ReviewHitsOf(docs: seq<Doc>): (hits: seq<ReviewHit>)
    ensures |hits| == |docs|
  {
    seq(|docs|, i requires 0 <= i < |docs| => ToReviewHit(docs[i]))
  }

  /** The exception path: one unfiltered search for 50 neighbours with the
      product name (or ""), then the first filter loop; the documents kept. */
  function FallbackSelect(collection: string, t: Target, k: nat, answer: (nat, Request) -> Outcome,
                          n: nat, prior: seq<Request>): Run<seq<Doc>>
  {
    var req := Request(collection, t.FallbackText(), FALLBACK_POOL, None);
    match Reply(answer(n, req), req)
    case Raised(c) => Run(Err(StoreFailure(c)), prior + [req])
    case Found(docs) => Run(Ok(Take(FirstPass(docs, t, k, []), k)), prior + [req])
  }

  /** The search both passes of the first attempt send. */
  function PrimaryRequest(collection: string, t: Target, k: nat, filter: Option<Filter>): Request
    requires t.Identified()
  {
    Request(collection, t.QueryText(), k, filter)
  }

  /** The review documents `get_reviews_for_product` keeps when its retriever
      carries `filter`, the backend having served `n` requests before. */
  function SelectReviews(collection: string, t: Target, k: nat, filter: Option<Filter>,
                         answer: (nat, Request) -> Outcome, n: nat): Run<seq<Doc>>
  {
    if !t.Identified() then Run(Err(ValueError("Provide product_id or product_name")), [])
    else
      var req := PrimaryRequest(collection, t, k, filter);
      FirstAttempt(collection, t, k, req, Reply(answer(n, req), req), answer, n + 1, [req])
  }

  /** The `try` block once the first search has answered `out`: the
      exception path when it raised, else the first filter loop, followed by
      the repeated search when that left slots free. `n` counts the requests
      sent before the next one. */
  function FirstAttempt(collection: string, t: Target, k: nat, req: Request, out: Outcome,
                        answer: (nat, Request) -> Outcome, n: nat, prior: seq<Request>): Run<seq<Doc>>
  {
    match out
    case Raised(_) => FallbackSelect(collection, t, k, answer, n, prior)
    case Found(docs) =>
      var filtered := FirstPass(docs, t, k, []);
      if |filtered| < k then SecondSearch(collection, t, k, req, filtered, answer, n, prior)
      else Run(Ok(Take(filtered, k)), prior)
  }

  /** The requests already sent only prefix the log of the rest of the
      first attempt. */
  lemma FirstAttemptAfter(collection: string, t: Target, k: nat, req: Request, out: Outcome,
                          answer: (nat, Request) -> Outcome, n: nat, prior: seq<Request>)
    ensures var run := FirstAttempt(collection, t, k, req, out, answer, n, prior);
            var alone := FirstAttempt(collection, t, k, req, out, answer, n, []);
            run.result == alone.result && run.requests == prior + alone.requests
  {
    if out.Raised? {
      FallbackSelectAfter(collection, t, k, answer, n, prior);
    } else {
      var filtered := FirstPass(out.docs, t, k, []);
      SecondSearchAfter(collection, t, k, req, filtered, answer, n, prior);
    }
  }

  /** The repeated search of the first attempt, sent when the first pass
      collected fewer than `k`: the second pass over its answer, or the
      exception path when it raises. */
  function SecondSearch(collection: string, t: Target, k: nat, req: Request, filtered: seq<Doc>,
                        answer: (nat, Request) -> Outcome, n: nat, prior: seq<Request>): Run<seq<Doc>>
  {
    match Reply(answer(n, req), req)
    case Raised(_) => FallbackSelect(collection, t, k, answer, n + 1, prior + [req])
    case Found(more) => Run(Ok(Take(SecondPass(more, t, k, filtered), k)), prior + [req])
  }

  /** The requests already sent only prefix the log of the exception path. */
  lemma FallbackSelectAfter(collection: string, t: Target, k: nat, answer: (nat, Request) -> Outcome,
                            n: nat, prior: seq<Request>)
    ensures var run := FallbackSelect(collection, t, k, answer, n, prior);
            var alone := FallbackSelect(collection, t, k, answer, n, []);
            run.result == alone.result && run.requests == prior + alone.requests
  {
  }

  /** The requests already sent only prefix the log of the second search. */
  lemma SecondSearchAfter(collection: string, t: Target, k: nat, req: Request, filtered: seq<Doc>,
                          answer: (nat, Request) -> Outcome, n: nat, prior: seq<Request>)
    ensures var run := SecondSearch(collection, t, k, req, filtered, answer, n, prior);
            var alone := SecondSearch(collection, t, k, req, filtered, answer, n, []);
            run.result == alone.result && run.requests == prior + alone.requests
  {
    FallbackSelectAfter(collection, t, k, answer, n + 1, prior + [req]);
    FallbackSelectAfter(collection, t, k, answer, n + 1, [req]);
  }

  /** `get_reviews_for_product(product_id, product_name, k)`: the records of
      the selected documents. */
  function ReviewsRun(collection: string, t: Target, k: nat, filter: Option<Filter>,
                      answer: (nat, Request) -> Outcome, n: nat): Run<seq<ReviewHit>>
  {
    var sel := SelectReviews(collection, t, k, filter, answer, n);
    match sel.result
    case Ok(docs) => Run(Ok(ReviewHitsOf(docs)), sel.requests)
    case Err(e) => Run(Err(e), sel.requests)
  }

  /** The first filter loop as written. */
  method FilterFirstPass(docs: seq<Doc>, t: Target, k: nat) returns (filtered: seq<Doc>)
    ensures filtered == FirstPass(docs, t, k, [])
  {
    filtered := [];
    var i := 0;
    while i < |docs|
      invariant 0 <= i <= |docs|
      invariant FirstPass(docs[i..], t, k, filtered) == FirstPass(docs, t, k, [])
    {
      var d := docs[i];
      ghost var before := filtered;
      if t.IdGiven() && Get(d.metadata, "product_id") == Str(t.productId.value) {
        filtered := filtered + [d];
      } else if t.NameGiven() && Get(d.metadata, "product_name") == Str(t.productName.value) {
        filtered := filtered + [d];
      }
      assert docs[i..][0] == d && docs[i..][1..] == docs[i + 1..];
      if |filtered| >= k {
        break;
      }
      i := i + 1;
    }
  }

  /** The second filter loop as written. */
  method FilterSecondPass(docs: seq<Doc>, t: Target, k: nat, filtered0: seq<Doc>) returns (filtered: seq<Doc>)
    ensures filtered == SecondPass(docs, t, k, filtered0)
  {
    filtered := filtered0;
    var i := 0;
    while i < |docs|
      invariant 0 <= i <= |docs|
      invariant SecondPass(docs[i..], t, k, filtered) == SecondPass(docs, t, k, filtered0)
    {
      var d := docs[i];
      assert docs[i..][0] == d && docs[i..][1..] == docs[i + 1..];
      if t.IdGiven() && Get(d.metadata, "product_id") == Str(t.productId.value) {
        if d !in filtered {
          filtered := filtered + [d];
        }
        if |filtered| >= k {
          break;
        }
      } else if t.NameGiven() && Get(d.metadata, "product_name") == Str(t.productName.value) {
        if d !in filtered {
          filtered := filtered + [d];
        }
        if |filtered| >= k {
          break;
        }
      }
      i := i + 1;
    }
  }

  /** The loop building the review records from `filtered[:k]`. */
  method BuildReviewHits(chosen: seq<Doc>) returns (results: seq<ReviewHit>)
    ensures results == ReviewHitsOf(chosen)
  {
    results := [];
    var i := 0;
    while i < |chosen|
      invariant 0 <= i <= |chosen|
      invariant results == ReviewHitsOf(chosen[..i])
    {
      assert ReviewHitsOf(chosen[..i + 1]) == ReviewHitsOf(chosen[..i]) + [ToReviewHit(chosen[i])];
      results := results + [ToReviewHit(chosen[i])];
      i := i + 1;
    }
    assert chosen[..i] == chosen;
  }

  /** `[x] + xs` cut to `n + 1` is `x` before `xs` cut to `n`. */
  lemma TakeCons<T>(x: T, xs: seq<T>, n: nat)
    ensures Take([x] + xs, n + 1) == [x] + Take(xs, n)
  {
    if n <= |xs| {
      assert ([x] + xs)[..n + 1] == [x] + xs[..n];
    }
  }

  /** With at least one slot free, the first loop collects the first
      accepted documents, up to the slots left. */
  lemma {:induction false} FirstPassTakesFirstMatches(docs: seq<Doc>, t: Target, k: nat, acc: seq<Doc>)
    requires |acc| < k
    ensures FirstPass(docs, t, k, acc) == acc + Take(Matches(t, docs), k - |acc|)
    decreases |docs|, 1
  {
    if docs != [] {
      if t.Accepts(docs[0]) {
        FirstPassAcceptedHead(docs, t, k, acc);
      } else {
        FirstPassRejectedHead(docs, t, k, acc);
      }
    }
  }

  /** The case of an accepted first document: it fills the next slot. */
  lemma {:induction false} FirstPassAcceptedHead(docs: seq<Doc>, t: Target, k: nat, acc: seq<Doc>)
    requires |acc| < k && docs != [] && t.Accepts(docs[0])
    ensures FirstPass(docs, t, k, acc) == acc + Take(Matches(t, docs), k - |acc|)
    decreases |docs|, 0
  {
    var d := docs[0];
    var rest := Matches(t, docs[1..]);
    var n := k - |acc| - 1;
    TakeMatchesAcceptedHead(docs, t, n);
    if |acc| + 1 < k {
      FirstPassTakesFirstMatches(docs[1..], t, k, acc + [d]);
      assert FirstPass(docs, t, k, acc) == FirstPass(docs[1..], t, k, acc + [d]);
      assert (acc + [d]) + Take(rest, n) == acc + ([d] + Take(rest, n));
    } else {
      assert FirstPass(docs, t, k, acc) == acc + [d];
      assert Take(rest, n) == [];
    }
  }

  /** The reference filter's first `n + 1` start with an accepted first
      document. */
  lemma TakeMatchesAcceptedHead(docs: seq<Doc>, t: Target, n: nat)
    requires docs != [] && t.Accepts(docs[0])
    ensures Take(Matches(t, docs), n + 1) == [docs[0]] + Take(Matches(t, docs[1..]), n)
  {
    assert Matches(t, docs) == [docs[0]] + Matches(t, docs[1..]);
    TakeCons(docs[0], Matches(t, docs[1..]), n);
  }

  /** The case of a rejected first document: it is skipped. */
  lemma {:induction false} FirstPassRejectedHead(docs: seq<Doc>, t: Target, k: nat, acc: seq<Doc>)
    requires |acc| < k && docs != [] && !t.Accepts(docs[0])
    ensures FirstPass(docs, t, k, acc) == acc + Take(Matches(t, docs), k - |acc|)
    decreases |docs|, 0
  {
    assert Matches(t, docs) == Matches(t, docs[1..]);
    FirstPassTakesFirstMatches(docs[1..], t, k, acc);
    assert FirstPass(docs, t, k, acc) == FirstPass(docs[1..], t, k, acc);
  }

  /** The first loop only ever appends accepted documents of `docs`. */
  lemma {:induction false} FirstPassAppendsMatches(docs: seq<Doc>, t: Target, k: nat, acc: seq<Doc>)
    ensures var r := FirstPass(docs, t, k, acc);
      acc <= r && forall i :: |acc| <= i < |r| ==> t.Accepts(r[i]) && r[i] in docs
  {
    if docs != [] {
      var acc' := if t.Accepts(docs[0]) then acc + [docs[0]] else acc;
      if |acc'| < k {
        FirstPassAppendsMatches(docs[1..], t, k, acc');
      }
    }
  }

  /** The second loop keeps what the first collected, in front, and after it
      appends only accepted documents of `docs` that were not yet collected,
      each at most once, never going past `k`. */
  lemma {:induction false} SecondPassAppendsNewMatches(docs: seq<Doc>, t: Target, k: nat, acc: seq<Doc>)
    requires |acc| < k
    ensures var r := SecondPass(docs, t, k, acc);
      && acc <= r
      && |r| <= k
      && (forall i :: |acc| <= i < |r| ==> t.Accepts(r[i]) && r[i] in docs && r[i] !in acc)
      && (forall i, j :: |acc| <= i < j < |r| ==> r[i] != r[j])
  {
    if docs != [] {
      var rest := SecondPass(docs[1..], t, k, acc);
      if t.Accepts(docs[0]) {
        var acc' := if docs[0] in acc then acc else acc + [docs[0]];
        if |acc'| < k {
          SecondPassAppendsNewMatches(docs[1..], t, k, acc');
        }
      } else {
        SecondPassAppendsNewMatches(docs[1..], t, k, acc);
      }
    }
  }

  /** When everything the second search returns that is accepted has
      already been collected, the second loop adds nothing. */
  lemma {:induction false} SecondPassNothingNew(docs: seq<Doc>, t: Target, k: nat, acc: seq<Doc>)
    requires forall d :: d in docs && t.Accepts(d) ==> d in acc
    ensures SecondPass(docs, t, k, acc) == acc
  {
    if docs != [] {
      SecondPassNothingNew(docs[1..], t, k, acc);
    }
  }

  /** Missing both identifiers raises ValueError before any search. */
  lemma MissingIdentityRaises(collection: string, t: Target, k: nat, filter: Option<Filter>,
                              answer: (nat, Request) -> Outcome, n: nat)
    requires !t.Identified()
    ensures ReviewsRun(collection, t, k, filter, answer, n) == Run(Err(ValueError("Provide product_id or product_name")), [])
  {
  }

  /** The fallback keeps at most `k` documents, all accepted. */
  lemma FallbackSelectsMatches(collection: string, t: Target, k: nat, answer: (nat, Request) -> Outcome,
                               n: nat, prior: seq<Request>)
    ensures var sel := FallbackSelect(collection, t, k, answer, n, prior);
      sel.result.Ok? ==> |sel.result.value| <= k && forall d :: d in sel.result.value ==> t.Accepts(d)
  {
    var req := Request(collection, t.FallbackText(), FALLBACK_POOL, None);
    if Reply(answer(n, req), req).Found? {
      var docs := Reply(answer(n, req), req).docs;
      FirstPassAppendsMatches(docs, t, k, []);
    }
  }

  /** Every selected review document is accepted by the id/name predicate,
      and there are at most `k` of them. */
  lemma SelectedReviewsMatchTarget(collection: string, t: Target, k: nat, filter: Option<Filter>,
                                   answer: (nat, Request) -> Outcome, n: nat)
    ensures var sel := SelectReviews(collection, t, k, filter, answer, n);
      sel.result.Ok? ==> |sel.result.value| <= k && forall d :: d in sel.result.value ==> t.Accepts(d)
  {
    if t.Identified() {
      var req := PrimaryRequest(collection, t, k, filter);
      FallbackSelectsMatches(collection, t, k, answer, n + 1, [req]);
      FallbackSelectsMatches(collection, t, k, answer, n + 2, [req, req]);
      if Reply(answer(n, req), req).Found? {
        var docs := Reply(answer(n, req), req).docs;
        var filtered := FirstPass(docs, t, k, []);
        FirstPassAppendsMatches(docs, t, k, []);
        if |filtered| < k && Reply(answer(n + 1, req), req).Found? {
          SecondPassAppendsNewMatches(Reply(answer(n + 1, req), req).docs, t, k, filtered);
        }
      }
    }
  }

  /** Every returned review comes from a document the id/name predicate
      accepts, carries that document's rating, and has no score; there are
      at most `k` of them. */
  lemma ReviewsMatchTarget(collection: string, t: Target, k: nat, filter: Option<Filter>,
                           answer: (nat, Request) -> Outcome, n: nat)
    ensures var run := ReviewsRun(collection, t, k, filter, answer, n);
      run.result.Ok? ==>
        && |run.result.value| <= k
        && forall h :: h in run.result.value ==>
             && t.Accepts(Doc(h.reviewText, h.metadata))
             && h.rating == Get(h.metadata, "rating")
             && h.score == None
  {
    var sel := SelectReviews(collection, t, k, filter, answer, n);
    SelectedReviewsMatchTarget(collection, t, k, filter, answer, n);
    if sel.result.Ok? {
      var chosen := sel.result.value;
      var hits := ReviewsRun(collection, t, k, filter, answer, n).result.value;
      assert hits == ReviewHitsOf(chosen);
      forall h | h in hits
        ensures t.Accepts(Doc(h.reviewText, h.metadata)) && h.rating == Get(h.metadata, "rating") && h.score == None
      {
        var i :| 0 <= i < |hits| && hits[i] == h;
        assert chosen[i] in chosen;
        assert Doc(h.reviewText, h.metadata) == chosen[i];
      }
    }
  }

  /** The first search uses the product name if given, else the id, asks for
      `k` and carries `filter`; a fallback search uses the name or "", asks for
      50 and carries no filter; no run issues more than three searches. */
  lemma ReviewRequestsIssued(collection: string, t: Target, k: nat, filter: Option<Filter>,
                             answer: (nat, Request) -> Outcome, n: nat)
    requires t.Identified()
    ensures var reqs := ReviewsRun(collection, t, k, filter, answer, n).requests;
      && 1 <= |reqs| <= 3
      && reqs[0] == Request(collection, if t.NameGiven() then t.productName.value else t.productId.value, k, filter)
      && forall i :: 0 <= i < |reqs| ==>
           reqs[i] == reqs[0] || reqs[i] == Request(collection, t.FallbackText(), 50, None)
  {
  }

  /** The two passes send the same request. When the store answers it the
      same way twice, the second pass never adds a review: the documents kept
      are the first `k` accepted documents of the one answer. */
  lemma RepeatedSearchAddsNothing(collection: string, t: Target, k: nat, filter: Option<Filter>,
                                  answer: (nat, Request) -> Outcome, n: nat)
    requires t.Identified()
    requires var req := PrimaryRequest(collection, t, k, filter);
             answer(n, req).Found? && answer(n + 1, req) == answer(n, req)
    ensures var req := PrimaryRequest(collection, t, k, filter);
            var docs := Reply(answer(n, req), req).docs;
            SelectReviews(collection, t, k, filter, answer, n).result == Ok(Take(Matches(t, docs), k))
  {
    var req := PrimaryRequest(collection, t, k, filter);
    var docs := Reply(answer(n, req), req).docs;
    var filtered := FirstPass(docs, t, k, []);
    if k == 0 {
      assert Take(filtered, k) == [] == Take(Matches(t, docs), k);
    } else {
      FirstPassTakesFirstMatches(docs, t, k, []);
      assert filtered == Take(Matches(t, docs), k);
      if |filtered| < k {
        assert filtered == Matches(t, docs);
        assert Reply(answer(n + 1, req), req) == Found(docs);
        SecondPassNothingNew(docs, t, k, filtered);
        assert Take(filtered, k) == filtered;
      } else {
        assert Take(filtered, k) == filtered;
      }
    }
  }
}
