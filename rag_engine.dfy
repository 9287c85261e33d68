/** `ml/rag_engine.py`: product and review retrieval over two Chroma
    collections whose embedding function and store handles are created on
    first use and cached in module globals. The globals are the fields of
    one `Engine`; the index behind the collections is the `Backend`. When a
    product id is given, the review search also carries the metadata filter
    `{"product_id": product_id}`. */
module RagEngine {
  import opened PyText
  import opened PyValue
  import opened VectorStore
  import opened Retrieval

  const PRODUCT_COLLECTION: string := "products"
  const REVIEW_COLLECTION: string := "reviews"
  const DEFAULT_PERSIST_DIR: string := "./chroma_db"
  const DEFAULT_EMBEDDING_MODEL: string := "all-MiniLM-L6-v2"

  /** `os.environ.get(key, default)`. */
  function EnvOr(env: map<string, string>, key: string, default: string): string {
    if key in env then env[key] else default
  }

  /** The store-side filter of the review search: by product id when one is
      given, none otherwise. */
  function ProductIdFilter(t: Target): (f: Option<Filter>)
    ensures f.Some? <==> t.IdGiven()
    ensures f.Some? ==> f.value.field == "product_id" && f.value.value == t.productId.value
  {
    if t.IdGiven() then Some(Filter("product_id", t.productId.value)) else None
  }

  /** The module state: configuration read once from the environment, the
      three lazily created handles, and ghost counts of how often each was
      created. */
  class Engine {
    const backend: Backend
    const persistDir: string
    const embeddingModel: string
    var embeddings: Option<Embeddings>
    var productStore: Option<Store>
    var reviewStore: Option<Store>
    ghost var embeddingLoads: nat
    ghost var productStoreOpens: nat
    ghost var reviewStoreOpens: nat

    /** A handle is created at most once; a cached store uses the cached
        embedding function, the configured directory and its collection. */
    ghost predicate Valid()
      reads this
    {
      && embeddingLoads == (if embeddings.Some? then 1 else 0)
      && productStoreOpens == (if productStore.Some? then 1 else 0)
      && reviewStoreOpens == (if reviewStore.Some? then 1 else 0)
      && (embeddings.Some? ==> embeddings.value == Embeddings(embeddingModel))
      && (productStore.Some? ==>
            embeddings.Some? && productStore.value == Store(PRODUCT_COLLECTION, embeddings.value, persistDir))
      && (reviewStore.Some? ==>
            embeddings.Some? && reviewStore.value == Store(REVIEW_COLLECTION, embeddings.value, persistDir))
    }

    /** Module import: read the configuration, create nothing yet. */
    constructor (env: map<string, string>, backend: Backend)
      ensures Valid()
      ensures this.backend == backend
      ensures persistDir == EnvOr(env, "CHROMA_PERSIST_DIR", DEFAULT_PERSIST_DIR)
      ensures embeddingModel == EnvOr(env, "EMBEDDING_MODEL", DEFAULT_EMBEDDING_MODEL)
      ensures embeddings == None && productStore == None && reviewStore == None
    {
      this.backend := backend;
      persistDir := EnvOr(env, "CHROMA_PERSIST_DIR", DEFAULT_PERSIST_DIR);
      embeddingModel := EnvOr(env, "EMBEDDING_MODEL", DEFAULT_EMBEDDING_MODEL);
      embeddings := None;
      productStore := None;
      reviewStore := None;
      embeddingLoads := 0;
      productStoreOpens := 0;
      reviewStoreOpens := 0;
    }

    /** `_get_embeddings()`: create the embedding function on first use,
        return the cached one afterwards. */
    method GetEmbeddings() returns (e: Embeddings)
      requires Valid()
      modifies this
      ensures Valid()
      ensures e == Embeddings(embeddingModel) && embeddings == Some(e)
      ensures old(embeddings).Some? ==> e == old(embeddings).value && embeddingLoads == old(embeddingLoads)
      ensures embeddingLoads == 1
      ensures productStore == old(productStore) && reviewStore == old(reviewStore)
      ensures productStoreOpens == old(productStoreOpens) && reviewStoreOpens == old(reviewStoreOpens)
    {
      if embeddings.None? {
        embeddings := Some(Embeddings(embeddingModel));
        embeddingLoads := embeddingLoads + 1;
      }
      e := embeddings.value;
    }

    /** `_get_product_store()`: open the product collection on first use. */
    method GetProductStore() returns (s: Store)
      requires Valid()
      modifies this
      ensures Valid()
      ensures s == Store(PRODUCT_COLLECTION, Embeddings(embeddingModel), persistDir)
      ensures productStore == Some(s) && productStoreOpens == 1
      ensures old(productStore).Some? ==>
                s == old(productStore).value && productStoreOpens == old(productStoreOpens)
                && embeddings == old(embeddings) && embeddingLoads == old(embeddingLoads)
      ensures reviewStore == old(reviewStore) && reviewStoreOpens == old(reviewStoreOpens)
      ensures embeddings.Some? && (old(embeddings).Some? ==> embeddings == old(embeddings))
    {
      if productStore.None? {
        var emb := GetEmbeddings();
        productStore := Some(Store(PRODUCT_COLLECTION, emb, persistDir));
        productStoreOpens := productStoreOpens + 1;
      }
      s := productStore.value;
    }

    /** `_get_review_store()`: open the review collection on first use. */
    method GetReviewStore() returns (s: Store)
      requires Valid()
      modifies this
      ensures Valid()
      ensures s == Store(REVIEW_COLLECTION, Embeddings(embeddingModel), persistDir)
      ensures reviewStore == Some(s) && reviewStoreOpens == 1
      ensures old(reviewStore).Some? ==>
                s == old(reviewStore).value && reviewStoreOpens == old(reviewStoreOpens)
                && embeddings == old(embeddings) && embeddingLoads == old(embeddingLoads)
      ensures productStore == old(productStore) && productStoreOpens == old(productStoreOpens)
      ensures embeddings.Some? && (old(embeddings).Some? ==> embeddings == old(embeddings))
    {
      if reviewStore.None? {
        var emb := GetEmbeddings();
        reviewStore := Some(Store(REVIEW_COLLECTION, emb, persistDir));
        reviewStoreOpens := reviewStoreOpens + 1;
      }
      s := reviewStore.value;
    }

    /** `get_top_products(query, k)`. A blank query touches neither the
        handles nor the index. */
    method GetTopProducts(query: string, k: nat) returns (r: Result<seq<ProductHit>>)
      requires Valid()
      modifies this, backend
      ensures Valid()
      ensures var run := TopProductsRun(PRODUCT_COLLECTION, query, k, backend.answer, |old(backend.log)|);
              r == run.result && backend.log == old(backend.log) + run.requests
      ensures IsBlank(query) ==> unchanged(this)
      ensures !IsBlank(query) ==> productStore.Some?
      ensures reviewStore == old(reviewStore)
    {
      if IsBlank(query) {
        return Ok([]);
      }
      var store := GetProductStore();
      var req := Request(store.collection, query, CANDIDATE_POOL, None);
      var out := backend.Search(req);
      match out
      case Raised(c) =>
        r := Err(StoreFailure(c));
      case Found(docs) =>
        var results := CandidateHits(docs);
        if results == [] {
          r := Err(KeyError("score"));
        } else {
          r := Ok(Take(DropDuplicateIds(results), k));
        }
    }

    /** The `except` branch: one unfiltered search for 50 neighbours with the
        name or "", then the first filter loop. */
    method FallbackReviews(store: Store, t: Target, k: nat) returns (r: Result<seq<Doc>>)
      requires store.collection == REVIEW_COLLECTION
      modifies backend
      ensures var run := FallbackSelect(REVIEW_COLLECTION, t, k, backend.answer, |old(backend.log)|, []);
              r == run.result && backend.log == old(backend.log) + run.requests
    {
      var out := backend.Search(Request(store.collection, t.FallbackText(), FALLBACK_POOL, None));
      match out
      case Raised(c) =>
        r := Err(StoreFailure(c));
      case Found(docs) =>
        var kept := FilterFirstPass(docs, t, k);
        r := Ok(Take(kept, k));
    }

    /** The `try` block up to `filtered[:k]`, falling back when a search
        raises: the review documents kept. */
    method SelectReviewDocs(store: Store, t: Target, k: nat) returns (r: Result<seq<Doc>>)
      requires store.collection == REVIEW_COLLECTION && t.Identified()
      modifies backend
      ensures var run := SelectReviews(REVIEW_COLLECTION, t, k, ProductIdFilter(t), backend.answer, |old(backend.log)|);
              r == run.result && backend.log == old(backend.log) + run.requests
    {
      var req := Request(store.collection, t.QueryText(), k, ProductIdFilter(t));
      var out := backend.Search(req);
      r := FinishFirstAttempt(store, t, k, req, out);
      FirstAttemptAfter(REVIEW_COLLECTION, t, k, req, out, backend.answer, |old(backend.log)| + 1, [req]);
    }

    /** The rest of the `try` block once the first search answered `out`. */
    method FinishFirstAttempt(store: Store, t: Target, k: nat, req: Request, out: Outcome) returns (r: Result<seq<Doc>>)
      requires store.collection == REVIEW_COLLECTION
      modifies backend
      ensures var run := FirstAttempt(REVIEW_COLLECTION, t, k, req, out, backend.answer, |old(backend.log)|, []);
              r == run.result && backend.log == old(backend.log) + run.requests
    {
      if out.Raised? {
        r := FallbackReviews(store, t, k);
        return;
      }
      var filtered := FilterFirstPass(out.docs, t, k);
      if |filtered| < k {
        r := RepeatSearch(store, t, k, req, filtered);
      } else {
        r := Ok(Take(filtered, k));
      }
    }

    /** The same search sent a second time when the first pass kept fewer
        than `k`, then the second filter loop; falls back when it raises. */
    method RepeatSearch(store: Store, t: Target, k: nat, req: Request, filtered: seq<Doc>) returns (r: Result<seq<Doc>>)
      requires store.collection == REVIEW_COLLECTION
      modifies backend
      ensures var run := SecondSearch(REVIEW_COLLECTION, t, k, req, filtered, backend.answer, |old(backend.log)|, []);
              r == run.result && backend.log == old(backend.log) + run.requests
    {
      var more := backend.Search(req);
      if more.Raised? {
        r := FallbackReviews(store, t, k);
        FallbackSelectAfter(REVIEW_COLLECTION, t, k, backend.answer, |old(backend.log)| + 1, [req]);
        return;
      }
      var kept := FilterSecondPass(more.docs, t, k, filtered);
      r := Ok(Take(kept, k));
    }

    /** `get_reviews_for_product(product_id, product_name, k)`, including the
        fallback search taken when anything in the first attempt raises. */
    method GetReviewsForProduct(productId: Option<string>, productName: Option<string>, k: nat)
      returns (r: Result<seq<ReviewHit>>)
      requires Valid()
      modifies this, backend
      ensures Valid()
      ensures var t := Target(productId, productName);
              var run := ReviewsRun(REVIEW_COLLECTION, t, k, ProductIdFilter(t), backend.answer, |old(backend.log)|);
              r == run.result && backend.log == old(backend.log) + run.requests
      ensures !Target(productId, productName).Identified() ==> unchanged(this)
      ensures Target(productId, productName).Identified() ==> reviewStore.Some?
      ensures productStore == old(productStore)
    {
      var t := Target(productId, productName);
      if !t.Identified() {
        return Err(ValueError("Provide product_id or product_name"));
      }
      var store := GetReviewStore();
      var selected := SelectReviewDocs(store, t, k);
      match selected
      case Err(e) =>
        r := Err(e);
      case Ok(chosen) =>
        var results := BuildReviewHits(chosen);
        r := Ok(results);
    }
  }

  /** When the index holds at least `k` documents of the given product id
      among its raw answer, the filtered search alone fills all `k` slots:
      one request, and the result is the first `k` documents that pass the
      store-side filter. */
  lemma FilteredSearchFillsK(t: Target, k: nat, answer: (nat, Request) -> Outcome, n: nat)
    requires t.IdGiven()
    requires var req := PrimaryRequest(REVIEW_COLLECTION, t, k, ProductIdFilter(t));
             answer(n, req).Found? && |KeepPassing(answer(n, req).docs, ProductIdFilter(t))| >= k
    ensures var req := PrimaryRequest(REVIEW_COLLECTION, t, k, ProductIdFilter(t));
            var run := SelectReviews(REVIEW_COLLECTION, t, k, ProductIdFilter(t), answer, n);
            && run.requests == [req]
            && run.result == Ok(Take(KeepPassing(answer(n, req).docs, ProductIdFilter(t)), k))
            && |run.result.value| == k
  {
    var f := ProductIdFilter(t);
    var req := PrimaryRequest(REVIEW_COLLECTION, t, k, f);
    var docs := Reply(answer(n, req), req).docs;
    assert docs == Take(KeepPassing(answer(n, req).docs, f), k);
    forall d | d in docs ensures t.Accepts(d) {
      assert Passes(d, f);
    }
    MatchesOfAccepted(t, docs);
    if k > 0 {
      FirstPassTakesFirstMatches(docs, t, k, []);
      assert FirstPass(docs, t, k, []) == docs;
    } else {
      assert docs == [];
    }
    assert Take(docs, k) == docs;
  }
}
