/** The vector index as the retrieval code sees it: documents with metadata,
    search requests, and a backend whose answers are an oracle. The embedding
    model, the Chroma collections and nearest-neighbour ranking are not
    modelled; what a search returns is whatever the oracle says, cut down to
    the request's filter and `k`. */
module VectorStore {
  import opened PyValue

  /** A metadata dict as stored with a document. */
  type Metadata = map<string, Value>

  /** A LangChain `Document`: page content and metadata. Two documents are
      equal when both parts are equal, as with the library's `==`. */
  datatype Doc = Doc(pageContent: string, metadata: Metadata)

  /** An equality filter on one metadata field, `{"product_id": pid}`. */
  datatype Filter = Filter(field: string, value: string)

  /** One search against a collection: query text, number of neighbours,
      optional metadata filter. */
  datatype Request = Request(collection: string, query: string, k: nat, filter: Option<Filter>)

  /** What a search gives back: ranked documents, or an exception. */
  datatype Outcome = Found(docs: seq<Doc>) | Raised(cause: string)

  /** The embedding function handle (`HuggingFaceEmbeddings(model_name=...)`). */
  datatype Embeddings = Embeddings(modelName: string)

  /** A Chroma collection handle. */
  datatype Store = Store(collection: string, embedding: Embeddings, persistDir: string)

  predicate Passes(d: Doc, filter: Option<Filter>) {
    filter.None? || Get(d.metadata, filter.value.field) == Str(filter.value.value)
  }

  function KeepPassing(docs: seq<Doc>, filter: Option<Filter>): (r: seq<Doc>)
    ensures |r| <= |docs|
    ensures forall d :: d in r <==> d in docs && Passes(d, filter)
  {
    if docs == [] then []
    else (if Passes(docs[0], filter) then [docs[0]] else []) + KeepPassing(docs[1..], filter)
  }

  /** The answer to the `n`-th request issued to the backend, when the
      backend's raw answer to it is `raw`: an error stays an error, and
      documents are restricted to the filter and to at most `k`. */
  function Reply(raw: Outcome, req: Request): (r: Outcome)
    ensures r.Found? <==> raw.Found?
    ensures r.Found? ==> |r.docs| <= req.k
    ensures r.Found? ==> forall d :: d in r.docs ==> d in raw.docs && Passes(d, req.filter)
  {
    match raw
    case Raised(c) => Raised(c)
    case Found(docs) => Found(Take(KeepPassing(docs, req.filter), req.k))
  }

  /** The persisted index behind every collection handle. `answer(n, req)` is
      the index's raw answer to the `n`-th request of the process, so two
      identical requests may be answered differently; `log` is the list of
      requests issued so far. */
  class Backend {
    const answer: (nat, Request) -> Outcome
    var log: seq<Request>

    constructor (answer: (nat, Request) -> Outcome)
      ensures this.answer == answer && log == []
    {
      this.answer := answer;
      log := [];
    }

    /** `similarity_search` / `get_relevant_documents`: issue one request. */
    method Search(req: Request) returns (out: Outcome)
      modifies this
      ensures log == old(log) + [req]
      ensures out == Reply(answer(|old(log)|, req), req)
    {
      out := Reply(answer(|log|, req), req);
      log := log + [req];
    }
  }
}
