# Sentiment assistant retrieval and document preparation, in Dafny

This project models the core of the agentic AI sentiment assistant. The
assistant answers questions about products from a vector index of product
summaries and review snippets, and the core has two halves.

- **Retrieval** (`ml/rag_engine.py` and its earlier copy
  `backend/routes/rag.py`).
  - `get_top_products` takes 20 candidate product documents for a query,
    drops repeated product ids (keeping the first) and returns the first `k`.
  - `get_reviews_for_product` searches the review collection. It filters
    the answer client-side by product id or name in two passes. When
    anything in that attempt raises, it falls back to a 50-neighbour search.
  - Embedding function and store handles are created on first use and
    cached.
- **Offline preparation scripts**.
  - `scripts/prepare_docs.py` builds one summary document per product name
    and one snippet row per review with text.
  - `scripts/sentiment_prepare_docs.py` adds sentiment label counts,
    percentages and a lookup from product id to those statistics.
  - `scripts/chunk_docs.py` and `scripts/sentiment_chunk_docs.py` split
    texts into chunks with derived chunk ids.
  - `ml/embedder.py` normalises missing values and builds the metadata dicts
    stored with each chunk.
  - `ml/analyze_reviews.py` picks the text column and cleans review text.

The vector index is a `VectorStore.Backend` object. It has an oracle
`answer(n, request)` for the `n`-th request of the process and a log of the
requests issued. Every retrieval operation is a method of an `Engine` class
whose fields are the module's cached globals. Each method is proved equal to a
specification function (`Retrieval.TopProductsRun`, `Retrieval.ReviewsRun`)
that gives the result and the exact list of requests sent. The properties
are lemmas about those functions.

The preparation scripts are loops that append to lists. They are methods
proved equal to functions over the rows; the properties are lemmas about
the functions. Pandas cells are the dynamic `PyValue.Value` (None, NaN,
string, int, float with its printed form, bool). A frame is its column
labels plus rows mapping column names to cells.

Modules, one per file:

- `py_text`, `py_value`, `grouping`: the Python `str`, truthiness, `dict.get`
  and `groupby` key-order behaviour the code relies on.
- `vector_store`: the index oracle.
- `retrieval`: the shared specification of both retrieval copies.
- `rag_engine`, `routes_rag`: the two module states.
- `prepare_docs`, `sentiment_prepare_docs`, `chunk_docs`,
  `sentiment_chunk_docs`, `embedder`, `analyze_reviews`: one per script.

The text splitter and md5 are function parameters (`Splitter`, `md5Hex`).

Behaviour follows the code wherever a reading of its intent would differ:

- The second review pass sends the very same request as the first, with
  the same `k`.
- "Already collected" in the second pass is value equality of documents, as
  the library's `==` on documents is.
- The `sort_values("score")` before de-duplication reorders nothing, because
  every score is None.
- An empty candidate list makes that sort raise (`KeyError("score")`) instead
  of returning `[]`.
- A missing product id is one NaN value. `read_csv` fills every empty cell
  of the string `id` column with the same NaN object, and `dict.get` tries
  identity before `==`, so a review without an id finds the statistics
  stored under the NaN id of the last such document rather than zeros.

## Model

| member | source | states |
|---|---|---|
| RagEngine.Engine.constructor | ml/rag_engine.py:67-74 | persist directory and model name come from the environment with their defaults; no handle is created at import |
| RagEngine.Engine.GetEmbeddings | ml/rag_engine.py:77-81 | the embedding function is created on the first call only and the cached one is returned afterwards; the store handles are untouched |
| RagEngine.Engine.GetProductStore | ml/rag_engine.py:84-89 | the product collection is opened at most once, with the cached embedding function and the configured directory; later calls return the cached handle |
| RagEngine.Engine.GetReviewStore | ml/rag_engine.py:92-97 | the same init-once cache for the review collection |
| RagEngine.Engine.GetTopProducts | ml/rag_engine.py:100-139 | result and issued requests are exactly those of `TopProductsRun`; a blank query changes no state, any other opens the product store |
| RagEngine.Engine.GetReviewsForProduct | ml/rag_engine.py:141-221 | result and issued requests are exactly those of `ReviewsRun` with the product-id filter; without id and name nothing is touched, otherwise the review store is opened |
| RagEngine.Engine.SelectReviewDocs | ml/rag_engine.py:156-198 | the `try` block up to `filtered[:k]`, including the fallback, equals `SelectReviews` with the product-id filter |
| RagEngine.Engine.FinishFirstAttempt | ml/rag_engine.py:168-198 | after the first answer: the fallback if it raised, else the first loop and, when it kept fewer than `k`, the repeated search |
| RagEngine.Engine.RepeatSearch | ml/rag_engine.py:181-198 | the repeated search sends the first request again; it runs the second loop over the answer, or falls back when the search raises |
| RagEngine.Engine.FallbackReviews | ml/rag_engine.py:208-221 | the exception path sends one unfiltered request for 50 neighbours with the name or "", then runs the first loop |
| RagEngine.ProductIdFilter | ml/rag_engine.py:159-164 | the store-side filter is `{"product_id": id}` exactly when a non-empty id is given |
| RagEngine.FilteredSearchFillsK | ml/rag_engine.py:159-178 | when the filtered answer holds at least `k` documents, one request suffices and the result is its first `k` documents |
| RoutesRag.Engine.constructor | backend/routes/rag.py:84-93 | configuration from the environment, nothing created yet |
| RoutesRag.Engine.GetEmbeddings | backend/routes/rag.py:96-100 | the embedding function is created at most once and then cached |
| RoutesRag.Engine.GetProductStore | backend/routes/rag.py:103-108 | the `product_docs` handle is created at most once and then cached |
| RoutesRag.Engine.GetReviewStore | backend/routes/rag.py:111-116 | the `review_snippets` handle is created at most once and then cached |
| RoutesRag.Engine.GetTopProducts | backend/routes/rag.py:119-155 | result and requests equal `TopProductsRun` over `product_docs` |
| RoutesRag.Engine.GetReviewsForProduct | backend/routes/rag.py:157-230 | result and requests equal `ReviewsRun` with no store-side filter |
| RoutesRag.Engine.SelectReviewDocs | backend/routes/rag.py:172-207 | the `try` block with the unfiltered retriever, including the fallback, equals `SelectReviews` with no filter |
| RoutesRag.Engine.FinishFirstAttempt | backend/routes/rag.py:177-207 | the rest of the first attempt after the first answer |
| RoutesRag.Engine.RepeatSearch | backend/routes/rag.py:190-207 | the repeated identical search and the second loop, or the fallback |
| RoutesRag.Engine.FallbackReviews | backend/routes/rag.py:217-230 | the 50-neighbour search with the name or "", filtered client-side, cut at `k` |
| RoutesRag.ShortAnswerRepeatsRequest | backend/routes/rag.py:175-192 | without a filter, an answer with fewer than `k` accepted documents makes the same request go out a second time |
| VectorStore.Backend.Search | ml/rag_engine.py:164-167 | one search appends its request to the log; it answers an error or at most `k` documents that pass the request's filter |
| VectorStore.Reply | ml/rag_engine.py:159-167 | a served answer has at most `k` documents, each from the index and passing the filter; an error stays an error |
| VectorStore.KeepPassing | ml/rag_engine.py:162-163 | the filter keeps exactly the documents whose metadata field equals the filter value |
| Retrieval.CandidateHits | ml/rag_engine.py:115-128 | the candidate loop builds one record per document, in order |
| Retrieval.BlankQueryIssuesNoSearch | ml/rag_engine.py:107-108 | an empty or whitespace-only query returns `[]` and sends no request |
| Retrieval.CandidatePoolIsTwenty | ml/rag_engine.py:110-113 | any other query sends exactly one unfiltered request for 20 candidates, whatever `k` is |
| Retrieval.NoCandidatesRaises | ml/rag_engine.py:131-134 | with no candidates the frame has no `score` column and the sort raises a KeyError instead of returning `[]` |
| Retrieval.TopProductsAreFirstDistinct | ml/rag_engine.py:117-137 | at most `k` hits with pairwise distinct ids (None counting as one id); each is the record of the first candidate with its id, with that document's id, name and content and no score |
| Retrieval.TopProductsInCandidateOrder | ml/rag_engine.py:127-134 | hits keep the order in which their ids first occur among the candidates (the sort on all-None scores reorders nothing) |
| Retrieval.TopProductsCoverAllIds | ml/rag_engine.py:134-137 | when `k` is at least the number of distinct ids, every candidate id is represented |
| Retrieval.DropDuplicatesKeepsFirst | ml/rag_engine.py:134 | de-duplication keeps, for every id, exactly its first record, and keeps them in first-occurrence order |
| Retrieval.MissingIdentityRaises | ml/rag_engine.py:151-152 | without a non-empty id or name, ValueError is raised before any request |
| Retrieval.ReviewRequestsIssued | ml/rag_engine.py:159-211 | the first request uses the name if given, else the id, with `k` and the filter; any other is that same request or the 50-neighbour fallback with the name or ""; at most three requests in all |
| Retrieval.SelectedReviewsMatchTarget | ml/rag_engine.py:168-198 | every kept document satisfies the id/name predicate and there are at most `k` |
| Retrieval.ReviewsMatchTarget | ml/rag_engine.py:168-221 | every returned review comes from an accepted document, carries its rating and has score None; at most `k` of them |
| Retrieval.FallbackSelectsMatches | ml/rag_engine.py:208-221 | the fallback keeps at most `k` documents, all accepted |
| Retrieval.FilterFirstPass | ml/rag_engine.py:168-178 | the first loop as written, with its break, computes `FirstPass` |
| Retrieval.FilterSecondPass | ml/rag_engine.py:181-195 | the second loop as written, with its membership test and breaks, computes `SecondPass` |
| Retrieval.BuildReviewHits | ml/rag_engine.py:197-205 | one record per kept document, in order, with the document's content and rating and no score |
| Retrieval.FirstPassTakesFirstMatches | ml/rag_engine.py:168-178 | the first loop collects exactly the first accepted documents, up to the free slots |
| Retrieval.FirstPassAppendsMatches | ml/rag_engine.py:168-178 | the first loop only appends accepted documents of the answer |
| Retrieval.SecondPassAppendsNewMatches | ml/rag_engine.py:181-195 | the second loop keeps the first-pass documents in front and appends only accepted documents not yet collected, each once, never past `k` |
| Retrieval.SecondPassNothingNew | ml/rag_engine.py:183-195 | when every accepted document of the repeated answer is already collected, the second loop adds nothing |
| Retrieval.RepeatedSearchAddsNothing | ml/rag_engine.py:167-198 | when the index answers the repeated request as before, the result is the first `k` accepted documents of that one answer |
| Retrieval.MatchesOfAccepted | ml/rag_engine.py:168-175 | when every document passes the predicate, the reference filter keeps them all |
| Retrieval.FirstAttemptAfter | ml/rag_engine.py:156-206 | the requests already sent only prefix the log of the rest of the attempt; the result does not depend on them |
| Retrieval.SecondSearchAfter | ml/rag_engine.py:181-195 | the same for the repeated search |
| Retrieval.FallbackSelectAfter | ml/rag_engine.py:208-221 | the same for the exception path |
| PrepareDocs.CleanRows | scripts/prepare_docs.py:21-24 | filling fails with a KeyError exactly when the review or the name column is missing (the review column first); otherwise one cleaned row per row |
| PrepareDocs.FillStr | scripts/prepare_docs.py:22-23 | a missing cell becomes the fill value and any other its string form |
| PrepareDocs.MissingNameIsUnknownProduct | scripts/prepare_docs.py:23 | a missing product name becomes "Unknown Product" |
| PrepareDocs.BuildProductDoc | scripts/prepare_docs.py:28-34 | the body of the groupby loop builds the document of one group |
| PrepareDocs.BuildProductDocs | scripts/prepare_docs.py:26-34 | the groupby loop produces `ProductDocs`, one document per group in key order |
| PrepareDocs.BuildReviewSnippets | scripts/prepare_docs.py:43-50 | the row loop produces `ReviewSnippets` |
| PrepareDocs.PrepareDocuments | scripts/prepare_docs.py:21-50 | the script's two outputs, or the KeyError of a missing column |
| PrepareDocs.OneDocPerName | scripts/prepare_docs.py:27-34 | exactly one document per distinct product name, in ascending name order |
| PrepareDocs.DocContextIsFirstReviews | scripts/prepare_docs.py:29-33 | a document's context joins at most the first 10 review texts of its product in frame order, in the summary format, and its id is the first 12 characters of md5 of the name |
| PrepareDocs.DocIdIsNameId | scripts/prepare_docs.py:33 | a document's id is derived from its own name |
| PrepareDocs.SnippetIdsMatchDocs | scripts/prepare_docs.py:33-46 | every snippet's id and name are those of a product document, since both ids come from the same name |
| PrepareDocs.SnippetsComeFromRows | scripts/prepare_docs.py:44-50 | a snippet exists exactly for each row with non-empty stripped text, with that text and the row's rating |
| PrepareDocs.SnippetsPreserveOrder | scripts/prepare_docs.py:44-50 | snippets follow row order: the rows of `a + b` give those of `a`, then those of `b` |
| PrepareDocs.SnippetTextIsStripped | scripts/prepare_docs.py:47-49 | a stored review text is non-empty and already stripped |
| SentimentPrepareDocs.InferLabelFromScore | scripts/sentiment_prepare_docs.py:39-48 | an inferred label is always one of the three classes |
| SentimentPrepareDocs.InferLabelThresholds | scripts/sentiment_prepare_docs.py:33-48 | positive exactly from 0.05 up, negative exactly from -0.05 down, neutral strictly between; NaN is neutral and None gives no label |
| SentimentPrepareDocs.NormalizeLabel | scripts/sentiment_prepare_docs.py:68-74 | every normalised label is one of the three classes |
| SentimentPrepareDocs.NormalizeLabelKeepsOrInfers | scripts/sentiment_prepare_docs.py:69-74 | a label that strips and lower-cases to a class is kept; otherwise the inferred label, or neutral when there is none |
| SentimentPrepareDocs.NormalizeOne | scripts/sentiment_prepare_docs.py:69-74 | the loop body computes `NormalizeLabel` |
| SentimentPrepareDocs.NormalizeLabels | scripts/sentiment_prepare_docs.py:67-74 | the loop over `zip(labels, scores)` yields the normalised labels, all of them classes |
| SentimentPrepareDocs.NormalizedLabelsAreClasses | scripts/sentiment_prepare_docs.py:67-74 | every element of the normalised list is one of the three classes |
| SentimentPrepareDocs.CountsPartition | scripts/sentiment_prepare_docs.py:77-85 | when every label is a class, the three counts add up to the number of labels |
| SentimentPrepareDocs.DocStatsCoverGroup | scripts/sentiment_prepare_docs.py:76-105 | each document's counts add up to its group size, `num_reviews_used` is that size (at least 1), the percentages add up to 100, and its id is the first row's `id` |
| SentimentPrepareDocs.SentimentDocContext | scripts/sentiment_prepare_docs.py:53-55 | a document's context joins at most the first 10 review texts of its group, in the summary format |
| SentimentPrepareDocs.PctsAddUp | scripts/sentiment_prepare_docs.py:79-88 | percentages of counts that add up to the total add up to 100 |
| SentimentPrepareDocs.ScoreValues | scripts/sentiment_prepare_docs.py:92 | the usable scores are at most as many as the scores |
| SentimentPrepareDocs.BuildDoc | scripts/sentiment_prepare_docs.py:52-106 | the groupby loop body computes `DocFor` for the group |
| SentimentPrepareDocs.BuildDocs | scripts/sentiment_prepare_docs.py:50-106 | the groupby loop computes `SentimentDocs`, stopping at the first KeyError |
| SentimentPrepareDocs.DocsForStep | scripts/sentiment_prepare_docs.py:51-106 | one more group extends the documents by its document, or fails with its error |
| SentimentPrepareDocs.DocsForErrorSticks | scripts/sentiment_prepare_docs.py:51-106 | once a group fails, the whole loop fails with that error |
| SentimentPrepareDocs.DocsForShape | scripts/sentiment_prepare_docs.py:51-106 | a successful loop yields one document per key, each that key's group's document |
| SentimentPrepareDocs.BuildStatsMap | scripts/sentiment_prepare_docs.py:149-164 | the loop filling `stats_map` computes `StatsMapOf` |
| SentimentPrepareDocs.StatsMapKeys | scripts/sentiment_prepare_docs.py:149-155 | the map holds exactly the documents' product ids |
| SentimentPrepareDocs.StatsMapLastDocWins | scripts/sentiment_prepare_docs.py:150-164 | each id maps to the statistics of the last document carrying it |
| SentimentPrepareDocs.StatsFor | scripts/sentiment_prepare_docs.py:175-184 | the lookup gives the stored statistics when the id is a key, a missing (NaN) id included, and the zero fallback otherwise |
| SentimentPrepareDocs.ReviewGetsLastDocStats | scripts/sentiment_prepare_docs.py:150-184 | a review gets the statistics of the last document carrying its id; a review with no id gets those of the last document whose id was missing |
| SentimentPrepareDocs.MissingProductGetsZeroStats | scripts/sentiment_prepare_docs.py:175-184 | a review whose id has no statistics gets zero counts and percentages and None average and review count |
| SentimentPrepareDocs.BuildReview | scripts/sentiment_prepare_docs.py:169-206 | the row loop body computes `ReviewFor` |
| SentimentPrepareDocs.BuildReviews | scripts/sentiment_prepare_docs.py:167-206 | the row loop computes `ReviewsFor`, stopping at the first KeyError |
| SentimentPrepareDocs.ReviewsForStep | scripts/sentiment_prepare_docs.py:168-206 | one more row appends its review, or fails with its error |
| SentimentPrepareDocs.ReviewsForErrorSticks | scripts/sentiment_prepare_docs.py:168-206 | once a row fails, the whole loop fails with that error |
| SentimentPrepareDocs.KeepIn | scripts/sentiment_prepare_docs.py:218 | the existing listed columns are exactly the listed ones that are columns |
| SentimentPrepareDocs.DropIn | scripts/sentiment_prepare_docs.py:219 | the other columns are exactly the columns not already taken |
| SentimentPrepareDocs.FinalColumns | scripts/sentiment_prepare_docs.py:211-220 | the final columns are exactly the frame's columns |
| SentimentPrepareDocs.FinalColumnsArePermutation | scripts/sentiment_prepare_docs.py:211-221 | for distinct labels the final columns are a permutation of the frame's, with the listed ones first in listed order |
| SentimentPrepareDocs.ReorderIsPermutation | scripts/sentiment_prepare_docs.py:218-220 | listed-then-other reordering is a permutation that starts with the listed columns present |
| SentimentPrepareDocs.ReviewTableKeepsOrder | scripts/sentiment_prepare_docs.py:190-221 | the review table built from the row dicts already has the listed order, which reordering keeps |
| SentimentPrepareDocs.PrepareSentimentDocuments | scripts/sentiment_prepare_docs.py:22-221 | the script's documents, review rows and column order, or the first KeyError |
| ChunkDocs.ChunkId | scripts/chunk_docs.py:21 | a chunk id is the product id followed by `_c` and the chunk index |
| ChunkDocs.ChunkIdsDiffer | scripts/chunk_docs.py:17-21 | two chunks of one row never share an id |
| ChunkDocs.TextOf | scripts/chunk_docs.py:16 | only a string cell can be split; anything else is a TypeError |
| ChunkDocs.ChunkProductRow | scripts/chunk_docs.py:16-23 | the inner loop computes the product row's chunks |
| ChunkDocs.ChunkProducts | scripts/chunk_docs.py:14-23 | the product loop computes the chunks of all rows, in row order |
| ChunkDocs.ChunkReviewRow | scripts/chunk_docs.py:33-41 | the inner loop computes the review row's chunks |
| ChunkDocs.ChunkReviews | scripts/chunk_docs.py:31-41 | the review loop computes the chunks of all rows, in row order |
| ChunkDocs.ProductRowChunks | scripts/chunk_docs.py:15-23 | one output row per chunk, in chunk order, with the row's id and name and distinct chunk ids |
| ChunkDocs.ReviewRowChunks | scripts/chunk_docs.py:32-41 | one output row per chunk with the row's id, name and rating and distinct chunk ids |
| ChunkDocs.NonTextReviewStopsRun | scripts/chunk_docs.py:32-33 | a non-string review text stops the loop at that row with a TypeError |
| ChunkDocs.ChunksFollowRowOrder | scripts/chunk_docs.py:14-23 | the chunks of the rows before row `i`, then row `i`'s own, form a prefix of the output |
| SentimentChunkDocs.ReviewChunkIdsDiffer | scripts/sentiment_chunk_docs.py:80-85 | two chunks of one review never share an id, whether or not the review id is used |
| SentimentChunkDocs.NaNReviewIdIsWritten | scripts/sentiment_chunk_docs.py:82-83 | a NaN review id is not None and not blank, so it is written into the chunk id as `_rnan` |
| SentimentChunkDocs.ReviewIdFallsBack | scripts/sentiment_chunk_docs.py:78 | the review id is `review_id`, else `reviews.id`, else `id` when present, else None |
| SentimentChunkDocs.ProductChunksShareRowFields | scripts/sentiment_chunk_docs.py:15-50 | one chunk per piece of the row's text, each carrying the row's product id and name, the chunk id `{product_id}_c{j}` and the row's sentiment fields, with distinct ids; a count comes from its short column when present, else from its `_count` column |
| SentimentChunkDocs.ReviewChunksShareRowFields | scripts/sentiment_chunk_docs.py:59-106 | a review row with string text yields one chunk per piece, all with the row's product id, product name, rating, sentiment fields and review id (None where a column is missing), and chunk ids as constructed and distinct |
| SentimentChunkDocs.ChunkProductRow | scripts/sentiment_chunk_docs.py:16-50 | the inner loop computes the product row's chunks |
| SentimentChunkDocs.ChunkProducts | scripts/sentiment_chunk_docs.py:14-50 | the product loop computes all chunks in row order |
| SentimentChunkDocs.ChunkReviewRow | scripts/sentiment_chunk_docs.py:60-106 | the review row's chunks, with fields and ids read once for the row |
| SentimentChunkDocs.LabelReviewChunks | scripts/sentiment_chunk_docs.py:80-106 | the inner loop labels chunk `i` with `ReviewChunkId(pid, rid, i)` and the row's fields |
| SentimentChunkDocs.ChunkReviews | scripts/sentiment_chunk_docs.py:58-106 | the review loop computes all chunks in row order |
| Embedder.SafeNone | ml/embedder.py:19-25 | NaN and None become None, blank strings become None, everything else is unchanged |
| Embedder.SafeNoneNormalises | ml/embedder.py:19-25 | the result is never NaN or blank, and normalising twice changes nothing |
| Embedder.CountFallsThroughFalsy | ml/embedder.py:33 | the `or` chain takes the first truthy alternative, so a 0 count falls through; a NaN count is truthy and becomes None |
| Embedder.TextLength | ml/embedder.py:42 | `chunk_length` is the text's length, 0 without the column |
| Embedder.SentimentMeta | ml/embedder.py:33-40 | the shared sentiment entries have exactly the eight sentiment keys |
| Embedder.ProductIdentityMeta | ml/embedder.py:29-31 | the identifying product entries have exactly their three keys |
| Embedder.ReviewIdentityMeta | ml/embedder.py:63-70 | the per-review entries have exactly their seven keys |
| Embedder.BuildProductMeta | ml/embedder.py:27-43 | building succeeds exactly when the text length can be taken |
| Embedder.BuildReviewMeta | ml/embedder.py:61-81 | building succeeds exactly when the text length can be taken |
| Embedder.ProductMetaKeys | ml/embedder.py:28-43 | the product dict has exactly the product keys, 12 of them, whatever the row's columns |
| Embedder.ReviewMetaKeys | ml/embedder.py:62-81 | the review dict has exactly the review keys, 16 of them, whatever the row's columns |
| Embedder.ProductMetaLength | ml/embedder.py:42 | the product dict's `chunk_length` is the measured text length |
| Embedder.ReviewMetaLength | ml/embedder.py:80 | the review dict's `chunk_length` is the measured text length |
| Embedder.ProductMetaKeyCount | ml/embedder.py:28-43 | product metadata has exactly 12 keys |
| Embedder.ReviewMetaKeyCount | ml/embedder.py:62-81 | review metadata has exactly 16 keys |
| Embedder.SentimentKeyCount | ml/embedder.py:33-40 | eight sentiment keys are shared |
| Embedder.ReviewIdentityKeyCount | ml/embedder.py:63-70 | seven keys identify a review chunk |
| Embedder.Texts | ml/embedder.py:45 | one text per row, the string form of its text cell, or a KeyError without the column |
| Embedder.Metas | ml/embedder.py:47 | a successful metadata list has one dict per row |
| Embedder.MetasAlign | ml/embedder.py:47 | the list succeeds exactly when every row's dict does, and holds the dicts in row order |
| Embedder.ChunkLengthIsTextLength | ml/embedder.py:42 | a measured `chunk_length` equals the length of the text handed to the index |
| Embedder.TextsAlignWithMetas | ml/embedder.py:45-47 | texts and product metadata have equal length and line up row by row, each `chunk_length` the length of its text |
| Embedder.ReviewTextsAlignWithMetas | ml/embedder.py:82-83 | the same alignment for the review collection |
| AnalyzeReviews.FindTextColumn | ml/analyze_reviews.py:9-19 | a returned name is always a column |
| AnalyzeReviews.FirstListed | ml/analyze_reviews.py:12-14 | the chosen candidate is listed and present; there is none exactly when no candidate is present |
| AnalyzeReviews.FirstObject | ml/analyze_reviews.py:16-18 | the chosen column has object dtype; there is none exactly when no column has |
| AnalyzeReviews.FirstListedIsEarliest | ml/analyze_reviews.py:12-14 | the earliest present candidate, in listed priority, wins |
| AnalyzeReviews.FirstObjectIsEarliest | ml/analyze_reviews.py:16-18 | the earliest object column, in column order, wins |
| AnalyzeReviews.FindTextColumnPriority | ml/analyze_reviews.py:9-18 | the provided column when it is one, else the first present common name, else the first object column |
| AnalyzeReviews.NoTextColumnRaises | ml/analyze_reviews.py:9-19 | the choice raises ValueError exactly when no tier yields a column |
| AnalyzeReviews.ReplaceChar | ml/analyze_reviews.py:23 | replacing a character keeps the length and changes exactly its occurrences |
| AnalyzeReviews.RemoveChar | ml/analyze_reviews.py:23 | removing a character leaves no occurrence of it and every other character |
| AnalyzeReviews.PreprocessRemovesLineBreaks | ml/analyze_reviews.py:23 | the cleaned text has no `\n` and no `\r` and is never longer than `str(s)` |
| AnalyzeReviews.CleanEndsAreNotSpace | ml/analyze_reviews.py:23 | the cleaned text neither starts nor ends with whitespace |
| AnalyzeReviews.PreprocessIsIdempotent | ml/analyze_reviews.py:23 | cleaning twice gives the same text as cleaning once |
| PyValue.FirstPresentPicksEarliest | scripts/sentiment_chunk_docs.py:66-78 | nested `get` defaults give the cell of the earliest present key, else None |
| PyValue.FirstTruthyPicksEarliest | ml/embedder.py:33-40 | an `or` chain gives the earliest truthy value, else the last one |
| PyValue.Index | scripts/sentiment_prepare_docs.py:98 | `row[key]` succeeds exactly when the key is present |
| PyText.BlankIffAllSpace | ml/embedder.py:23 | `s.strip() == ""` exactly when every character is whitespace |
| PyText.StripIsInnerSlice | scripts/prepare_docs.py:47 | `strip` keeps one contiguous slice and removes only whitespace |
| PyText.NatToStringInjective | scripts/chunk_docs.py:21 | different chunk indexes print differently |
| Grouping.SortedKeysAreDistinctValues | scripts/prepare_docs.py:27 | the group keys are the distinct names, each once, in ascending order |

## Left out

- Eager import-time setup: the stores and embeddings created and counted at import (ml/rag_engine.py:28-43, backend/routes/rag.py:28-43).
- `query_docs`: a one-line wrapper over the search.
- The `__main__` demos and every `print`.
- The embedding model and Chroma: nearest-neighbour ranking, `as_retriever`, `from_texts`. The index is an oracle, and `from_texts` is represented by its inputs (the texts and metadata lists).
- A raise while building the retriever (`as_retriever`): only searches raise in the model.
- The text splitter and md5: function parameters with no properties assumed.
- CSV reading and writing: the scripts start from a frame and end with their output lists.
- `rename(columns=strip)` on column labels: frames are given with their final labels.
- Races in the lazy getters: the getters are sequential methods.
- The `products_with_sentiment` table (scripts/sentiment_prepare_docs.py:108-145): it copies the document fields into a CSV. `stats_map` is built from the documents directly.
- `round(..., 2)` and `round(..., 4)`: percentages and the average are exact reals, so `PctsAddUp` holds exactly where the rounded floats need not.
- Float arithmetic in general.
- Negative `k`: `k` is a natural number. The HTTP route bounds it to 1..50 and 1..100.
- The `main` function of ml/analyze_reviews.py: the sentiment classifier and its CSV I/O.
- SentimentPrepareDocs.InferLabelFromScore: a text score is treated as not numeric (no label), whereas `float()` would parse numeric text such as "0.3". Text parsing is not modelled.
- SentimentPrepareDocs.AvgScore: a text score makes the average None for the same reason, whereas `float()` could parse it.
- PyText.Lower: lower-cases ASCII letters only. A label lower-cases to one of the three ASCII class names under Python's full `lower()` exactly when it does under ASCII lowering, so the normalisation is unaffected.
- AnalyzeReviews.FindTextColumn: a column's dtype is given as an `isObject` flag rather than inferred from its cells.
