/** `scripts/sentiment_chunk_docs.py`: the chunking of the plain script, with
    the sentiment fields copied onto every chunk. The product table's
    counts are read under the first present of two column names; the review
    table's fields under the first present of up to three names, and a
    review id, when there is a non-blank one, goes into the chunk id. */
module SentimentChunkDocs {
  import opened PyText
  import opened PyValue
  import opened ChunkDocs

  /** The sentiment fields read once per input row and copied onto each of
      its chunks. */
  datatype SentimentFields = SentimentFields(
    positiveCount: Value, neutralCount: Value, negativeCount: Value,
    positivePct: Value, neutralPct: Value, negativePct: Value,
    avgScore: Value, numReviewsUsed: Value,
    reviewLabel: Value, reviewScore: Value)

  datatype SentimentProductChunk = SentimentProductChunk(productId: Value, productName: Value, chunkId: string,
                                                         text: string, fields: SentimentFields)

  datatype SentimentReviewChunk = SentimentReviewChunk(productId: Value, productName: Value, rating: Value,
                                                       reviewId: Value, chunkId: string, text: string,
                                                       fields: SentimentFields)

  /** The product table's fields: a count under its short name when that
      column exists, else under its `_count` name. */
  function ProductFields(row: Row): SentimentFields {
    SentimentFields(
      FirstPresent(row, ["positive", "positive_count"]),
      FirstPresent(row, ["neutral", "neutral_count"]),
      FirstPresent(row, ["negative", "negative_count"]),
      Get(row, "positive_pct"), Get(row, "neutral_pct"), Get(row, "negative_pct"),
      Get(row, "avg_sentiment_score"), Get(row, "num_reviews_used"),
      Get(row, "sentiment_label"), Get(row, "sentiment_score"))
  }

  /** The review table's fields, each under the first present of its
      alternative names. */
  function ReviewFields(row: Row): SentimentFields {
    SentimentFields(
      FirstPresent(row, ["positive", "positive_count", "pos_count"]),
      FirstPresent(row, ["neutral", "neutral_count", "neu_count"]),
      FirstPresent(row, ["negative", "negative_count", "neg_count"]),
      FirstPresent(row, ["positive_pct", "pos_pct"]),
      FirstPresent(row, ["neutral_pct", "neu_pct"]),
      FirstPresent(row, ["negative_pct", "neg_pct"]),
      FirstPresent(row, ["avg_sentiment_score", "avg_score"]),
      FirstPresent(row, ["num_reviews_used", "num_reviews"]),
      Get(row, "sentiment_label"), Get(row, "sentiment_score"))
  }

  /** The review id: `review_id`, else `reviews.id`, else `id`. */
  function ReviewId(row: Row): Value {
    FirstPresent(row, ["review_id", "reviews.id", "id"])
  }

  /** A review id goes into the chunk id unless it is None or prints as
      blank. */
  predicate UsableReviewId(reviewId: Value) {
    !reviewId.NoneV? && !IsBlank(Show(reviewId))
  }

  /** The chunk id of a review chunk. */
  function ReviewChunkId(productId: Value, reviewId: Value, i: nat): string {
    if UsableReviewId(reviewId) then Show(productId) + "_r" + Show(reviewId) + "_c" + NatToString(i)
    else ChunkId(productId, i)
  }

  /** A missing review id (a NaN cell) is not None and prints as "nan", so
      it is written into the chunk id as `_rnan`. */
  lemma NaNReviewIdIsWritten(productId: Value, i: nat)
    ensures ReviewChunkId(productId, NaN, i) == Show(productId) + "_rnan_c" + NatToString(i)
  {
    assert !IsBlank("nan") by {
      assert !IsSpace("nan"[0]);
    }
  }

  /** Two chunks of one review never share an id. */
  lemma ReviewChunkIdsDiffer(productId: Value, reviewId: Value, i: nat, j: nat)
    requires i != j
    ensures ReviewChunkId(productId, reviewId, i) != ReviewChunkId(productId, reviewId, j)
  {
    if UsableReviewId(reviewId) {
      var prefix := Show(productId) + "_r" + Show(reviewId) + "_c";
      if ReviewChunkId(productId, reviewId, i) == ReviewChunkId(productId, reviewId, j) {
        assert (prefix + NatToString(i))[|prefix|..] == NatToString(i);
        assert (prefix + NatToString(j))[|prefix|..] == NatToString(j);
        NatToStringInjective(i, j);
      }
    } else {
      ChunkIdsDiffer(productId, i, j);
    }
  }

  /** The chunks of one product row; as in the plain script, the id and name
      are read only when there is a chunk. */
  function ProductChunksOf(split: Splitter, row: Row): Result<seq<SentimentProductChunk>> {
    match Index(row, "text")
    case Err(e) => Err(e)
    case Ok(v) =>
      match TextOf(v)
      case Err(e) => Err(e)
      case Ok(text) =>
        var chunks := split(text);
        var fields := ProductFields(row);
        if chunks == [] then Ok([])
        else
          match Index(row, "product_id")
          case Err(e) => Err(e)
          case Ok(pid) =>
            match Index(row, "product_name")
            case Err(e) => Err(e)
            case Ok(name) =>
              Ok(seq(|chunks|, i requires 0 <= i < |chunks| =>
                       SentimentProductChunk(pid, name, ChunkId(pid, i), chunks[i], fields)))
  }

  function ProductStep(split: Splitter): Row -> Result<seq<SentimentProductChunk>> {
    row => ProductChunksOf(split, row)
  }

  function ProductChunks(split: Splitter, rows: seq<Row>): Result<seq<SentimentProductChunk>> {
    ConcatMap(ProductStep(split), rows)
  }

  /** The chunks of one review row. Only the text is read with `[]`; every
      other field is read with `get`, so a missing one is None. */
  function ReviewChunksOf(split: Splitter, row: Row): Result<seq<SentimentReviewChunk>> {
    match Index(row, "review_text")
    case Err(e) => Err(e)
    case Ok(v) =>
      match TextOf(v)
      case Err(e) => Err(e)
      case Ok(text) =>
        var chunks := split(text);
        var fields := ReviewFields(row);
        var rid := ReviewId(row);
        var pid := Get(row, "product_id");
        Ok(seq(|chunks|, i requires 0 <= i < |chunks| =>
                 SentimentReviewChunk(pid, Get(row, "product_name"), Get(row, "rating"), rid,
                                      ReviewChunkId(pid, rid, i), chunks[i], fields)))
  }

  function ReviewStep(split: Splitter): Row -> Result<seq<SentimentReviewChunk>> {
    row => ReviewChunksOf(split, row)
  }

  function ReviewChunks(split: Splitter, rows: seq<Row>): Result<seq<SentimentReviewChunk>> {
    ConcatMap(ReviewStep(split), rows)
  }

  /** The body of the product loop for one row. */
  method ChunkProductRow(split: Splitter, row: Row) returns (r: Result<seq<SentimentProductChunk>>)
    ensures r == ProductChunksOf(split, row)
  {
    var cell := Index(row, "text");
    if cell.Err? {
      return Err(cell.error);
    }
    var text := TextOf(cell.value);
    if text.Err? {
      return Err(text.error);
    }
    var chunks := split(text.value);
    var fields := ProductFields(row);
    var out: seq<SentimentProductChunk> := [];
    var i := 0;
    while i < |chunks|
      invariant 0 <= i <= |chunks|
      invariant i > 0 ==> "product_id" in row && "product_name" in row
      invariant |out| == i
      invariant forall j :: 0 <= j < i ==>
                  out[j] == SentimentProductChunk(row["product_id"], row["product_name"],
                                                  ChunkId(row["product_id"], j), chunks[j], fields)
    {
      var pid := Index(row, "product_id");
      if pid.Err? {
        return Err(pid.error);
      }
      var name := Index(row, "product_name");
      if name.Err? {
        return Err(name.error);
      }
      out := out + [SentimentProductChunk(pid.value, name.value, ChunkId(pid.value, i), chunks[i], fields)];
      i := i + 1;
    }
    if chunks != [] {
      assert out == seq(|chunks|, j requires 0 <= j < |chunks| =>
                          SentimentProductChunk(row["product_id"], row["product_name"],
                                                ChunkId(row["product_id"], j), chunks[j], fields));
    }
    r := Ok(out);
  }

  /** The product loop. */
  method ChunkProducts(split: Splitter, rows: seq<Row>) returns (r: Result<seq<SentimentProductChunk>>)
    ensures r == ProductChunks(split, rows)
  {
    var out: seq<SentimentProductChunk> := [];
    var i := 0;
    while i < |rows|
      invariant 0 <= i <= |rows|
      invariant ConcatMap(ProductStep(split), rows[..i]) == Ok(out)
    {
      var chunks := ChunkProductRow(split, rows[i]);
      ConcatMapStep(ProductStep(split), rows, i, out);
      if chunks.Err? {
        return Err(chunks.error);
      }
      out := out + chunks.value;
      i := i + 1;
    }
    assert rows[..i] == rows;
    r := Ok(out);
  }

  /** The body of the review loop for one row. */
  method ChunkReviewRow(split: Splitter, row: Row) returns (r: Result<seq<SentimentReviewChunk>>)
    ensures r == ReviewChunksOf(split, row)
  {
    var cell := Index(row, "review_text");
    if cell.Err? {
      return Err(cell.error);
    }
    var text := TextOf(cell.value);
    if text.Err? {
      return Err(text.error);
    }
    var chunks := split(text.value);
    var out := LabelReviewChunks(Get(row, "product_id"), Get(row, "product_name"), Get(row, "rating"),
                                 ReviewId(row), chunks, ReviewFields(row));
    r := Ok(out);
  }

  /** The inner loop over one review's chunks: each chunk with the row's
      fields and its own chunk id. */
  method LabelReviewChunks(pid: Value, name: Value, rating: Value, rid: Value, chunks: seq<string>,
                           fields: SentimentFields)
    returns (out: seq<SentimentReviewChunk>)
    ensures out == seq(|chunks|, j requires 0 <= j < |chunks| =>
                         SentimentReviewChunk(pid, name, rating, rid, ReviewChunkId(pid, rid, j), chunks[j], fields))
  {
    ghost var all := seq(|chunks|, j requires 0 <= j < |chunks| =>
                           SentimentReviewChunk(pid, name, rating, rid, ReviewChunkId(pid, rid, j), chunks[j], fields));
    out := [];
    var i := 0;
    while i < |chunks|
      invariant 0 <= i <= |chunks|
      invariant out == all[..i]
    {
      var chunkId;
      if rid != NoneV && !IsBlank(Show(rid)) {
        chunkId := Show(pid) + "_r" + Show(rid) + "_c" + NatToString(i);
      } else {
        chunkId := Show(pid) + "_c" + NatToString(i);
      }
      assert chunkId == ReviewChunkId(pid, rid, i);
      assert all[..i + 1] == all[..i] + [all[i]];
      out := out + [SentimentReviewChunk(pid, name, rating, rid, chunkId, chunks[i], fields)];
      i := i + 1;
    }
    assert all[..i] == all;
  }

  /** The review loop. */
  method ChunkReviews(split: Splitter, rows: seq<Row>) returns (r: Result<seq<SentimentReviewChunk>>)
    ensures r == ReviewChunks(split, rows)
  {
    var out: seq<SentimentReviewChunk> := [];
    var i := 0;
    while i < |rows|
      invariant 0 <= i <= |rows|
      invariant ConcatMap(ReviewStep(split), rows[..i]) == Ok(out)
    {
      var chunks := ChunkReviewRow(split, rows[i]);
      ConcatMapStep(ReviewStep(split), rows, i, out);
      if chunks.Err? {
        return Err(chunks.error);
      }
      out := out + chunks.value;
      i := i + 1;
    }
    assert rows[..i] == rows;
    r := Ok(out);
  }

  /** Every chunk of a product row carries the row's product id and name, the
      chunk id `{product_id}_c{j}` and the same sentiment fields, those of its
      row; the counts come from the short column name when the row
      has it and from the `_count` name otherwise. */
  lemma ProductChunksShareRowFields(split: Splitter, row: Row)
    requires ProductChunksOf(split, row).Ok?
    ensures var out := ProductChunksOf(split, row).value;
      && |out| == |split(row["text"].s)|
      && (forall j :: 0 <= j < |out| ==>
            out[j].fields == ProductFields(row) && out[j].text == split(row["text"].s)[j]
            && out[j].productId == row["product_id"] && out[j].productName == row["product_name"]
            && out[j].chunkId == ChunkId(row["product_id"], j))
      && (forall j, k :: 0 <= j < k < |out| ==> out[j].chunkId != out[k].chunkId)
    ensures ProductFields(row).positiveCount ==
              if "positive" in row then row["positive"]
              else if "positive_count" in row then row["positive_count"] else NoneV
  {
    var out := ProductChunksOf(split, row).value;
    forall j, k | 0 <= j < k < |out| ensures out[j].chunkId != out[k].chunkId {
      ChunkIdsDiffer(row["product_id"], j, k);
    }
    FirstPresentPicksEarliest(row, ["positive", "positive_count"]);
  }

  /** Every review row with a string text yields one chunk per piece of it,
      all carrying the row's product id, name, rating, fields and review id,
      with distinct chunk ids;
      a missing product id or name only makes those fields None. */
  lemma ReviewChunksShareRowFields(split: Splitter, row: Row)
    requires "review_text" in row && row["review_text"].Str?
    ensures ReviewChunksOf(split, row).Ok?
    ensures var out := ReviewChunksOf(split, row).value;
      && |out| == |split(row["review_text"].s)|
      && (forall j :: 0 <= j < |out| ==>
            out[j].fields == ReviewFields(row) && out[j].reviewId == ReviewId(row)
            && out[j].productId == Get(row, "product_id") && out[j].productName == Get(row, "product_name")
            && out[j].rating == Get(row, "rating") && out[j].text == split(row["review_text"].s)[j]
            && out[j].chunkId == ReviewChunkId(Get(row, "product_id"), ReviewId(row), j))
      && (forall j, k :: 0 <= j < k < |out| ==> out[j].chunkId != out[k].chunkId)
  {
    var out := ReviewChunksOf(split, row).value;
    forall j, k | 0 <= j < k < |out| ensures out[j].chunkId != out[k].chunkId {
      ReviewChunkIdsDiffer(Get(row, "product_id"), ReviewId(row), j, k);
    }
  }

  /** The review id is `review_id` when present, else `reviews.id` when
      present, else `id`, else None. */
  lemma ReviewIdFallsBack(row: Row)
    ensures ReviewId(row) ==
      if "review_id" in row then row["review_id"]
      else if "reviews.id" in row then row["reviews.id"]
      else if "id" in row then row["id"] else NoneV
  {
    var keys: seq<string> := ["review_id", "reviews.id", "id"];
    var tail1: seq<string> := ["reviews.id", "id"];
    var tail2: seq<string> := ["id"];
    assert keys[0] == "review_id" && keys[1..] == tail1;
    assert tail1[0] == "reviews.id" && tail1[1..] == tail2;
    assert tail2[0] == "id" && tail2[1..] == [];
    assert FirstPresent(row, tail2) == if "id" in row then row["id"] else NoneV;
    assert FirstPresent(row, tail1) == if "reviews.id" in row then row["reviews.id"] else FirstPresent(row, tail2);
  }
}
