/** `scripts/chunk_docs.py`: every product document and every review
    snippet is cut into chunks by the text splitter (800 characters with an
    overlap of 100), one output row per chunk, numbered from 0 within its
    input row. The splitter is a parameter of the model. */
module ChunkDocs {
  import opened PyText
  import opened PyValue

  /** The splitter's configuration, passed to the splitter the caller
      supplies. */
  const CHUNK_SIZE: nat := 800
  const CHUNK_OVERLAP: nat := 100

  /** `RecursiveCharacterTextSplitter.split_text`, configured with the
      constants above. */
  type Splitter = string -> seq<string>

  /** `f"{product_id}_c{i}"` */
  function ChunkId(productId: Value, i: nat): (id: string)
    ensures |id| > |Show(productId)| + 2
    ensures id[..|Show(productId)|] == Show(productId) && id[|Show(productId)|..|Show(productId)| + 2] == "_c"
  {
    Show(productId) + "_c" + NatToString(i)
  }

  /** Two chunks of the same row never share an id. */
  lemma ChunkIdsDiffer(productId: Value, i: nat, j: nat)
    requires i != j
    ensures ChunkId(productId, i) != ChunkId(productId, j)
  {
    var prefix := Show(productId) + "_c";
    if ChunkId(productId, i) == ChunkId(productId, j) {
      assert (prefix + NatToString(i))[|prefix|..] == NatToString(i);
      assert (prefix + NatToString(j))[|prefix|..] == NatToString(j);
      NatToStringInjective(i, j);
    }
  }

  /** `splitter.split_text(cell)`: only a string can be split; a missing
      text, which pandas reads back as NaN, raises. */
  function TextOf(v: Value): (r: Result<string>)
    ensures r.Ok? <==> v.Str?
  {
    if v.Str? then Ok(v.s) else Err(TypeError("split_text expects a string"))
  }

  datatype ProductChunk = ProductChunk(productId: Value, productName: Value, chunkId: string, text: string)

  datatype ReviewChunk = ReviewChunk(productId: Value, productName: Value, rating: Value, chunkId: string, text: string)

  /** The chunks of one product row. The id and name are read inside the
      inner loop, so a row that yields no chunk never reads them. */
  function ProductChunksOf(split: Splitter, row: Row): (r: Result<seq<ProductChunk>>)
    ensures r.Ok? ==> Index(row, "text").Ok? && TextOf(Index(row, "text").value).Ok?
  {
    match Index(row, "text")
    case Err(e) => Err(e)
    case Ok(v) =>
      match TextOf(v)
      case Err(e) => Err(e)
      case Ok(text) =>
        var chunks := split(text);
        if chunks == [] then Ok([])
        else
          match Index(row, "product_id")
          case Err(e) => Err(e)
          case Ok(pid) =>
            match Index(row, "product_name")
            case Err(e) => Err(e)
            case Ok(name) =>
              Ok(seq(|chunks|, i requires 0 <= i < |chunks| => ProductChunk(pid, name, ChunkId(pid, i), chunks[i])))
  }

  function ProductStep(split: Splitter): Row -> Result<seq<ProductChunk>> {
    row => ProductChunksOf(split, row)
  }

  /** The product chunks of every row, in row order. */
  function ProductChunks(split: Splitter, rows: seq<Row>): Result<seq<ProductChunk>> {
    ConcatMap(ProductStep(split), rows)
  }

  /** The chunks of one review row, carrying the review's rating. */
  function ReviewChunksOf(split: Splitter, row: Row): (r: Result<seq<ReviewChunk>>)
    ensures r.Ok? ==> Index(row, "review_text").Ok? && TextOf(Index(row, "review_text").value).Ok?
  {
    match Index(row, "review_text")
    case Err(e) => Err(e)
    case Ok(v) =>
      match TextOf(v)
      case Err(e) => Err(e)
      case Ok(text) =>
        var chunks := split(text);
        if chunks == [] then Ok([])
        else
          match Index(row, "product_id")
          case Err(e) => Err(e)
          case Ok(pid) =>
            match Index(row, "product_name")
            case Err(e) => Err(e)
            case Ok(name) =>
              match Index(row, "rating")
              case Err(e) => Err(e)
              case Ok(rating) =>
                Ok(seq(|chunks|, i requires 0 <= i < |chunks| => ReviewChunk(pid, name, rating, ChunkId(pid, i), chunks[i])))
  }

  function ReviewStep(split: Splitter): Row -> Result<seq<ReviewChunk>> {
    row => ReviewChunksOf(split, row)
  }

  function ReviewChunks(split: Splitter, rows: seq<Row>): Result<seq<ReviewChunk>> {
    ConcatMap(ReviewStep(split), rows)
  }

  /** The inner loop over the chunks of one product row. */
  method ChunkProductRow(split: Splitter, row: Row) returns (r: Result<seq<ProductChunk>>)
    ensures r == ProductChunksOf(split, row)
  {
    var cell := Index(row, "text");
    if cell.Err? {
      return Err(cell.error);
    }
    var text := TextOf(cell.value);
    if text.Err? {
      return Err(text.error);
    }
    var chunks := split(text.value);
    var out: seq<ProductChunk> := [];
    var i := 0;
    while i < |chunks|
      invariant 0 <= i <= |chunks|
      invariant i > 0 ==> "product_id" in row && "product_name" in row
      invariant |out| == i
      invariant forall j :: 0 <= j < i ==>
                  out[j] == ProductChunk(row["product_id"], row["product_name"], ChunkId(row["product_id"], j), chunks[j])
    {
      var pid := Index(row, "product_id");
      if pid.Err? {
        return Err(pid.error);
      }
      var name := Index(row, "product_name");
      if name.Err? {
        return Err(name.error);
      }
      out := out + [ProductChunk(pid.value, name.value, ChunkId(pid.value, i), chunks[i])];
      i := i + 1;
    }
    if chunks != [] {
      assert out == seq(|chunks|, j requires 0 <= j < |chunks| =>
                          ProductChunk(row["product_id"], row["product_name"], ChunkId(row["product_id"], j), chunks[j]));
    }
    r := Ok(out);
  }

  /** The product loop. */
  method ChunkProducts(split: Splitter, rows: seq<Row>) returns (r: Result<seq<ProductChunk>>)
    ensures r == ProductChunks(split, rows)
  {
    var out: seq<ProductChunk> := [];
    var i := 0;
    while i < |rows|
      invariant 0 <= i <= |rows|
      invariant ConcatMap(ProductStep(split), rows[..i]) == Ok(out)
    {
      var chunks := ChunkProductRow(split, rows[i]);
      ConcatMapStep(ProductStep(split), rows, i, out);
      if chunks.Err? {
        return Err(chunks.error);
      }
      out := out + chunks.value;
      i := i + 1;
    }
    assert rows[..i] == rows;
    r := Ok(out);
  }

  /** The inner loop over the chunks of one review row. */
  method ChunkReviewRow(split: Splitter, row: Row) returns (r: Result<seq<ReviewChunk>>)
    ensures r == ReviewChunksOf(split, row)
  {
    var cell := Index(row, "review_text");
    if cell.Err? {
      return Err(cell.error);
    }
    var text := TextOf(cell.value);
    if text.Err? {
      return Err(text.error);
    }
    var chunks := split(text.value);
    var out: seq<ReviewChunk> := [];
    var i := 0;
    while i < |chunks|
      invariant 0 <= i <= |chunks|
      invariant i > 0 ==> "product_id" in row && "product_name" in row && "rating" in row
      invariant |out| == i
      invariant forall j :: 0 <= j < i ==>
                  out[j] == ReviewChunk(row["product_id"], row["product_name"], row["rating"],
                                        ChunkId(row["product_id"], j), chunks[j])
    {
      var pid := Index(row, "product_id");
      if pid.Err? {
        return Err(pid.error);
      }
      var name := Index(row, "product_name");
      if name.Err? {
        return Err(name.error);
      }
      var rating := Index(row, "rating");
      if rating.Err? {
        return Err(rating.error);
      }
      out := out + [ReviewChunk(pid.value, name.value, rating.value, ChunkId(pid.value, i), chunks[i])];
      i := i + 1;
    }
    if chunks != [] {
      assert out == seq(|chunks|, j requires 0 <= j < |chunks| =>
                          ReviewChunk(row["product_id"], row["product_name"], row["rating"],
                                      ChunkId(row["product_id"], j), chunks[j]));
    }
    r := Ok(out);
  }

  /** The review loop. */
  method ChunkReviews(split: Splitter, rows: seq<Row>) returns (r: Result<seq<ReviewChunk>>)
    ensures r == ReviewChunks(split, rows)
  {
    var out: seq<ReviewChunk> := [];
    var i := 0;
    while i < |rows|
      invariant 0 <= i <= |rows|
      invariant ConcatMap(ReviewStep(split), rows[..i]) == Ok(out)
    {
      var chunks := ChunkReviewRow(split, rows[i]);
      ConcatMapStep(ReviewStep(split), rows, i, out);
      if chunks.Err? {
        return Err(chunks.error);
      }
      out := out + chunks.value;
      i := i + 1;
    }
    assert rows[..i] == rows;
    r := Ok(out);
  }

  /** A successful product row yields exactly one output row per chunk of its
      text, in chunk order, each carrying the row's id and name and a chunk
      id distinct from its siblings'. */
  lemma ProductRowChunks(split: Splitter, row: Row)
    requires ProductChunksOf(split, row).Ok?
    ensures var out := ProductChunksOf(split, row).value;
      var chunks := split(row["text"].s);
      && |out| == |chunks|
      && (forall j :: 0 <= j < |out| ==>
            out[j].text == chunks[j] && out[j].productId == row["product_id"]
            && out[j].productName == row["product_name"] && out[j].chunkId == ChunkId(row["product_id"], j))
      && (forall j, k :: 0 <= j < k < |out| ==> out[j].chunkId != out[k].chunkId)
  {
    var out := ProductChunksOf(split, row).value;
    forall j, k | 0 <= j < k < |out| ensures out[j].chunkId != out[k].chunkId {
      ChunkIdsDiffer(row["product_id"], j, k);
    }
  }

  /** A review row's chunks all carry its id, name and rating, one per chunk
      of its text, with distinct chunk ids. */
  lemma ReviewRowChunks(split: Splitter, row: Row)
    requires ReviewChunksOf(split, row).Ok?
    ensures var out := ReviewChunksOf(split, row).value;
      var chunks := split(row["review_text"].s);
      && |out| == |chunks|
      && (forall j :: 0 <= j < |out| ==>
            out[j].text == chunks[j] && out[j].productId == row["product_id"]
            && out[j].productName == row["product_name"] && out[j].rating == row["rating"]
            && out[j].chunkId == ChunkId(row["product_id"], j))
      && (forall j, k :: 0 <= j < k < |out| ==> out[j].chunkId != out[k].chunkId)
  {
    var out := ReviewChunksOf(split, row).value;
    forall j, k | 0 <= j < k < |out| ensures out[j].chunkId != out[k].chunkId {
      ChunkIdsDiffer(row["product_id"], j, k);
    }
  }

  /** A review whose text is not a string (an empty review read back as NaN)
      stops the review loop at that row with a TypeError, unless an earlier
      row already failed. */
  lemma NonTextReviewStopsRun(split: Splitter, rows: seq<Row>, i: nat)
    requires i < |rows| && "review_text" in rows[i] && !rows[i]["review_text"].Str?
    requires forall j :: 0 <= j < i ==> ReviewChunksOf(split, rows[j]).Ok?
    ensures ReviewChunks(split, rows).Err? && ReviewChunks(split, rows).error.TypeError?
  {
    ConcatMapFirstError(ReviewStep(split), rows, i);
  }

  /** The output holds each row's chunks in row order: the chunks of the
      rows before row `i`, then those of row `i`, form a prefix. */
  lemma ChunksFollowRowOrder(split: Splitter, rows: seq<Row>, i: nat)
    requires ProductChunks(split, rows).Ok? && i < |rows|
    ensures ProductChunksOf(split, rows[i]).Ok?
    ensures ProductChunks(split, rows[..i]).Ok?
    ensures ProductChunks(split, rows[..i]).value + ProductChunksOf(split, rows[i]).value
              <= ProductChunks(split, rows).value
  {
    ConcatMapPlacesEachOutput(ProductStep(split), rows);
  }
}
