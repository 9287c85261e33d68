/** `ml/embedder.py`: turns the two chunk tables into the texts and the
    metadata dicts handed to the vector index. Missing and blank cells
    become None, alternative column names are combined with `or`, and every
    dict has a fixed set of keys. Building the index itself is not part of
    this model. */
module Embedder {
  import opened PyText
  import opened PyValue

  const TEXT_COL: string := "chunk_review_text"

  /** `safe_none(val)`: NaN, None and whitespace-only strings become None;
      every other value is kept. */
  function SafeNone(v: Value): (r: Value)
    ensures IsNa(v) ==> r == NoneV
    ensures v.Str? && IsBlank(v.s) ==> r == NoneV
    ensures !IsNa(v) && !(v.Str? && IsBlank(v.s)) ==> r == v
  {
    if IsNa(v) then NoneV
    else if v.Str? && IsBlank(v.s) then NoneV
    else v
  }

  /** What `safe_none` returns is never NaN and never a blank string, and
      applying it twice changes nothing. */
  lemma SafeNoneNormalises(v: Value)
    ensures !SafeNone(v).NaN?
    ensures !(SafeNone(v).Str? && IsBlank(SafeNone(v).s))
    ensures SafeNone(SafeNone(v)) == SafeNone(v)
  {
  }

  /** `row.get(k1) or row.get(k2) or ...` */
  function OrGet(row: Row, keys: seq<string>): Value
    requires keys != []
  {
    FirstTruthy(seq(|keys|, i requires 0 <= i < |keys| => Get(row, keys[i])))
  }

  /** `len(row.get("chunk_review_text", ""))`: the length of the text, 0 when
      the column is absent, and a TypeError for a cell that has no length
      (a missing text read back as NaN, or a number). */
  function TextLength(row: Row): (r: Result<Value>)
    ensures r.Ok? ==> r.value.Int? && r.value.i >= 0
    ensures TEXT_COL in row && row[TEXT_COL].Str? ==> r == Ok(Int(|row[TEXT_COL].s|))
    ensures TEXT_COL !in row ==> r == Ok(Int(0))
  {
    if TEXT_COL !in row then Ok(Int(0))
    else if row[TEXT_COL].Str? then Ok(Int(|row[TEXT_COL].s|))
    else Err(TypeError("object has no len()"))
  }

  /** The keys of the metadata dicts; `Name` is the key as written. */
  datatype MetaKey =
    | ProductId | ProductName | Rating | ReviewId | ChunkId
    | ReviewSentimentLabel | ReviewSentimentScore
    | PositiveCount | NeutralCount | NegativeCount
    | PositivePct | NeutralPct | NegativePct
    | AvgSentimentScore | NumReviewsUsed | ChunkLength
  {
    function Name(): string {
      match this
      case ProductId => "product_id"
      case ProductName => "product_name"
      case Rating => "rating"
      case ReviewId => "review_id"
      case ChunkId => "chunk_id"
      case ReviewSentimentLabel => "review_sentiment_label"
      case ReviewSentimentScore => "review_sentiment_score"
      case PositiveCount => "positive_count"
      case NeutralCount => "neutral_count"
      case NegativeCount => "negative_count"
      case PositivePct => "positive_pct"
      case NeutralPct => "neutral_pct"
      case NegativePct => "negative_pct"
      case AvgSentimentScore => "avg_sentiment_score"
      case NumReviewsUsed => "num_reviews_used"
      case ChunkLength => "chunk_length"
    }
  }

  /** A metadata dict handed to the index. */
  type Metadata = map<MetaKey, Value>

  const SENTIMENT_META_KEYS: set<MetaKey> := {
    PositiveCount, NeutralCount, NegativeCount,
    PositivePct, NeutralPct, NegativePct,
    AvgSentimentScore, NumReviewsUsed}

  /** The product-level sentiment entries both builders share. */
  function SentimentMeta(row: Row): (m: Metadata)
    ensures m.Keys == SENTIMENT_META_KEYS
  {
    map[
      PositiveCount := SafeNone(OrGet(row, ["positive", "positive_count", "pos_count"])),
      NeutralCount := SafeNone(OrGet(row, ["neutral", "neutral_count", "neu_count"])),
      NegativeCount := SafeNone(OrGet(row, ["negative", "negative_count", "neg_count"])),
      PositivePct := SafeNone(OrGet(row, ["positive_pct", "pos_pct"])),
      NeutralPct := SafeNone(OrGet(row, ["neutral_pct", "neu_pct"])),
      NegativePct := SafeNone(OrGet(row, ["negative_pct", "neg_pct"])),
      AvgSentimentScore := SafeNone(OrGet(row, ["avg_sentiment_score", "avg_score"])),
      NumReviewsUsed := SafeNone(OrGet(row, ["num_reviews_used", "num_reviews"]))]
  }

  const PRODUCT_IDENTITY_KEYS: set<MetaKey> := {ProductId, ProductName, ChunkId}

  /** The keys of `build_product_meta`: identity, shared sentiment, length. */
  const PRODUCT_META_KEYS: set<MetaKey> := PRODUCT_IDENTITY_KEYS + SENTIMENT_META_KEYS + {ChunkLength}

  /** The identifying entries of `build_product_meta`. */
  function ProductIdentityMeta(row: Row): (m: Metadata)
    ensures m.Keys == PRODUCT_IDENTITY_KEYS
  {
    map[
      ProductId := SafeNone(Get(row, "product_id")),
      ProductName := SafeNone(Get(row, "product_name")),
      ChunkId := SafeNone(Get(row, "chunk_id"))]
  }

  /** `build_product_meta(row)` */
  function BuildProductMeta(row: Row): (r: Result<Metadata>)
    ensures r.Ok? <==> TextLength(row).Ok?
  {
    match TextLength(row)
    case Err(e) => Err(e)
    case Ok(len) => Ok(ProductIdentityMeta(row) + SentimentMeta(row) + map[ChunkLength := len])
  }

  /** The product dict has exactly the product keys, 12 of them, whatever
      columns the row has. */
  lemma ProductMetaKeys(row: Row)
    requires TextLength(row).Ok?
    ensures BuildProductMeta(row).value.Keys == PRODUCT_META_KEYS
    ensures |BuildProductMeta(row).value| == 12
  {
    var m := BuildProductMeta(row).value;
    assert m.Keys == PRODUCT_META_KEYS by {
      var identity, sentiment := ProductIdentityMeta(row), SentimentMeta(row);
      var tail := map[ChunkLength := TextLength(row).value];
      assert m == identity + sentiment + tail;
      assert (identity + sentiment + tail).Keys == identity.Keys + sentiment.Keys + tail.Keys;
    }
    ProductMetaKeyCount();
    SizeIsKeyCount(m);
  }

  /** A dict has as many entries as keys. */
  lemma SizeIsKeyCount(m: Metadata)
    ensures |m| == |m.Keys|
  {
  }

  /** The product dict's `chunk_length` is the measured text length. */
  lemma ProductMetaLength(row: Row)
    requires TextLength(row).Ok?
    ensures ChunkLength in BuildProductMeta(row).value
    ensures BuildProductMeta(row).value[ChunkLength] == TextLength(row).value
  {
    var rest := ProductIdentityMeta(row) + SentimentMeta(row);
    assert BuildProductMeta(row).value == rest + map[ChunkLength := TextLength(row).value];
  }


  const REVIEW_IDENTITY_KEYS: set<MetaKey> := {
    ProductId, ProductName, Rating, ReviewId, ChunkId, ReviewSentimentLabel, ReviewSentimentScore}

  /** The keys of `build_review_meta`: identity, shared sentiment, length. */
  const REVIEW_META_KEYS: set<MetaKey> := REVIEW_IDENTITY_KEYS + SENTIMENT_META_KEYS + {ChunkLength}

  /** The per-review entries of `build_review_meta`. */
  function ReviewIdentityMeta(row: Row): (m: Metadata)
    ensures m.Keys == REVIEW_IDENTITY_KEYS
  {
    map[
      ProductId := SafeNone(Get(row, "product_id")),
      ProductName := SafeNone(Get(row, "product_name")),
      Rating := SafeNone(Get(row, "rating")),
      ReviewId := SafeNone(OrGet(row, ["review_id", "reviews.id", "id"])),
      ChunkId := SafeNone(Get(row, "chunk_id")),
      ReviewSentimentLabel := SafeNone(OrGet(row, ["review_sentiment_label", "sentiment_label"])),
      ReviewSentimentScore := SafeNone(OrGet(row, ["review_sentiment_score", "sentiment_score"]))]
  }

  /** `build_review_meta(row)` */
  function BuildReviewMeta(row: Row): (r: Result<Metadata>)
    ensures r.Ok? <==> TextLength(row).Ok?
  {
    match TextLength(row)
    case Err(e) => Err(e)
    case Ok(len) => Ok(ReviewIdentityMeta(row) + SentimentMeta(row) + map[ChunkLength := len])
  }

  /** The review dict has exactly the review keys, 16 of them, whatever
      columns the row has. */
  lemma ReviewMetaKeys(row: Row)
    requires TextLength(row).Ok?
    ensures BuildReviewMeta(row).value.Keys == REVIEW_META_KEYS
    ensures |BuildReviewMeta(row).value| == 16
  {
    var m := BuildReviewMeta(row).value;
    assert m.Keys == REVIEW_META_KEYS by {
      var identity, sentiment := ReviewIdentityMeta(row), SentimentMeta(row);
      var tail := map[ChunkLength := TextLength(row).value];
      assert m == identity + sentiment + tail;
      assert (identity + sentiment + tail).Keys == identity.Keys + sentiment.Keys + tail.Keys;
    }
    ReviewMetaKeyCount();
    SizeIsKeyCount(m);
  }

  /** The review dict's `chunk_length` is the measured text length. */
  lemma ReviewMetaLength(row: Row)
    requires TextLength(row).Ok?
    ensures ChunkLength in BuildReviewMeta(row).value
    ensures BuildReviewMeta(row).value[ChunkLength] == TextLength(row).value
  {
    var rest := ReviewIdentityMeta(row) + SentimentMeta(row);
    assert BuildReviewMeta(row).value == rest + map[ChunkLength := TextLength(row).value];
  }


  /** Eight sentiment entries are shared by both dicts. */
  lemma SentimentKeyCount()
    ensures |SENTIMENT_META_KEYS| == 8
  {
  }

  /** Seven entries identify a review chunk. */
  lemma ReviewIdentityKeyCount()
    ensures |REVIEW_IDENTITY_KEYS| == 7
  {
  }

  /** Product metadata has exactly 12 keys, whatever columns the row has. */
  lemma ProductMetaKeyCount()
    ensures |PRODUCT_META_KEYS| == 12
  {
    SentimentKeyCount();
    assert |PRODUCT_IDENTITY_KEYS| == 3;
    assert PRODUCT_IDENTITY_KEYS !! SENTIMENT_META_KEYS;
    assert |PRODUCT_IDENTITY_KEYS + SENTIMENT_META_KEYS| == 11;
    assert ChunkLength !in PRODUCT_IDENTITY_KEYS + SENTIMENT_META_KEYS;
  }

  /** Review metadata has exactly 16 keys, whatever columns the row has. */
  lemma ReviewMetaKeyCount()
    ensures |REVIEW_META_KEYS| == 16
  {
    SentimentKeyCount();
    ReviewIdentityKeyCount();
    assert REVIEW_IDENTITY_KEYS !! SENTIMENT_META_KEYS;
    assert |REVIEW_IDENTITY_KEYS + SENTIMENT_META_KEYS| == 15;
    assert ChunkLength !in REVIEW_IDENTITY_KEYS + SENTIMENT_META_KEYS;
  }

  /** The `or` chain takes the earliest truthy alternative, so a present but
      falsy count (0) under "positive" falls through to "positive_count" and
      "pos_count"; when none is truthy the last one is used. A NaN cell is
      truthy, so it stops the chain and the entry becomes None. */
  lemma CountFallsThroughFalsy(row: Row)
    ensures var a, b, c := Get(row, "positive"), Get(row, "positive_count"), Get(row, "pos_count");
      SentimentMeta(row)[PositiveCount] == SafeNone(if Truthy(a) then a else if Truthy(b) then b else c)
    ensures "positive" in row && row["positive"].NaN? ==> SentimentMeta(row)[PositiveCount] == NoneV
  {
    var keys := ["positive", "positive_count", "pos_count"];
    var alts := seq(|keys|, i requires 0 <= i < |keys| => Get(row, keys[i]));
    assert alts == [Get(row, "positive"), Get(row, "positive_count"), Get(row, "pos_count")];
    assert alts[1..] == [alts[1], alts[2]] && alts[1..][1..] == [alts[2]];
    assert FirstTruthy(alts[1..][1..]) == alts[2];
    assert FirstTruthy(alts[1..]) == if Truthy(alts[1]) then alts[1] else alts[2];
    assert FirstTruthy(alts) == if Truthy(alts[0]) then alts[0] else FirstTruthy(alts[1..]);
  }

  /** The texts handed to the index: `str()` of each text cell, or a KeyError
      when the table has no text column. */
  function Texts(f: Frame): (r: Result<seq<string>>)
    ensures r.Ok? <==> TEXT_COL in f.columns
    ensures r.Ok? ==> |r.value| == |f.rows| && forall i :: 0 <= i < |f.rows| ==> r.value[i] == Show(Get(f.rows[i], TEXT_COL))
  {
    if TEXT_COL in f.columns then Ok(seq(|f.rows|, i requires 0 <= i < |f.rows| => Show(Get(f.rows[i], TEXT_COL))))
    else Err(KeyError(TEXT_COL))
  }

  /** `[build(row) for _, row in frame.iterrows()]`, stopping at the first
      row whose builder raises. */
  function Metas(build: Row -> Result<Metadata>, rows: seq<Row>): (r: Result<seq<Metadata>>)
    ensures r.Ok? ==> |r.value| == |rows|
  {
    if rows == [] then Ok([])
    else
      match build(rows[0])
      case Err(e) => Err(e)
      case Ok(m) =>
        match Metas(build, rows[1..])
        case Err(e) => Err(e)
        case Ok(ms) => Ok([m] + ms)
  }

  /** The metadata list succeeds exactly when every row's builder does, and
      then holds each row's dict at that row's position. */
  lemma {:induction false} MetasAlign(build: Row -> Result<Metadata>, rows: seq<Row>)
    ensures Metas(build, rows).Ok? <==> forall i :: 0 <= i < |rows| ==> build(rows[i]).Ok?
    ensures Metas(build, rows).Ok? ==> forall i :: 0 <= i < |rows| ==> Metas(build, rows).value[i] == build(rows[i]).value
  {
    if rows != [] {
      MetasAlign(build, rows[1..]);
      assert forall i :: 1 <= i < |rows| ==> rows[1..][i - 1] == rows[i];
    }
  }

  /** The texts and metadata for one collection: the texts first (a missing
      text column raises there), then the metadata. */
  function IndexInput(f: Frame, build: Row -> Result<Metadata>): Result<(seq<string>, seq<Metadata>)> {
    match Texts(f)
    case Err(e) => Err(e)
    case Ok(texts) =>
      match Metas(build, f.rows)
      case Err(e) => Err(e)
      case Ok(metas) => Ok((texts, metas))
  }

  function ProductBuilder(): Row -> Result<Metadata> {
    row => BuildProductMeta(row)
  }

  function ReviewBuilder(): Row -> Result<Metadata> {
    row => BuildReviewMeta(row)
  }

  /** A dict whose `chunk_length` was measured on the row's text records
      the length of the text handed to the index beside it. */
  lemma ChunkLengthIsTextLength(row: Row, meta: Result<Metadata>)
    requires meta.Ok? && ChunkLength in meta.value && TextLength(row).Ok?
    requires meta.value[ChunkLength] == TextLength(row).value
    ensures TEXT_COL in row ==> meta.value[ChunkLength] == Int(|Show(Get(row, TEXT_COL))|)
  {
  }

  /** The texts and the metadata line up row by row, and each dict's
      `chunk_length` is the length of the text beside it. */
  lemma TextsAlignWithMetas(f: Frame)
    requires WellFormed(f) && IndexInput(f, ProductBuilder()).Ok?
    ensures var (texts, metas) := IndexInput(f, ProductBuilder()).value;
      && |texts| == |metas| == |f.rows|
      && forall i :: 0 <= i < |f.rows| ==>
           && BuildProductMeta(f.rows[i]).Ok?
           && metas[i] == BuildProductMeta(f.rows[i]).value
           && metas[i][ChunkLength] == Int(|texts[i]|)
  {
    var build := ProductBuilder();
    MetasAlign(build, f.rows);
    var texts := Texts(f).value;
    var metas := Metas(build, f.rows).value;
    forall i | 0 <= i < |f.rows|
      ensures BuildProductMeta(f.rows[i]).Ok? && metas[i] == BuildProductMeta(f.rows[i]).value
      ensures metas[i][ChunkLength] == Int(|texts[i]|)
    {
      assert TEXT_COL in f.rows[i].Keys;
      assert build(f.rows[i]) == BuildProductMeta(f.rows[i]);
      ProductMetaLength(f.rows[i]);
      ChunkLengthIsTextLength(f.rows[i], BuildProductMeta(f.rows[i]));
    }
  }

  /** The same alignment for the review collection. */
  lemma ReviewTextsAlignWithMetas(f: Frame)
    requires WellFormed(f) && IndexInput(f, ReviewBuilder()).Ok?
    ensures var (texts, metas) := IndexInput(f, ReviewBuilder()).value;
      && |texts| == |metas| == |f.rows|
      && forall i :: 0 <= i < |f.rows| ==>
           && BuildReviewMeta(f.rows[i]).Ok?
           && metas[i] == BuildReviewMeta(f.rows[i]).value
           && metas[i][ChunkLength] == Int(|texts[i]|)
  {
    var build := ReviewBuilder();
    MetasAlign(build, f.rows);
    var texts := Texts(f).value;
    var metas := Metas(build, f.rows).value;
    forall i | 0 <= i < |f.rows|
      ensures BuildReviewMeta(f.rows[i]).Ok? && metas[i] == BuildReviewMeta(f.rows[i]).value
      ensures metas[i][ChunkLength] == Int(|texts[i]|)
    {
      assert TEXT_COL in f.rows[i].Keys;
      assert build(f.rows[i]) == BuildReviewMeta(f.rows[i]);
      ReviewMetaLength(f.rows[i]);
      ChunkLengthIsTextLength(f.rows[i], BuildReviewMeta(f.rows[i]));
    }
  }
}
