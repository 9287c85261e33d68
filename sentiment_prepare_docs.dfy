/** `scripts/sentiment_prepare_docs.py`: like the plain preparation script,
    one document per product name, now with the product's sentiment label
    counts, percentages and average score; then a lookup from product id to
    those statistics, and one review row per input row carrying its
    product's statistics. Percentages and averages are exact reals here;
    the script's `round(...)` is not modelled. */
module SentimentPrepareDocs {
  import opened PyText
  import opened PyValue
  import opened Grouping
  import PD = PrepareDocs

  const PRODUCT_ID_COL: string := "id"
  const LABEL_COL: string := "sentiment_label"
  const SCORE_COL: string := "sentiment_score"
  const POSITIVE_THRESHOLD: real := 0.05
  const NEGATIVE_THRESHOLD: real := -0.05

  const POSITIVE: string := "positive"
  const NEUTRAL: string := "neutral"
  const NEGATIVE: string := "negative"

  predicate IsClass(lab: string) {
    lab == POSITIVE || lab == NEUTRAL || lab == NEGATIVE
  }

  /** The label a numeric score falls under. */
  function Classify(x: real): string {
    if x >= POSITIVE_THRESHOLD then POSITIVE
    else if x <= NEGATIVE_THRESHOLD then NEGATIVE
    else NEUTRAL
  }

  /** `infer_label_from_score(score)`: None when `float(score)` raises (None,
      or text, whose parsing is not modelled); NaN compares false with both
      thresholds and so is neutral. */
  function InferLabelFromScore(score: Value): (r: Option<string>)
    ensures r.Some? ==> IsClass(r.value)
  {
    match score
    case NoneV => None
    case Str(_) => None
    case NaN => Some(NEUTRAL)
    case Int(i) => Some(Classify(i as real))
    case Float(x, _) => Some(Classify(x))
    case Bool(b) => Some(Classify(if b then 1.0 else 0.0))
  }

  /** The thresholds, both ways: a number is positive exactly from 0.05 up,
      negative exactly from -0.05 down, and neutral strictly between. */
  lemma InferLabelThresholds(x: real, repr: string)
    ensures InferLabelFromScore(Float(x, repr)) == Some(POSITIVE) <==> x >= 0.05
    ensures InferLabelFromScore(Float(x, repr)) == Some(NEGATIVE) <==> x <= -0.05
    ensures InferLabelFromScore(Float(x, repr)) == Some(NEUTRAL) <==> -0.05 < x < 0.05
    ensures InferLabelFromScore(NaN) == Some(NEUTRAL)
    ensures InferLabelFromScore(NoneV) == None
  {
  }

  /** The string form of a label cell (`astype(str)`), or "" when the frame
      has no label column. */
  function LabelText(cells: Row, hasLabel: bool): string {
    if hasLabel then Show(Get(cells, LABEL_COL)) else ""
  }

  /** The score cell, or None when the frame has no score column. */
  function ScoreOf(cells: Row, hasScore: bool): Value {
    if hasScore then Get(cells, SCORE_COL) else NoneV
  }

  /** One step of the normalisation loop. */
  function NormalizeLabel(lab: string, score: Value): (r: string)
    ensures IsClass(r)
  {
    var l := Lower(Strip(lab));
    if !IsClass(l) then
      var inferred := InferLabelFromScore(score);
      if inferred.Some? then inferred.value else NEUTRAL
    else l
  }

  /** A label that strips and lower-cases to a class is kept; any other is
      replaced by the label inferred from the score, or neutral. */
  lemma NormalizeLabelKeepsOrInfers(lab: string, score: Value)
    ensures IsClass(Lower(Strip(lab))) ==> NormalizeLabel(lab, score) == Lower(Strip(lab))
    ensures !IsClass(Lower(Strip(lab))) && InferLabelFromScore(score).Some? ==>
              NormalizeLabel(lab, score) == InferLabelFromScore(score).value
    ensures !IsClass(Lower(Strip(lab))) && InferLabelFromScore(score).None? ==>
              NormalizeLabel(lab, score) == NEUTRAL
  {
  }

  function MinLen(a: nat, b: nat): nat {
    if a < b then a else b
  }

  /** `[normalize(lab, sc) for lab, sc in zip(labels, scores)]` */
  function NormalizedLabels(labels: seq<string>, scores: seq<Value>): (r: seq<string>)
    ensures |r| == MinLen(|labels|, |scores|)
  {
    seq(MinLen(|labels|, |scores|), i requires 0 <= i < MinLen(|labels|, |scores|) => NormalizeLabel(labels[i], scores[i]))
  }

  /** The body of the normalisation loop for one label and its score. */
  method NormalizeOne(lab: string, score: Value) returns (normalized: string)
    ensures normalized == NormalizeLabel(lab, score)
  {
    var l := Lower(Strip(lab));
    if !IsClass(l) {
      var inferred := InferLabelFromScore(score);
      normalized := if inferred.Some? then inferred.value else NEUTRAL;
    } else {
      normalized := l;
    }
  }

  /** The normalisation loop over `zip(labels, scores)`. */
  method NormalizeLabels(labels: seq<string>, scores: seq<Value>) returns (normalized: seq<string>)
    ensures normalized == NormalizedLabels(labels, scores)
    ensures forall i :: 0 <= i < |normalized| ==> IsClass(normalized[i])
  {
    normalized := [];
    var i := 0;
    while i < |labels| && i < |scores|
      invariant 0 <= i <= MinLen(|labels|, |scores|)
      invariant |normalized| == i
      invariant forall j :: 0 <= j < i ==> normalized[j] == NormalizeLabel(labels[j], scores[j])
    {
      var next := NormalizeOne(labels[i], scores[i]);
      normalized := normalized + [next];
      i := i + 1;
    }
  }

  /** `value_counts().get(label, 0)` */
  function Count(labels: seq<string>, lab: string): (n: nat)
    ensures n <= |labels|
  {
    if labels == [] then 0
    else (if labels[0] == lab then 1 else 0) + Count(labels[1..], lab)
  }

  /** When every label is a class, the three counts add up to the number of
      labels. */
  lemma {:induction false} CountsPartition(labels: seq<string>)
    requires forall i :: 0 <= i < |labels| ==> IsClass(labels[i])
    ensures Count(labels, POSITIVE) + Count(labels, NEUTRAL) + Count(labels, NEGATIVE) == |labels|
  {
    if labels != [] {
      assert IsClass(labels[0]);
      CountsPartition(labels[1..]);
    }
  }

  /** The per-product statistics. */
  datatype Stats = Stats(positive: nat, neutral: nat, negative: nat,
                         positivePct: real, neutralPct: real, negativePct: real,
                         avgScore: Option<real>, numReviewsUsed: Option<nat>)

  /** The fallback of the lookup: zero counts and percentages, no average and
      no review count. */
  const ZERO_STATS: Stats := Stats(0, 0, 0, 0.0, 0.0, 0.0, None, None)

  /** `(v / total) * 100` */
  function Pct(count: nat, total: nat): real
    requires total >= 1
  {
    (count as real / total as real) * 100.0
  }

  /** `[float(s) for s in scores if pd.notna(s)]`, or None when a `float()`
      call raises. */
  function ScoreValues(scores: seq<Value>): (r: Option<seq<real>>)
    ensures r.Some? ==> |r.value| <= |scores|
  {
    if scores == [] then Some([])
    else
      var rest := ScoreValues(scores[1..]);
      match scores[0]
      case NoneV => rest
      case NaN => rest
      case Str(_) => None
      case Int(i) => if rest.Some? then Some([i as real] + rest.value) else None
      case Float(x, _) => if rest.Some? then Some([x] + rest.value) else None
      case Bool(b) => if rest.Some? then Some([if b then 1.0 else 0.0] + rest.value) else None
  }

  function Sum(xs: seq<real>): real {
    if xs == [] then 0.0 else xs[0] + Sum(xs[1..])
  }

  /** The average score: None when there is no usable score or a conversion
      raises. */
  function AvgScore(scores: seq<Value>): Option<real> {
    var vs := ScoreValues(scores);
    if vs.None? || vs.value == [] then None else Some(Sum(vs.value) / |vs.value| as real)
  }

  /** The statistics of one group, from its normalised labels and scores. */
  function StatsOf(labels: seq<string>, scores: seq<Value>): Stats {
    var total := if |labels| > 1 then |labels| else 1;
    Stats(Count(labels, POSITIVE), Count(labels, NEUTRAL), Count(labels, NEGATIVE),
          Pct(Count(labels, POSITIVE), total), Pct(Count(labels, NEUTRAL), total), Pct(Count(labels, NEGATIVE), total),
          AvgScore(scores), Some(total))
  }

  /** One product document with its statistics. */
  datatype SentimentDoc = SentimentDoc(productId: Value, productName: string, text: string,
                                       category: Value, stats: Stats)

  /** Which optional columns the frame has. */
  datatype Columns = Columns(hasCategory: bool, hasLabel: bool, hasScore: bool)

  function ColumnsOf(f: Frame): Columns {
    Columns(PD.CATEGORY_COL in f.columns, LABEL_COL in f.columns, SCORE_COL in f.columns)
  }

  function GroupLabels(group: seq<PD.CleanRow>, cols: Columns): (r: seq<string>)
    ensures |r| == |group|
  {
    seq(|group|, i requires 0 <= i < |group| => LabelText(group[i].cells, cols.hasLabel))
  }

  function GroupScores(group: seq<PD.CleanRow>, cols: Columns): (r: seq<Value>)
    ensures |r| == |group|
  {
    seq(|group|, i requires 0 <= i < |group| => ScoreOf(group[i].cells, cols.hasScore))
  }

  /** The document of one group: its id is the group's first `id` cell,
      missing when the frame has no `id` column. */
  function DocFor(group: seq<PD.CleanRow>, cols: Columns, prod: string): Result<SentimentDoc>
    requires group != []
  {
    var category := PD.CategoryOf(group, cols.hasCategory);
    var scores := GroupScores(group, cols);
    var labels := NormalizedLabels(GroupLabels(group, cols), scores);
    var text := PD.SummaryText(prod, category, Take(PD.Texts(group), PD.SAMPLE_SIZE));
    match Index(group[0].cells, PRODUCT_ID_COL)
    case Err(e) => Err(e)
    case Ok(pid) => Ok(SentimentDoc(pid, prod, text, category, StatsOf(labels, scores)))
  }

  /** The documents for `keys`; the first failing group's error stops the
      loop. */
  function DocsFor(rows: seq<PD.CleanRow>, cols: Columns, keys: seq<string>): Result<seq<SentimentDoc>>
    requires forall k :: k in keys ==> k in PD.ProductNames(rows)
  {
    if keys == [] then Ok([])
    else
      match DocsFor(rows, cols, keys[..|keys| - 1])
      case Err(e) => Err(e)
      case Ok(docs) =>
        var prod := keys[|keys| - 1];
        PD.GroupIsNonEmpty(rows, prod);
        match DocFor(PD.GroupOf(rows, prod), cols, prod)
        case Err(e) => Err(e)
        case Ok(d) => Ok(docs + [d])
  }

  function SentimentDocs(rows: seq<PD.CleanRow>, cols: Columns): Result<seq<SentimentDoc>> {
    DocsFor(rows, cols, SortedKeys(PD.ProductNames(rows)))
  }

  /** The body of the groupby loop for the group of `prod`. */
  method BuildDoc(rows: seq<PD.CleanRow>, cols: Columns, prod: string) returns (r: Result<SentimentDoc>)
    requires prod in PD.ProductNames(rows)
    ensures PD.GroupOf(rows, prod) != [] && r == DocFor(PD.GroupOf(rows, prod), cols, prod)
  {
    var group := PD.GroupOf(rows, prod);
    PD.GroupIsNonEmpty(rows, prod);
    var sample := Take(PD.Texts(group), PD.SAMPLE_SIZE);
    var category := PD.CategoryOf(group, cols.hasCategory);
    var labels := GroupLabels(group, cols);
    var scores := GroupScores(group, cols);
    var normalized := NormalizeLabels(labels, scores);
    var stats := StatsOf(normalized, scores);
    var summary := PD.SummaryText(prod, category, sample);
    var pid := Index(group[0].cells, PRODUCT_ID_COL);
    if pid.Err? {
      return Err(pid.error);
    }
    r := Ok(SentimentDoc(pid.value, prod, summary, category, stats));
  }

  /** One more key extends the documents by that key's document, or fails
      with its error. */
  lemma DocsForStep(rows: seq<PD.CleanRow>, cols: Columns, keys: seq<string>, i: nat, docs: seq<SentimentDoc>)
    requires i < |keys| && forall k :: k in keys ==> k in PD.ProductNames(rows)
    requires DocsFor(rows, cols, keys[..i]) == Ok(docs)
    ensures PD.GroupOf(rows, keys[i]) != []
    ensures DocFor(PD.GroupOf(rows, keys[i]), cols, keys[i]).Err? ==>
              DocsFor(rows, cols, keys[..i + 1]) == Err(DocFor(PD.GroupOf(rows, keys[i]), cols, keys[i]).error)
    ensures DocFor(PD.GroupOf(rows, keys[i]), cols, keys[i]).Ok? ==>
              DocsFor(rows, cols, keys[..i + 1]) == Ok(docs + [DocFor(PD.GroupOf(rows, keys[i]), cols, keys[i]).value])
  {
    PD.GroupIsNonEmpty(rows, keys[i]);
    assert keys[..i + 1][..i] == keys[..i] && keys[..i + 1][i] == keys[i];
  }

  /** Once a prefix of the keys fails, the whole run fails with the same
      error. */
  lemma {:induction false} DocsForErrorSticks(rows: seq<PD.CleanRow>, cols: Columns, keys: seq<string>, i: nat)
    requires i <= |keys| && forall k :: k in keys ==> k in PD.ProductNames(rows)
    requires DocsFor(rows, cols, keys[..i]).Err?
    ensures DocsFor(rows, cols, keys) == DocsFor(rows, cols, keys[..i])
    decreases |keys|
  {
    if i < |keys| {
      var init := keys[..|keys| - 1];
      assert init[..i] == keys[..i];
      DocsForErrorSticks(rows, cols, init, i);
    } else {
      assert keys[..i] == keys;
    }
  }

  /** The groupby loop. */
  method BuildDocs(rows: seq<PD.CleanRow>, cols: Columns) returns (r: Result<seq<SentimentDoc>>)
    ensures r == SentimentDocs(rows, cols)
  {
    var keys := SortedKeys(PD.ProductNames(rows));
    var docs: seq<SentimentDoc> := [];
    var i := 0;
    while i < |keys|
      invariant 0 <= i <= |keys|
      invariant DocsFor(rows, cols, keys[..i]) == Ok(docs)
    {
      var d := BuildDoc(rows, cols, keys[i]);
      DocsForStep(rows, cols, keys, i, docs);
      if d.Err? {
        DocsForErrorSticks(rows, cols, keys, i + 1);
        return Err(d.error);
      }
      docs := docs + [d.value];
      i := i + 1;
    }
    assert keys[..i] == keys;
    r := Ok(docs);
  }

  // ---------------------------------------------------------------------
  // The statistics lookup
  // ---------------------------------------------------------------------

  /** `stats_map`: product id to statistics; a later document with the same
      id replaces an earlier one. */
  function StatsMapOf(docs: seq<SentimentDoc>): map<Value, Stats> {
    if docs == [] then map[]
    else StatsMapOf(docs[..|docs| - 1])[docs[|docs| - 1].productId := docs[|docs| - 1].stats]
  }

  /** The loop filling `stats_map`. */
  method BuildStatsMap(docs: seq<SentimentDoc>) returns (m: map<Value, Stats>)
    ensures m == StatsMapOf(docs)
  {
    m := map[];
    var i := 0;
    while i < |docs|
      invariant 0 <= i <= |docs|
      invariant m == StatsMapOf(docs[..i])
    {
      assert docs[..i + 1][..i] == docs[..i];
      m := m[docs[i].productId := docs[i].stats];
      i := i + 1;
    }
    assert docs[..i] == docs;
  }

  /** `stats_map.get(pid, zeros)`. A missing id is looked up like any other
      key: the NaN that `read_csv` puts in every empty cell of the string id
      column is one object, and `dict.get` tries identity before `==`, so it
      finds the entry stored under that same NaN. */
  function StatsFor(m: map<Value, Stats>, pid: Value): (s: Stats)
    ensures pid !in m ==> s == ZERO_STATS
    ensures pid in m ==> s == m[pid]
  {
    if pid in m then m[pid] else ZERO_STATS
  }

  /** The map holds exactly the documents' ids. */
  lemma {:induction false} StatsMapKeys(docs: seq<SentimentDoc>, pid: Value)
    ensures pid in StatsMapOf(docs) <==> exists i :: 0 <= i < |docs| && docs[i].productId == pid
  {
    if docs != [] {
      var m := |docs| - 1;
      var init := docs[..m];
      StatsMapKeys(init, pid);
      if exists i :: 0 <= i < |docs| && docs[i].productId == pid {
        var i :| 0 <= i < |docs| && docs[i].productId == pid;
        if i < m {
          assert init[i] == docs[i];
        }
      }
      if exists i :: 0 <= i < |init| && init[i].productId == pid {
        var i :| 0 <= i < |init| && init[i].productId == pid;
        assert docs[i] == init[i];
      }
    }
  }

  /** Each id maps to the statistics of the last document carrying it. */
  lemma {:induction false} StatsMapLastDocWins(docs: seq<SentimentDoc>, pid: Value, i: nat)
    requires i < |docs| && docs[i].productId == pid
    requires forall j :: i < j < |docs| ==> docs[j].productId != pid
    ensures pid in StatsMapOf(docs) && StatsMapOf(docs)[pid] == docs[i].stats
  {
    var m := |docs| - 1;
    if i < m {
      var init := docs[..m];
      assert docs[m].productId != pid;
      assert init[i] == docs[i];
      forall j | i < j < |init| ensures init[j].productId != pid {
        assert init[j] == docs[j];
      }
      StatsMapLastDocWins(init, pid, i);
    }
  }

  /** A review gets the statistics of the last document carrying its product
      id; a missing id (NaN) included, it then gets those of the last
      document whose first row had no id. */
  lemma {:induction false} ReviewGetsLastDocStats(docs: seq<SentimentDoc>, pid: Value, i: nat)
    requires i < |docs| && docs[i].productId == pid
    requires forall j :: i < j < |docs| ==> docs[j].productId != pid
    ensures StatsFor(StatsMapOf(docs), pid) == docs[i].stats
  {
    StatsMapLastDocWins(docs, pid, i);
  }

  /** A review whose product id has no statistics gets zero counts, zero
      percentages, and no average or review count. */
  lemma MissingProductGetsZeroStats(docs: seq<SentimentDoc>, pid: Value)
    requires forall i :: 0 <= i < |docs| ==> docs[i].productId != pid
    ensures var s := StatsFor(StatsMapOf(docs), pid);
      && s.positive == 0 && s.neutral == 0 && s.negative == 0
      && s.positivePct == 0.0 && s.neutralPct == 0.0 && s.negativePct == 0.0
      && s.avgScore == None && s.numReviewsUsed == None
  {
    StatsMapKeys(docs, pid);
  }

  // ---------------------------------------------------------------------
  // Review rows and their columns
  // ---------------------------------------------------------------------

  /** One review row with its product's statistics. */
  datatype SentimentReview = SentimentReview(productId: Value, productName: string, reviewText: string, rating: Value,
                                             sentimentLabel: Value, sentimentScore: Value, stats: Stats)

  function ReviewFor(m: map<Value, Stats>, r: PD.CleanRow): Result<SentimentReview> {
    match Index(r.cells, PRODUCT_ID_COL)
    case Err(e) => Err(e)
    case Ok(pid) =>
      Ok(SentimentReview(pid, r.name, Strip(r.text), Get(r.cells, PD.RATING_COL),
                         Get(r.cells, LABEL_COL), Get(r.cells, SCORE_COL), StatsFor(m, pid)))
  }

  /** The review rows: every row is kept, blank text included. */
  function ReviewsFor(m: map<Value, Stats>, rows: seq<PD.CleanRow>): Result<seq<SentimentReview>> {
    if rows == [] then Ok([])
    else
      match ReviewsFor(m, rows[..|rows| - 1])
      case Err(e) => Err(e)
      case Ok(out) =>
        match ReviewFor(m, rows[|rows| - 1])
        case Err(e) => Err(e)
        case Ok(r) => Ok(out + [r])
  }

  /** Once a prefix of the rows fails, the whole run fails with the same
      error. */
  lemma {:induction false} ReviewsForErrorSticks(m: map<Value, Stats>, rows: seq<PD.CleanRow>, i: nat)
    requires i <= |rows| && ReviewsFor(m, rows[..i]).Err?
    ensures ReviewsFor(m, rows) == ReviewsFor(m, rows[..i])
    decreases |rows|
  {
    if i < |rows| {
      var init := rows[..|rows| - 1];
      assert init[..i] == rows[..i];
      ReviewsForErrorSticks(m, init, i);
    } else {
      assert rows[..i] == rows;
    }
  }

  /** One more row: the run so far extended by that row's review, or its
      error. */
  lemma ReviewsForStep(m: map<Value, Stats>, rows: seq<PD.CleanRow>, i: nat, out: seq<SentimentReview>)
    requires i < |rows| && ReviewsFor(m, rows[..i]) == Ok(out)
    ensures ReviewFor(m, rows[i]).Err? ==> ReviewsFor(m, rows[..i + 1]) == Err(ReviewFor(m, rows[i]).error)
    ensures ReviewFor(m, rows[i]).Ok? ==> ReviewsFor(m, rows[..i + 1]) == Ok(out + [ReviewFor(m, rows[i]).value])
  {
    assert rows[..i + 1][..i] == rows[..i] && rows[..i + 1][i] == rows[i];
  }

  /** The body of the review-row loop for one row. */
  method BuildReview(m: map<Value, Stats>, row: PD.CleanRow) returns (r: Result<SentimentReview>)
    ensures r == ReviewFor(m, row)
  {
    var pid := Index(row.cells, PRODUCT_ID_COL);
    if pid.Err? {
      return Err(pid.error);
    }
    var text := Strip(row.text);
    var rating := Get(row.cells, PD.RATING_COL);
    var stats := StatsFor(m, pid.value);
    var sentimentLabel := Get(row.cells, LABEL_COL);
    var sentimentScore := Get(row.cells, SCORE_COL);
    r := Ok(SentimentReview(pid.value, row.name, text, rating, sentimentLabel, sentimentScore, stats));
  }

  /** The review-row loop. */
  method BuildReviews(m: map<Value, Stats>, rows: seq<PD.CleanRow>) returns (r: Result<seq<SentimentReview>>)
    ensures r == ReviewsFor(m, rows)
  {
    var out: seq<SentimentReview> := [];
    var i := 0;
    while i < |rows|
      invariant 0 <= i <= |rows|
      invariant ReviewsFor(m, rows[..i]) == Ok(out)
    {
      var one := BuildReview(m, rows[i]);
      ReviewsForStep(m, rows, i, out);
      if one.Err? {
        ReviewsForErrorSticks(m, rows, i + 1);
        return Err(one.error);
      }
      out := out + [one.value];
      i := i + 1;
    }
    assert rows[..i] == rows;
    r := Ok(out);
  }

  /** `cols_order` */
  const COLS_ORDER: seq<string> := [
    "product_id", "product_name", "review_text", "rating",
    "sentiment_label", "sentiment_score",
    "positive_count", "neutral_count", "negative_count",
    "positive_pct", "neutral_pct", "negative_pct",
    "avg_sentiment_score", "num_reviews_used"]

  /** `[c for c in xs if c in ys]` */
  function KeepIn(xs: seq<string>, ys: seq<string>): (r: seq<string>)
    ensures forall c :: c in r <==> c in xs && c in ys
  {
    if xs == [] then []
    else (if xs[0] in ys then [xs[0]] else []) + KeepIn(xs[1..], ys)
  }

  /** `[c for c in xs if c not in ys]` */
  function DropIn(xs: seq<string>, ys: seq<string>): (r: seq<string>)
    ensures forall c :: c in r <==> c in xs && c !in ys
  {
    if xs == [] then []
    else (if xs[0] in ys then [] else [xs[0]]) + DropIn(xs[1..], ys)
  }

  /** The listed columns the frame has, in listed order, then the frame's
      other columns in their own order. */
  function Reorder(order: seq<string>, columns: seq<string>): (r: seq<string>)
    ensures forall c :: c in r <==> c in columns
  {
    var existing := KeepIn(order, columns);
    existing + DropIn(columns, existing)
  }

  /** `final_cols` */
  function FinalColumns(columns: seq<string>): (r: seq<string>)
    ensures forall c :: c in r <==> c in columns
  {
    Reorder(COLS_ORDER, columns)
  }

  predicate Distinct(xs: seq<string>) {
    forall i, j :: 0 <= i < j < |xs| ==> xs[i] != xs[j]
  }

  lemma {:induction false} KeepInCount(xs: seq<string>, ys: seq<string>, c: string)
    ensures multiset(KeepIn(xs, ys))[c] == if c in ys then multiset(xs)[c] else 0
  {
    if xs != [] {
      KeepInCount(xs[1..], ys, c);
      assert xs == [xs[0]] + xs[1..];
    }
  }

  lemma {:induction false} DropInCount(xs: seq<string>, ys: seq<string>, c: string)
    ensures multiset(DropIn(xs, ys))[c] == if c in ys then 0 else multiset(xs)[c]
  {
    if xs != [] {
      DropInCount(xs[1..], ys, c);
      assert xs == [xs[0]] + xs[1..];
    }
  }

  lemma {:induction false} DistinctCount(xs: seq<string>, i: nat)
    requires Distinct(xs) && i < |xs|
    ensures multiset(xs)[xs[i]] == 1
  {
    var c := xs[i];
    var front, back := xs[..i], xs[i + 1..];
    assert xs == front + [c] + back;
    assert c !in front by {
      forall k | 0 <= k < |front| ensures front[k] != c {
        assert front[k] == xs[k];
      }
    }
    assert c !in back by {
      forall k | 0 <= k < |back| ensures back[k] != c {
        assert back[k] == xs[i + 1 + k];
      }
    }
  }

  /** With distinct column orders, reordering is a permutation: each column
      exactly once, the listed ones first and in listed order. */
  lemma ReorderIsPermutation(order: seq<string>, columns: seq<string>)
    requires Distinct(order) && Distinct(columns)
    ensures multiset(Reorder(order, columns)) == multiset(columns)
    ensures Reorder(order, columns)[..|KeepIn(order, columns)|] == KeepIn(order, columns)
  {
    var existing := KeepIn(order, columns);
    forall c ensures multiset(Reorder(order, columns))[c] == multiset(columns)[c] {
      KeepInCount(order, columns, c);
      DropInCount(columns, existing, c);
      if c in columns {
        var i :| 0 <= i < |columns| && columns[i] == c;
        DistinctCount(columns, i);
        if c in order {
          var j :| 0 <= j < |order| && order[j] == c;
          DistinctCount(order, j);
        }
      }
    }
    assert (existing + DropIn(columns, existing))[..|existing|] == existing;
  }

  lemma ColsOrderIsDistinct()
    ensures Distinct(COLS_ORDER)
  {
  }

  /** For a frame whose column labels are distinct, the final column list is
      a permutation of them with the listed columns first, in listed order. */
  lemma FinalColumnsArePermutation(columns: seq<string>)
    requires Distinct(columns)
    ensures multiset(FinalColumns(columns)) == multiset(columns)
    ensures FinalColumns(columns)[..|KeepIn(COLS_ORDER, columns)|] == KeepIn(COLS_ORDER, columns)
  {
    ColsOrderIsDistinct();
    ReorderIsPermutation(COLS_ORDER, columns);
  }

  lemma {:induction false} KeepAll(xs: seq<string>, ys: seq<string>)
    requires forall c :: c in xs ==> c in ys
    ensures KeepIn(xs, ys) == xs && DropIn(xs, ys) == []
  {
    if xs != [] {
      KeepAll(xs[1..], ys);
      assert xs == [xs[0]] + xs[1..];
    }
  }

  /** The review table built from the row dicts has exactly the listed
      columns in the listed order, so reordering leaves it as it is. */
  lemma ReviewTableKeepsOrder()
    ensures FinalColumns(COLS_ORDER) == COLS_ORDER
  {
    KeepAll(COLS_ORDER, COLS_ORDER);
  }

  // ---------------------------------------------------------------------
  // The script
  // ---------------------------------------------------------------------

  /** The fill lines: the name column is read first (by the value counts that
      are printed), then the review and name columns are filled. */
  function CleanFrame(f: Frame): Result<seq<PD.CleanRow>> {
    if PD.PRODUCT_COL !in f.columns then Err(KeyError(PD.PRODUCT_COL)) else PD.CleanRows(f)
  }

  /** The columns of the review table: `cols_order` when there are rows,
      none when there are none. */
  function ReviewColumns(reviews: seq<SentimentReview>): seq<string> {
    if reviews == [] then [] else FinalColumns(COLS_ORDER)
  }

  /** The whole script on a frame: the product documents and the review rows
      with the column order of the written table, or the first KeyError. */
  method PrepareSentimentDocuments(f: Frame)
    returns (r: Result<(seq<SentimentDoc>, seq<SentimentReview>, seq<string>)>)
    ensures CleanFrame(f).Err? ==> r == Err(CleanFrame(f).error)
    ensures CleanFrame(f).Ok? ==>
      var rows := CleanFrame(f).value;
      var docs := SentimentDocs(rows, ColumnsOf(f));
      if docs.Err? then r == Err(docs.error)
      else
        var reviews := ReviewsFor(StatsMapOf(docs.value), rows);
        if reviews.Err? then r == Err(reviews.error)
        else r == Ok((docs.value, reviews.value, ReviewColumns(reviews.value)))
  {
    var cleaned := CleanFrame(f);
    if cleaned.Err? {
      return Err(cleaned.error);
    }
    var docs := BuildDocs(cleaned.value, ColumnsOf(f));
    if docs.Err? {
      return Err(docs.error);
    }
    var statsMap := BuildStatsMap(docs.value);
    var reviews := BuildReviews(statsMap, cleaned.value);
    if reviews.Err? {
      return Err(reviews.error);
    }
    var cols := if reviews.value == [] then [] else FinalColumns(COLS_ORDER);
    r := Ok((docs.value, reviews.value, cols));
  }

  // ---------------------------------------------------------------------
  // Properties of the documents
  // ---------------------------------------------------------------------

  lemma {:induction false} DocsForShape(rows: seq<PD.CleanRow>, cols: Columns, keys: seq<string>)
    requires forall k :: k in keys ==> k in PD.ProductNames(rows)
    ensures var r := DocsFor(rows, cols, keys);
      r.Ok? ==> |r.value| == |keys| && forall i :: 0 <= i < |keys| ==>
        PD.GroupOf(rows, keys[i]) != [] && DocFor(PD.GroupOf(rows, keys[i]), cols, keys[i]) == Ok(r.value[i])
  {
    if keys != [] {
      var init := keys[..|keys| - 1];
      DocsForShape(rows, cols, init);
      var r := DocsFor(rows, cols, keys);
      if r.Ok? {
        var prev := DocsFor(rows, cols, init);
        assert prev.Ok?;
        assert r.value[..|init|] == prev.value;
        forall i | 0 <= i < |keys|
          ensures PD.GroupOf(rows, keys[i]) != [] && DocFor(PD.GroupOf(rows, keys[i]), cols, keys[i]) == Ok(r.value[i])
        {
          PD.GroupIsNonEmpty(rows, keys[i]);
          if i < |init| {
            assert init[i] == keys[i];
            assert r.value[i] == prev.value[i];
          }
        }
      }
    }
  }

  /** Each product document has its group's label counts, which add up to
      the group size; `num_reviews_used` is the group size, at least 1; the
      percentages add up to 100; and its id is the first row's `id`. */
  lemma DocStatsCoverGroup(rows: seq<PD.CleanRow>, cols: Columns, i: nat)
    requires SentimentDocs(rows, cols).Ok? && i < |SentimentDocs(rows, cols).value|
    ensures var doc := SentimentDocs(rows, cols).value[i];
      var group := PD.GroupOf(rows, doc.productName);
      && group != []
      && doc.stats.positive + doc.stats.neutral + doc.stats.negative == |group|
      && doc.stats.numReviewsUsed == Some(|group|)
      && doc.stats.positivePct + doc.stats.neutralPct + doc.stats.negativePct == 100.0
      && doc.productId == Get(group[0].cells, PRODUCT_ID_COL)
  {
    var keys := SortedKeys(PD.ProductNames(rows));
    DocsForShape(rows, cols, keys);
    var doc := SentimentDocs(rows, cols).value[i];
    var group := PD.GroupOf(rows, keys[i]);
    assert DocFor(group, cols, keys[i]) == Ok(doc);
    var scores := GroupScores(group, cols);
    var labels := NormalizedLabels(GroupLabels(group, cols), scores);
    assert |labels| == |group|;
    CountsPartition(labels);
    PctsAddUp(Count(labels, POSITIVE), Count(labels, NEUTRAL), Count(labels, NEGATIVE), |group|);
  }

  /** Each product document's context joins at most the first 10 review
      texts of its group, in frame order, in the summary format. */
  lemma SentimentDocContext(rows: seq<PD.CleanRow>, cols: Columns, i: nat)
    requires SentimentDocs(rows, cols).Ok? && i < |SentimentDocs(rows, cols).value|
    ensures var doc := SentimentDocs(rows, cols).value[i];
      var group := PD.GroupOf(rows, doc.productName);
      && group != []
      && exists sample ::
           && |sample| == (if |group| < 10 then |group| else 10)
           && (forall j :: 0 <= j < |sample| ==> sample[j] == group[j].text)
           && doc.text == "Product: " + doc.productName + "\nCategories: " + Show(doc.category)
                          + "\n\nTop reviews:\n" + Join(" ", sample)
  {
    var keys := SortedKeys(PD.ProductNames(rows));
    DocsForShape(rows, cols, keys);
    var doc := SentimentDocs(rows, cols).value[i];
    var group := PD.GroupOf(rows, keys[i]);
    assert DocFor(group, cols, keys[i]) == Ok(doc);
    var sample := Take(PD.Texts(group), PD.SAMPLE_SIZE);
    assert |sample| == (if |group| < 10 then |group| else 10);
  }

  lemma PctsAddUp(a: nat, b: nat, c: nat, total: nat)
    requires total >= 1 && a + b + c == total
    ensures Pct(a, total) + Pct(b, total) + Pct(c, total) == 100.0
  {
    var t := total as real;
    var ra, rb, rc := a as real, b as real, c as real;
    assert ra + rb + rc == t;
    var x, y, z := ra / t, rb / t, rc / t;
    assert x * t == ra;
    assert y * t == rb;
    assert z * t == rc;
    assert (x + y + z) * t == ra + rb + rc;
    assert x + y + z == 1.0 by {
      if x + y + z != 1.0 {
        assert (x + y + z - 1.0) * t == 0.0;
      }
    }
    assert Pct(a, total) + Pct(b, total) + Pct(c, total) == (x + y + z) * 100.0;
  }

  /** Every normalised label is one of the three classes. */
  lemma NormalizedLabelsAreClasses(labels: seq<string>, scores: seq<Value>)
    ensures forall i :: 0 <= i < |NormalizedLabels(labels, scores)| ==> IsClass(NormalizedLabels(labels, scores)[i])
  {
  }
}
