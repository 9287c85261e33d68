/** `scripts/prepare_docs.py`: from the raw review table, one summary
    document per product name and one snippet row per review with text.
    The CSV reader and writer are left out (the script starts from a frame
    and ends with the two lists), and `md5(...).hexdigest()` is the
    parameter `md5Hex`. */
module PrepareDocs {
  import opened PyText
  import opened PyValue
  import opened Grouping

  const PRODUCT_COL: string := "name"
  const REVIEW_COL: string := "reviews.text"
  const RATING_COL: string := "reviews.rating"
  const CATEGORY_COL: string := "categories"
  const UNKNOWN_PRODUCT: string := "Unknown Product"
  /** Reviews sampled into a product's context. */
  const SAMPLE_SIZE: nat := 10
  /** Hex digits of the md5 digest kept as product id. */
  const ID_LENGTH: nat := 12

  /** A row after `fillna(...).astype(str)` of the review and name columns:
      both are strings, the other cells are as read. */
  datatype CleanRow = CleanRow(name: string, text: string, cells: Row)

  /** One product document. */
  datatype ProductDoc = ProductDoc(productId: string, productName: string, text: string)

  /** One review snippet row. */
  datatype ReviewSnippet = ReviewSnippet(productId: string, productName: string, reviewText: string, rating: Value)

  /** `fillna(fill).astype(str)` on one cell. */
  function FillStr(v: Value, fill: string): (s: string)
    ensures IsNa(v) ==> s == fill
    ensures !IsNa(v) ==> s == Show(v)
  {
    if IsNa(v) then fill else Show(v)
  }

  function CleanRowOf(row: Row): CleanRow {
    CleanRow(FillStr(Get(row, PRODUCT_COL), UNKNOWN_PRODUCT), FillStr(Get(row, REVIEW_COL), ""), row)
  }

  /** The two fill lines: a KeyError when the review or the name column is
      missing (the review column is touched first), else every row
      cleaned. */
  function CleanRows(f: Frame): (r: Result<seq<CleanRow>>)
    ensures r.Ok? <==> REVIEW_COL in f.columns && PRODUCT_COL in f.columns
    ensures REVIEW_COL !in f.columns ==> r == Err(KeyError(REVIEW_COL))
    ensures r.Ok? ==> |r.value| == |f.rows|
  {
    if REVIEW_COL !in f.columns then Err(KeyError(REVIEW_COL))
    else if PRODUCT_COL !in f.columns then Err(KeyError(PRODUCT_COL))
    else Ok(seq(|f.rows|, i requires 0 <= i < |f.rows| => CleanRowOf(f.rows[i])))
  }

  /** A missing product name becomes "Unknown Product"; a present one is
      kept as its string form. */
  lemma MissingNameIsUnknownProduct(f: Frame, i: nat)
    requires CleanRows(f).Ok? && i < |f.rows|
    ensures var name := Get(f.rows[i], PRODUCT_COL);
      CleanRows(f).value[i].name == (if IsNa(name) then UNKNOWN_PRODUCT else Show(name))
  {
  }

  /** The product name of each cleaned row, in row order: the `groupby` column. */
  function ProductNames(rows: seq<CleanRow>): (r: seq<string>)
    ensures |r| == |rows| && forall i :: 0 <= i < |rows| ==> r[i] == rows[i].name
  {
    seq(|rows|, i requires 0 <= i < |rows| => rows[i].name)
  }

  /** The rows of one `groupby` group, in frame order. */
  function GroupOf(rows: seq<CleanRow>, key: string): (g: seq<CleanRow>)
    ensures forall r :: r in g <==> r in rows && r.name == key
  {
    if rows == [] then []
    else (if rows[0].name == key then [rows[0]] else []) + GroupOf(rows[1..], key)
  }

  function Texts(group: seq<CleanRow>): (r: seq<string>)
    ensures |r| == |group| && forall i :: 0 <= i < |group| ==> r[i] == group[i].text
  {
    seq(|group|, i requires 0 <= i < |group| => group[i].text)
  }

  /** `md5(name).hexdigest()[:12]`. */
  function ProductIdOf(md5Hex: string -> string, name: string): string {
    Take(md5Hex(name), ID_LENGTH)
  }

  /** `f"Product: {prod}\nCategories: {category_val}\n\nTop reviews:\n{combined}"` */
  function SummaryText(prod: string, category: Value, sample: seq<string>): string {
    "Product: " + prod + "\nCategories: " + Show(category) + "\n\nTop reviews:\n" + Join(" ", sample)
  }

  /** `group[category_col].iloc[0]` when the column exists, else "". */
  function CategoryOf(group: seq<CleanRow>, hasCategory: bool): Value
    requires group != []
  {
    if hasCategory then Get(group[0].cells, CATEGORY_COL) else Str("")
  }

  /** The document built for the group of `prod`. */
  function ProductDocFor(md5Hex: string -> string, hasCategory: bool, rows: seq<CleanRow>, prod: string): (doc: ProductDoc)
    requires prod in ProductNames(rows)
    ensures doc.productName == prod
  {
    var group := GroupOf(rows, prod);
    GroupIsNonEmpty(rows, prod);
    ProductDoc(ProductIdOf(md5Hex, prod), prod,
               SummaryText(prod, CategoryOf(group, hasCategory), Take(Texts(group), SAMPLE_SIZE)))
  }

  /** All product documents: one per group, groups in key order. */
  function ProductDocs(md5Hex: string -> string, hasCategory: bool, rows: seq<CleanRow>): seq<ProductDoc> {
    var keys := SortedKeys(ProductNames(rows));
    seq(|keys|, i requires 0 <= i < |keys| => ProductDocFor(md5Hex, hasCategory, rows, keys[i]))
  }

  lemma GroupIsNonEmpty(rows: seq<CleanRow>, key: string)
    requires key in ProductNames(rows)
    ensures GroupOf(rows, key) != []
  {
    var i :| 0 <= i < |rows| && ProductNames(rows)[i] == key;
    assert rows[i] in GroupOf(rows, key);
  }

  /** The body of the groupby loop for the group of `prod`. */
  method BuildProductDoc(md5Hex: string -> string, hasCategory: bool, rows: seq<CleanRow>, prod: string)
    returns (doc: ProductDoc)
    requires prod in ProductNames(rows)
    ensures doc == ProductDocFor(md5Hex, hasCategory, rows, prod)
  {
    var group := GroupOf(rows, prod);
    GroupIsNonEmpty(rows, prod);
    var sample := Take(Texts(group), SAMPLE_SIZE);
    var category := if hasCategory then Get(group[0].cells, CATEGORY_COL) else Str("");
    var summary := SummaryText(prod, category, sample);
    var prodId := Take(md5Hex(prod), ID_LENGTH);
    doc := ProductDoc(prodId, prod, summary);
  }

  /** The groupby loop. */
  method BuildProductDocs(md5Hex: string -> string, hasCategory: bool, rows: seq<CleanRow>)
    returns (docs: seq<ProductDoc>)
    ensures docs == ProductDocs(md5Hex, hasCategory, rows)
  {
    var keys := SortedKeys(ProductNames(rows));
    ghost var all := ProductDocs(md5Hex, hasCategory, rows);
    docs := [];
    var i := 0;
    while i < |keys|
      invariant 0 <= i <= |keys| == |all|
      invariant docs == all[..i]
    {
      var prod := keys[i];
      var doc := BuildProductDoc(md5Hex, hasCategory, rows, prod);
      assert doc == all[i];
      assert all[..i + 1] == all[..i] + [all[i]];
      docs := docs + [doc];
      i := i + 1;
    }
    assert all[..i] == all;
  }

  /** `if text:` after `strip()`: the row has review text. */
  predicate HasText(r: CleanRow) {
    Strip(r.text) != ""
  }

  /** The snippet row for one review row. */
  function SnippetOf(md5Hex: string -> string, r: CleanRow): ReviewSnippet {
    ReviewSnippet(ProductIdOf(md5Hex, r.name), r.name, Strip(r.text), Get(r.cells, RATING_COL))
  }

  /** The snippet rows: one for each row whose stripped text is non-empty. */
  function ReviewSnippets(md5Hex: string -> string, rows: seq<CleanRow>): seq<ReviewSnippet> {
    if rows == [] then []
    else
      var last := rows[|rows| - 1];
      ReviewSnippets(md5Hex, rows[..|rows| - 1]) + (if HasText(last) then [SnippetOf(md5Hex, last)] else [])
  }

  /** The row loop. */
  method BuildReviewSnippets(md5Hex: string -> string, rows: seq<CleanRow>) returns (out: seq<ReviewSnippet>)
    ensures out == ReviewSnippets(md5Hex, rows)
  {
    out := [];
    var i := 0;
    while i < |rows|
      invariant 0 <= i <= |rows|
      invariant out == ReviewSnippets(md5Hex, rows[..i])
    {
      var r := rows[i];
      var prodId := Take(md5Hex(r.name), ID_LENGTH);
      var text := Strip(r.text);
      var rating := Get(r.cells, RATING_COL);
      assert rows[..i + 1][..i] == rows[..i];
      if text != "" {
        out := out + [ReviewSnippet(prodId, r.name, text, rating)];
      }
      i := i + 1;
    }
    assert rows[..i] == rows;
  }

  /** The whole script on a frame: the product documents and the snippet
      rows, or the KeyError of a missing column. */
  method PrepareDocuments(md5Hex: string -> string, f: Frame)
    returns (r: Result<(seq<ProductDoc>, seq<ReviewSnippet>)>)
    ensures CleanRows(f).Err? ==> r == Err(CleanRows(f).error)
    ensures CleanRows(f).Ok? ==>
      r == Ok((ProductDocs(md5Hex, CATEGORY_COL in f.columns, CleanRows(f).value),
               ReviewSnippets(md5Hex, CleanRows(f).value)))
  {
    var cleaned := CleanRows(f);
    if cleaned.Err? {
      return Err(cleaned.error);
    }
    var docs := BuildProductDocs(md5Hex, CATEGORY_COL in f.columns, cleaned.value);
    var snippets := BuildReviewSnippets(md5Hex, cleaned.value);
    r := Ok((docs, snippets));
  }

  // ---------------------------------------------------------------------
  // Properties
  // ---------------------------------------------------------------------

  /** Exactly one document per distinct product name: names are pairwise
      different, in ascending order, and are exactly the names of the rows. */
  lemma OneDocPerName(md5Hex: string -> string, hasCategory: bool, rows: seq<CleanRow>)
    ensures var docs := ProductDocs(md5Hex, hasCategory, rows);
      && (forall i, j :: 0 <= i < j < |docs| ==>
            docs[i].productName != docs[j].productName && StrLess(docs[i].productName, docs[j].productName))
      && (forall name :: (exists i :: 0 <= i < |docs| && docs[i].productName == name) <==> name in ProductNames(rows))
  {
    var keys := SortedKeys(ProductNames(rows));
    var docs := ProductDocs(md5Hex, hasCategory, rows);
    SortedKeysAreDistinctValues(ProductNames(rows));
    assert |docs| == |keys|;
    forall i | 0 <= i < |docs| ensures docs[i].productName == keys[i] {
      assert docs[i] == ProductDocFor(md5Hex, hasCategory, rows, keys[i]);
    }
    forall name | name in ProductNames(rows) ensures exists i :: 0 <= i < |docs| && docs[i].productName == name {
      var i :| 0 <= i < |keys| && keys[i] == name;
      assert docs[i].productName == name;
    }
    forall name | (exists i :: 0 <= i < |docs| && docs[i].productName == name) ensures name in ProductNames(rows) {
      var i :| 0 <= i < |docs| && docs[i].productName == name;
      assert keys[i] in keys;
    }
  }


  /** A product's document names the product, carries the id derived from
      its name, and its context joins at most the first 10 review texts of
      that product, in frame order. */
  lemma DocContextIsFirstReviews(md5Hex: string -> string, hasCategory: bool, rows: seq<CleanRow>, i: nat)
    requires i < |ProductDocs(md5Hex, hasCategory, rows)|
    ensures var doc := ProductDocs(md5Hex, hasCategory, rows)[i];
      var group := GroupOf(rows, doc.productName);
      && doc.productName in ProductNames(rows)
      && doc.productId == Take(md5Hex(doc.productName), 12)
      && group != []
      && exists sample ::
           && |sample| == (if |group| < 10 then |group| else 10)
           && (forall j :: 0 <= j < |sample| ==> sample[j] == group[j].text && group[j].name == doc.productName)
           && doc.text == "Product: " + doc.productName + "\nCategories: " + Show(CategoryOf(group, hasCategory))
                          + "\n\nTop reviews:\n" + Join(" ", sample)
  {
    var keys := SortedKeys(ProductNames(rows));
    var doc := ProductDocs(md5Hex, hasCategory, rows)[i];
    assert doc == ProductDocFor(md5Hex, hasCategory, rows, keys[i]);
    var group := GroupOf(rows, doc.productName);
    GroupIsNonEmpty(rows, doc.productName);
    var sample := Take(Texts(group), SAMPLE_SIZE);
    forall j | 0 <= j < |sample| ensures sample[j] == group[j].text && group[j].name == doc.productName {
      assert group[j] in group;
    }
  }

  /** Every document's id is derived from its own product name. */
  lemma DocIdIsNameId(md5Hex: string -> string, hasCategory: bool, rows: seq<CleanRow>, i: nat)
    requires i < |ProductDocs(md5Hex, hasCategory, rows)|
    ensures var doc := ProductDocs(md5Hex, hasCategory, rows)[i];
      doc.productId == ProductIdOf(md5Hex, doc.productName)
  {
  }

  /** Every snippet row names a product that has a document, with the same
      id: both ids come from the same name. */
  lemma SnippetIdsMatchDocs(md5Hex: string -> string, hasCategory: bool, rows: seq<CleanRow>)
    ensures var docs := ProductDocs(md5Hex, hasCategory, rows);
      forall s :: s in ReviewSnippets(md5Hex, rows) ==>
        exists i :: 0 <= i < |docs| && docs[i].productId == s.productId && docs[i].productName == s.productName
  {
    var docs := ProductDocs(md5Hex, hasCategory, rows);
    OneDocPerName(md5Hex, hasCategory, rows);
    forall s | s in ReviewSnippets(md5Hex, rows)
      ensures exists i :: 0 <= i < |docs| && docs[i].productId == s.productId && docs[i].productName == s.productName
    {
      SnippetsComeFromRows(md5Hex, rows, s);
      var k :| 0 <= k < |rows| && HasText(rows[k]) && s == SnippetOf(md5Hex, rows[k]);
      assert ProductNames(rows)[k] == s.productName;
      assert s.productName in ProductNames(rows);
      var i :| 0 <= i < |docs| && docs[i].productName == s.productName;
      DocIdIsNameId(md5Hex, hasCategory, rows, i);
    }
  }

  /** A snippet is the snippet of a row of the frame whose stripped text is
      non-empty, and every such row has its snippet: the stored text is that
      stripped text and the rating is the row's rating. */
  lemma {:induction false} SnippetsComeFromRows(md5Hex: string -> string, rows: seq<CleanRow>, s: ReviewSnippet)
    ensures s in ReviewSnippets(md5Hex, rows) <==>
      exists k :: 0 <= k < |rows| && HasText(rows[k]) && s == SnippetOf(md5Hex, rows[k])
  {
    if rows != [] {
      var m := |rows| - 1;
      var init := rows[..m];
      var last := rows[m];
      SnippetsComeFromRows(md5Hex, init, s);
      var tail := if HasText(last) then [SnippetOf(md5Hex, last)] else [];
      assert ReviewSnippets(md5Hex, rows) == ReviewSnippets(md5Hex, init) + tail;
      if s in ReviewSnippets(md5Hex, rows) {
        if s in ReviewSnippets(md5Hex, init) {
          var k :| 0 <= k < |init| && HasText(init[k]) && s == SnippetOf(md5Hex, init[k]);
          assert init[k] == rows[k];
        } else {
          assert s in tail;
        }
      } else {
        forall k | 0 <= k < |rows| && HasText(rows[k]) ensures s != SnippetOf(md5Hex, rows[k]) {
          if k < m {
            assert init[k] == rows[k];
          } else {
            assert k == m && tail == [SnippetOf(md5Hex, last)];
          }
        }
      }
    }
  }

  /** Snippets keep the frame's row order: the rows of `a + b` give the
      snippets of `a` followed by those of `b`. */
  lemma {:induction false} SnippetsPreserveOrder(md5Hex: string -> string, a: seq<CleanRow>, b: seq<CleanRow>)
    ensures ReviewSnippets(md5Hex, a + b) == ReviewSnippets(md5Hex, a) + ReviewSnippets(md5Hex, b)
  {
    if b == [] {
      assert a + b == a;
    } else {
      var bi := b[..|b| - 1];
      var last := b[|b| - 1];
      var extra := if HasText(last) then [SnippetOf(md5Hex, last)] else [];
      SnippetsPreserveOrder(md5Hex, a, bi);
      assert (a + b)[..|a + b| - 1] == a + bi;
      assert (a + b)[|a + b| - 1] == last;
      assert ReviewSnippets(md5Hex, a + b) == ReviewSnippets(md5Hex, a + bi) + extra;
      assert ReviewSnippets(md5Hex, b) == ReviewSnippets(md5Hex, bi) + extra;
      assert ReviewSnippets(md5Hex, a) + ReviewSnippets(md5Hex, bi) + extra
          == ReviewSnippets(md5Hex, a) + (ReviewSnippets(md5Hex, bi) + extra);
    }
  }

  /** The stored text of every snippet is non-empty and already stripped. */
  lemma SnippetTextIsStripped(md5Hex: string -> string, rows: seq<CleanRow>, s: ReviewSnippet)
    requires s in ReviewSnippets(md5Hex, rows)
    ensures s.reviewText != "" && Strip(s.reviewText) == s.reviewText
  {
    SnippetsComeFromRows(md5Hex, rows, s);
    StripOfTrimmed(s.reviewText);
  }
}
