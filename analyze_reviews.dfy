/** `ml/analyze_reviews.py`: choosing the column that holds the review text,
    and the light cleaning applied to each text before classification. The
    classifier and the CSV files are not part of this model. */
module AnalyzeReviews {
  import opened PyText
  import opened PyValue

  /** The conventional names of a text column, in order of preference. */
  const COMMON_TEXT_COLS: seq<string> := ["text", "review", "review_text", "comment", "feedback", "body"]

  /** A column label with whether its dtype is `object` (strings, mixed). */
  datatype Column = Column(name: string, isObject: bool)

  function Names(cols: seq<Column>): (r: seq<string>)
    ensures |r| == |cols| && forall i :: 0 <= i < |cols| ==> r[i] == cols[i].name
  {
    seq(|cols|, i requires 0 <= i < |cols| => cols[i].name)
  }

  /** The first of `candidates` that is a column name. */
  function FirstListed(candidates: seq<string>, names: seq<string>): (r: Option<string>)
    ensures r.Some? ==> r.value in candidates && r.value in names
    ensures r.None? <==> forall c :: c in candidates ==> c !in names
  {
    if candidates == [] then None
    else if candidates[0] in names then Some(candidates[0])
    else FirstListed(candidates[1..], names)
  }

  /** The name of the first `object` column. */
  function FirstObject(cols: seq<Column>): (r: Option<string>)
    ensures r.Some? ==> exists i :: 0 <= i < |cols| && cols[i].isObject && cols[i].name == r.value
    ensures r.None? <==> forall i :: 0 <= i < |cols| ==> !cols[i].isObject
  {
    if cols == [] then None
    else if cols[0].isObject then Some(cols[0].name)
    else
      var r := FirstObject(cols[1..]);
      assert forall i :: 1 <= i < |cols| ==> cols[1..][i - 1] == cols[i];
      r
  }

  /** `find_text_column(df, provided)`: the provided name when it is a
      non-empty column name, else the first conventional name present, else
      the first `object` column, else a ValueError. */
  function FindTextColumn(cols: seq<Column>, provided: Option<string>): (r: Result<string>)
    ensures r.Ok? ==> r.value in Names(cols)
  {
    var names := Names(cols);
    if provided.Some? && provided.value != "" && provided.value in names then Ok(provided.value)
    else
      match FirstListed(COMMON_TEXT_COLS, names)
      case Some(c) => Ok(c)
      case None =>
        match FirstObject(cols)
        case Some(c) => Ok(c)
        case None => Err(ValueError("No text column found. Provide --text_col with column name."))
  }

  /** The earliest candidate in the list that is present wins. */
  lemma {:induction false} FirstListedIsEarliest(candidates: seq<string>, names: seq<string>, i: nat)
    requires i < |candidates| && candidates[i] in names
    requires forall j :: 0 <= j < i ==> candidates[j] !in names
    ensures FirstListed(candidates, names) == Some(candidates[i])
  {
    if i > 0 {
      assert candidates[0] !in names;
      assert forall j :: 0 <= j < i - 1 ==> candidates[1..][j] == candidates[j + 1];
      FirstListedIsEarliest(candidates[1..], names, i - 1);
    }
  }

  /** The earliest `object` column wins. */
  lemma {:induction false} FirstObjectIsEarliest(cols: seq<Column>, i: nat)
    requires i < |cols| && cols[i].isObject
    requires forall j :: 0 <= j < i ==> !cols[j].isObject
    ensures FirstObject(cols) == Some(cols[i].name)
  {
    if i > 0 {
      assert !cols[0].isObject;
      assert forall j :: 0 <= j < i - 1 ==> cols[1..][j] == cols[j + 1];
      FirstObjectIsEarliest(cols[1..], i - 1);
    }
  }

  /** The three tiers of the choice, in priority order: a provided column
      name; else the first of the conventional names, in listed order; else
      the first `object` column in column order. */
  lemma FindTextColumnPriority(cols: seq<Column>, provided: Option<string>)
    ensures provided.Some? && provided.value != "" && provided.value in Names(cols) ==>
              FindTextColumn(cols, provided) == Ok(provided.value)
    ensures !(provided.Some? && provided.value != "" && provided.value in Names(cols)) ==>
              forall i :: 0 <= i < |COMMON_TEXT_COLS| && COMMON_TEXT_COLS[i] in Names(cols)
                          && (forall j :: 0 <= j < i ==> COMMON_TEXT_COLS[j] !in Names(cols))
                          ==> FindTextColumn(cols, provided) == Ok(COMMON_TEXT_COLS[i])
    ensures !(provided.Some? && provided.value != "" && provided.value in Names(cols))
            && (forall c :: c in COMMON_TEXT_COLS ==> c !in Names(cols)) ==>
              forall i :: 0 <= i < |cols| && cols[i].isObject && (forall j :: 0 <= j < i ==> !cols[j].isObject)
                          ==> FindTextColumn(cols, provided) == Ok(cols[i].name)
  {
    forall i | 0 <= i < |COMMON_TEXT_COLS| && COMMON_TEXT_COLS[i] in Names(cols)
                && (forall j :: 0 <= j < i ==> COMMON_TEXT_COLS[j] !in Names(cols))
      ensures FirstListed(COMMON_TEXT_COLS, Names(cols)) == Some(COMMON_TEXT_COLS[i])
    {
      FirstListedIsEarliest(COMMON_TEXT_COLS, Names(cols), i);
    }
    forall i | 0 <= i < |cols| && cols[i].isObject && (forall j :: 0 <= j < i ==> !cols[j].isObject)
      ensures FirstObject(cols) == Some(cols[i].name)
    {
      FirstObjectIsEarliest(cols, i);
    }
  }

  /** The choice fails exactly when the provided name is not a column, no
      conventional name is a column, and no column has dtype `object`. */
  lemma NoTextColumnRaises(cols: seq<Column>, provided: Option<string>)
    ensures FindTextColumn(cols, provided).Err? <==>
      && !(provided.Some? && provided.value != "" && provided.value in Names(cols))
      && (forall c :: c in COMMON_TEXT_COLS ==> c !in Names(cols))
      && (forall i :: 0 <= i < |cols| ==> !cols[i].isObject)
    ensures FindTextColumn(cols, provided).Err? ==> FindTextColumn(cols, provided).error.ValueError?
  {
  }

  /** `s.replace(old, new)` for one character. */
  function ReplaceChar(s: string, from: char, to: char): (r: string)
    ensures |r| == |s|
    ensures forall i :: 0 <= i < |s| ==> r[i] == if s[i] == from then to else s[i]
  {
    seq(|s|, i requires 0 <= i < |s| => if s[i] == from then to else s[i])
  }

  /** `s.replace(c, "")` */
  function RemoveChar(s: string, c: char): (r: string)
    ensures |r| <= |s|
    ensures forall i :: 0 <= i < |r| ==> r[i] != c
    ensures forall x :: x in r <==> x in s && x != c
  {
    if s == [] then []
    else (if s[0] == c then [] else [s[0]]) + RemoveChar(s[1..], c)
  }

  /** `preprocess_text(s)`: `str(s)` stripped, newlines turned into spaces,
      carriage returns dropped. */
  function PreprocessText(v: Value): string {
    Clean(Show(v))
  }

  function Clean(s: string): string {
    RemoveChar(ReplaceChar(Strip(s), '\n', ' '), '\r')
  }

  /** The cleaned text has no line break of either kind and is never longer
      than `str(s)`. */
  lemma PreprocessRemovesLineBreaks(v: Value)
    ensures '\n' !in PreprocessText(v) && '\r' !in PreprocessText(v)
    ensures |PreprocessText(v)| <= |Show(v)|
  {
  }

  /** Removing a character other than the last one keeps the last one. */
  lemma {:induction false} RemoveCharKeepsLast(s: string, c: char)
    requires s != [] && s[|s| - 1] != c
    ensures RemoveChar(s, c) != [] && RemoveChar(s, c)[|RemoveChar(s, c)| - 1] == s[|s| - 1]
  {
    if |s| > 1 {
      assert s[1..][|s[1..]| - 1] == s[|s| - 1];
      RemoveCharKeepsLast(s[1..], c);
    }
  }

  /** A string without `c` is left as it is. */
  lemma {:induction false} RemoveAbsentChar(s: string, c: char)
    requires c !in s
    ensures RemoveChar(s, c) == s
  {
    if s != [] {
      assert s == [s[0]] + s[1..];
      RemoveAbsentChar(s[1..], c);
    }
  }

  /** The cleaned text neither starts nor ends with whitespace. */
  lemma CleanEndsAreNotSpace(s: string)
    ensures var t := Clean(s); t == [] || (!IsSpace(t[0]) && !IsSpace(t[|t| - 1]))
  {
    var stripped := Strip(s);
    var replaced := ReplaceChar(stripped, '\n', ' ');
    if stripped != [] {
      var first, last := stripped[0], stripped[|stripped| - 1];
      assert !IsSpace(first) && !IsSpace(last);
      assert first != '\n' && first != '\r' && last != '\n' && last != '\r';
      assert replaced[0] == first && replaced[|replaced| - 1] == last;
      RemoveCharKeepsLast(replaced, '\r');
      assert RemoveChar(replaced, '\r')[0] == first;
    }
  }

  lemma CleanIsIdempotent(s: string)
    ensures Clean(Clean(s)) == Clean(s)
  {
    var t := Clean(s);
    CleanEndsAreNotSpace(s);
    StripOfTrimmed(t);
    assert '\n' !in t;
    assert ReplaceChar(t, '\n', ' ') == t;
    RemoveAbsentChar(t, '\r');
  }

  /** Cleaning twice gives the same text as cleaning once. */
  lemma PreprocessIsIdempotent(v: Value)
    ensures PreprocessText(Str(PreprocessText(v))) == PreprocessText(v)
  {
    CleanIsIdempotent(Show(v));
  }
}
