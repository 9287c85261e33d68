/** Dynamically typed cells of a pandas row, Python truthiness and `str()`,
    the `row.get` lookups, list slicing, and the errors a script can raise. */
module PyValue {
  import opened PyText

  datatype Option<T> = None | Some(value: T)

  /** A cell value as pandas hands it out. A float carries the text `str()`
      gives for it, since the model keeps floats as exact reals. */
  datatype Value =
    | NoneV
    | NaN
    | Str(s: string)
    | Int(i: int)
    | Float(x: real, repr: string)
    | Bool(b: bool)

  /** The exceptions the scripts and the retrieval code can raise. */
  datatype Error =
    | KeyError(key: string)
    | TypeError(detail: string)
    | ValueError(message: string)
    | StoreFailure(cause: string)

  datatype Result<T> = Ok(value: T) | Err(error: Error)

  /** A pandas row (or a metadata dict): column name to cell. */
  type Row = map<string, Value>

  /** A data frame: its column labels in order, and its rows. */
  datatype Frame = Frame(columns: seq<string>, rows: seq<Row>)

  /** A frame as pandas builds it: every row has a cell for exactly the
      frame's columns (a missing value is a NaN cell, not a missing key). */
  predicate WellFormed(f: Frame) {
    forall i :: 0 <= i < |f.rows| ==> f.rows[i].Keys == set c | c in f.columns
  }

  /** `row[key]`: the cell, or KeyError when the column is absent. */
  function Index(row: Row, key: string): (r: Result<Value>)
    ensures r.Ok? <==> key in row
    ensures r.Ok? ==> r.value == Get(row, key)
  {
    if key in row then Ok(row[key]) else Err(KeyError(key))
  }

  /** `bool(v)`: None, empty strings and zeros are false; NaN is true. */
  predicate Truthy(v: Value) {
    match v
    case NoneV => false
    case NaN => true
    case Str(s) => s != ""
    case Int(i) => i != 0
    case Float(x, _) => x != 0.0
    case Bool(b) => b
  }

  /** `pd.isna(v)`. */
  predicate IsNa(v: Value) {
    v.NoneV? || v.NaN?
  }

  /** `str(v)`, which is also what an f-string inserts. */
  function Show(v: Value): string {
    match v
    case NoneV => "None"
    case NaN => "nan"
    case Str(s) => s
    case Int(i) => IntToString(i)
    case Float(_, repr) => repr
    case Bool(b) => if b then "True" else "False"
  }

  /** `row.get(key)`: the cell, or None when the column is absent. */
  function Get(row: Row, key: string): (v: Value)
    ensures key !in row ==> v == NoneV
  {
    if key in row then row[key] else NoneV
  }

  /** `row.get(k1, row.get(k2, ... None))`: the cell of the first present
      column, whatever its value, or None when none is present. */
  function FirstPresent(row: Row, keys: seq<string>): Value {
    if keys == [] then NoneV
    else if keys[0] in row then row[keys[0]]
    else FirstPresent(row, keys[1..])
  }

  /** `a or b or ... or z`: the first truthy value, else the last one. */
  function FirstTruthy(vs: seq<Value>): Value
    requires vs != []
  {
    if |vs| == 1 || Truthy(vs[0]) then vs[0] else FirstTruthy(vs[1..])
  }

  /** `xs[:n]` (and `df.head(n)`) for a non-negative `n`. */
  function Take<T>(xs: seq<T>, n: nat): (r: seq<T>)
    ensures |r| <= n && |r| <= |xs|
    ensures n <= |xs| ==> |r| == n
    ensures r <= xs
  {
    if n <= |xs| then xs[..n] else xs
  }

  /** The presence-based lookup returns the cell of the earliest listed column
      the row has, and None only when the row has none of them. */
  lemma {:induction false} FirstPresentPicksEarliest(row: Row, keys: seq<string>)
    ensures (forall j :: 0 <= j < |keys| ==> keys[j] !in row) ==> FirstPresent(row, keys) == NoneV
    ensures forall i :: 0 <= i < |keys| && keys[i] in row
                        && (forall j :: 0 <= j < i ==> keys[j] !in row)
                        ==> FirstPresent(row, keys) == row[keys[i]]
  {
    if keys != [] {
      FirstPresentPicksEarliest(row, keys[1..]);
      forall i | 0 < i < |keys| && keys[i] in row && (forall j :: 0 <= j < i ==> keys[j] !in row)
        ensures FirstPresent(row, keys) == row[keys[i]]
      {
        assert keys[0] !in row;
        assert keys[1..][i - 1] == keys[i];
      }
    }
  }

  /** `or` returns the earliest truthy value, and the last value when none is
      truthy; a present but falsy cell (a 0 count, an empty string) is skipped. */
  lemma {:induction false} FirstTruthyPicksEarliest(vs: seq<Value>)
    requires vs != []
    ensures (forall j :: 0 <= j < |vs| ==> !Truthy(vs[j])) ==> FirstTruthy(vs) == vs[|vs| - 1]
    ensures forall i :: 0 <= i < |vs| && Truthy(vs[i]) && (forall j :: 0 <= j < i ==> !Truthy(vs[j]))
                        ==> FirstTruthy(vs) == vs[i]
  {
    if |vs| > 1 {
      FirstTruthyPicksEarliest(vs[1..]);
      assert vs[1..][|vs| - 2] == vs[|vs| - 1];
      forall i | 0 < i < |vs| && Truthy(vs[i]) && (forall j :: 0 <= j < i ==> !Truthy(vs[j]))
        ensures FirstTruthy(vs) == vs[i]
      {
        assert !Truthy(vs[0]);
        assert vs[1..][i - 1] == vs[i];
      }
    }
  }

  /** `for x in xs: out.extend(f(x))` where `f` may raise: the rows'
      outputs in order, or the first exception. */
  function ConcatMap<A, B>(f: A -> Result<seq<B>>, xs: seq<A>): Result<seq<B>> {
    if xs == [] then Ok([])
    else
      match ConcatMap(f, xs[..|xs| - 1])
      case Err(e) => Err(e)
      case Ok(out) =>
        match f(xs[|xs| - 1])
        case Err(e) => Err(e)
        case Ok(ys) => Ok(out + ys)
  }

  /** Once a prefix fails, the whole run fails with the same error. */
  lemma {:induction false} ConcatMapErrorSticks<A, B>(f: A -> Result<seq<B>>, xs: seq<A>, i: nat)
    requires i <= |xs| && ConcatMap(f, xs[..i]).Err?
    ensures ConcatMap(f, xs) == ConcatMap(f, xs[..i])
    decreases |xs|
  {
    if i < |xs| {
      var init := xs[..|xs| - 1];
      assert init[..i] == xs[..i];
      ConcatMapErrorSticks(f, init, i);
    } else {
      assert xs[..i] == xs;
    }
  }

  /** One more element: its output is appended, or its error ends the run. */
  lemma ConcatMapStep<A, B>(f: A -> Result<seq<B>>, xs: seq<A>, i: nat, out: seq<B>)
    requires i < |xs| && ConcatMap(f, xs[..i]) == Ok(out)
    ensures f(xs[i]).Err? ==> ConcatMap(f, xs) == Err(f(xs[i]).error)
    ensures f(xs[i]).Ok? ==> ConcatMap(f, xs[..i + 1]) == Ok(out + f(xs[i]).value)
  {
    assert xs[..i + 1][..i] == xs[..i] && xs[..i + 1][i] == xs[i];
    if f(xs[i]).Err? {
      ConcatMapErrorSticks(f, xs, i + 1);
    }
  }

  /** The run succeeds exactly when every element's call does. */
  lemma {:induction false} ConcatMapOkIffAllOk<A, B>(f: A -> Result<seq<B>>, xs: seq<A>)
    ensures ConcatMap(f, xs).Ok? <==> forall i :: 0 <= i < |xs| ==> f(xs[i]).Ok?
  {
    if xs != [] {
      var m := |xs| - 1;
      var init := xs[..m];
      ConcatMapOkIffAllOk(f, init);
      assert forall i :: 0 <= i < m ==> init[i] == xs[i];
    }
  }

  /** In a run that succeeds, the output of the first `i` elements is a
      prefix of the whole output, followed directly by the output of
      element `i`. */
  lemma {:induction false} ConcatMapPlacesEachOutput<A, B>(f: A -> Result<seq<B>>, xs: seq<A>)
    requires ConcatMap(f, xs).Ok?
    ensures forall i :: 0 <= i < |xs| ==>
              && f(xs[i]).Ok?
              && ConcatMap(f, xs[..i]).Ok?
              && ConcatMap(f, xs[..i]).value + f(xs[i]).value <= ConcatMap(f, xs).value
  {
    if xs != [] {
      var m := |xs| - 1;
      var init := xs[..m];
      ConcatMapPlacesEachOutput(f, init);
      forall i | 0 <= i < |xs|
        ensures f(xs[i]).Ok? && ConcatMap(f, xs[..i]).Ok?
        ensures ConcatMap(f, xs[..i]).value + f(xs[i]).value <= ConcatMap(f, xs).value
      {
        if i < m {
          assert init[i] == xs[i];
          assert xs[..i] == init[..i];
        } else {
          assert xs[..i] == init;
        }
      }
    }
  }

  /** The error of a failing run is that of the first element whose call
      fails. */
  lemma ConcatMapFirstError<A, B>(f: A -> Result<seq<B>>, xs: seq<A>, i: nat)
    requires i < |xs| && f(xs[i]).Err? && forall j :: 0 <= j < i ==> f(xs[j]).Ok?
    ensures ConcatMap(f, xs) == Err(f(xs[i]).error)
  {
    ConcatMapOkIffAllOk(f, xs[..i]);
    assert forall j :: 0 <= j < i ==> xs[..i][j] == xs[j];
    ConcatMapStep(f, xs, i, ConcatMap(f, xs[..i]).value);
  }
}
