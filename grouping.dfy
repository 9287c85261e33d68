/** The key order of `DataFrame.groupby(column)` on a string column: the
    distinct keys in ascending order of Python's `str` comparison, which
    compares code point by code point and puts a proper prefix first. */
module Grouping {

  /** Python's `a < b` on `str`. */
  predicate StrLess(a: string, b: string) {
    if a == [] then b != []
    else if b == [] then false
    else if a[0] != b[0] then a[0] < b[0]
    else StrLess(a[1..], b[1..])
  }

  lemma {:induction false} StrLessIrreflexive(a: string)
    ensures !StrLess(a, a)
  {
    if a != [] {
      StrLessIrreflexive(a[1..]);
    }
  }

  lemma {:induction false} StrLessTransitive(a: string, b: string, c: string)
    requires StrLess(a, b) && StrLess(b, c)
    ensures StrLess(a, c)
  {
    if a != [] && b != [] && c != [] && a[0] == b[0] && b[0] == c[0] {
      StrLessTransitive(a[1..], b[1..], c[1..]);
    }
  }

  /** Two different strings are ordered one way or the other. */
  lemma {:induction false} StrLessTotal(a: string, b: string)
    requires a != b
    ensures StrLess(a, b) || StrLess(b, a)
  {
    if a != [] && b != [] && a[0] == b[0] {
      assert a == [a[0]] + a[1..] && b == [b[0]] + b[1..];
      StrLessTotal(a[1..], b[1..]);
    }
  }

  lemma {:induction false} StrLessAsymmetric(a: string, b: string)
    requires StrLess(a, b)
    ensures !StrLess(b, a)
  {
    if StrLess(b, a) {
      StrLessTransitive(a, b, a);
      StrLessIrreflexive(a);
    }
  }

  predicate StrictlySorted(keys: seq<string>) {
    forall i, j :: 0 <= i < j < |keys| ==> StrLess(keys[i], keys[j])
  }

  /** A strictly sorted list has no repeated key. */
  lemma SortedIsDistinct(keys: seq<string>)
    requires StrictlySorted(keys)
    ensures forall i, j :: 0 <= i < j < |keys| ==> keys[i] != keys[j]
  {
    forall i, j | 0 <= i < j < |keys| ensures keys[i] != keys[j] {
      if keys[i] == keys[j] {
        StrLessIrreflexive(keys[i]);
      }
    }
  }

  /** Insert `x` into a strictly sorted list unless it is already there. */
  function Insert(x: string, keys: seq<string>): (r: seq<string>)
    requires StrictlySorted(keys)
    ensures StrictlySorted(r)
    ensures forall y :: y in r <==> y == x || y in keys
  {
    if keys == [] then [x]
    else if x == keys[0] then keys
    else if StrLess(x, keys[0]) then
      assert forall j :: 0 <= j < |keys| ==> StrLess(x, keys[j]) by {
        forall j | 0 < j < |keys| ensures StrLess(x, keys[j]) {
          StrLessTransitive(x, keys[0], keys[j]);
        }
      }
      [x] + keys
    else
      StrLessTotal(x, keys[0]);
      var rest := Insert(x, keys[1..]);
      assert forall y :: y in rest ==> StrLess(keys[0], y) by {
        forall y | y in rest ensures StrLess(keys[0], y) {
          if y != x {
            var j :| 0 <= j < |keys[1..]| && keys[1..][j] == y;
            assert keys[j + 1] == y;
          }
        }
      }
      assert forall i, j :: 0 <= i < j < |[keys[0]] + rest| ==> StrLess(([keys[0]] + rest)[i], ([keys[0]] + rest)[j]) by {
        forall i, j | 0 <= i < j < |[keys[0]] + rest|
          ensures StrLess(([keys[0]] + rest)[i], ([keys[0]] + rest)[j])
        {
          if i == 0 {
            assert rest[j - 1] in rest;
          } else {
            assert ([keys[0]] + rest)[i] == rest[i - 1] && ([keys[0]] + rest)[j] == rest[j - 1];
          }
        }
      }
      [keys[0]] + rest
  }

  /** The group keys of `groupby`: each distinct value once, ascending. */
  function SortedKeys(names: seq<string>): (r: seq<string>)
    ensures StrictlySorted(r)
    ensures forall y :: y in r <==> y in names
  {
    if names == [] then []
    else
      var init := names[..|names| - 1];
      var r := Insert(names[|names| - 1], SortedKeys(init));
      assert forall y :: y in names <==> y == names[|names| - 1] || y in init by {
        assert names == init + [names[|names| - 1]];
      }
      r
  }

  /** The group keys are exactly the distinct values, each once and in
      ascending order. */
  lemma SortedKeysAreDistinctValues(names: seq<string>)
    ensures var keys := SortedKeys(names);
      && (forall i, j :: 0 <= i < j < |keys| ==> StrLess(keys[i], keys[j]) && keys[i] != keys[j])
      && (forall y :: y in keys <==> y in names)
  {
    SortedIsDistinct(SortedKeys(names));
  }
}
