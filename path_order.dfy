/**
 * Python's ordering of strings and of paths: strings compare character by
 * character, and a path compares as the list of its parts, so both are the
 * lexicographic extension of an order on the elements.
 */
module PathOrder {

  /** `a < b` for sequences, elements compared with `less`; a proper prefix comes first. */
  predicate LexLess<T(==)>(a: seq<T>, b: seq<T>, less: (T, T) -> bool)
    decreases |a|
  {
    if a == [] then b != []
    else if b == [] then false
    else if a[0] != b[0] then less(a[0], b[0])
    else LexLess(a[1..], b[1..], less)
  }

  ghost predicate StrictTotal<T(!new)>(less: (T, T) -> bool)
  {
    (forall x :: !less(x, x)) &&
    (forall x, y, z :: less(x, y) && less(y, z) ==> less(x, z)) &&
    (forall x, y :: x == y || less(x, y) || less(y, x))
  }

  lemma {:induction false} LexIrreflexive<T(!new)>(a: seq<T>, less: (T, T) -> bool)
    requires StrictTotal(less)
    ensures !LexLess(a, a, less)
    decreases |a|
  {
    if a != [] {
      LexIrreflexive(a[1..], less);
    }
  }

  lemma {:induction false} LexTransitive<T(!new)>(a: seq<T>, b: seq<T>, c: seq<T>, less: (T, T) -> bool)
    requires StrictTotal(less) && LexLess(a, b, less) && LexLess(b, c, less)
    ensures LexLess(a, c, less)
    decreases |a|
  {
    if a != [] {
      if a[0] != b[0] {
        if b[0] != c[0] {
          assert less(a[0], c[0]);
          assert a[0] != c[0];
        }
      } else if b[0] == c[0] {
        LexTransitive(a[1..], b[1..], c[1..], less);
      }
    }
  }

  lemma {:induction false} LexTotal<T(!new)>(a: seq<T>, b: seq<T>, less: (T, T) -> bool)
    requires StrictTotal(less)
    ensures a == b || LexLess(a, b, less) || LexLess(b, a, less)
    decreases |a|
  {
    if a != [] && b != [] && a[0] == b[0] {
      LexTotal(a[1..], b[1..], less);
      if a[1..] == b[1..] {
        assert a == [a[0]] + a[1..] && b == [b[0]] + b[1..];
      }
    }
  }

  predicate CharLess(c: char, d: char)
  {
    c < d
  }

  /** Python `str.__lt__`. */
  predicate StrLess(a: string, b: string)
  {
    LexLess(a, b, CharLess)
  }

  /** `PurePath.__lt__`: the lists of parts compared. */
  predicate PathLess(a: seq<string>, b: seq<string>)
  {
    LexLess(a, b, StrLess)
  }

  lemma StrLessStrictTotal()
    ensures StrictTotal(StrLess)
  {
    assert StrictTotal(CharLess);
    forall a: string ensures !StrLess(a, a) {
      LexIrreflexive(a, CharLess);
    }
    forall a: string, b: string, c: string | StrLess(a, b) && StrLess(b, c) ensures StrLess(a, c) {
      LexTransitive(a, b, c, CharLess);
    }
    forall a: string, b: string ensures a == b || StrLess(a, b) || StrLess(b, a) {
      LexTotal(a, b, CharLess);
    }
  }

  lemma PathLessStrictTotal()
    ensures StrictTotal(PathLess)
  {
    StrLessStrictTotal();
    forall a: seq<string> ensures !PathLess(a, a) {
      LexIrreflexive(a, StrLess);
    }
    forall a: seq<string>, b: seq<string>, c: seq<string> | PathLess(a, b) && PathLess(b, c) ensures PathLess(a, c) {
      LexTransitive(a, b, c, StrLess);
    }
    forall a: seq<string>, b: seq<string> ensures a == b || PathLess(a, b) || PathLess(b, a) {
      LexTotal(a, b, StrLess);
    }
  }

  /** Strictly increasing: sorted and therefore free of duplicates. */
  predicate Increasing(s: seq<seq<string>>)
  {
    forall i, j :: 0 <= i < j < |s| ==> PathLess(s[i], s[j])
  }

  /** Insert `x` into an increasing sequence, unless it is already there. */
  function InsertPath(x: seq<string>, s: seq<seq<string>>): (r: seq<seq<string>>)
    requires Increasing(s)
    ensures Increasing(r)
    ensures forall y :: y in r <==> y == x || y in s
    decreases |s|
  {
    PathLessStrictTotal();
    if s == [] then [x]
    else if x == s[0] then s
    else if PathLess(x, s[0]) then
      assert forall j :: 0 < j < |s| ==> PathLess(x, s[j]);
      [x] + s
    else
      var rest := InsertPath(x, s[1..]);
      assert PathLess(s[0], x);
      assert forall k :: 0 <= k < |rest| ==> PathLess(s[0], rest[k]) by {
        forall k | 0 <= k < |rest| ensures PathLess(s[0], rest[k]) {
          assert rest[k] in rest;
          if rest[k] != x {
            var j :| 0 <= j < |s[1..]| && s[1..][j] == rest[k];
            assert s[j + 1] == rest[k];
          }
        }
      }
      [s[0]] + rest
  }

  /** `sorted(set(xs))`. */
  function SortedSet(xs: seq<seq<string>>): (r: seq<seq<string>>)
    ensures Increasing(r)
    ensures forall y :: y in r <==> y in xs
    decreases |xs|
  {
    if xs == [] then []
    else
      var init := SortedSet(xs[..|xs| - 1]);
      assert forall y :: y in xs <==> y in xs[..|xs| - 1] || y == xs[|xs| - 1] by {
        assert xs == xs[..|xs| - 1] + [xs[|xs| - 1]];
      }
      InsertPath(xs[|xs| - 1], init)
  }

  /** An increasing sequence holds each path once. */
  lemma IncreasingDistinct(s: seq<seq<string>>)
    requires Increasing(s)
    ensures forall i, j :: 0 <= i < |s| && 0 <= j < |s| && i != j ==> s[i] != s[j]
  {
    PathLessStrictTotal();
  }
}
