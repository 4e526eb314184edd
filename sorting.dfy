// Python's `sorted(..., key=..., reverse=True)`: a stable sort by an integer key,
// descending, as insertion sort over sequences, with the facts the callers need:
// the result is ordered, a permutation, and stable within each key.

module Sorting {

  /** Descending by `key`. */
  predicate SortedDesc<T>(rs: seq<T>, key: T -> int)
  {
    forall i, j :: 0 <= i < j < |rs| ==> key(rs[i]) >= key(rs[j])
  }

  /** Places `x` after every item keyed at least as high, so that equal keys keep their arrival order. */
  function Insert<T>(x: T, rs: seq<T>, key: T -> int): (r: seq<T>)
    requires SortedDesc(rs, key)
    ensures SortedDesc(r, key)
    ensures |r| == |rs| + 1
    ensures r[0] == x || (rs != [] && r[0] == rs[0])
    decreases |rs|
  {
    if rs == [] then [x]
    else if key(rs[0]) >= key(x) then
      var t := Insert(x, rs[1..], key);
      assert rs == [rs[0]] + rs[1..];
      assert key(t[0]) <= key(rs[0]);
      [rs[0]] + t
    else
      [x] + rs
  }

  /** Python's `sorted(items, key=key, reverse=True)`, stable like Python's. */
  function SortDesc<T>(rs: seq<T>, key: T -> int): (r: seq<T>)
    ensures SortedDesc(r, key)
    ensures |r| == |rs|
    decreases |rs|
  {
    if rs == [] then []
    else
      assert rs == rs[..|rs| - 1] + [rs[|rs| - 1]];
      Insert(rs[|rs| - 1], SortDesc(rs[..|rs| - 1], key), key)
  }

  lemma {:induction false} InsertPerm<T>(x: T, rs: seq<T>, key: T -> int)
    requires SortedDesc(rs, key)
    ensures multiset(Insert(x, rs, key)) == multiset(rs) + multiset{x}
    decreases |rs|
  {
    if rs != [] && key(rs[0]) >= key(x) {
      var t := Insert(x, rs[1..], key);
      InsertPerm(x, rs[1..], key);
      assert Insert(x, rs, key) == [rs[0]] + t;
      assert rs == [rs[0]] + rs[1..];
      assert multiset(rs) == multiset{rs[0]} + multiset(rs[1..]);
    }
  }

  /** Sorting neither adds nor loses an item. */
  lemma {:induction false} SortPerm<T>(rs: seq<T>, key: T -> int)
    ensures multiset(SortDesc(rs, key)) == multiset(rs)
    decreases |rs|
  {
    if rs != [] {
      SortPerm(rs[..|rs| - 1], key);
      InsertPerm(rs[|rs| - 1], SortDesc(rs[..|rs| - 1], key), key);
      assert rs == rs[..|rs| - 1] + [rs[|rs| - 1]];
    }
  }

  /** The items of `rs` keyed exactly `v`, in their order. */
  function WithKey<T>(rs: seq<T>, v: int, key: T -> int): seq<T>
  {
    if rs == [] then []
    else if key(rs[0]) == v then [rs[0]] + WithKey(rs[1..], v, key)
    else WithKey(rs[1..], v, key)
  }

  lemma {:induction false} WithKeyAppend<T>(a: seq<T>, b: seq<T>, v: int, key: T -> int)
    ensures WithKey(a + b, v, key) == WithKey(a, v, key) + WithKey(b, v, key)
    decreases |a|
  {
    if a != [] {
      assert (a + b)[1..] == a[1..] + b;
      assert (a + b)[0] == a[0];
      WithKeyAppend(a[1..], b, v, key);
    } else {
      assert a + b == b;
    }
  }

  lemma {:induction false} WithKeyNone<T>(rs: seq<T>, v: int, key: T -> int)
    requires forall j :: 0 <= j < |rs| ==> key(rs[j]) < v
    ensures WithKey(rs, v, key) == []
    decreases |rs|
  {
    if rs != [] {
      WithKeyNone(rs[1..], v, key);
    }
  }

  lemma {:induction false} InsertKeepsTies<T>(x: T, rs: seq<T>, v: int, key: T -> int)
    requires SortedDesc(rs, key)
    ensures WithKey(Insert(x, rs, key), v, key) == WithKey(rs, v, key) + (if key(x) == v then [x] else [])
    decreases |rs|
  {
    if rs == [] {
      assert [x][1..] == [];
    } else if key(rs[0]) >= key(x) {
      InsertKeepsTies(x, rs[1..], v, key);
      InsertBehind(x, rs, v, key);
    } else {
      InsertInFront(x, rs, v, key);
    }
  }

  lemma InsertBehind<T>(x: T, rs: seq<T>, v: int, key: T -> int)
    requires SortedDesc(rs, key) && rs != [] && key(rs[0]) >= key(x)
    requires WithKey(Insert(x, rs[1..], key), v, key) == WithKey(rs[1..], v, key) + (if key(x) == v then [x] else [])
    ensures WithKey(Insert(x, rs, key), v, key) == WithKey(rs, v, key) + (if key(x) == v then [x] else [])
  {
    var t := Insert(x, rs[1..], key);
    var tie := if key(x) == v then [x] else [];
    var u := [rs[0]] + t;
    assert Insert(x, rs, key) == u;
    assert u[0] == rs[0] && u[1..] == t;
    var rest := WithKey(rs[1..], v, key);
    if key(rs[0]) == v {
      assert WithKey(u, v, key) == [rs[0]] + (rest + tie);
      assert WithKey(rs, v, key) == [rs[0]] + rest;
      assert [rs[0]] + (rest + tie) == ([rs[0]] + rest) + tie;
    }
  }

  lemma InsertInFront<T>(x: T, rs: seq<T>, v: int, key: T -> int)
    requires SortedDesc(rs, key) && rs != [] && key(rs[0]) < key(x)
    ensures WithKey(Insert(x, rs, key), v, key) == WithKey(rs, v, key) + (if key(x) == v then [x] else [])
  {
    assert Insert(x, rs, key) == [x] + rs;
    WithKeyAppend([x], rs, v, key);
    assert [x][1..] == [];
    if key(x) == v {
      WithKeyNone(rs, v, key);
    }
  }

  /** The sort is stable: among items of equal key the original order is kept. */
  lemma {:induction false} SortIsStable<T>(rs: seq<T>, v: int, key: T -> int)
    ensures WithKey(SortDesc(rs, key), v, key) == WithKey(rs, v, key)
    decreases |rs|
  {
    if rs != [] {
      var init := rs[..|rs| - 1];
      var x := rs[|rs| - 1];
      var tie := if key(x) == v then [x] else [];
      SortIsStable(init, v, key);
      InsertKeepsTies(x, SortDesc(init, key), v, key);
      assert SortDesc(rs, key) == Insert(x, SortDesc(init, key), key);
      assert WithKey(SortDesc(rs, key), v, key) == WithKey(init, v, key) + tie;
      assert rs == init + [x];
      WithKeyAppend(init, [x], v, key);
      assert [x][1..] == [];
      assert WithKey([x], v, key) == tie;
    }
  }
}
