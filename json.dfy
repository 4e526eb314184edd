/**
 * JSON values as the bot's configuration, profiles and memories hold them, with the
 * Python dictionary operations used on them. Objects keep insertion order, as
 * Python dictionaries do; a well-formed object has no key twice.
 */
module Json {

  import opened Wrappers
  import opened Text

  datatype Json =
    | JNull
    | JBool(b: bool)
    | JInt(i: int)
    | JFloat(f: real)
    | JStr(s: string)
    | JList(items: seq<Json>)
    | JObj(fields: seq<Field>)

  datatype Field = Field(key: string, value: Json)

  function KeysOf(fs: seq<Field>): (ks: seq<string>)
    ensures |ks| == |fs| && forall i :: 0 <= i < |fs| ==> ks[i] == fs[i].key
  {
    if fs == [] then [] else [fs[0].key] + KeysOf(fs[1..])
  }

  predicate Distinct<T(==)>(s: seq<T>)
  {
    forall i, j :: 0 <= i < j < |s| ==> s[i] != s[j]
  }

  predicate UniqueKeys(fs: seq<Field>)
  {
    Distinct(KeysOf(fs))
  }

  /** Every object nested anywhere in `j` has distinct keys, as every parsed JSON dict does. */
  predicate WF(j: Json)
    decreases j
  {
    match j
    case JList(items) => forall i :: 0 <= i < |items| ==> WF(items[i])
    case JObj(fs) => UniqueKeys(fs) && forall i :: 0 <= i < |fs| ==> WF(fs[i].value)
    case _ => true
  }

  /** Python `d.get(k)` on the entries of a dict: the value stored under `k`, if any. */
  function Lookup(fs: seq<Field>, k: string): (r: Option<Json>)
    ensures r.Some? <==> k in KeysOf(fs)
  {
    if fs == [] then None
    else if fs[0].key == k then Some(fs[0].value)
    else Lookup(fs[1..], k)
  }

  /** A value found under `k` is the value of an entry keyed `k`. */
  lemma {:induction false} LookupMember(fs: seq<Field>, k: string)
    requires Lookup(fs, k).Some?
    ensures Field(k, Lookup(fs, k).value) in fs
  {
    if fs[0].key != k {
      LookupMember(fs[1..], k);
    }
  }

  lemma LookupFound(fs: seq<Field>, i: nat)
    requires i < |fs| && UniqueKeys(fs)
    ensures Lookup(fs, fs[i].key) == Some(fs[i].value)
  {
    var ks := KeysOf(fs);
    forall j | 0 <= j < i
      ensures fs[j].key != fs[i].key
    {
      assert ks[j] != ks[i];
    }
    LookupFirst(fs, i);
  }

  /** The lookup finds the first entry with its key. */
  lemma {:induction false} LookupFirst(fs: seq<Field>, i: nat)
    requires i < |fs| && forall j :: 0 <= j < i ==> fs[j].key != fs[i].key
    ensures Lookup(fs, fs[i].key) == Some(fs[i].value)
  {
    if i > 0 {
      assert fs[1..][i - 1] == fs[i];
      LookupFirst(fs[1..], i - 1);
    }
  }

  /** Python `d[k] = v`: replaces the value in place when `k` is present, otherwise appends. */
  function Put(fs: seq<Field>, k: string, v: Json): (r: seq<Field>)
    ensures Lookup(r, k) == Some(v)
    ensures forall k' :: k' != k ==> Lookup(r, k') == Lookup(fs, k')
  {
    if fs == [] then [Field(k, v)]
    else if fs[0].key == k then [Field(k, v)] + fs[1..]
    else [fs[0]] + Put(fs[1..], k, v)
  }

  /** `d[k] = v` keeps the key order, adding `k` at the end when it is new. */
  lemma {:induction false} PutKeys(fs: seq<Field>, k: string, v: Json)
    ensures KeysOf(Put(fs, k, v)) == if k in KeysOf(fs) then KeysOf(fs) else KeysOf(fs) + [k]
  {
    var r := Put(fs, k, v);
    if fs == [] {
      assert KeysOf(r) == [k];
    } else if fs[0].key == k {
      assert r == [Field(k, v)] + fs[1..];
      assert KeysOf(r) == [k] + KeysOf(fs[1..]);
      assert KeysOf(fs) == [k] + KeysOf(fs[1..]);
    } else {
      var ks := KeysOf(fs[1..]);
      PutKeys(fs[1..], k, v);
      assert r == [fs[0]] + Put(fs[1..], k, v);
      assert KeysOf(r) == [fs[0].key] + KeysOf(Put(fs[1..], k, v));
      assert KeysOf(fs) == [fs[0].key] + ks;
      if k in ks {
        assert k in KeysOf(fs);
      } else {
        assert k !in KeysOf(fs);
        assert [fs[0].key] + (ks + [k]) == ([fs[0].key] + ks) + [k];
      }
    }
  }

  lemma PutUnique(fs: seq<Field>, k: string, v: Json)
    requires UniqueKeys(fs)
    ensures UniqueKeys(Put(fs, k, v))
  {
    PutKeys(fs, k, v);
  }

  /** Storing under a new key appends the entry. */
  lemma {:induction false} PutNew(fs: seq<Field>, k: string, v: Json)
    requires k !in KeysOf(fs)
    ensures Put(fs, k, v) == fs + [Field(k, v)]
  {
    if fs != [] {
      assert KeysOf(fs) == [fs[0].key] + KeysOf(fs[1..]);
      PutNew(fs[1..], k, v);
    }
  }

  /** Python `del d[k]` for a present key `k`: the entry is removed, the others keep their order. */
  function Delete(fs: seq<Field>, k: string): (r: seq<Field>)
    ensures forall k' :: k' != k ==> Lookup(r, k') == Lookup(fs, k')
    ensures forall x :: x in KeysOf(r) ==> x in KeysOf(fs)
    ensures UniqueKeys(fs) ==> Lookup(r, k) == None && UniqueKeys(r)
    ensures |r| <= |fs|
  {
    if fs == [] then []
    else if fs[0].key == k then
      assert KeysOf(fs[1..]) == KeysOf(fs)[1..];
      fs[1..]
    else
      var t := Delete(fs[1..], k);
      assert KeysOf(fs[1..]) == KeysOf(fs)[1..];
      var r := [fs[0]] + t;
      assert KeysOf(r) == [fs[0].key] + KeysOf(t);
      assert UniqueKeys(fs) ==> fs[0].key !in KeysOf(t);
      r
  }

  /** Python truthiness of a JSON value. */
  predicate Truthy(j: Json)
  {
    match j
    case JNull => false
    case JBool(b) => b
    case JInt(i) => i != 0
    case JFloat(f) => f != 0.0
    case JStr(s) => s != []
    case JList(items) => items != []
    case JObj(fs) => fs != []
  }

  /** Python `isinstance(j, int)`, which is also true of booleans. */
  predicate IsInt(j: Json)
  {
    j.JInt? || j.JBool?
  }

  /** Python `isinstance(j, (int, float))`. */
  predicate IsNumber(j: Json)
  {
    IsInt(j) || j.JFloat?
  }

  function NumValue(j: Json): real
    requires IsNumber(j)
  {
    match j
    case JBool(b) => if b then 1.0 else 0.0
    case JInt(i) => i as real
    case JFloat(f) => f
  }

  /** Python `key in c` for a string key; None when Python raises TypeError. */
  function PyIn(c: Json, key: string): (r: Option<bool>)
    ensures r.Some? <==> (c.JStr? || c.JList? || c.JObj?)
  {
    match c
    case JStr(s) => Some(Contains(s, key))
    case JList(items) => Some(JStr(key) in items)
    case JObj(fs) => Some(key in KeysOf(fs))
    case _ => None
  }

  /** Python `c[key]` for a string key; None when Python raises KeyError or TypeError. */
  function Subscript(c: Json, key: string): (r: Option<Json>)
    ensures r.Some? <==> c.JObj? && key in KeysOf(c.fields)
  {
    if c.JObj? then Lookup(c.fields, key) else None
  }

  /** Python `c.get(key, default)`; None when `c` is not a dict (AttributeError). */
  function DictGet(c: Json, key: string, default: Json): (r: Option<Json>)
    ensures r.Some? <==> c.JObj?
    ensures c.JObj? && key !in KeysOf(c.fields) ==> r == Some(default)
  {
    if c.JObj? then
      match Lookup(c.fields, key)
      case Some(v) => Some(v)
      case None => Some(default)
    else None
  }

  /** The value reached by subscripting `j` with each key of `path` in turn. */
  function Resolve(j: Json, path: seq<string>): Option<Json>
    decreases |path|
  {
    if path == [] then Some(j)
    else
      match Subscript(j, path[0])
      case None => None
      case Some(c) => Resolve(c, path[1..])
  }

  lemma {:induction false} ResolveAppend(j: Json, path: seq<string>, k: string)
    requires Resolve(j, path).Some?
    ensures Resolve(j, path + [k]) == Subscript(Resolve(j, path).value, k)
    decreases |path|
  {
    if path != [] {
      assert (path + [k])[1..] == path[1..] + [k];
      ResolveAppend(Subscript(j, path[0]).value, path[1..], k);
    }
  }

  lemma {:induction false} ResolvePrefix(j: Json, path: seq<string>, n: nat)
    requires n <= |path| && Resolve(j, path).Some?
    ensures Resolve(j, path[..n]).Some?
    decreases n
  {
    if n > 0 {
      assert path[..n][1..] == path[1..][..n - 1];
      ResolvePrefix(Subscript(j, path[0]).value, path[1..], n - 1);
    }
  }

  /**
   * Python's walk `for k in path[:-1]: if k not in cur: cur[k] = {}; cur = cur[k]`
   * followed by `cur[path[-1]] = v`. None when it raises TypeError, which happens
   * only before anything was written.
   */
  function SetPath(j: Json, path: seq<string>, v: Json): (r: Option<Json>)
    requires |path| >= 1
    ensures r.Some? ==> r.value.JObj? && Resolve(r.value, path) == Some(v)
    decreases |path|
  {
    if !j.JObj? then None
    else if |path| == 1 then Some(JObj(Put(j.fields, path[0], v)))
    else
      var child := match Lookup(j.fields, path[0]) case Some(c) => c case None => JObj([]);
      match SetPath(child, path[1..], v)
      case None => None
      case Some(c') => Some(JObj(Put(j.fields, path[0], c')))
  }

  /** Some existing value on the way to the leaf, the root included, is not a dict. */
  predicate BlockedAt(j: Json, path: seq<string>, n: nat)
    requires n < |path|
  {
    Resolve(j, path[..n]).Some? && !Resolve(j, path[..n]).value.JObj?
  }

  /** A nested set raises exactly when the walk meets an existing value that is not a dict. */
  lemma {:induction false} SetPathFails(j: Json, path: seq<string>, v: Json)
    requires |path| >= 1
    ensures SetPath(j, path, v).None? <==> exists n :: 0 <= n < |path| && BlockedAt(j, path, n)
    decreases |path|
  {
    assert path[..0] == [];
    if !j.JObj? {
      assert BlockedAt(j, path, 0);
    } else if |path| == 1 {
      forall n | 0 <= n < |path| ensures !BlockedAt(j, path, n) {
      }
    } else {
      var child := match Lookup(j.fields, path[0]) case Some(c) => c case None => JObj([]);
      SetPathFails(child, path[1..], v);
      if Lookup(j.fields, path[0]).Some? {
        forall n | 1 <= n < |path| ensures BlockedAt(j, path, n) <==> BlockedAt(child, path[1..], n - 1) {
          assert path[..n][1..] == path[1..][..n - 1];
        }
        if SetPath(j, path, v).None? {
          var m :| 0 <= m < |path| - 1 && BlockedAt(child, path[1..], m);
          assert BlockedAt(j, path, m + 1);
        }
      } else {
        assert SetPath(child, path[1..], v).Some? by {
          NewDictNeverBlocks(path[1..], v);
        }
        forall n | 0 <= n < |path| ensures !BlockedAt(j, path, n) {
          if n > 0 {
            assert path[..n][1..] == path[1..][..n - 1];
          }
        }
      }
    }
  }

  lemma {:induction false} NewDictNeverBlocks(path: seq<string>, v: Json)
    requires |path| >= 1
    ensures SetPath(JObj([]), path, v).Some?
    decreases |path|
  {
    if |path| > 1 {
      NewDictNeverBlocks(path[1..], v);
    }
  }

  /** Neither path is a prefix of the other: they part ways at some key. */
  predicate Diverge(p: seq<string>, q: seq<string>)
  {
    !(p <= q) && !(q <= p)
  }

  /** A nested set leaves every path that branches off the written path as it was. */
  lemma {:induction false} SetPathFrame(j: Json, path: seq<string>, v: Json, q: seq<string>)
    requires |path| >= 1 && SetPath(j, path, v).Some? && Diverge(path, q)
    ensures Resolve(SetPath(j, path, v).value, q) == Resolve(j, q)
    decreases |path|
  {
    var r := SetPath(j, path, v).value;
    if path[0] != q[0] {
      assert Subscript(r, q[0]) == Subscript(j, q[0]);
    } else {
      assert |path| > 1;
      assert Diverge(path[1..], q[1..]);
      var child := match Lookup(j.fields, path[0]) case Some(c) => c case None => JObj([]);
      SetPathFrame(child, path[1..], v, q[1..]);
      if Lookup(j.fields, path[0]).None? {
        assert q[1..] != [];
        assert Resolve(child, q[1..]) == None;
      }
    }
  }

  /**
   * Python's walk `for k in path[:-1]: if not isinstance(cur, dict) or k not in cur:
   * return False` followed by deleting the last key if present. None when it returns False.
   */
  function DelPath(j: Json, path: seq<string>): (r: Option<Json>)
    requires |path| >= 1
    ensures r.Some? <==> Resolve(j, path).Some?
    ensures r.Some? ==> r.value.JObj?
    decreases |path|
  {
    if !j.JObj? then None
    else if |path| == 1 then
      if path[0] in KeysOf(j.fields) then Some(JObj(Delete(j.fields, path[0]))) else None
    else
      match Lookup(j.fields, path[0])
      case None => None
      case Some(c) =>
        match DelPath(c, path[1..])
        case None => None
        case Some(c') => Some(JObj(Put(j.fields, path[0], c')))
  }

  lemma WFChild(j: Json, k: string)
    requires j.JObj? && WF(j) && Lookup(j.fields, k).Some?
    ensures WF(Lookup(j.fields, k).value)
  {
    LookupMember(j.fields, k);
  }

  /** `d[k] = v` with a well-formed `v` keeps a well-formed dict well-formed. */
  lemma {:induction false} PutWF(fs: seq<Field>, k: string, v: Json)
    requires WF(JObj(fs)) && WF(v)
    ensures WF(JObj(Put(fs, k, v)))
  {
    PutUnique(fs, k, v);
    PutFields(fs, k, v);
    var r := Put(fs, k, v);
    forall i | 0 <= i < |r|
      ensures WF(r[i].value)
    {
      assert r[i] in r;
      if r[i] != Field(k, v) {
        var j :| 0 <= j < |fs| && fs[j] == r[i];
      }
    }
  }

  lemma {:induction false} PutFields(fs: seq<Field>, k: string, v: Json)
    ensures forall x :: x in Put(fs, k, v) ==> x in fs || x == Field(k, v)
  {
    if fs != [] && fs[0].key != k {
      PutFields(fs[1..], k, v);
    }
  }

  /** After a removal the removed path no longer resolves. */
  lemma {:induction false} DelPathRemoves(j: Json, path: seq<string>)
    requires |path| >= 1 && WF(j) && DelPath(j, path).Some?
    ensures Resolve(DelPath(j, path).value, path) == None
    decreases |path|
  {
    if |path| > 1 {
      WFChild(j, path[0]);
      DelPathRemoves(Lookup(j.fields, path[0]).value, path[1..]);
    }
  }

  /** A removal keeps every dict on the way to the removed key. */
  lemma {:induction false} DelPathAncestors(j: Json, path: seq<string>, n: nat)
    requires |path| >= 1 && DelPath(j, path).Some? && n < |path|
    ensures Resolve(DelPath(j, path).value, path[..n]).Some?
    decreases n
  {
    if n > 0 {
      var c := Lookup(j.fields, path[0]).value;
      var r := DelPath(j, path).value;
      assert Subscript(r, path[0]) == Some(DelPath(c, path[1..]).value);
      DelPathAncestors(c, path[1..], n - 1);
      assert path[..n][1..] == path[1..][..n - 1];
    }
  }

  /** A removal leaves every path that branches off the removed one as it was. */
  lemma {:induction false} DelPathFrame(j: Json, path: seq<string>, q: seq<string>)
    requires |path| >= 1 && DelPath(j, path).Some? && Diverge(path, q)
    ensures Resolve(DelPath(j, path).value, q) == Resolve(j, q)
    decreases |path|
  {
    var r := DelPath(j, path).value;
    if path[0] != q[0] {
      if |path| == 1 {
        assert Subscript(r, q[0]) == Subscript(j, q[0]);
      } else {
        assert Subscript(r, q[0]) == Subscript(j, q[0]);
      }
    } else {
      assert |path| > 1;
      assert Diverge(path[1..], q[1..]);
      var c := Lookup(j.fields, path[0]).value;
      DelPathFrame(c, path[1..], q[1..]);
    }
  }

  /** Lexicographic order of Python strings by code point: `x >= y`. */
  predicate StrGe(x: string, y: string)
    decreases |x|
  {
    if y == [] then true
    else if x == [] then false
    else if x[0] != y[0] then x[0] > y[0]
    else StrGe(x[1..], y[1..])
  }

  /** Python `a == b` between JSON values (numbers by value, dicts regardless of order). */
  predicate PyEq(a: Json, b: Json)
    decreases a
  {
    if IsNumber(a) && IsNumber(b) then NumValue(a) == NumValue(b)
    else match a
      case JNull => b.JNull?
      case JStr(x) => b.JStr? && b.s == x
      case JList(xs) =>
        b.JList? && |xs| == |b.items| && forall i :: 0 <= i < |xs| ==> PyEq(xs[i], b.items[i])
      case JObj(xs) =>
        b.JObj? && |xs| == |b.fields|
        && forall i :: 0 <= i < |xs| ==>
          Lookup(b.fields, xs[i].key).Some? && PyEq(xs[i].value, Lookup(b.fields, xs[i].key).value)
      case _ => false
  }

  /** Python `a >= b`: numbers by value, strings and lists lexicographically; None where Python raises TypeError. */
  function PyGe(a: Json, b: Json): Option<bool>
    decreases a, if a.JList? then |a.items| + 1 else 0
  {
    if IsNumber(a) && IsNumber(b) then Some(NumValue(a) >= NumValue(b))
    else if a.JStr? && b.JStr? then Some(StrGe(a.s, b.s))
    else if a.JList? && b.JList? then ListGe(a, b, 0)
    else None
  }

  /** Python list comparison from position `i`: the first unequal pair decides, else the lengths do. */
  function ListGe(a: Json, b: Json, i: nat): Option<bool>
    requires a.JList? && b.JList?
    decreases a, |a.items| - i
  {
    if i >= |a.items| || i >= |b.items| then Some(|a.items| >= |b.items|)
    else if PyEq(a.items[i], b.items[i]) then ListGe(a, b, i + 1)
    else PyGe(a.items[i], b.items[i])
  }

  // ---------------------------------------------------------------------------
  // Dotted paths

  /** `path.split('.')`. */
  function PathOf(path: string): (parts: seq<string>)
    ensures |parts| >= 1
  {
    Split(path, '.')
  }

  /** The value at `path`, or `default` when a key is missing or a value on the way is not a dict. */
  function ValueAt(data: seq<Field>, path: string, default: Json): Json
  {
    match Resolve(JObj(data), PathOf(path))
    case Some(v) => v
    case None => default
  }

  /** Two different path strings never split into the same keys. */
  lemma PathOfInjective(p: string, q: string)
    requires PathOf(p) == PathOf(q)
    ensures p == q
  {
    JoinSplit(p, '.');
    JoinSplit(q, '.');
  }

  /** `"x.y".split('.')`. */
  lemma PathOfTwo(x: string, y: string)
    requires '.' !in x && '.' !in y
    ensures PathOf(x + "." + y) == [x, y]
  {
    assert Join([x, y], '.') == x + "." + y by {
      assert [x, y][1..] == [y];
    }
    SplitJoin([x, y], '.');
  }

  /** The walk shared by the dotted-path readers: subscript key by key, failing on a missing key or a non-dict. */
  method Walk(root: Json, parts: seq<string>) returns (r: Option<Json>)
    ensures r == Resolve(root, parts)
  {
    var current := root;
    var i := 0;
    while i < |parts|
      invariant 0 <= i <= |parts|
      invariant Resolve(root, parts) == Resolve(current, parts[i..])
    {
      assert parts[i..][1..] == parts[i + 1..];
      var next := Subscript(current, parts[i]);
      if next.None? {
        return None;
      }
      current := next.value;
      i := i + 1;
    }
    return Some(current);
  }
}
