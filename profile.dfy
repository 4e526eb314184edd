/**
 * A validated AI profile: its configuration dictionary, read and written by
 * dot-separated paths, and the access cache that serves repeated reads.
 *
 * The cache keeps, per path string, the object a read found there. While that
 * object is still attached at its path the entry is `Live` and a read sees the
 * current value (a dict changed in place below it included); once a write or a
 * removal at a proper prefix of the path detaches it, the entry is `Frozen`
 * and keeps serving the detached value.
 */
module ProfileData {
  import opened Wrappers
  import opened Text
  import opened Json
  import opened ConfigSchema

  datatype CacheEntry = Live | Frozen(value: Json)

  /** Every live entry still has its object attached at its path. */
  predicate CacheValid(data: seq<Field>, cache: map<string, CacheEntry>)
  {
    forall q :: q in cache && cache[q].Live? ==> Resolve(JObj(data), PathOf(q)).Some?
  }

  /** What `_get_nested_value(path, default)` returns: the cached object first, else the current value. */
  function Served(data: seq<Field>, cache: map<string, CacheEntry>, path: string, default: Json): Json
  {
    if path in cache && cache[path].Frozen? then cache[path].value else ValueAt(data, path, default)
  }

  /** The cache after `_get_nested_value(path)`: a successful uncached lookup is remembered. */
  function CacheAfterGet(data: seq<Field>, cache: map<string, CacheEntry>, path: string): map<string, CacheEntry>
  {
    if path !in cache && Resolve(JObj(data), PathOf(path)).Some? then cache[path := Live] else cache
  }

  /** The entry for `q` after the value at `parts` is replaced or removed: a live object below it is detached. */
  function Refreeze(e: CacheEntry, data: seq<Field>, parts: seq<string>, q: string): CacheEntry
  {
    if e.Live? && parts < PathOf(q) then
      match Resolve(JObj(data), PathOf(q))
      case Some(v) => Frozen(v)
      case None => e
    else e
  }

  /** The cache after a write or removal at `path`: objects below it detached, its own entry popped. */
  function CacheAfterWrite(data: seq<Field>, cache: map<string, CacheEntry>, path: string): (r: map<string, CacheEntry>)
    ensures r.Keys == cache.Keys - {path}
  {
    map q | q in cache && q != path :: Refreeze(cache[q], data, PathOf(path), q)
  }

  /** A live entry never serves a stale value. */
  lemma LiveIsCurrent(data: seq<Field>, cache: map<string, CacheEntry>, path: string, default: Json)
    requires CacheValid(data, cache)
    requires path !in cache || cache[path].Live?
    ensures Served(data, cache, path, default) == ValueAt(data, path, default)
    ensures path in cache ==> Resolve(JObj(data), PathOf(path)).Some?
  {
  }

  /** A lookup leaves the cache valid and serves the same value afterwards. */
  lemma {:induction false} GetIsStable(data: seq<Field>, cache: map<string, CacheEntry>, path: string, default: Json)
    requires CacheValid(data, cache)
    ensures CacheValid(data, CacheAfterGet(data, cache, path))
    ensures Served(data, CacheAfterGet(data, cache, path), path, default) == Served(data, cache, path, default)
  {
  }

  /** `set_field` keeps every live entry attached. */
  lemma {:induction false} SetKeepsCacheValid(data: seq<Field>, cache: map<string, CacheEntry>, path: string, v: Json)
    requires CacheValid(data, cache)
    requires SetPath(JObj(data), PathOf(path), v).Some?
    ensures CacheValid(SetPath(JObj(data), PathOf(path), v).value.fields, CacheAfterWrite(data, cache, path))
  {
    var parts := PathOf(path);
    var w := SetPath(JObj(data), parts, v).value;
    var c := CacheAfterWrite(data, cache, path);
    forall q | q in c && c[q].Live?
      ensures Resolve(JObj(w.fields), PathOf(q)).Some?
    {
      var pq := PathOf(q);
      assert !(parts < pq);
      if pq <= parts {
        ResolvePrefix(w, parts, |pq|);
        assert parts[..|pq|] == pq;
      } else {
        SetPathFrame(JObj(data), parts, v, pq);
      }
    }
  }

  /** `remove_field` keeps every live entry attached. */
  lemma {:induction false} RemoveKeepsCacheValid(data: seq<Field>, cache: map<string, CacheEntry>, path: string)
    requires CacheValid(data, cache)
    requires DelPath(JObj(data), PathOf(path)).Some?
    ensures CacheValid(DelPath(JObj(data), PathOf(path)).value.fields, CacheAfterWrite(data, cache, path))
  {
    var parts := PathOf(path);
    var w := DelPath(JObj(data), parts).value;
    var c := CacheAfterWrite(data, cache, path);
    forall q | q in c && c[q].Live?
      ensures Resolve(JObj(w.fields), PathOf(q)).Some?
    {
      var pq := PathOf(q);
      assert !(parts < pq);
      if pq == parts {
        PathOfInjective(q, path);
      } else if pq < parts {
        DelPathAncestors(JObj(data), parts, |pq|);
        assert parts[..|pq|] == pq;
      } else {
        DelPathFrame(JObj(data), parts, pq);
      }
    }
  }

  /** After `set_field(path, v)`, `get_field(path)` returns `v`: its entry was popped and the value is in place. */
  lemma SetThenGet(data: seq<Field>, cache: map<string, CacheEntry>, path: string, v: Json, default: Json)
    requires SetPath(JObj(data), PathOf(path), v).Some?
    ensures Served(SetPath(JObj(data), PathOf(path), v).value.fields, CacheAfterWrite(data, cache, path), path, default) == v
  {
  }

  /**
   * Only the written path is invalidated: a value cached below it keeps being served
   * after the dictionary holding it has been replaced.
   */
  lemma StaleBelowWrittenPath()
    ensures var data := [Field("a", JObj([Field("b", JInt(1))]))];
      var cache := map["a.b" := Live];
      var w := SetPath(JObj(data), PathOf("a"), JObj([Field("b", JInt(2))]));
      w.Some? &&
      Served(w.value.fields, CacheAfterWrite(data, cache, "a"), "a.b", JNull) == JInt(1) &&
      ValueAt(w.value.fields, "a.b", JNull) == JInt(2)
  {
    SplitNoSep("a", '.');
    PathOfTwo("a", "b");
    assert "a" + "." + "b" == "a.b";
    var inner := JObj([Field("b", JInt(1))]);
    var data := [Field("a", inner)];
    var repl := JObj([Field("b", JInt(2))]);
    var w := [Field("a", repl)];
    assert Put(data, "a", repl) == w by {
      assert data[1..] == [];
    }
    assert SetPath(JObj(data), ["a"], repl) == Some(JObj(w));
    assert Resolve(inner, ["b"]) == Some(JInt(1));
    assert Resolve(JObj(data), ["a", "b"]) == Some(JInt(1)) by {
      assert ["a", "b"][1..] == ["b"];
    }
    assert Resolve(JObj(w), ["a", "b"]) == Some(JInt(2)) by {
      assert ["a", "b"][1..] == ["b"];
      assert Resolve(repl, ["b"]) == Some(JInt(2));
    }
    assert ["a"] < ["a", "b"];
    var c := CacheAfterWrite(data, map["a.b" := Live], "a");
    assert c["a.b"] == Frozen(JInt(1));
  }

  /** No entry serves a detached object. */
  predicate AllLive(cache: map<string, CacheEntry>)
  {
    forall q :: q in cache ==> cache[q].Live?
  }

  /** The invalidation a write or removal at `path` needs: its entry and every entry below it dropped. */
  function InvalidatedCache(cache: map<string, CacheEntry>, path: string): (r: map<string, CacheEntry>)
    ensures forall q :: q in r <==> q in cache && !(PathOf(path) <= PathOf(q))
  {
    map q | q in cache && !(PathOf(path) <= PathOf(q)) :: cache[q]
  }

  /** With that invalidation, every read after a `set_field` serves the current value. */
  lemma {:induction false} FreshAfterSet(data: seq<Field>, cache: map<string, CacheEntry>, path: string, v: Json)
    requires CacheValid(data, cache) && AllLive(cache)
    requires SetPath(JObj(data), PathOf(path), v).Some?
    ensures var w := SetPath(JObj(data), PathOf(path), v).value.fields;
      var c := InvalidatedCache(cache, path);
      CacheValid(w, c) && AllLive(c) &&
      forall q, default :: Served(w, c, q, default) == ValueAt(w, q, default)
  {
    var parts := PathOf(path);
    var w := SetPath(JObj(data), parts, v).value;
    var c := InvalidatedCache(cache, path);
    forall q | q in c
      ensures Resolve(JObj(w.fields), PathOf(q)).Some?
    {
      var pq := PathOf(q);
      if pq <= parts {
        ResolvePrefix(w, parts, |pq|);
        assert parts[..|pq|] == pq;
      } else {
        SetPathFrame(JObj(data), parts, v, pq);
      }
    }
  }

  /** With that invalidation, every read after a `remove_field` serves the current value. */
  lemma {:induction false} FreshAfterRemove(data: seq<Field>, cache: map<string, CacheEntry>, path: string)
    requires CacheValid(data, cache) && AllLive(cache)
    requires DelPath(JObj(data), PathOf(path)).Some?
    ensures var w := DelPath(JObj(data), PathOf(path)).value.fields;
      var c := InvalidatedCache(cache, path);
      CacheValid(w, c) && AllLive(c) &&
      forall q, default :: Served(w, c, q, default) == ValueAt(w, q, default)
  {
    var parts := PathOf(path);
    var w := DelPath(JObj(data), parts).value;
    var c := InvalidatedCache(cache, path);
    forall q | q in c
      ensures Resolve(JObj(w.fields), PathOf(q)).Some?
    {
      var pq := PathOf(q);
      if pq < parts {
        DelPathAncestors(JObj(data), parts, |pq|);
        assert parts[..|pq|] == pq;
      } else {
        DelPathFrame(JObj(data), parts, pq);
      }
    }
  }

  // ---------------------------------------------------------------------------
  // Custom settings

  /** The eight sections a profile is built from. */
  const BaseFieldNames: seq<string> :=
    ["required", "basic_info", "personality_traits", "response_styles",
     "relationships", "knowledge_and_expertise", "sample_conversations", "off_topic_message"]

  /** `get_custom_settings` over the first entries: those outside the base sections, in order. */
  function CustomOf(fs: seq<Field>): seq<Field>
    decreases |fs|
  {
    if fs == [] then []
    else
      var last := fs[|fs| - 1];
      var r := CustomOf(fs[..|fs| - 1]);
      if last.key in BaseFieldNames then r else Put(r, last.key, last.value)
  }

  lemma {:induction false} LookupAppend(fs: seq<Field>, f: Field, k: string)
    ensures Lookup(fs + [f], k) == if k in KeysOf(fs) then Lookup(fs, k) else if f.key == k then Some(f.value) else None
    decreases |fs|
  {
    if fs != [] {
      assert (fs + [f])[1..] == fs[1..] + [f];
      assert KeysOf(fs) == [fs[0].key] + KeysOf(fs[1..]);
      LookupAppend(fs[1..], f, k);
    }
  }

  /** The custom settings are exactly the top-level keys outside the base sections, with their values. */
  lemma {:induction false} CustomSettingsExact(fs: seq<Field>)
    requires UniqueKeys(fs)
    ensures forall k :: Lookup(CustomOf(fs), k) == if k in BaseFieldNames then None else Lookup(fs, k)
    decreases |fs|
  {
    if fs != [] {
      var init := fs[..|fs| - 1];
      var last := fs[|fs| - 1];
      assert fs == init + [last];
      assert KeysOf(init) == KeysOf(fs)[..|fs| - 1];
      assert UniqueKeys(init);
      assert last.key !in KeysOf(init) by {
        forall j | 0 <= j < |init| ensures KeysOf(init)[j] != last.key {
          assert KeysOf(fs)[j] != KeysOf(fs)[|fs| - 1];
        }
      }
      CustomSettingsExact(init);
      forall k
        ensures Lookup(fs, k) == if k in KeysOf(init) then Lookup(init, k) else if last.key == k then Some(last.value) else None
      {
        LookupAppend(init, last, k);
      }
    }
  }

  // ---------------------------------------------------------------------------
  // Deep merge

  /**
   * `_deep_merge` from overlay entry `i` on: a dict meeting a dict is merged
   * recursively, any other overlay value replaces the base value.
   */
  function MergeInto(result: seq<Field>, overlay: seq<Field>, i: nat): seq<Field>
    decreases overlay, |overlay| - i
  {
    if i >= |overlay| then result
    else
      var f := overlay[i];
      var b := Lookup(result, f.key);
      var v := if b.Some? && b.value.JObj? && f.value.JObj? then JObj(MergeInto(b.value.fields, f.value.fields, 0)) else f.value;
      MergeInto(Put(result, f.key, v), overlay, i + 1)
  }

  function DeepMerge(base: seq<Field>, overlay: seq<Field>): seq<Field>
  {
    MergeInto(base, overlay, 0)
  }

  /** What the merge stores under an overlay key whose base value is `b`. */
  function MergedValue(b: Option<Json>, v: Json): Json
  {
    if b.Some? && b.value.JObj? && v.JObj? then JObj(DeepMerge(b.value.fields, v.fields)) else v
  }

  lemma {:induction false} MergeIntoLookup(base: seq<Field>, overlay: seq<Field>, i: nat)
    requires UniqueKeys(overlay)
    ensures forall j :: i <= j < |overlay| ==>
      Lookup(MergeInto(base, overlay, i), overlay[j].key) == Some(MergedValue(Lookup(base, overlay[j].key), overlay[j].value))
    ensures forall k :: (forall j :: i <= j < |overlay| ==> overlay[j].key != k) ==>
      Lookup(MergeInto(base, overlay, i), k) == Lookup(base, k)
    decreases |overlay| - i
  {
    if i < |overlay| {
      var f := overlay[i];
      var mv := MergedValue(Lookup(base, f.key), f.value);
      var next := Put(base, f.key, mv);
      var r := MergeInto(base, overlay, i);
      assert r == MergeInto(next, overlay, i + 1);
      MergeIntoLookup(next, overlay, i + 1);
      forall j | i < j < |overlay|
        ensures overlay[j].key != f.key
      {
        assert KeysOf(overlay)[i] != KeysOf(overlay)[j];
      }
      forall j | i <= j < |overlay|
        ensures Lookup(r, overlay[j].key) == Some(MergedValue(Lookup(base, overlay[j].key), overlay[j].value))
      {
        if j > i {
          assert Lookup(next, overlay[j].key) == Lookup(base, overlay[j].key);
        }
      }
      forall k | forall j :: i <= j < |overlay| ==> overlay[j].key != k
        ensures Lookup(r, k) == Lookup(base, k)
      {
        assert overlay[i].key != k;
        assert Lookup(next, k) == Lookup(base, k);
      }
    }
  }

  /**
   * `_deep_merge(base, overlay)`: a key only in the base keeps its value, an overlay
   * key wins, and a dict meeting a dict is merged recursively.
   */
  lemma DeepMergeLookup(base: seq<Field>, overlay: seq<Field>, k: string)
    requires UniqueKeys(overlay)
    ensures Lookup(DeepMerge(base, overlay), k) ==
      if k in KeysOf(overlay) then Some(MergedValue(Lookup(base, k), Lookup(overlay, k).value)) else Lookup(base, k)
  {
    MergeIntoLookup(base, overlay, 0);
    if k in KeysOf(overlay) {
      var j :| 0 <= j < |overlay| && overlay[j].key == k;
      LookupFound(overlay, j);
    }
  }

  /** The data of `merge_profile`: the other profile's entries win when `preferOther`, this one's otherwise. */
  function MergedData(mine: seq<Field>, theirs: seq<Field>, preferOther: bool): seq<Field>
  {
    if preferOther then DeepMerge(mine, theirs) else DeepMerge(theirs, mine)
  }

  /** On a key both profiles hold, not both as dicts, the preferred profile's value is kept. */
  lemma MergePreference(mine: seq<Field>, theirs: seq<Field>, preferOther: bool, k: string)
    requires UniqueKeys(mine) && UniqueKeys(theirs)
    ensures var m := Lookup(MergedData(mine, theirs, preferOther), k);
      (k in KeysOf(mine) && k in KeysOf(theirs) && !(Lookup(mine, k).value.JObj? && Lookup(theirs, k).value.JObj?) ==>
        m == if preferOther then Lookup(theirs, k) else Lookup(mine, k)) &&
      (k !in KeysOf(theirs) ==> m == Lookup(mine, k)) &&
      (k !in KeysOf(mine) ==> m == Lookup(theirs, k))
  {
    DeepMergeLookup(mine, theirs, k);
    DeepMergeLookup(theirs, mine, k);
  }

  // ---------------------------------------------------------------------------
  // The profile object

  class Profile {
    const profileName: string
    /** The `ConfigSchema` the profile was validated with. */
    const schema: ConfigSchema
    const createdAt: int
    var modifiedAt: int
    var data: seq<Field>
    var cache: map<string, CacheEntry>
    /** `source_file`: the file the profile was read from or last saved to. */
    var sourceFile: Option<string>

    predicate Valid()
      reads this
    {
      CacheValid(data, cache)
    }

    /** The part of `__init__` after a successful validation. */
    constructor(name: string, config: seq<Field>, schema: ConfigSchema, source: Option<string>, now: int)
      requires ValidationResult(schema.requiredSchema, config, true).Accepted?
      ensures profileName == name && this.schema == schema && createdAt == now && modifiedAt == now
      ensures sourceFile == source
      ensures data == ValidationResult(schema.requiredSchema, config, true).value && cache == map[]
      ensures Valid()
    {
      profileName := name;
      this.schema := schema;
      createdAt := now;
      modifiedAt := now;
      data := ValidationResult(schema.requiredSchema, config, true).value;
      cache := map[];
      sourceFile := source;
    }

    /**
     * `Profile(name, config, schema, source)`: validated against `schema`, or a default
     * `ConfigSchema()` when none is given; a rejection is the `ValidationError` raised.
     */
    static method Create(name: string, config: seq<Field>, schema: ConfigSchema?, source: Option<string>,
                         defaults: SchemaDefaults, now: int)
      returns (p: Profile?, err: Option<ValidationError>)
      ensures var rs := if schema != null then schema.requiredSchema else defaults.baseRequired;
        (err.None? <==> ValidationResult(rs, config, true).Accepted?) &&
        (err.Some? ==> p == null && err.value == ValidationResult(rs, config, true).error) &&
        (err.None? ==>
          p != null && fresh(p) && p.Valid() && p.profileName == name && p.createdAt == now &&
          p.modifiedAt == now && (schema != null ==> p.schema == schema) &&
          p.data == ValidationResult(rs, config, true).value && p.cache == map[] && p.sourceFile == source)
    {
      var cs := schema;
      if cs == null {
        cs := new ConfigSchema(defaults, None);
      }
      var r := cs.ValidateConfig(config, true);
      if r.Rejected? {
        return null, Some(r.error);
      }
      p := new Profile(name, config, cs, source, now);
      err := None;
    }

    /** `get_field` / `_get_nested_value`: served from the cache first, remembering a successful lookup. */
    method GetField(path: string, default: Json) returns (v: Json)
      requires Valid()
      modifies this`cache
      ensures v == Served(data, old(cache), path, default)
      ensures cache == CacheAfterGet(data, old(cache), path)
      ensures Valid()
    {
      if path in cache {
        match cache[path] {
          case Frozen(x) => return x;
          case Live =>
            var r := Walk(JObj(data), PathOf(path));
            return r.value;
        }
      }
      var r := Walk(JObj(data), PathOf(path));
      if r.None? {
        return default;
      }
      cache := cache[path := Live];
      return r.value;
    }

    /** `set_field`: false where `_set_nested_value` raises TypeError, which leaves everything as it was. */
    method SetField(path: string, value: Json, now: int) returns (ok: bool)
      requires Valid()
      modifies this`data, this`cache, this`modifiedAt
      ensures var w := SetPath(JObj(old(data)), PathOf(path), value);
        ok == w.Some? &&
        (ok ==> data == w.value.fields && modifiedAt == now && cache == CacheAfterWrite(old(data), old(cache), path))
      ensures !ok ==> data == old(data) && cache == old(cache) && modifiedAt == old(modifiedAt)
      ensures Valid()
    {
      var w := SetPath(JObj(data), PathOf(path), value);
      if w.None? {
        return false;
      }
      SetKeepsCacheValid(data, cache, path, value);
      cache := CacheAfterWrite(data, cache, path);
      data := w.value.fields;
      modifiedAt := now;
      return true;
    }

    /** `remove_field`: true iff every key on the way is there, the last one included, and then only it is deleted. */
    method RemoveField(path: string, now: int) returns (ok: bool)
      requires Valid()
      modifies this`data, this`cache, this`modifiedAt
      ensures ok == Resolve(JObj(old(data)), PathOf(path)).Some?
      ensures ok ==>
        data == DelPath(JObj(old(data)), PathOf(path)).value.fields && modifiedAt == now &&
        cache == CacheAfterWrite(old(data), old(cache), path)
      ensures !ok ==> data == old(data) && cache == old(cache) && modifiedAt == old(modifiedAt)
      ensures Valid()
    {
      var w := DelPath(JObj(data), PathOf(path));
      if w.None? {
        return false;
      }
      RemoveKeepsCacheValid(data, cache, path);
      cache := CacheAfterWrite(data, cache, path);
      data := w.value.fields;
      modifiedAt := now;
      return true;
    }

    /** `has_field` as written: `_get_nested_value` never raises, so it answers true for every path. */
    method HasFieldAsWritten(path: string) returns (r: bool)
      requires Valid()
      modifies this`cache
      ensures r
      ensures cache == CacheAfterGet(data, old(cache), path)
      ensures Valid()
    {
      var _ := GetField(path, JNull);
      return true;
    }

    /** `has_field` as documented: true exactly when the path resolves in the data. */
    method HasField(path: string) returns (r: bool)
      ensures r <==> Resolve(JObj(data), PathOf(path)).Some?
    {
      var v := Walk(JObj(data), PathOf(path));
      return v.Some?;
    }

    /** `get_custom_settings`: the loop over the top-level items. */
    method GetCustomSettings() returns (custom: seq<Field>)
      ensures custom == CustomOf(data)
    {
      custom := [];
      var i := 0;
      while i < |data|
        invariant 0 <= i <= |data|
        invariant custom == CustomOf(data[..i])
      {
        assert data[..i + 1][..i] == data[..i];
        var f := data[i];
        if f.key !in BaseFieldNames {
          custom := Put(custom, f.key, f.value);
        }
        i := i + 1;
      }
      assert data[..i] == data;
    }

    /** `merge_profile`: the merged data under the name `<this>_merged_<other>`, validated again with this schema. */
    method MergeProfile(other: Profile, preferOther: bool, defaults: SchemaDefaults, now: int) returns (p: Profile?, err: Option<ValidationError>)
      ensures var d := MergedData(data, other.data, preferOther);
        (err.None? <==> ValidationResult(schema.requiredSchema, d, true).Accepted?) &&
        (err.None? ==>
          p != null && fresh(p) && p.profileName == profileName + "_merged_" + other.profileName &&
          p.data == ValidationResult(schema.requiredSchema, d, true).value && p.schema == schema &&
          p.sourceFile == None)
    {
      var d := MergedData(data, other.data, preferOther);
      p, err := Create(profileName + "_merged_" + other.profileName, d, schema, None, defaults, now);
    }
  }

  /** A path that is not there: `has_field` as written still answers true for it. */
  lemma AbsentPathExample()
    ensures Resolve(JObj([Field("required", JObj([]))]), PathOf("required.email")) == None
  {
    PathOfTwo("required", "email");
    assert "required" + "." + "email" == "required.email";
    var d := JObj([Field("required", JObj([]))]);
    assert Subscript(d, "required") == Some(JObj([]));
    assert Resolve(JObj([]), ["email"]) == None;
    assert ["required", "email"][1..] == ["email"];
  }
}
