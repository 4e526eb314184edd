/**
 * The long-term memory store kept per user: the redundancy test a new fact must
 * pass, the consolidation of a fact into an existing record, the append-or-replace
 * step of a save, and the score-ranked eviction that caps a store at fifty records.
 *
 * A store file is a value held in `MemoryDirectory.files`; the clock is a parameter
 * counted in microseconds.
 */
module MemoryStore {

  import opened Wrappers
  import opened Text
  import opened Sorting

  /** The cap applied after every save. */
  const MaxMemories: nat := 50

  const MicrosPerDay: int := 86_400_000_000

  /** A value in a memory payload: a string, or any other JSON value with its `str()` rendering and truthiness. */
  datatype Value = Str(s: string) | NonStr(repr: string, truthy: bool)

  /** Python `str(v)`. */
  function Render(v: Value): string
  {
    match v
    case Str(s) => s
    case NonStr(r, _) => r
  }

  /** `str(v).lower().strip()`, the normal form every comparison of the store uses. */
  function Norm(v: Value): string
  {
    Strip(Lower(Render(v)))
  }

  predicate IsTruthy(v: Value)
  {
    match v
    case Str(s) => s != []
    case NonStr(_, t) => t
  }

  type Payload = map<string, Value>

  /** A record timestamp: an instant, or a string that does not parse as a timezone-aware ISO instant. */
  datatype Stamp = At(micros: int) | Unparseable

  /** One stored memory, with the five keys a save writes. */
  datatype Record = Record(timestamp: Stamp, category: string, data: Payload, importance: string, source: string)

  /** The `info` (or `data`) entry of a new fact: a dict, or some other JSON value and its truthiness. */
  datatype Info = Dict(entries: Payload) | NotDict(truthy: bool)

  /** A new fact as handed to a save; each field is None when the key is absent. */
  datatype Fact = Fact(
    category: Option<string>,
    info: Option<Info>,
    data: Option<Info>,
    importance: Option<string>,
    otherKeys: bool)

  /** Python truthiness of the fact's dict: it has at least one key. */
  predicate FactTruthy(f: Fact)
  {
    f.category.Some? || f.info.Some? || f.data.Some? || f.importance.Some? || f.otherKeys
  }

  function CategoryOf(f: Fact): string
  {
    if f.category.Some? then f.category.value else "personal_info"
  }

  function ImportanceOf(f: Fact): string
  {
    if f.importance.Some? then f.importance.value else "medium"
  }

  /** `new_data.get("info", new_data.get("data", {}))`. */
  function InfoOf(f: Fact): Info
  {
    if f.info.Some? then f.info.value else if f.data.Some? then f.data.value else Dict(map[])
  }

  /** The importance weights; anything unknown weighs as "medium". */
  function Weight(importance: string): (w: int)
    ensures 1 <= w <= 3
    ensures w == 3 <==> importance == "high"
    ensures w == 1 <==> importance == "low"
  {
    if importance == "low" then 1 else if importance == "high" then 3 else 2
  }

  // ---------------------------------------------------------------------------
  // Redundancy

  const MetaKeys: set<string> := {
    "current_location_query", "location_request", "weather_request",
    "query", "request", "question", "asking", "wondering"
  }

  /** A key that is a meta key, or a string value whose lower case contains one. */
  predicate IsMeta(k: string, v: Value)
  {
    k in MetaKeys || (v.Str? && exists m :: m in MetaKeys && Contains(Lower(v.s), m))
  }

  /** Equal normal forms, or both longer than three characters with one inside the other. */
  predicate Close(a: string, b: string)
  {
    a == b || (|a| > 3 && |b| > 3 && (Contains(b, a) || Contains(a, b)))
  }

  predicate SameCategoryMatch(cat: string, p: Payload, r: Record)
  {
    cat == r.category && exists k :: k in p && k in r.data && Close(Norm(p[k]), Norm(r.data[k]))
  }

  /** Python `p.get(k1) or p.get(k2)`. */
  function EitherKey(p: Payload, k1: string, k2: string): (r: Option<Value>)
    ensures r.Some? && IsTruthy(r.value) ==>
      (k1 in p && r.value == p[k1]) || (k2 in p && r.value == p[k2])
    ensures (r.Some? && IsTruthy(r.value)) <==> (k1 in p && IsTruthy(p[k1])) || (k2 in p && IsTruthy(p[k2]))
    ensures k1 in p && IsTruthy(p[k1]) ==> r == Some(p[k1])
    ensures !(k1 in p && IsTruthy(p[k1])) ==> r == (if k2 in p then Some(p[k2]) else None)
  {
    if k1 in p && IsTruthy(p[k1]) then Some(p[k1])
    else if k2 in p then Some(p[k2])
    else None
  }

  /** Both sides present and truthy under one of the two keys, with equal normal forms. */
  predicate IdentityMatch(cat: string, p: Payload, r: Record, c1: string, c2: string, k1: string, k2: string)
  {
    (cat == c1 || cat == c2) && (r.category == c1 || r.category == c2)
    && var a := EitherKey(p, k1, k2);
       var b := EitherKey(r.data, k1, k2);
       a.Some? && IsTruthy(a.value) && b.Some? && IsTruthy(b.value) && Norm(a.value) == Norm(b.value)
  }

  predicate LocationMatch(cat: string, p: Payload, r: Record)
  {
    IdentityMatch(cat, p, r, "personal_info", "location", "location", "current_location")
  }

  predicate NameMatch(cat: string, p: Payload, r: Record)
  {
    IdentityMatch(cat, p, r, "personal_info", "personal_identity", "name", "real_name")
  }

  /** An existing record makes a new payload of category `cat` redundant. */
  predicate Matches(cat: string, p: Payload, r: Record)
  {
    SameCategoryMatch(cat, p, r) || LocationMatch(cat, p, r) || NameMatch(cat, p, r)
  }

  /** The outcome of the redundancy test: `(False, None)`, `(True, i)`, `(True, None)`, or an AttributeError. */
  datatype Verdict = Fresh | Duplicate(index: nat) | Rejected | Raises

  /** The first index from `from` on whose item satisfies `pred`. */
  function FirstIndex<T>(s: seq<T>, pred: T -> bool, from: nat): (r: Option<nat>)
    requires from <= |s|
    ensures r.Some? ==> from <= r.value < |s| && pred(s[r.value])
    ensures r.Some? ==> forall j :: from <= j < r.value ==> !pred(s[j])
    ensures r.None? ==> forall j :: from <= j < |s| ==> !pred(s[j])
    decreases |s| - from
  {
    if from == |s| then None
    else if pred(s[from]) then Some(from)
    else FirstIndex(s, pred, from + 1)
  }

  /** The records that make a payload of category `cat` redundant. */
  function MatchesOf(cat: string, p: Payload): Record -> bool
  {
    r => Matches(cat, p, r)
  }

  predicate HasMeta(p: Payload)
  {
    exists k :: k in p && IsMeta(k, p[k])
  }

  /** The redundancy test of a new fact against the stored records. */
  function Redundancy(f: Fact, records: seq<Record>): (v: Verdict)
    ensures v == Rejected <==>
      (InfoOf(f).NotDict? && !InfoOf(f).truthy)
      || (InfoOf(f).Dict? && (InfoOf(f).entries == map[] || HasMeta(InfoOf(f).entries)))
    ensures v == Raises <==> InfoOf(f).NotDict? && InfoOf(f).truthy
    ensures v.Duplicate? ==>
      v.index < |records| && Matches(CategoryOf(f), InfoOf(f).entries, records[v.index])
      && forall j :: 0 <= j < v.index ==> !Matches(CategoryOf(f), InfoOf(f).entries, records[j])
    ensures v == Fresh ==>
      InfoOf(f).Dict? && forall j :: 0 <= j < |records| ==> !Matches(CategoryOf(f), InfoOf(f).entries, records[j])
  {
    match InfoOf(f)
    case NotDict(t) => if t then Raises else Rejected
    case Dict(p) =>
      if p == map[] || HasMeta(p) then Rejected
      else
        match FirstIndex(records, MatchesOf(CategoryOf(f), p), 0)
        case None => Fresh
        case Some(i) => Duplicate(i)
  }

  /** A fact found redundant with no record to update is dropped; a dict payload always gets a verdict. */
  lemma RejectedOrAccepted(f: Fact, records: seq<Record>)
    requires InfoOf(f).Dict? && InfoOf(f).entries != map[] && !HasMeta(InfoOf(f).entries)
    ensures Redundancy(f, records).Fresh? || Redundancy(f, records).Duplicate?
  {
  }

  /** The loop of `is_memory_redundant`: meta keys first, then each record in order, returning at the first match. */
  method FindRedundant(f: Fact, records: seq<Record>) returns (v: Verdict)
    ensures v == Redundancy(f, records)
  {
    var info := InfoOf(f);
    if info.NotDict? {
      return if info.truthy then Raises else Rejected;
    }
    var p := info.entries;
    if p == map[] {
      return Rejected;
    }
    if exists k | k in p :: IsMeta(k, p[k]) {
      return Rejected;
    }
    var cat := CategoryOf(f);
    var i := 0;
    while i < |records|
      invariant 0 <= i <= |records|
      invariant FirstIndex(records, MatchesOf(cat, p), 0) == FirstIndex(records, MatchesOf(cat, p), i)
    {
      if Matches(cat, p, records[i]) {
        return Duplicate(i);
      }
      i := i + 1;
    }
    return Fresh;
  }

  /**
   * Location and name identities across categories use exact normal-form equality:
   * a location fact is redundant against a personal-info record exactly when both
   * locations are truthy and normalise to the same string.
   */
  lemma CrossCategoryIsExact(x: Value, y: Value, t: Stamp, imp: string, src: string)
    ensures Matches("location", map["location" := x], Record(t, "personal_info", map["location" := y], imp, src))
      <==> IsTruthy(x) && IsTruthy(y) && Norm(x) == Norm(y)
  {
    var p := map["location" := x];
    var r := Record(t, "personal_info", map["location" := y], imp, src);
    assert EitherKey(p, "location", "current_location") == (if IsTruthy(x) then Some(x) else None);
    assert EitherKey(r.data, "location", "current_location") == (if IsTruthy(y) then Some(y) else None);
    assert !SameCategoryMatch("location", p, r);
    assert !NameMatch("location", p, r);
  }

  /**
   * Within one category the substring rule also applies: "new york" is redundant
   * against "New York City" there, though not across categories.
   */
  lemma SameCategoryIsSubstring(x: Value, y: Value, t: Stamp, imp: string, src: string)
    ensures Matches("location", map["location" := x], Record(t, "location", map["location" := y], imp, src))
      <==> Close(Norm(x), Norm(y))
  {
    var p := map["location" := x];
    var r := Record(t, "location", map["location" := y], imp, src);
    if Close(Norm(x), Norm(y)) {
      CloseIsSameCategoryMatch(x, y, r);
    } else {
      SameCategoryMatchIsClose(x, y, t, imp, src);
    }
  }

  lemma CloseIsSameCategoryMatch(x: Value, y: Value, r: Record)
    requires r.category == "location" && r.data == map["location" := y]
    requires Close(Norm(x), Norm(y))
    ensures SameCategoryMatch("location", map["location" := x], r)
  {
    var p := map["location" := x];
    assert "location" in p && "location" in r.data;
    assert p["location"] == x && r.data["location"] == y;
  }

  lemma SameCategoryMatchIsClose(x: Value, y: Value, t: Stamp, imp: string, src: string)
    ensures Matches("location", map["location" := x], Record(t, "location", map["location" := y], imp, src))
      ==> Close(Norm(x), Norm(y))
  {
    var p := map["location" := x];
    var r := Record(t, "location", map["location" := y], imp, src);
    if SameCategoryMatch("location", p, r) {
      SingleKeyMatchIsClose(x, y, r);
    } else if LocationMatch("location", p, r) {
      SingleKeyIdentityIsEqual(x, y, r);
    } else {
      assert !NameMatch("location", p, r);
    }
  }

  lemma SingleKeyMatchIsClose(x: Value, y: Value, r: Record)
    requires r.data == map["location" := y]
    requires SameCategoryMatch("location", map["location" := x], r)
    ensures Close(Norm(x), Norm(y))
  {
    var p := map["location" := x];
    var k :| k in p && k in r.data && Close(Norm(p[k]), Norm(r.data[k]));
    assert k == "location";
  }

  lemma SingleKeyIdentityIsEqual(x: Value, y: Value, r: Record)
    requires r.data == map["location" := y]
    requires LocationMatch("location", map["location" := x], r)
    ensures Norm(x) == Norm(y)
  {
    var p := map["location" := x];
    assert EitherKey(p, "location", "current_location") == Some(x);
    assert EitherKey(r.data, "location", "current_location") == Some(y);
  }

  // ---------------------------------------------------------------------------
  // Consolidation

  /** `consolidate_memory_data`: merge the payload, refresh the timestamp, and raise but never lower the importance. */
  function Consolidate(f: Fact, r: Record, now: int): (c: Record)
    requires InfoOf(f).Dict?
    ensures c.category == r.category && c.source == r.source
    ensures c.timestamp == At(now)
    ensures c.data.Keys == r.data.Keys + InfoOf(f).entries.Keys
    ensures forall k :: k in InfoOf(f).entries ==> c.data[k] == InfoOf(f).entries[k]
    ensures forall k :: k in r.data && k !in InfoOf(f).entries ==> c.data[k] == r.data[k]
    ensures Weight(c.importance) >= Weight(r.importance)
    ensures c.importance == r.importance || (c.importance == ImportanceOf(f) && Weight(ImportanceOf(f)) > Weight(r.importance))
  {
    var imp := if Weight(ImportanceOf(f)) > Weight(r.importance) then ImportanceOf(f) else r.importance;
    r.(data := r.data + InfoOf(f).entries, timestamp := At(now), importance := imp)
  }

  // ---------------------------------------------------------------------------
  // Eviction

  /** The eviction score scaled by 365: `365 * weight + max(0, 365 - days_old)`, recency 0 for an unparseable stamp. */
  function Score(r: Record, now: int): int
  {
    365 * Weight(r.importance) +
    match r.timestamp
    case Unparseable => 0
    case At(t) =>
      var days := (now - t) / MicrosPerDay;
      if 365 - days > 0 then 365 - days else 0
  }

  /** A record is never scored below its weight, nor above its weight plus one, unless it is dated in the future. */
  lemma ScoreBounds(r: Record, now: int)
    ensures Score(r, now) >= 365 * Weight(r.importance)
    ensures r.timestamp.At? && r.timestamp.micros <= now ==> Score(r, now) <= 365 * Weight(r.importance) + 365
  {
  }

  /** The eviction key of a store read at `now`. */
  function ScoreAt(now: int): Record -> int
  {
    r => Score(r, now)
  }

  /** `smart_memory_cleanup`: a store within the cap is returned as it is; otherwise the best `MaxMemories` by score. */
  function Cleanup(rs: seq<Record>, now: int): (r: seq<Record>)
    ensures |rs| <= MaxMemories ==> r == rs
    ensures |rs| > MaxMemories ==> |r| == MaxMemories && SortedDesc(r, ScoreAt(now))
    ensures multiset(r) <= multiset(rs)
  {
    if |rs| <= MaxMemories then rs
    else
      var sorted := SortDesc(rs, ScoreAt(now));
      SortPerm(rs, ScoreAt(now));
      assert sorted == sorted[..MaxMemories] + sorted[MaxMemories..];
      sorted[..MaxMemories]
  }

  /** The records an over-full store loses by eviction. */
  function Dropped(rs: seq<Record>, now: int): seq<Record>
  {
    if |rs| <= MaxMemories then [] else SortDesc(rs, ScoreAt(now))[MaxMemories..]
  }

  /** Eviction keeps and drops exactly the original records, and no dropped record outscores a kept one. */
  lemma CleanupKeepsBest(rs: seq<Record>, now: int)
    ensures multiset(Cleanup(rs, now)) + multiset(Dropped(rs, now)) == multiset(rs)
    ensures forall i, j :: 0 <= i < |Cleanup(rs, now)| && 0 <= j < |Dropped(rs, now)| ==>
      Score(Cleanup(rs, now)[i], now) >= Score(Dropped(rs, now)[j], now)
  {
    if |rs| > MaxMemories {
      var sorted := SortDesc(rs, ScoreAt(now));
      SortPerm(rs, ScoreAt(now));
      assert sorted == sorted[..MaxMemories] + sorted[MaxMemories..];
      forall i, j | 0 <= i < MaxMemories <= j < |sorted|
        ensures Score(sorted[i], now) >= Score(sorted[j], now)
      {
        assert ScoreAt(now)(sorted[i]) >= ScoreAt(now)(sorted[j]);
      }
    }
  }

  /** Eviction is stable: within a score, the kept records are the earliest ones in store order. */
  lemma CleanupIsStableTake(rs: seq<Record>, v: int, now: int)
    ensures WithKey(Cleanup(rs, now), v, ScoreAt(now)) <= WithKey(rs, v, ScoreAt(now))
  {
    if |rs| > MaxMemories {
      var sorted := SortDesc(rs, ScoreAt(now));
      SortIsStable(rs, v, ScoreAt(now));
      assert sorted == sorted[..MaxMemories] + sorted[MaxMemories..];
      WithKeyAppend(sorted[..MaxMemories], sorted[MaxMemories..], v, ScoreAt(now));
    }
  }

  // ---------------------------------------------------------------------------
  // Upsert

  const SourcePrefix: string := "User message: "

  /** The source line of a new record: the first 100 characters of the message, then "..." if it was longer. */
  function Source(content: string): (s: string)
    ensures |s| <= |SourcePrefix| + 103
    ensures SourcePrefix <= s
    ensures |content| <= 100 ==> s == SourcePrefix + content
    ensures |content| > 100 ==> s == SourcePrefix + content[..100] + "..."
  {
    SourcePrefix + Take(content, 100) + (if |content| > 100 then "..." else "")
  }

  /** The record a fresh fact is appended as. */
  function NewRecord(f: Fact, content: string, now: int): Record
    requires InfoOf(f).Dict?
  {
    Record(At(now), CategoryOf(f), InfoOf(f).entries, ImportanceOf(f), Source(content))
  }

  /** The store after a save of `f`, or None when nothing is written. */
  function Upsert(records: seq<Record>, f: Fact, content: string, now: int): (r: Option<seq<Record>>)
    ensures r.Some? ==> |r.value| <= MaxMemories
    ensures r.None? <==> Redundancy(f, records).Rejected? || Redundancy(f, records).Raises?
  {
    match Redundancy(f, records)
    case Rejected => None
    case Raises => None
    case Duplicate(i) => Some(Cleanup(records[i := Consolidate(f, records[i], now)], now))
    case Fresh => Some(Cleanup(records + [NewRecord(f, content, now)], now))
  }

  /** A redundant fact with an index replaces that record only, and never lowers its importance. */
  lemma UpsertReplaces(records: seq<Record>, f: Fact, content: string, now: int)
    requires Redundancy(f, records).Duplicate? && |records| <= MaxMemories
    ensures var i := Redundancy(f, records).index;
      Upsert(records, f, content, now) == Some(records[i := Consolidate(f, records[i], now)])
      && Weight(Upsert(records, f, content, now).value[i].importance) >= Weight(records[i].importance)
  {
  }

  /** A fresh fact adds exactly one record, with the default category and importance when absent. */
  lemma UpsertAppends(records: seq<Record>, f: Fact, content: string, now: int)
    requires Redundancy(f, records).Fresh? && |records| < MaxMemories
    ensures var r := Upsert(records, f, content, now).value;
      |r| == |records| + 1 && r[..|records|] == records
      && r[|records|].data == InfoOf(f).entries
      && r[|records|].category == (if f.category.Some? then f.category.value else "personal_info")
      && r[|records|].importance == (if f.importance.Some? then f.importance.value else "medium")
      && r[|records|].timestamp == At(now)
      && r[|records|].source == Source(content)
  {
    var a := records + [NewRecord(f, content, now)];
    assert a[..|records|] == records;
  }

  /** A save into a full store keeps the store at exactly the cap. */
  lemma UpsertFullStore(records: seq<Record>, f: Fact, content: string, now: int)
    requires Redundancy(f, records).Fresh? && |records| >= MaxMemories
    ensures |Upsert(records, f, content, now).value| == MaxMemories
  {
  }

  // ---------------------------------------------------------------------------
  // Store files

  /** A memory file `{user_id, platform, created_at, last_updated, memories}`. */
  datatype StoreFile = StoreFile(userId: string, platform: string, createdAt: int, lastUpdated: int, memories: seq<Record>)

  /** A file on disk: one that parses, or one whose loading raises. */
  datatype FileState = Stored(file: StoreFile) | Unreadable

  /** The file name of a user's store, `<platform>_<user>.json`. */
  function FileName(platform: string, user: string): string
  {
    platform + "_" + user + ".json"
  }

  /** Distinct users of platforms whose prefix has no underscore never share a store file. */
  lemma {:induction false} FileNameInjective(p1: string, u1: string, p2: string, u2: string)
    requires '_' !in p1 && '_' !in p2
    requires FileName(p1, u1) == FileName(p2, u2)
    ensures p1 == p2 && u1 == u2
  {
    var s := FileName(p1, u1);
    assert s[|p1|] == '_' && s[|p2|] == '_';
    assert p1 == s[..|p1|] == p2;
    assert u1 == s[|p1| + 1..|s| - 5] == u2;
  }

  /** The records a save starts from: the file's, or none for a missing file. */
  function StartRecords(st: Option<FileState>): seq<Record>
  {
    if st.Some? && st.value.Stored? then st.value.file.memories else []
  }

  /** The new state of a user's file after a save, and whether the save reports success. */
  function SaveFile(st: Option<FileState>, user: string, platform: string, f: Fact, content: string, now: int): (r: (bool, Option<FileState>))
    ensures !r.0 ==> r.1 == st
    ensures r.0 ==> r.1.Some? && r.1.value.Stored? && |r.1.value.file.memories| <= MaxMemories
    ensures r.0 ==> r.1.value.file.lastUpdated == now
    ensures st.Some? && st.value.Unreadable? ==> !r.0
    ensures r.0 <==> !(st.Some? && st.value.Unreadable?) && Upsert(StartRecords(st), f, content, now).Some?
    ensures r.0 ==> r.1.value.file.memories == Upsert(StartRecords(st), f, content, now).value
    ensures r.0 && st.Some? ==> var before := st.value.file; var after := r.1.value.file;
      after.userId == before.userId && after.platform == before.platform && after.createdAt == before.createdAt
    ensures r.0 && st.None? ==> var after := r.1.value.file;
      after.userId == user && after.platform == platform && after.createdAt == now
  {
    if st.Some? && st.value.Unreadable? then (false, st)
    else
      var sf := if st.Some? then st.value.file else StoreFile(user, platform, now, now, []);
      match Upsert(sf.memories, f, content, now)
      case None => (false, st)
      case Some(rs) => (true, Some(Stored(sf.(lastUpdated := now, memories := rs))))
  }

  /** The directory of memory files, keyed by file name. */
  class MemoryDirectory {
    var files: map<string, FileState>

    constructor()
      ensures files == map[]
    {
      files := map[];
    }

    /** The stored records of a user, or none when the file is missing or unreadable. */
    function Existing(user: string, platform: string): seq<Record>
      reads this
    {
      var name := FileName(platform, user);
      if name in files && files[name].Stored? then files[name].file.memories else []
    }

    /** `save_memory_to_file`: load or create the file, append or consolidate the fact, cap the store and write it. */
    method Save(user: string, platform: string, f: Fact, content: string, now: int) returns (ok: bool)
      modifies this
      ensures var name := FileName(platform, user);
        var r := SaveFile(if name in old(files) then Some(old(files)[name]) else None, user, platform, f, content, now);
        ok == r.0 && files == (if ok then old(files)[name := r.1.value] else old(files))
    {
      var name := FileName(platform, user);
      var sf: StoreFile;
      if name in files {
        if files[name].Unreadable? {
          return false;
        }
        sf := files[name].file;
      } else {
        sf := StoreFile(user, platform, now, now, []);
      }
      ghost var st := if name in files then Some(files[name]) else None;
      var verdict := FindRedundant(f, sf.memories);
      var memories := sf.memories;
      if verdict.Duplicate? {
        memories := memories[verdict.index := Consolidate(f, memories[verdict.index], now)];
      } else if verdict.Fresh? {
        memories := memories + [NewRecord(f, content, now)];
      } else {
        assert Upsert(sf.memories, f, content, now).None?;
        return false;
      }
      if |memories| > MaxMemories {
        memories := Cleanup(memories, now);
      }
      assert Upsert(sf.memories, f, content, now) == Some(memories);
      assert SaveFile(st, user, platform, f, content, now) == (true, Some(Stored(sf.(lastUpdated := now, memories := memories))));
      files := files[name := Stored(sf.(lastUpdated := now, memories := memories))];
      ok := true;
    }
  }
}
