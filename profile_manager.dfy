/**
 * The profile manager: unwrapping the JSON a profile file holds, choosing which
 * files are profiles, and the caches of loaded profiles and of the file times
 * they were loaded at. The file system is a parameter of each operation: whether
 * a file exists, its modification time, its parsed content (None for invalid
 * JSON) and whether a write succeeds.
 */
module ProfileManagement {
  import opened Wrappers
  import opened Text
  import opened Json
  import opened PathOrder
  import opened ConfigSchema
  import opened ProfileData

  // ---------------------------------------------------------------------------
  // Unwrapping a profile file

  /** The profile kept in a `"profiles"` dict: the only one, else `"default"`, else the first; none raises. */
  function PickProfile(ps: seq<Field>): (r: Result<Json>)
    ensures |ps| == 1 ==> r == Ok(ps[0].value)
    ensures |ps| != 1 && "default" in KeysOf(ps) ==> r == Ok(Lookup(ps, "default").value)
    ensures |ps| > 1 && "default" !in KeysOf(ps) ==> r == Ok(ps[0].value)
    ensures ps == [] <==> r.Err?
  {
    if |ps| == 1 then Ok(ps[0].value)
    else match Lookup(ps, "default")
      case Some(d) => Ok(d)
      case None => if ps == [] then Err("IndexError") else Ok(ps[0].value)
  }

  /**
   * `_extract_config_data`: the profile inside a `"profiles"` dict, else the value of
   * `"config_data"`, else the data itself. A value that `in` or `[]` cannot handle raises.
   */
  function ExtractConfigData(raw: Json): (r: Result<Json>)
    ensures raw.JObj? && Lookup(raw.fields, "profiles").Some? && Lookup(raw.fields, "profiles").value.JObj? ==>
      r == PickProfile(Lookup(raw.fields, "profiles").value.fields)
    ensures raw.JObj? && !(Lookup(raw.fields, "profiles").Some? && Lookup(raw.fields, "profiles").value.JObj?) ==>
      r == match Lookup(raw.fields, "config_data") case Some(c) => Ok(c) case None => Ok(raw)
    ensures !raw.JObj? && !raw.JList? && !raw.JStr? ==> r.Err?
  {
    match PyIn(raw, "profiles")
    case None => Err("TypeError")
    case Some(hasProfiles) =>
      var ps := Subscript(raw, "profiles");
      if hasProfiles && ps.None? then Err("TypeError")
      else if hasProfiles && ps.value.JObj? then PickProfile(ps.value.fields)
      else
        match PyIn(raw, "config_data")
        case None => Err("TypeError")
        case Some(hasConfig) =>
          if !hasConfig then Ok(raw)
          else match Subscript(raw, "config_data")
            case Some(c) => Ok(c)
            case None => Err("TypeError")
  }

  /** What `save_profile` writes: `{"profiles": {name: config}}`. */
  function SaveData(name: string, config: seq<Field>): Json
  {
    JObj([Field("profiles", JObj([Field(name, JObj(config))]))])
  }

  /** A saved profile's file unwraps to the configuration that was saved. */
  lemma SavedConfigReadsBack(name: string, config: seq<Field>)
    ensures ExtractConfigData(SaveData(name, config)) == Ok(JObj(config))
  {
    var inner := [Field(name, JObj(config))];
    assert Lookup([Field("profiles", JObj(inner))], "profiles") == Some(JObj(inner));
  }

  // ---------------------------------------------------------------------------
  // Which files are profiles

  /** A file-name pattern with one `*`: the text before it and the text after it. */
  datatype Glob = Glob(prefix: string, suffix: string)

  /** `fnmatch` of a file name against `prefix*suffix`. */
  predicate GlobMatch(name: string, g: Glob)
  {
    |g.prefix| + |g.suffix| <= |name| && g.prefix <= name && name[|name| - |g.suffix|..] == g.suffix
  }

  const ExcludedDirs: set<string> := {"memories", "__pycache__", ".git", "node_modules", "settings"}

  /** `discord_*.json`, `telegram_*.json`, `backup_*.json`, `*.backup.json`, `temp_*.json`, `settings*.json`. */
  const ExcludedPatterns: set<Glob> := {
    Glob("discord_", ".json"), Glob("telegram_", ".json"), Glob("backup_", ".json"),
    Glob("", ".backup.json"), Glob("temp_", ".json"), Glob("settings", ".json")}

  /** `*.json`, `*Config.json`, `*config.json`, `*profile.json`, in the order they are searched. */
  const SearchPatterns: seq<Glob> := [Glob("", ".json"), Glob("", "Config.json"), Glob("", "config.json"), Glob("", "profile.json")]

  /** `PurePath.name`: the last part of a path. */
  function NameOf(parts: seq<string>): string
  {
    if parts == [] then "" else parts[|parts| - 1]
  }

  /** The loop over the patterns: some pattern matches the name. */
  predicate AnyGlob(name: string, gs: seq<Glob>)
    decreases |gs|
  {
    gs != [] && (GlobMatch(name, gs[0]) || AnyGlob(name, gs[1..]))
  }

  lemma {:induction false} AnyGlobExists(name: string, gs: seq<Glob>)
    ensures AnyGlob(name, gs) <==> exists j :: 0 <= j < |gs| && GlobMatch(name, gs[j])
    decreases |gs|
  {
    if gs != [] {
      AnyGlobExists(name, gs[1..]);
      if exists j :: 0 <= j < |gs| && GlobMatch(name, gs[j]) {
        var j :| 0 <= j < |gs| && GlobMatch(name, gs[j]);
        if j > 0 {
          assert GlobMatch(name, gs[1..][j - 1]);
        }
      }
    }
  }

  /** Adding a pattern at the end adds its matches. */
  lemma {:induction false} AnyGlobSnoc(name: string, gs: seq<Glob>, g: Glob)
    ensures AnyGlob(name, gs + [g]) <==> AnyGlob(name, gs) || GlobMatch(name, g)
    decreases |gs|
  {
    if gs != [] {
      assert (gs + [g])[1..] == gs[1..] + [g];
      AnyGlobSnoc(name, gs[1..], g);
    }
  }

  /** `should_exclude_file` for the parts of a file's path, its name last: a part is an excluded directory, or an excluded pattern matches the name. */
  predicate ShouldExclude(parts: seq<string>)
  {
    (exists i :: 0 <= i < |parts| && parts[i] in ExcludedDirs) ||
    (exists g :: g in ExcludedPatterns && GlobMatch(NameOf(parts), g))
  }

  /** A file `discover_profiles` keeps: a name one of the searched patterns matches, and not excluded. */
  predicate Discoverable(parts: seq<string>)
  {
    AnyGlob(NameOf(parts), SearchPatterns) && !ShouldExclude(parts)
  }

  /** A suffix of a suffix of `name` is a suffix of `name`. */
  lemma SuffixOfSuffix(name: string, s: string, k: nat)
    requires k <= |s| <= |name| && name[|name| - |s|..] == s
    ensures name[|name| - (|s| - k)..] == s[k..]
  {
    assert name[|name| - (|s| - k)..] == name[|name| - |s|..][k..];
  }

  /** A name matching `*<stem>.json` matches `*.json`. */
  lemma JsonSuffix(name: string, stem: string)
    requires GlobMatch(name, Glob("", stem + ".json"))
    ensures GlobMatch(name, Glob("", ".json"))
  {
    SuffixOfSuffix(name, stem + ".json", |stem|);
    assert (stem + ".json")[|stem|..] == ".json";
  }

  /** The four searched patterns find exactly the `.json` files. */
  lemma SearchIsJson(name: string)
    ensures AnyGlob(name, SearchPatterns) <==> GlobMatch(name, Glob("", ".json"))
  {
    var sp := SearchPatterns;
    assert sp[0] == Glob("", ".json");
    if GlobMatch(name, sp[1]) {
      assert sp[1] == Glob("", "Config" + ".json");
      JsonSuffix(name, "Config");
    }
    if GlobMatch(name, sp[2]) {
      assert sp[2] == Glob("", "config" + ".json");
      JsonSuffix(name, "config");
    }
    if GlobMatch(name, sp[3]) {
      assert sp[3] == Glob("", "profile" + ".json");
      JsonSuffix(name, "profile");
    }
    AnyGlobExists(name, sp);
  }

  /** The search loops: each pattern of `patterns` over all of `files`, keeping the files not excluded. */
  method Collect(files: seq<seq<string>>, patterns: seq<Glob>, exclude: seq<string> -> bool) returns (found: seq<seq<string>>)
    ensures forall p :: p in found <==> p in files && !exclude(p) && AnyGlob(NameOf(p), patterns)
  {
    found := [];
    var g := 0;
    while g < |patterns|
      invariant 0 <= g <= |patterns|
      invariant forall p :: p in found <==> p in files && !exclude(p) && AnyGlob(NameOf(p), patterns[..g])
    {
      found := CollectOne(files, patterns[g], exclude, found, patterns[..g]);
      forall p | p in files
        ensures AnyGlob(NameOf(p), patterns[..g + 1]) <==>
          AnyGlob(NameOf(p), patterns[..g]) || GlobMatch(NameOf(p), patterns[g])
      {
        assert patterns[..g + 1] == patterns[..g] + [patterns[g]];
        AnyGlobSnoc(NameOf(p), patterns[..g], patterns[g]);
      }
      g := g + 1;
    }
    assert patterns[..g] == patterns;
  }

  /** One pattern's loop over the files, appending each match that is not excluded to `found`. */
  method CollectOne(files: seq<seq<string>>, pattern: Glob, exclude: seq<string> -> bool, found0: seq<seq<string>>,
                    before: seq<Glob>)
    returns (found: seq<seq<string>>)
    requires forall p :: p in found0 <==> p in files && !exclude(p) && AnyGlob(NameOf(p), before)
    ensures forall p :: p in found <==>
      p in files && !exclude(p) && (AnyGlob(NameOf(p), before) || GlobMatch(NameOf(p), pattern))
  {
    found := found0;
    var i := 0;
    while i < |files|
      invariant 0 <= i <= |files|
      invariant forall p :: p in found <==>
        p in files && !exclude(p) &&
        (AnyGlob(NameOf(p), before) || (p in files[..i] && GlobMatch(NameOf(p), pattern)))
    {
      var f := files[i];
      if GlobMatch(NameOf(f), pattern) && !exclude(f) {
        found := found + [f];
      }
      assert files[..i + 1] == files[..i] + [f];
      i := i + 1;
    }
    assert files[..i] == files;
  }

  /**
   * `discover_profiles`: each searched pattern over the files of the directory and of
   * its immediate subdirectories, then `sorted(set(...))`. A file found by several
   * patterns is listed once.
   */
  method DiscoverProfiles(files: seq<seq<string>>) returns (r: seq<seq<string>>)
    ensures Increasing(r)
    ensures forall i, j :: 0 <= i < |r| && 0 <= j < |r| && i != j ==> r[i] != r[j]
    ensures forall p :: p in r <==> p in files && Discoverable(p)
  {
    var found := Collect(files, SearchPatterns, ShouldExclude);
    r := SortedSet(found);
    IncreasingDistinct(r);
  }

  // ---------------------------------------------------------------------------
  // Backups

  /**
   * The name `_create_backup` gives the copy of `<stem>.json`: `with_suffix` puts
   * `.backup_<timestamp>` before the `.json`.
   */
  function BackupName(stem: string, timestamp: string): string
  {
    stem + ".backup_" + timestamp + ".json"
  }

  /** A name no exclusion pattern matches: it starts with none of the excluded prefixes and does not end in `p.json`. */
  lemma NoExcludedPattern(n: string)
    requires |n| >= 6 && n[|n| - 6] != 'p'
    requires forall g :: g in ExcludedPatterns && g.prefix != "" ==> !(g.prefix <= n)
    ensures forall g :: g in ExcludedPatterns ==> !GlobMatch(n, g)
  {
    forall g | g in ExcludedPatterns ensures !GlobMatch(n, g) {
      if g.prefix == "" {
        assert g.suffix == ".backup.json";
        if |n| >= 12 {
          assert n[|n| - 12..][6] == n[|n| - 6];
        }
      }
    }
  }

  /**
   * A backup of `<stem>.json` in a directory no part of which is excluded is
   * discovered as a profile of its own: for a backup name that starts with none
   * of the excluded prefixes and a timestamp ending in a digit, no exclusion
   * pattern matches the backup's name.
   */
  lemma BackupIsDiscovered(dir: seq<string>, stem: string, timestamp: string)
    requires forall i :: 0 <= i < |dir| ==> dir[i] !in ExcludedDirs
    requires forall g :: g in ExcludedPatterns && g.prefix != "" ==> !(g.prefix <= BackupName(stem, timestamp))
    requires timestamp != [] && IsAsciiDigit(timestamp[|timestamp| - 1])
    ensures Discoverable(dir + [BackupName(stem, timestamp)])
  {
    var n := BackupName(stem, timestamp);
    var parts := dir + [n];
    assert NameOf(parts) == n;
    assert n[|n| - 5..] == ".json";
    assert GlobMatch(n, SearchPatterns[0]);
    assert n[|n| - 6] == timestamp[|timestamp| - 1];
    NoExcludedPattern(n);
  }

  /** The backup `_create_backup` makes of `bot.json` is itself discovered, although `bot` starts like `backup_`. */
  lemma BotBackupIsDiscovered(timestamp: string)
    requires timestamp != [] && IsAsciiDigit(timestamp[|timestamp| - 1])
    ensures Discoverable([BackupName("bot", timestamp)])
  {
    var n := BackupName("bot", timestamp);
    forall g | g in ExcludedPatterns && g.prefix != "" ensures !(g.prefix <= n) {
      assert n[0] == 'b' && n[1] == 'o';
      assert |g.prefix| >= 5 && (g.prefix[0] != 'b' || g.prefix[1] == 'a');
    }
    BackupIsDiscovered([], "bot", timestamp);
    assert [] + [n] == [n];
  }

  /** The exclusion the backup patterns evidently mean: also every `*.backup_*.json` name. */
  predicate ShouldExcludeWithBackups(parts: seq<string>)
  {
    var name := NameOf(parts);
    ShouldExclude(parts) || (Contains(name, ".backup_") && GlobMatch(name, Glob("", ".json")))
  }

  /** With that exclusion no backup `save_profile` makes is ever taken for a profile. */
  lemma BackupsExcluded(dir: seq<string>, stem: string, timestamp: string)
    ensures ShouldExcludeWithBackups(dir + [BackupName(stem, timestamp)])
  {
    var n := BackupName(stem, timestamp);
    var parts := dir + [n];
    assert NameOf(parts) == n;
    assert n[|stem|..|stem| + 8] == ".backup_";
    ContainsAt(n, ".backup_", |stem|);
    assert n[|n| - 5..] == ".json";
  }

  /**
   * `discover_profiles` with that exclusion: the same search, sorted and free of
   * duplicates, and by `BackupsExcluded` never listing a backup.
   */
  method DiscoverProfilesWithoutBackups(files: seq<seq<string>>) returns (r: seq<seq<string>>)
    ensures Increasing(r)
    ensures forall p :: p in r <==> p in files && AnyGlob(NameOf(p), SearchPatterns) && !ShouldExcludeWithBackups(p)
  {
    var found := Collect(files, SearchPatterns, ShouldExcludeWithBackups);
    r := SortedSet(found);
  }

  // ---------------------------------------------------------------------------
  // The default file name

  /** A character `save_profile` keeps: `isalnum` (over ASCII), `-` or `_`. */
  predicate SafeChar(c: char)
  {
    IsAlnum(c) || c == '-' || c == '_'
  }

  /** The characters of `name` that `save_profile` keeps, in order. */
  function SafeName(name: string): (r: string)
    ensures |r| <= |name|
    ensures forall i :: 0 <= i < |r| ==> SafeChar(r[i])
    ensures forall c :: SafeChar(c) ==> multiset(r)[c] == multiset(name)[c]
    decreases |name|
  {
    if name == [] then []
    else
      var rest := SafeName(name[1..]);
      assert name == [name[0]] + name[1..];
      if SafeChar(name[0]) then [name[0]] + rest else rest
  }

  /** A name made only of kept characters is its own safe name, so the filter is idempotent. */
  lemma {:induction false} SafeNameOfSafe(name: string)
    requires forall i :: 0 <= i < |name| ==> SafeChar(name[i])
    ensures SafeName(name) == name
    decreases |name|
  {
    if name != [] {
      SafeNameOfSafe(name[1..]);
    }
  }

  /** One character is kept exactly when it is safe. */
  lemma SafeNameChar(c: char)
    ensures SafeName([c]) == if SafeChar(c) then [c] else []
  {
  }

  /** The filter works character by character, so it keeps the order of the kept characters. */
  lemma {:induction false} SafeNameConcat(a: string, b: string)
    ensures SafeName(a + b) == SafeName(a) + SafeName(b)
    decreases |a|
  {
    if a == [] {
      assert a + b == b;
    } else {
      var c, t := a[0], a[1..];
      var kept: string := if SafeChar(c) then [c] else [];
      assert a == [c] + t;
      assert a + b == [c] + (t + b);
      calc {
        SafeName(a + b);
        { SafeNameCons(c, t + b); }
        kept + SafeName(t + b);
        { SafeNameConcat(t, b); }
        kept + (SafeName(t) + SafeName(b));
        (kept + SafeName(t)) + SafeName(b);
        { SafeNameCons(c, t); }
        SafeName(a) + SafeName(b);
      }
    }
  }

  /** Filtering a string that starts with `c` filters `c` first. */
  lemma SafeNameCons(c: char, s: string)
    ensures SafeName([c] + s) == (if SafeChar(c) then [c] else []) + SafeName(s)
  {
    assert ([c] + s)[1..] == s;
  }

  lemma SafeNameIdempotent(name: string)
    ensures SafeName(SafeName(name)) == SafeName(name)
  {
    SafeNameOfSafe(SafeName(name));
  }

  /** `profiles_directory / f"{safe_name}_profile.json"`. */
  function DefaultSavePath(directory: string, name: string): string
  {
    directory + "/" + SafeName(name) + "_profile.json"
  }

  // ---------------------------------------------------------------------------
  // The manager

  /** Why `load_profile` failed, after the exception it raises. */
  datatype LoadError =
    | FileNotFound
    | InvalidJson
    | LoadFailed(exception: string)
    | NotADict
    | Invalid(error: ValidationError)

  class ProfileManager {
    const directory: string
    const schema: ConfigSchema
    const autoBackup: bool
    /** `_profile_cache`: the loaded profile of each file. */
    var profileCache: map<string, Profile>
    /** `_file_cache`: the modification time each cached file had when it was loaded. */
    var fileCache: map<string, int>

    /** `ProfileManager(directory, schema, auto_backup)`: a default `ConfigSchema()` when none is given. */
    constructor(directory: string, schema: ConfigSchema?, defaults: SchemaDefaults, autoBackup: bool)
      ensures this.directory == directory && this.autoBackup == autoBackup
      ensures schema != null ==> this.schema == schema
      ensures schema == null ==> this.schema.requiredSchema == defaults.baseRequired
      ensures profileCache == map[] && fileCache == map[]
    {
      this.directory := directory;
      this.autoBackup := autoBackup;
      if schema != null {
        this.schema := schema;
      } else {
        this.schema := new ConfigSchema(defaults, None);
      }
      profileCache := map[];
      fileCache := map[];
    }

    /** The cache answers a load of `path` whose file has modification time `mtime`. */
    predicate CachedFresh(path: string, mtime: int)
      reads this
    {
      path in profileCache && path in fileCache && fileCache[path] >= mtime
    }

    /**
     * `load_profile`: the cached profile when the cached time is not older than the
     * file's; otherwise the file's content unwrapped, validated and cached with its time.
     */
    method LoadProfile(path: string, fileExists: bool, mtime: int, raw: Option<Json>, name: Option<string>,
                       stem: string, now: int)
      returns (p: Profile?, err: Option<LoadError>)
      modifies this`profileCache, this`fileCache
      ensures !fileExists ==> err == Some(FileNotFound)
      ensures fileExists && old(CachedFresh(path, mtime)) ==> err.None? && p == old(profileCache[path])
      ensures fileExists && !old(CachedFresh(path, mtime)) ==>
        (raw.None? ==> err == Some(InvalidJson)) &&
        (raw.Some? && ExtractConfigData(raw.value).Err? ==> err == Some(LoadFailed(ExtractConfigData(raw.value).error))) &&
        (raw.Some? && ExtractConfigData(raw.value).Ok? && !ExtractConfigData(raw.value).value.JObj? ==> err == Some(NotADict)) &&
        (raw.Some? && ExtractConfigData(raw.value).Ok? && ExtractConfigData(raw.value).value.JObj? ==>
          var config := ExtractConfigData(raw.value).value.fields;
          var v := ValidationResult(schema.requiredSchema, config, true);
          (v.Rejected? ==> err == Some(Invalid(v.error))) &&
          (v.Accepted? ==>
            err.None? && p != null && fresh(p) && p.Valid() &&
            p.profileName == (if name.Some? then name.value else stem) &&
            p.data == v.value && p.schema == schema && p.sourceFile == Some(path) &&
            profileCache == old(profileCache)[path := p] && fileCache == old(fileCache)[path := mtime]))
      ensures err.Some? ==> p == null
      ensures err.Some? || old(CachedFresh(path, mtime)) ==> profileCache == old(profileCache) && fileCache == old(fileCache)
      ensures err.None? ==> CachedFresh(path, mtime) && p == profileCache[path]
    {
      if !fileExists {
        return null, Some(FileNotFound);
      }
      if path in profileCache && path in fileCache && fileCache[path] >= mtime {
        return profileCache[path], None;
      }
      if raw.None? {
        return null, Some(InvalidJson);
      }
      var extracted := ExtractConfigData(raw.value);
      if extracted.Err? {
        return null, Some(LoadFailed(extracted.error));
      }
      if !extracted.value.JObj? {
        return null, Some(NotADict);
      }
      var config := extracted.value.fields;
      var v := schema.ValidateConfig(config, true);
      if v.Rejected? {
        return null, Some(Invalid(v.error));
      }
      var profileName := if name.Some? then name.value else stem;
      p := new Profile(profileName, config, schema, Some(path), now);
      profileCache := profileCache[path := p];
      fileCache := fileCache[path := mtime];
      err := None;
    }

    /**
     * `save_profile`: to the given path, else the profile's source file, else the default
     * name in the profiles directory; the written file is cached as of `now`. A backup
     * or a write that fails raises and changes nothing.
     */
    method SaveProfile(profile: Profile, filePath: Option<string>, fileExists: bool, backupOk: bool, writeOk: bool, now: int)
      returns (r: Result<string>, written: Json)
      modifies this`profileCache, this`fileCache, profile`sourceFile
      ensures var target :=
          if filePath.Some? then filePath.value
          else if old(profile.sourceFile).Some? then old(profile.sourceFile).value
          else DefaultSavePath(directory, profile.profileName);
        written == SaveData(profile.profileName, profile.data) &&
        (r.Ok? <==> (!(autoBackup && fileExists) || backupOk) && writeOk) &&
        (r.Ok? ==>
          r.value == target && profile.sourceFile == Some(target) &&
          profileCache == old(profileCache)[target := profile] && fileCache == old(fileCache)[target := now] &&
          CachedFresh(target, now)) &&
        (r.Err? ==>
          profile.sourceFile == old(profile.sourceFile) &&
          profileCache == old(profileCache) && fileCache == old(fileCache))
    {
      var target: string;
      if filePath.Some? {
        target := filePath.value;
      } else if profile.sourceFile.Some? {
        target := profile.sourceFile.value;
      } else {
        target := DefaultSavePath(directory, profile.profileName);
      }
      written := SaveData(profile.profileName, profile.data);
      if autoBackup && fileExists && !backupOk {
        return Err("backup failed"), written;
      }
      if !writeOk {
        return Err("Error saving profile to " + target), written;
      }
      profile.sourceFile := Some(target);
      profileCache := profileCache[target := profile];
      fileCache := fileCache[target := now];
      r := Ok(target);
    }

    /**
     * `delete_profile` for the profile `get_profile` found: false without a profile or
     * a source file, or when the backup or the unlink fails; otherwise the file's two
     * cache entries are dropped.
     */
    method DeleteProfile(found: Profile?, createBackup: bool, backupOk: bool, unlinkOk: bool) returns (ok: bool)
      modifies this`profileCache, this`fileCache
      ensures ok <==> found != null && found.sourceFile.Some? && (!createBackup || backupOk) && unlinkOk
      ensures ok ==>
        profileCache == old(profileCache) - {found.sourceFile.value} &&
        fileCache == old(fileCache) - {found.sourceFile.value} &&
        forall m :: !CachedFresh(found.sourceFile.value, m)
      ensures !ok ==> profileCache == old(profileCache) && fileCache == old(fileCache)
    {
      if found == null || found.sourceFile.None? {
        return false;
      }
      if (createBackup && !backupOk) || !unlinkOk {
        return false;
      }
      var key := found.sourceFile.value;
      profileCache := profileCache - {key};
      fileCache := fileCache - {key};
      return true;
    }

    /** `clear_cache`: afterwards no load is served from the cache. */
    method ClearCache()
      modifies this`profileCache, this`fileCache
      ensures profileCache == map[] && fileCache == map[]
      ensures forall path, m :: !CachedFresh(path, m)
    {
      profileCache := map[];
      fileCache := map[];
    }
  }
}
