/**
 * The settings manager: it holds the current settings dictionary, replaces it
 * with a loaded file only when the file passes validation, and reads and writes
 * single settings by dotted paths. File contents, modification times and the
 * clock are parameters; file watching and change callbacks are not modelled.
 */
module SettingsManagement {
  import opened Wrappers
  import opened Text
  import opened Json
  import opened Settings

  /** The path `_save_settings` stamps before writing the file. */
  const StampPath: seq<string> := ["_metadata", "last_updated"]

  /**
   * `self._settings['_metadata']['last_updated'] = now`: None when that raises,
   * that is, when `_metadata` is missing or is not a dict.
   */
  function Stamp(fs: seq<Field>, now: string): (r: Option<seq<Field>>)
    ensures r.Some? <==> Subscript(JObj(fs), "_metadata").Some? && Subscript(JObj(fs), "_metadata").value.JObj?
    ensures r.Some? ==> Resolve(JObj(r.value), StampPath) == Some(JStr(now))
  {
    match Lookup(fs, "_metadata")
    case Some(m) =>
      if m.JObj? then
        var r := Put(fs, "_metadata", JObj(Put(m.fields, "last_updated", JStr(now))));
        assert StampPath[1..] == ["last_updated"];
        Some(r)
      else None
    case None => None
  }

  /** Stamping is the nested set of the stamp path, so it leaves every path off that path alone. */
  lemma StampFrame(fs: seq<Field>, now: string, q: seq<string>)
    requires Stamp(fs, now).Some? && Diverge(StampPath, q)
    ensures Resolve(JObj(Stamp(fs, now).value), q) == Resolve(JObj(fs), q)
  {
    var m := Lookup(fs, "_metadata").value;
    assert StampPath[1..] == ["last_updated"];
    assert SetPath(m, StampPath[1..], JStr(now)) == Some(JObj(Put(m.fields, "last_updated", JStr(now))));
    assert SetPath(JObj(fs), StampPath, JStr(now)) == Some(JObj(Stamp(fs, now).value));
    SetPathFrame(JObj(fs), StampPath, JStr(now), q);
  }

  /** What `set` leaves in the settings: the nested set, then the stamp when saving and the stamp succeeds. */
  function SetState(fs: seq<Field>, path: string, value: Json, saveToFile: bool, now: string): seq<Field>
  {
    match SetPath(JObj(fs), PathOf(path), value)
    case None => fs
    case Some(w) =>
      if saveToFile && Stamp(w.fields, now).Some? then Stamp(w.fields, now).value else w.fields
  }

  /**
   * A successful set is read back by `get`, unless saving stamps the very path
   * written or one above it.
   */
  lemma {:induction false} SetThenGet(fs: seq<Field>, path: string, value: Json, saveToFile: bool, now: string, default: Json)
    requires SetPath(JObj(fs), PathOf(path), value).Some?
    requires saveToFile ==> Diverge(StampPath, PathOf(path))
    ensures ValueAt(SetState(fs, path, value, saveToFile, now), path, default) == value
  {
    var w := SetPath(JObj(fs), PathOf(path), value).value;
    assert w.fields == SetState(fs, path, value, false, now);
    if saveToFile && Stamp(w.fields, now).Some? {
      StampFrame(w.fields, now, PathOf(path));
    }
  }

  /** A set leaves every setting whose path branches off the written one (and off the stamp) as it was. */
  lemma SetFrame(fs: seq<Field>, path: string, value: Json, saveToFile: bool, now: string, q: seq<string>)
    requires Diverge(PathOf(path), q)
    requires saveToFile ==> Diverge(StampPath, q)
    ensures Resolve(JObj(SetState(fs, path, value, saveToFile, now)), q) == Resolve(JObj(fs), q)
  {
    var r := SetPath(JObj(fs), PathOf(path), value);
    if r.Some? {
      SetPathFrame(JObj(fs), PathOf(path), value, q);
      if saveToFile && Stamp(r.value.fields, now).Some? {
        StampFrame(r.value.fields, now, q);
      }
    }
  }

  /** Settings without a `_metadata` dict, in which a saved set stores its value all the same. */
  lemma SetWithoutMetadataStores()
    ensures var fs := [Field("debug", JObj([]))];
      SetPath(JObj(fs), PathOf("debug"), JBool(true)).Some? &&
      Stamp(SetPath(JObj(fs), PathOf("debug"), JBool(true)).value.fields, "now").None? &&
      ValueAt(SetState(fs, "debug", JBool(true), true, "now"), "debug", JNull) == JBool(true)
  {
    var fs := [Field("debug", JObj([]))];
    SplitNoSep("debug", '.');
    assert PathOf("debug") == ["debug"];
    var w := [Field("debug", JBool(true))];
    assert Put(fs, "debug", JBool(true)) == w;
    assert SetPath(JObj(fs), ["debug"], JBool(true)) == Some(JObj(w));
    assert Lookup(w, "_metadata") == None;
    assert Diverge(StampPath, PathOf("debug"));
    SetThenGet(fs, "debug", JBool(true), true, "now", JNull);
  }

  /** The answer of `get_section`: a copy of the section, `{}` when it is missing; `.copy()` raises on a scalar. */
  function SectionOf(fs: seq<Field>, section: string): (r: Result<Json>)
    ensures section !in KeysOf(fs) ==> r == Ok(JObj([]))
    ensures section in KeysOf(fs) ==>
      (r.Ok? <==> Lookup(fs, section).value.JObj? || Lookup(fs, section).value.JList?) &&
      (r.Ok? ==> Some(r.value) == Lookup(fs, section))
  {
    match Lookup(fs, section)
    case None => Ok(JObj([]))
    case Some(v) => if v.JObj? || v.JList? then Ok(v) else Err("AttributeError")
  }

  /** A present section read whole is what `get` finds at its name. */
  lemma SectionIsGet(fs: seq<Field>, section: string, default: Json)
    requires '.' !in section && section in KeysOf(fs) && SectionOf(fs, section).Ok?
    ensures SectionOf(fs, section).value == ValueAt(fs, section, default)
  {
    SplitNoSep(section, '.');
    assert PathOf(section) == [section];
    assert Resolve(JObj(fs), [section]) == Resolve(Lookup(fs, section).value, []);
  }

  class SettingsManager {
    /** `_settings`. */
    var settings: seq<Field>
    /** `_last_modified`: the modification time of the file last accepted. */
    var lastModified: Option<int>
    /** `_default_settings`, built when the manager is. */
    const defaults: seq<Field>

    /**
     * `__init__` with `_initialize_settings`: an existing file is loaded over `{}`;
     * a missing one is created from the defaults and then loaded when `autoCreate`
     * is set and the write succeeds; otherwise the defaults are used. `content` is
     * what reading the file yields at that load (for a created file, the defaults),
     * and `defaultSettings` is what `_get_default_settings` built
     * (`DefaultSettings.Defaults` of the time of construction).
     */
    constructor(fileExists: bool, autoCreate: bool, created: bool, content: Option<Json>, mtime: int,
                defaultSettings: seq<Field>)
      ensures defaults == defaultSettings
      ensures fileExists || (autoCreate && created) ==>
        if Acceptable(content) then settings == content.value.fields && lastModified == Some(mtime)
        else settings == [] && lastModified == None
      ensures !fileExists && !(autoCreate && created) ==> settings == defaultSettings && lastModified == None
    {
      settings := [];
      lastModified := None;
      defaults := defaultSettings;
      new;
      if fileExists || (autoCreate && created) {
        var _ := Load(content, mtime);
      } else {
        settings := defaults;
      }
    }

    /** A file's parsed content passes validation; None stands for unreadable or invalid JSON. */
    static predicate Acceptable(content: Option<Json>)
    {
      content.Some? && SettingsOk(content.value)
    }

    /** `_load_settings`: the settings are replaced only by content that passes validation. */
    method Load(content: Option<Json>, mtime: int) returns (accepted: bool)
      modifies this
      ensures accepted <==> Acceptable(content)
      ensures accepted ==> settings == content.value.fields && lastModified == Some(mtime)
      ensures !accepted ==> settings == old(settings) && lastModified == old(lastModified)
    {
      if content.None? {
        return false;
      }
      accepted := ValidateSettings(content.value);
      if accepted {
        settings := content.value.fields;
        lastModified := Some(mtime);
      }
    }

    /** `reload`: `_load_settings` never raises, so this always answers true. */
    method Reload(content: Option<Json>, mtime: int) returns (r: bool)
      modifies this
      ensures r
      ensures Acceptable(content) ==> settings == content.value.fields && lastModified == Some(mtime)
      ensures !Acceptable(content) ==> settings == old(settings) && lastModified == old(lastModified)
    {
      var _ := Load(content, mtime);
      return true;
    }

    /** `get`: the value at the dotted path, or `default` once a key is missing or a value is not a dict. */
    method Get(path: string, default: Json) returns (v: Json)
      ensures v == ValueAt(settings, path, default)
    {
      var r := Walk(JObj(settings), PathOf(path));
      v := if r.Some? then r.value else default;
    }

    /** `get_section`. */
    method GetSection(section: string) returns (r: Result<Json>)
      ensures r == SectionOf(settings, section)
    {
      var found := Lookup(settings, section);
      if found.None? {
        return Ok(JObj([]));
      }
      var v := found.value;
      if v.JObj? || v.JList? {
        return Ok(v);
      }
      return Err("AttributeError");
    }

    /**
     * `set` as written: when saving, a missing or non-dict `_metadata` makes
     * `_save_settings` raise before `watching` is bound, its handler then raises
     * UnboundLocalError, and `set` answers false although the value is stored.
     */
    method SetAsWritten(path: string, value: Json, saveToFile: bool, now: string) returns (ok: bool)
      modifies this`settings
      ensures var w := SetPath(JObj(old(settings)), PathOf(path), value);
        ok <==> w.Some? && (!saveToFile || Stamp(w.value.fields, now).Some?)
      ensures settings == SetState(old(settings), path, value, saveToFile, now)
    {
      var w := SetPath(JObj(settings), PathOf(path), value);
      if w.None? {
        return false;
      }
      settings := w.value.fields;
      if saveToFile {
        var stamped := Stamp(settings, now);
        if stamped.None? {
          return false;
        }
        settings := stamped.value;
      }
      return true;
    }

    /**
     * `set` as intended: true exactly when the nested set succeeds, and a value
     * once stored is read back by `get` unless saving stamps over it.
     */
    method Set(path: string, value: Json, saveToFile: bool, now: string) returns (ok: bool)
      modifies this`settings
      ensures ok <==> SetPath(JObj(old(settings)), PathOf(path), value).Some?
      ensures settings == SetState(old(settings), path, value, saveToFile, now)
      ensures ok && (saveToFile ==> Diverge(StampPath, PathOf(path))) ==> ValueAt(settings, path, JNull) == value
    {
      var w := SetPath(JObj(settings), PathOf(path), value);
      if w.None? {
        return false;
      }
      settings := w.value.fields;
      if saveToFile {
        var stamped := Stamp(settings, now);
        if stamped.Some? {
          settings := stamped.value;
        }
      }
      if !saveToFile || Diverge(StampPath, PathOf(path)) {
        SetThenGet(old(settings), path, value, saveToFile, now, JNull);
      }
      return true;
    }

    /** `is_enabled`: the truth of the value at the path, false when it is missing. */
    method IsEnabled(path: string) returns (r: bool)
      ensures r <==> Truthy(ValueAt(settings, path, JBool(false)))
    {
      var v := Get(path, JBool(false));
      return Truthy(v);
    }
  }
}
