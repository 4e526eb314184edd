/**
 * The hot-reloadable settings: a JSON dictionary read and written by dotted
 * paths, checked by a fixed set of validation rules before a loaded file
 * replaces the current settings.
 */
module Settings {
  import opened Wrappers
  import opened Text
  import opened Json

  /** The sections a settings file must have. */
  const RequiredSections: seq<string> := ["ai_behavior", "platform_settings", "debug"]

  /** The participation thresholds, each a percentage. */
  const ThresholdKeys: seq<string> := ["threshold_percentage", "group_chat_threshold", "direct_message_threshold"]

  /** What a validated value must be. */
  datatype Rule =
    | IntAtLeast(lo: int)
    | IntBetween(lo: int, hi: int)
    | BoolFlag
    | NumberBetween(lo: int, hi: int)
    | PositiveNumber
    | SpeedRange

  predicate Satisfies(v: Json, rule: Rule)
  {
    match rule
    case IntAtLeast(lo) => IsInt(v) && NumValue(v) >= lo as real
    case IntBetween(lo, hi) => IsInt(v) && lo as real <= NumValue(v) <= hi as real
    case BoolFlag => v.JBool?
    case NumberBetween(lo, hi) => IsNumber(v) && lo as real <= NumValue(v) <= hi as real
    case PositiveNumber => IsNumber(v) && NumValue(v) > 0.0
    case SpeedRange => v.JList? && |v.items| == 2 && PyGe(v.items[0], v.items[1]) == Some(false)
  }

  /** `c.get(key, {})`; None where `c` is not a dict. */
  function Sub(c: Json, key: string): Option<Json>
  {
    DictGet(c, key, JObj([]))
  }

  /** `if key in c: check c[key]`, where a TypeError counts as a failed check. */
  predicate KeyOk(c: Json, key: string, rule: Rule)
  {
    match PyIn(c, key)
    case None => false
    case Some(present) => !present || (Subscript(c, key).Some? && Satisfies(Subscript(c, key).value, rule))
  }

  /** The same check on the section reached by `.get(s, {})` for each `s` of `sections`. */
  predicate KeyOkAt(c: Json, sections: seq<string>, key: string, rule: Rule)
    decreases |sections|
  {
    if sections == [] then KeyOk(c, key, rule)
    else
      match Sub(c, sections[0])
      case None => false
      case Some(x) => KeyOkAt(x, sections[1..], key, rule)
  }

  /** A value check: the sections leading to it, its key and its rule. */
  datatype Constraint = Constraint(sections: seq<string>, key: string, rule: Rule)

  /** The checks on single values outside `participation_control`. */
  const ValueConstraints: seq<Constraint> := [
    Constraint(["ai_behavior", "typing_simulation"], "base_speed_range", SpeedRange),
    Constraint(["platform_settings", "flagged_messages"], "max_flagged_messages_per_channel", IntAtLeast(1)),
    Constraint(["ai_behavior", "context_engine"], "max_context_messages", IntBetween(1, 50)),
    Constraint(["ai_behavior", "context_engine"], "context_preview_length", IntBetween(50, 1000)),
    Constraint(["ai_behavior", "context_engine"], "show_full_recent_messages", IntBetween(0, 10))
  ]

  /** Every cache TTL is an integer, booleans included, that is not negative. */
  predicate TtlsOk(s: Json)
  {
    match Sub(s, "ai_behavior")
    case None => false
    case Some(ai) =>
      match Sub(ai, "decision_making")
      case None => false
      case Some(dm) =>
        match Sub(dm, "cache_ttl_seconds")
        case None => false
        case Some(t) => t.JObj? && forall i :: 0 <= i < |t.fields| ==> Satisfies(t.fields[i].value, IntAtLeast(0))
  }

  /** The participation rules, checked only when the section is truthy. */
  predicate ParticipationOk(pc: Json)
  {
    !Truthy(pc) ||
    (KeyOk(pc, "enabled", BoolFlag) &&
     (forall i :: 0 <= i < |ThresholdKeys| ==> KeyOk(pc, ThresholdKeys[i], NumberBetween(0, 100))) &&
     KeyOk(pc, "time_window_minutes", PositiveNumber))
  }

  predicate SectionsPresent(fs: seq<Field>)
  {
    forall i :: 0 <= i < |RequiredSections| ==> RequiredSections[i] in KeysOf(fs)
  }

  /** The value check `i` on the settings `s`. */
  predicate ConstraintOk(s: Json, i: nat)
    requires i < |ValueConstraints|
  {
    KeyOkAt(s, ValueConstraints[i].sections, ValueConstraints[i].key, ValueConstraints[i].rule)
  }

  predicate ConstraintsOk(s: Json)
  {
    forall i :: 0 <= i < |ValueConstraints| ==> ConstraintOk(s, i)
  }

  /** `_validate_settings`: true iff every check passes and none of them raises. */
  predicate SettingsOk(s: Json)
  {
    s.JObj? && SectionsPresent(s.fields) && TtlsOk(s) && ConstraintsOk(s) &&
    ParticipationOk(Sub(s, "participation_control").value)
  }

  // ---------------------------------------------------------------------------
  // What validation guarantees to readers

  /** Resolving through a present key is resolving from what `.get` returns for it. */
  lemma ResolveThrough(c: Json, k: string, rest: seq<string>)
    requires Resolve(c, [k] + rest).Some?
    ensures Sub(c, k).Some? && Resolve(c, [k] + rest) == Resolve(Sub(c, k).value, rest)
  {
    assert ([k] + rest)[1..] == rest;
  }

  lemma {:induction false} KeyOkAtRead(c: Json, sections: seq<string>, key: string, rule: Rule)
    requires KeyOkAt(c, sections, key, rule)
    ensures Resolve(c, sections + [key]).Some? ==> Satisfies(Resolve(c, sections + [key]).value, rule)
    decreases |sections|
  {
    if sections == [] {
      assert sections + [key] == [key];
    } else if Resolve(c, sections + [key]).Some? {
      assert sections + [key] == [sections[0]] + (sections[1..] + [key]);
      ResolveThrough(c, sections[0], sections[1..] + [key]);
      KeyOkAtRead(Sub(c, sections[0]).value, sections[1..], key, rule);
    }
  }

  /** In accepted settings, each checked value that is present satisfies its rule. */
  lemma ValidatedValue(s: Json, i: nat)
    requires SettingsOk(s) && i < |ValueConstraints|
    ensures var c := ValueConstraints[i];
      Resolve(s, c.sections + [c.key]).Some? ==> Satisfies(Resolve(s, c.sections + [c.key]).value, c.rule)
  {
    var c := ValueConstraints[i];
    assert ConstraintOk(s, i);
    KeyOkAtRead(s, c.sections, c.key, c.rule);
  }

  /** In accepted settings, every cache TTL is a non-negative integer. */
  lemma ValidatedTtl(s: Json, k: string)
    requires SettingsOk(s)
    ensures var p := ["ai_behavior", "decision_making", "cache_ttl_seconds", k];
      Resolve(s, p).Some? ==> Satisfies(Resolve(s, p).value, IntAtLeast(0))
  {
    TtlOfChecked(s, k);
  }

  lemma TtlOfChecked(s: Json, k: string)
    requires TtlsOk(s)
    ensures var p := ["ai_behavior", "decision_making", "cache_ttl_seconds", k];
      Resolve(s, p).Some? ==> Satisfies(Resolve(s, p).value, IntAtLeast(0))
  {
    var p := ["ai_behavior", "decision_making", "cache_ttl_seconds", k];
    if Resolve(s, p).Some? {
      assert p == ["ai_behavior"] + (["decision_making"] + (["cache_ttl_seconds"] + [k]));
      ResolveThrough(s, "ai_behavior", ["decision_making"] + (["cache_ttl_seconds"] + [k]));
      var ai := Sub(s, "ai_behavior").value;
      ResolveThrough(ai, "decision_making", ["cache_ttl_seconds"] + [k]);
      var dm := Sub(ai, "decision_making").value;
      ResolveThrough(dm, "cache_ttl_seconds", [k]);
      var t := Sub(dm, "cache_ttl_seconds").value;
      assert Resolve(s, p) == Resolve(t, [k]);
      assert Resolve(t, [k]) == Lookup(t.fields, k);
      LookupMember(t.fields, k);
      var j :| 0 <= j < |t.fields| && t.fields[j] == Field(k, Lookup(t.fields, k).value);
    }
  }

  /** In accepted settings, each participation value that is present satisfies its rule. */
  lemma ValidatedParticipation(s: Json, key: string, rule: Rule)
    requires SettingsOk(s)
    requires (key == "enabled" && rule == BoolFlag) || (key in ThresholdKeys && rule == NumberBetween(0, 100)) ||
             (key == "time_window_minutes" && rule == PositiveNumber)
    ensures var p := ["participation_control", key];
      Resolve(s, p).Some? ==> Satisfies(Resolve(s, p).value, rule)
  {
    var p := ["participation_control", key];
    if Resolve(s, p).Some? {
      ResolveThrough(s, "participation_control", [key]);
      var pc := Sub(s, "participation_control").value;
      assert Resolve(pc, [key]) == Subscript(pc, key);
      assert Truthy(pc);
      if key in ThresholdKeys {
        var i :| 0 <= i < |ThresholdKeys| && ThresholdKeys[i] == key;
        assert KeyOk(pc, ThresholdKeys[i], NumberBetween(0, 100));
      }
    }
  }

  /** A settings file without one of the required sections is rejected. */
  lemma MissingSectionRejected(s: seq<Field>, section: string)
    requires section in RequiredSections && section !in KeysOf(s)
    ensures !SettingsOk(JObj(s))
  {
    var i :| 0 <= i < |RequiredSections| && RequiredSections[i] == section;
    assert !SectionsPresent(s);
  }

  // ---------------------------------------------------------------------------
  // The checks as the validator runs them

  /** The loop over the cache TTLs. */
  method CheckCacheTtls(s: Json) returns (ok: bool)
    ensures ok == TtlsOk(s)
  {
    var ai := Sub(s, "ai_behavior");
    if ai.None? { return false; }
    var dm := Sub(ai.value, "decision_making");
    if dm.None? { return false; }
    var t := Sub(dm.value, "cache_ttl_seconds");
    if t.None? || !t.value.JObj? { return false; }
    var fs := t.value.fields;
    var i := 0;
    while i < |fs|
      invariant 0 <= i <= |fs|
      invariant forall j :: 0 <= j < i ==> Satisfies(fs[j].value, IntAtLeast(0))
    {
      var v := fs[i].value;
      if !IsInt(v) || NumValue(v) < 0.0 {
        return false;
      }
      i := i + 1;
    }
    return true;
  }

  /** The participation block, with its loop over the thresholds. */
  method CheckParticipation(pc: Json) returns (ok: bool)
    ensures ok == ParticipationOk(pc)
  {
    if !Truthy(pc) { return true; }
    if !KeyOk(pc, "enabled", BoolFlag) { return false; }
    var i := 0;
    while i < |ThresholdKeys|
      invariant 0 <= i <= |ThresholdKeys|
      invariant forall j :: 0 <= j < i ==> KeyOk(pc, ThresholdKeys[j], NumberBetween(0, 100))
    {
      if !KeyOk(pc, ThresholdKeys[i], NumberBetween(0, 100)) {
        return false;
      }
      i := i + 1;
    }
    return KeyOk(pc, "time_window_minutes", PositiveNumber);
  }

  /** The loop over the required sections. */
  method CheckSections(fs: seq<Field>) returns (ok: bool)
    ensures ok == SectionsPresent(fs)
  {
    var i := 0;
    while i < |RequiredSections|
      invariant 0 <= i <= |RequiredSections|
      invariant forall j :: 0 <= j < i ==> RequiredSections[j] in KeysOf(fs)
    {
      if RequiredSections[i] !in KeysOf(fs) {
        return false;
      }
      i := i + 1;
    }
    return true;
  }

  /** The single-value checks, one after the other. */
  method CheckConstraints(s: Json) returns (ok: bool)
    ensures ok == ConstraintsOk(s)
  {
    var k := 0;
    while k < |ValueConstraints|
      invariant 0 <= k <= |ValueConstraints|
      invariant forall j :: 0 <= j < k ==> ConstraintOk(s, j)
    {
      var c := ValueConstraints[k];
      if !KeyOkAt(s, c.sections, c.key, c.rule) {
        assert !ConstraintOk(s, k);
        return false;
      }
      k := k + 1;
    }
    return true;
  }

  /** `_validate_settings`. */
  method ValidateSettings(s: Json) returns (ok: bool)
    ensures ok == SettingsOk(s)
  {
    if !s.JObj? { return false; }
    ok := CheckSections(s.fields);
    if !ok { return false; }
    ok := CheckCacheTtls(s);
    if !ok { return false; }
    ok := CheckConstraints(s);
    if !ok { return false; }
    ok := CheckParticipation(Sub(s, "participation_control").value);
  }
}
