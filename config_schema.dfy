/**
 * The profile schema: the rule a single field must satisfy, the six top-level
 * sections every profile must have, the strict walk of the required schema that
 * builds the validated configuration, and the copy of the remaining fields into it.
 */
module ConfigSchema {
  import opened Wrappers
  import opened Json

  /** The Python types a field may be declared with; `bool` is a subclass of `int`. */
  datatype PyType = StrType | BoolType | IntType | FloatType | ListType | DictType

  /** `isinstance(v, t)`. */
  predicate IsInstance(v: Json, t: PyType)
  {
    match t
    case StrType => v.JStr?
    case BoolType => v.JBool?
    case IntType => v.JInt? || v.JBool?
    case FloatType => v.JFloat?
    case ListType => v.JList?
    case DictType => v.JObj?
  }

  datatype FieldSchema = FieldSchema(fieldType: PyType, required: bool, default: Json, description: string,
                                     allowedValues: Option<seq<Json>>, minLength: Option<int>, maxLength: Option<int>)

  /** The `validation_type` of a `ValidationError`. */
  datatype Check = RequiredCheck | TypeCheck | ValueCheck | LengthCheck

  /** A raised `ValidationError`: its kind, its field path and, for the top-level check, the keys it lists. */
  datatype ValidationError = ValidationError(validationType: Check, fieldPath: string, missingKeys: seq<string>)

  /** A validation step either returns its value or raises a `ValidationError`. */
  datatype Outcome<T> = Accepted(value: T) | Rejected(error: ValidationError)

  function Fail<T>(c: Check, path: string): Outcome<T>
  {
    Rejected(ValidationError(c, path, []))
  }

  /** An optional bound that Python treats as set: present and not zero. */
  predicate Set(bound: Option<int>)
  {
    bound.Some? && bound.value != 0
  }

  /** The allowed-values rule: no list, an empty list, or a list holding a value equal to `v`. */
  predicate Allowed(rule: FieldSchema, v: Json)
  {
    rule.allowedValues.None? || |rule.allowedValues.value| == 0 ||
    exists i | 0 <= i < |rule.allowedValues.value| :: PyEq(v, rule.allowedValues.value[i])
  }

  /** The length rules, which only apply to strings. */
  predicate LengthOk(rule: FieldSchema, v: Json)
  {
    !v.JStr? ||
    ((!Set(rule.minLength) || |v.s| >= rule.minLength.value) &&
     (!Set(rule.maxLength) || |v.s| <= rule.maxLength.value))
  }

  /** `FieldSchema.validate`; a missing key and a JSON `null` are both Python `None`. */
  function ValidateField(rule: FieldSchema, v: Json, path: string): (r: Outcome<Json>)
    ensures v.JNull? ==> (r.Rejected? <==> rule.required)
    ensures v.JNull? && !rule.required ==> r == Accepted(rule.default)
    ensures !v.JNull? ==> (r.Accepted? <==> IsInstance(v, rule.fieldType) && Allowed(rule, v) && LengthOk(rule, v))
    ensures !v.JNull? && r.Accepted? ==> r.value == v
    ensures r.Rejected? ==> r.error.fieldPath == path && r.error.missingKeys == []
    ensures r.Rejected? && !v.JNull? ==> (r.error.validationType == TypeCheck <==> !IsInstance(v, rule.fieldType))
  {
    if v.JNull? then
      if rule.required then Fail(RequiredCheck, path) else Accepted(rule.default)
    else if !IsInstance(v, rule.fieldType) then Fail(TypeCheck, path)
    else if !Allowed(rule, v) then Fail(ValueCheck, path)
    else if !LengthOk(rule, v) then Fail(LengthCheck, path)
    else Accepted(v)
  }

  // ---------------------------------------------------------------------------
  // The required top-level sections

  const RequiredTopLevelKeys: seq<string> :=
    ["basic_info", "response_styles", "knowledge_and_expertise", "sample_conversations",
     "personality_traits", "off_topic_message"]

  /** The keys of `keys` that `config` lacks, in the order of `keys`. */
  function MissingFrom(config: seq<Field>, keys: seq<string>): (r: seq<string>)
    ensures forall k :: k in r <==> k in keys && k !in KeysOf(config)
    decreases |keys|
  {
    if keys == [] then []
    else
      var last := keys[|keys| - 1];
      MissingFrom(config, keys[..|keys| - 1]) + (if last !in KeysOf(config) then [last] else [])
  }

  /** Nothing is missing exactly when every key is present. */
  lemma MissingNone(config: seq<Field>, keys: seq<string>)
    ensures MissingFrom(config, keys) == [] <==> forall k :: k in keys ==> k in KeysOf(config)
  {
    var r := MissingFrom(config, keys);
    if r != [] {
      assert r[0] in r;
    }
  }

  /** `_validate_required_top_level_keys`: raises, listing the missing keys, iff one of them is absent. */
  method CheckTopLevelKeys(config: seq<Field>) returns (r: Option<ValidationError>)
    ensures r.None? <==> forall k :: k in RequiredTopLevelKeys ==> k in KeysOf(config)
    ensures r.Some? ==> r.value == ValidationError(RequiredCheck, "", MissingFrom(config, RequiredTopLevelKeys))
  {
    var missing: seq<string> := [];
    var i := 0;
    while i < |RequiredTopLevelKeys|
      invariant 0 <= i <= |RequiredTopLevelKeys|
      invariant missing == MissingFrom(config, RequiredTopLevelKeys[..i])
    {
      var key := RequiredTopLevelKeys[i];
      assert RequiredTopLevelKeys[..i + 1][..i] == RequiredTopLevelKeys[..i];
      if key !in KeysOf(config) {
        missing := missing + [key];
      }
      i := i + 1;
    }
    assert RequiredTopLevelKeys[..i] == RequiredTopLevelKeys;
    if missing != [] {
      assert missing[0] in RequiredTopLevelKeys && missing[0] !in KeysOf(config);
      return Some(ValidationError(RequiredCheck, "", missing));
    }
    assert forall k :: k in RequiredTopLevelKeys ==> k !in missing;
    return None;
  }

  // ---------------------------------------------------------------------------
  // Schemas

  /** A schema dictionary: its entries in insertion order. */
  datatype Schema = Schema(entries: seq<Entry>)

  datatype Entry = Entry(key: string, node: Node)

  /** A schema value: a nested schema dictionary, a field rule, or any other value. */
  datatype Node = Section(schema: Schema) | Leaf(rule: FieldSchema) | Plain(value: Json)

  /** `f"{path}.{key}" if path else key`. */
  function JoinPath(path: string, key: string): string
  {
    if path == "" then key else path + "." + key
  }

  /** The configuration value under `key`, `None` (a JSON null) when absent, as `config.get(key)`. */
  function GetOrNull(config: seq<Field>, key: string): Json
  {
    match Lookup(config, key)
    case Some(v) => v
    case None => JNull
  }

  /**
   * `_validate_schema_section` from entry `i` on, with `acc` the entries already
   * validated: a nested schema needs a dict (and, when strict, its presence),
   * a rule validates `config.get(key)`, any other schema value copies a present key.
   */
  function SectionFrom(config: seq<Field>, s: Schema, i: nat, acc: seq<Field>, path: string, strict: bool): Outcome<seq<Field>>
    decreases s, |s.entries| - i
  {
    if i >= |s.entries| then Accepted(acc)
    else
      var e := s.entries[i];
      var p := JoinPath(path, e.key);
      match e.node
      case Section(sub) =>
        if e.key !in KeysOf(config) then
          if strict then Fail(RequiredCheck, p) else SectionFrom(config, s, i + 1, acc, path, strict)
        else if !GetOrNull(config, e.key).JObj? then Fail(TypeCheck, p)
        else
          (match SectionFrom(GetOrNull(config, e.key).fields, sub, 0, [], p, strict)
           case Rejected(err) => Rejected(err)
           case Accepted(inner) => SectionFrom(config, s, i + 1, Put(acc, e.key, JObj(inner)), path, strict))
      case Leaf(rule) =>
        (match ValidateField(rule, GetOrNull(config, e.key), p)
         case Rejected(err) => Rejected(err)
         case Accepted(v) => SectionFrom(config, s, i + 1, Put(acc, e.key, v), path, strict))
      case Plain(_) =>
        if e.key in KeysOf(config) then SectionFrom(config, s, i + 1, Put(acc, e.key, GetOrNull(config, e.key)), path, strict)
        else SectionFrom(config, s, i + 1, acc, path, strict)
  }

  /** `_validate_schema_section`: fills the validated dictionary entry by entry. */
  method ValidateSchemaSection(config: seq<Field>, s: Schema, path: string, strict: bool) returns (r: Outcome<seq<Field>>)
    ensures r == SectionFrom(config, s, 0, [], path, strict)
    decreases s
  {
    var validated: seq<Field> := [];
    var i := 0;
    while i < |s.entries|
      invariant 0 <= i <= |s.entries|
      invariant SectionFrom(config, s, i, validated, path, strict) == SectionFrom(config, s, 0, [], path, strict)
    {
      var e := s.entries[i];
      var p := JoinPath(path, e.key);
      match e.node {
        case Section(sub) =>
          if e.key !in KeysOf(config) {
            if strict {
              return Fail(RequiredCheck, p);
            }
          } else {
            var c := GetOrNull(config, e.key);
            if !c.JObj? {
              return Fail(TypeCheck, p);
            }
            var inner := ValidateSchemaSection(c.fields, sub, p, strict);
            if inner.Rejected? {
              return Rejected(inner.error);
            }
            validated := Put(validated, e.key, JObj(inner.value));
          }
        case Leaf(rule) =>
          var v := ValidateField(rule, GetOrNull(config, e.key), p);
          if v.Rejected? {
            return Rejected(v.error);
          }
          validated := Put(validated, e.key, v.value);
        case Plain(_) =>
          if e.key in KeysOf(config) {
            validated := Put(validated, e.key, GetOrNull(config, e.key));
          }
      }
      i := i + 1;
    }
    return Accepted(validated);
  }

  // ---------------------------------------------------------------------------
  // Copying the remaining fields

  /**
   * `_copy_all_fields` / `_copy_nested_fields` from source entry `i` on: a key the
   * target lacks is added, a dict meeting a dict is filled recursively, anything
   * else already in the target is left alone.
   */
  function CopyFrom(source: seq<Field>, i: nat, target: seq<Field>): seq<Field>
    decreases source, |source| - i
  {
    if i >= |source| then target
    else
      var f := source[i];
      if f.key !in KeysOf(target) then CopyFrom(source, i + 1, Put(target, f.key, f.value))
      else
        var t := GetOrNull(target, f.key);
        if t.JObj? && f.value.JObj? then
          CopyFrom(source, i + 1, Put(target, f.key, JObj(CopyFrom(f.value.fields, 0, t.fields))))
        else CopyFrom(source, i + 1, target)
  }

  /** `_copy_all_fields`: the loop over the source's items, recursing into dicts met on both sides. */
  method CopyAllFields(source: seq<Field>, target: seq<Field>) returns (r: seq<Field>)
    ensures r == CopyFrom(source, 0, target)
    decreases source, 1
  {
    r := target;
    var i := 0;
    while i < |source|
      invariant 0 <= i <= |source|
      invariant CopyFrom(source, i, r) == CopyFrom(source, 0, target)
    {
      r := CopyEntry(source, i, r);
      i := i + 1;
    }
  }

  /** One iteration of the copy loop: the item `source[i]` copied into `r`. */
  method CopyEntry(source: seq<Field>, i: nat, r: seq<Field>) returns (next: seq<Field>)
    requires i < |source|
    ensures CopyFrom(source, i, r) == CopyFrom(source, i + 1, next)
    decreases source, 0
  {
    var f := source[i];
    next := r;
    if f.key !in KeysOf(r) {
      next := Put(r, f.key, f.value);
    } else {
      var t := GetOrNull(r, f.key);
      if t.JObj? && f.value.JObj? {
        var inner := CopyAllFields(f.value.fields, t.fields);
        next := Put(r, f.key, JObj(inner));
      }
    }
  }

  /**
   * `r` keeps everything in `t`: every key of `t` is in `r`, a value that is not a
   * dict is unchanged, and a dict is kept by a dict that keeps everything in it.
   */
  predicate Extends(r: seq<Field>, t: seq<Field>)
    decreases t
  {
    forall j | 0 <= j < |t| ::
      Lookup(r, t[j].key).Some? &&
      if t[j].value.JObj? then
        Lookup(r, t[j].key).value.JObj? && Extends(Lookup(r, t[j].key).value.fields, t[j].value.fields)
      else Lookup(r, t[j].key).value == t[j].value
  }

  lemma {:induction false} ExtendsRefl(t: seq<Field>)
    requires WF(JObj(t))
    ensures Extends(t, t)
    decreases t
  {
    forall j | 0 <= j < |t|
      ensures Lookup(t, t[j].key) == Some(t[j].value)
    {
      LookupFound(t, j);
    }
    forall j | 0 <= j < |t| && t[j].value.JObj?
      ensures Extends(t[j].value.fields, t[j].value.fields)
    {
      ExtendsRefl(t[j].value.fields);
    }
  }

  lemma {:induction false} ExtendsTrans(a: seq<Field>, b: seq<Field>, c: seq<Field>)
    requires Extends(a, b) && Extends(b, c)
    ensures Extends(a, c)
    decreases c
  {
    forall j | 0 <= j < |c|
      ensures Lookup(a, c[j].key).Some? &&
        if c[j].value.JObj? then
          Lookup(a, c[j].key).value.JObj? && Extends(Lookup(a, c[j].key).value.fields, c[j].value.fields)
        else Lookup(a, c[j].key).value == c[j].value
    {
      var k := c[j].key;
      var vb := Lookup(b, k).value;
      LookupMember(b, k);
      var jb :| 0 <= jb < |b| && b[jb] == Field(k, vb);
      if c[j].value.JObj? {
        ExtendsTrans(Lookup(a, k).value.fields, vb.fields, c[j].value.fields);
      }
    }
  }

  /** Entries whose lookups agree with `r` on the keys of `t` extend `t` as `r` does. */
  lemma SameLookups(r: seq<Field>, r2: seq<Field>, t: seq<Field>)
    requires Extends(r, t)
    requires forall j :: 0 <= j < |t| ==> Lookup(r2, t[j].key) == Lookup(r, t[j].key)
    ensures Extends(r2, t)
  {
  }

  /** Replacing a dict of `t` by one that extends it keeps everything in `t`. */
  lemma {:induction false} PutExtends(t: seq<Field>, k: string, m: seq<Field>)
    requires WF(JObj(t))
    requires GetOrNull(t, k).JObj? && Extends(m, GetOrNull(t, k).fields)
    ensures Extends(Put(t, k, JObj(m)), t)
  {
    ExtendsRefl(t);
    var u := Put(t, k, JObj(m));
    forall j | 0 <= j < |t| && t[j].key == k
      ensures t[j].value == GetOrNull(t, k)
    {
      LookupFound(t, j);
    }
  }

  lemma ExtendsKeys(r: seq<Field>, t: seq<Field>)
    requires Extends(r, t)
    ensures forall k :: k in KeysOf(t) ==> k in KeysOf(r)
  {
  }

  /** Copying keeps every validated value and brings in every key of the source. */
  lemma {:induction false} CopyKeeps(source: seq<Field>, i: nat, target: seq<Field>)
    requires WF(JObj(source)) && WF(JObj(target))
    ensures Extends(CopyFrom(source, i, target), target)
    ensures forall j :: i <= j < |source| ==> source[j].key in KeysOf(CopyFrom(source, i, target))
    ensures WF(JObj(CopyFrom(source, i, target)))
    decreases source, |source| - i
  {
    if i >= |source| {
      ExtendsRefl(target);
    } else {
      var f := source[i];
      var r := CopyFrom(source, i, target);
      var next: seq<Field>;
      if f.key !in KeysOf(target) {
        next := Put(target, f.key, f.value);
        PutWF(target, f.key, f.value);
        ExtendsRefl(target);
        SameLookups(target, next, target);
      } else {
        var t := GetOrNull(target, f.key);
        WFChild(JObj(target), f.key);
        if t.JObj? && f.value.JObj? {
          var m := CopyFrom(f.value.fields, 0, t.fields);
          CopyKeeps(f.value.fields, 0, t.fields);
          next := Put(target, f.key, JObj(m));
          PutWF(target, f.key, JObj(m));
          PutExtends(target, f.key, m);
        } else {
          next := target;
          ExtendsRefl(target);
        }
      }
      assert r == CopyFrom(source, i + 1, next);
      CopyKeeps(source, i + 1, next);
      ExtendsTrans(r, next, target);
      assert f.key in KeysOf(next);
      ExtendsKeys(r, next);
    }
  }

  /** The copy only writes keys of the source entries it visits. */
  lemma {:induction false} CopyFrame(source: seq<Field>, i: nat, target: seq<Field>, k: string)
    requires forall j :: i <= j < |source| ==> source[j].key != k
    ensures Lookup(CopyFrom(source, i, target), k) == Lookup(target, k)
    decreases |source| - i
  {
    if i < |source| {
      var f := source[i];
      var next: seq<Field>;
      if f.key !in KeysOf(target) {
        next := Put(target, f.key, f.value);
      } else if GetOrNull(target, f.key).JObj? && f.value.JObj? {
        next := Put(target, f.key, JObj(CopyFrom(f.value.fields, 0, GetOrNull(target, f.key).fields)));
      } else {
        next := target;
      }
      assert CopyFrom(source, i, target) == CopyFrom(source, i + 1, next);
      CopyFrame(source, i + 1, next, k);
    }
  }

  /** A source entry whose key the target lacks arrives in the copy with the source's value. */
  lemma {:induction false} CopyAddsFrom(source: seq<Field>, i: nat, target: seq<Field>)
    requires UniqueKeys(source)
    ensures forall j :: i <= j < |source| && source[j].key !in KeysOf(target) ==>
      Lookup(CopyFrom(source, i, target), source[j].key) == Some(source[j].value)
    decreases |source| - i
  {
    if i < |source| {
      var f := source[i];
      var ks := KeysOf(source);
      var next: seq<Field>;
      if f.key !in KeysOf(target) {
        next := Put(target, f.key, f.value);
      } else if GetOrNull(target, f.key).JObj? && f.value.JObj? {
        next := Put(target, f.key, JObj(CopyFrom(f.value.fields, 0, GetOrNull(target, f.key).fields)));
      } else {
        next := target;
      }
      assert CopyFrom(source, i, target) == CopyFrom(source, i + 1, next);
      CopyAddsFrom(source, i + 1, next);
      forall j | i <= j < |source| && source[j].key !in KeysOf(target)
        ensures Lookup(CopyFrom(source, i, target), source[j].key) == Some(source[j].value)
      {
        if j == i {
          forall j' | i + 1 <= j' < |source|
            ensures source[j'].key != f.key
          {
            assert ks[i] != ks[j'];
          }
          CopyFrame(source, i + 1, next, f.key);
        } else {
          assert ks[i] != ks[j];
          assert Lookup(next, source[j].key) == Lookup(target, source[j].key);
        }
      }
    }
  }

  /** `_copy_all_fields` adds every key the target lacks with the source's value. */
  lemma CopyAddsNew(source: seq<Field>, target: seq<Field>)
    requires UniqueKeys(source)
    ensures forall k :: k in KeysOf(source) && k !in KeysOf(target) ==>
      Lookup(CopyFrom(source, 0, target), k) == Lookup(source, k)
  {
    CopyAddsFrom(source, 0, target);
    forall k | k in KeysOf(source) && k !in KeysOf(target)
      ensures Lookup(CopyFrom(source, 0, target), k) == Lookup(source, k)
    {
      var ks := KeysOf(source);
      var j :| 0 <= j < |ks| && ks[j] == k;
      LookupFound(source, j);
    }
  }

  // ---------------------------------------------------------------------------
  // Whole-profile validation

  /** `validate_config`: the top-level keys, then the strict walk of the schema, then the copy when asked. */
  function ValidationResult(schema: Schema, config: seq<Field>, allowExtra: bool): Outcome<seq<Field>>
  {
    var missing := MissingFrom(config, RequiredTopLevelKeys);
    if missing != [] then Rejected(ValidationError(RequiredCheck, "", missing))
    else
      match SectionFrom(config, schema, 0, [], "", true)
      case Rejected(err) => Rejected(err)
      case Accepted(v) => Accepted(if allowExtra then CopyFrom(config, 0, v) else v)
  }

  function NameRule(description: string): FieldSchema
  {
    FieldSchema(StrType, true, JNull, description, None, Some(1), None)
  }

  /** `BASE_REQUIRED_SCHEMA`. */
  const BaseRequiredSchema: Schema := Schema([Entry("required", Section(RequiredNames))])

  const RequiredNames: Schema :=
    Schema([Entry("username", Leaf(NameRule("User's display name"))),
            Entry("name", Leaf(NameRule("User's full name")))])

  predicate NonEmptyString(v: Json)
  {
    v.JStr? && |v.s| >= 1
  }

  /** The profile's "required" section is a dict whose username and name are non-empty strings. */
  predicate RequiredSectionOk(config: seq<Field>)
  {
    GetOrNull(config, "required").JObj? &&
    NonEmptyString(GetOrNull(GetOrNull(config, "required").fields, "username")) &&
    NonEmptyString(GetOrNull(GetOrNull(config, "required").fields, "name"))
  }

  /**
   * Against the base schema, the strict walk accepts exactly the profiles whose
   * "required" section holds a non-empty username and name, and keeps just those two;
   * a missing section is a Required error and a non-dict one a Type error.
   */
  lemma BaseSectionValidation(config: seq<Field>)
    ensures var r := SectionFrom(config, BaseRequiredSchema, 0, [], "", true);
      (r.Accepted? <==> RequiredSectionOk(config)) &&
      (r.Accepted? ==> r.value == [Field("required", JObj([
          Field("username", GetOrNull(GetOrNull(config, "required").fields, "username")),
          Field("name", GetOrNull(GetOrNull(config, "required").fields, "name"))]))]) &&
      ("required" !in KeysOf(config) ==> r == Fail(RequiredCheck, "required")) &&
      ("required" in KeysOf(config) && !GetOrNull(config, "required").JObj? ==> r == Fail(TypeCheck, "required"))
  {
    var req := GetOrNull(config, "required");
    if "required" in KeysOf(config) && req.JObj? {
      var rf := req.fields;
      var u := GetOrNull(rf, "username");
      var n := GetOrNull(rf, "name");
      var vu := ValidateField(NameRule("User's display name"), u, "required.username");
      var vn := ValidateField(NameRule("User's full name"), n, "required.name");
      assert vu.Accepted? <==> NonEmptyString(u);
      assert vn.Accepted? <==> NonEmptyString(n);
      var inner := SectionFrom(rf, RequiredNames, 0, [], "required", true);
      if vu.Accepted? && vn.Accepted? {
        assert Put([], "username", u) == [Field("username", u)];
        assert Put([Field("username", u)], "name", n) == [Field("username", u), Field("name", n)];
        assert SectionFrom(rf, RequiredNames, 1, [Field("username", u)], "required", true)
          == Accepted([Field("username", u), Field("name", n)]);
        assert inner == Accepted([Field("username", u), Field("name", n)]);
      } else if vu.Accepted? {
        assert inner.Rejected?;
      } else {
        assert inner.Rejected?;
      }
    }
  }

  /**
   * `validate_config` against the base schema accepts exactly the profiles with the six
   * top-level sections and a "required" section holding a non-empty username and name;
   * with the extra fields allowed, every key of the profile is kept.
   */
  lemma BaseProfileValidation(config: seq<Field>, allowExtra: bool)
    ensures var r := ValidationResult(BaseRequiredSchema, config, allowExtra);
      r.Accepted? <==> (forall k :: k in RequiredTopLevelKeys ==> k in KeysOf(config)) && RequiredSectionOk(config)
    ensures var r := ValidationResult(BaseRequiredSchema, config, allowExtra);
      WF(JObj(config)) && allowExtra && r.Accepted? ==> forall k :: k in KeysOf(config) ==> k in KeysOf(r.value)
  {
    BaseSectionValidation(config);
    var missing := MissingFrom(config, RequiredTopLevelKeys);
    MissingNone(config, RequiredTopLevelKeys);
    var sec := SectionFrom(config, BaseRequiredSchema, 0, [], "", true);
    if WF(JObj(config)) && allowExtra && missing == [] && sec.Accepted? {
      BaseCopyKeepsKeys(config, sec.value);
    }
  }

  lemma BaseCopyKeepsKeys(config: seq<Field>, validated: seq<Field>)
    requires WF(JObj(config)) && RequiredSectionOk(config)
    requires validated == [Field("required", JObj([
          Field("username", GetOrNull(GetOrNull(config, "required").fields, "username")),
          Field("name", GetOrNull(GetOrNull(config, "required").fields, "name"))]))]
    ensures forall k :: k in KeysOf(config) ==> k in KeysOf(CopyFrom(config, 0, validated))
  {
    var rf := GetOrNull(config, "required").fields;
    var inner := [Field("username", GetOrNull(rf, "username")), Field("name", GetOrNull(rf, "name"))];
    assert KeysOf(inner) == ["username", "name"];
    assert WF(JObj(inner));
    assert WF(JObj(validated));
    CopyKeeps(config, 0, validated);
  }

  // ---------------------------------------------------------------------------
  // Required field paths

  /** `_collect_required_fields` from entry `i` on: the paths of the required rules, depth first. */
  function RequiredFrom(s: Schema, i: nat, path: string): seq<string>
    decreases s, |s.entries| - i
  {
    if i >= |s.entries| then []
    else
      var e := s.entries[i];
      var p := JoinPath(path, e.key);
      var here := match e.node
        case Leaf(rule) => if rule.required then [p] else []
        case Section(sub) => RequiredFrom(sub, 0, p)
        case Plain(_) => [];
      here + RequiredFrom(s, i + 1, path)
  }

  /** `_collect_required_fields`: the paths it appends, in order. */
  method CollectRequiredFields(s: Schema, path: string) returns (fields: seq<string>)
    ensures fields == RequiredFrom(s, 0, path)
    decreases s, 1
  {
    fields := [];
    var i := 0;
    while i < |s.entries|
      invariant 0 <= i <= |s.entries|
      invariant fields + RequiredFrom(s, i, path) == RequiredFrom(s, 0, path)
    {
      var here := CollectEntry(s, i, path);
      fields := fields + here;
      i := i + 1;
    }
  }

  /** One iteration of the collecting loop: the paths entry `i` contributes. */
  method CollectEntry(s: Schema, i: nat, path: string) returns (here: seq<string>)
    requires i < |s.entries|
    ensures RequiredFrom(s, i, path) == here + RequiredFrom(s, i + 1, path)
    decreases s, 0
  {
    var e := s.entries[i];
    var p := JoinPath(path, e.key);
    here := [];
    match e.node {
      case Leaf(rule) =>
        if rule.required {
          here := [p];
        }
      case Section(sub) =>
        here := CollectRequiredFields(sub, p);
      case Plain(_) =>
    }
  }

  /** `get_required_fields`. */
  function RequiredFields(schema: Schema): seq<string>
  {
    RequiredTopLevelKeys + RequiredFrom(schema, 0, "")
  }

  /** The base schema requires the six sections, then the username and the name. */
  lemma BaseRequiredFields()
    ensures RequiredFields(BaseRequiredSchema) == RequiredTopLevelKeys + ["required.username", "required.name"]
  {
    assert JoinPath("required", "username") == "required.username";
    assert JoinPath("required", "name") == "required.name";
    assert RequiredFrom(RequiredNames, 2, "required") == [];
    assert RequiredFrom(RequiredNames, 1, "required") == ["required.name"];
    assert RequiredFrom(RequiredNames, 0, "required") == ["required.username", "required.name"];
    assert RequiredFrom(BaseRequiredSchema, 1, "") == [];
  }

  // ---------------------------------------------------------------------------
  // Custom required schemas

  /** A schema dictionary's keys, in order. */
  function SchemaKeys(s: Schema): (ks: seq<string>)
    ensures |ks| == |s.entries| && forall j :: 0 <= j < |ks| ==> ks[j] == s.entries[j].key
  {
    seq(|s.entries|, j requires 0 <= j < |s.entries| => s.entries[j].key)
  }

  /** The schema value under `k`, as `schema.get(k)`. */
  function Find(es: seq<Entry>, k: string): (r: Option<Node>)
    ensures r.Some? ==> Entry(k, r.value) in es
  {
    if es == [] then None
    else if es[0].key == k then Some(es[0].node)
    else Find(es[1..], k)
  }

  /** `schema[k] = n`: an existing key keeps its place, a new one goes last. */
  function Assign(es: seq<Entry>, k: string, n: Node): (r: seq<Entry>)
    ensures Find(r, k) == Some(n)
    ensures forall k' :: k' != k ==> Find(r, k') == Find(es, k')
  {
    if es == [] then [Entry(k, n)]
    else if es[0].key == k then [Entry(k, n)] + es[1..]
    else [es[0]] + Assign(es[1..], k, n)
  }

  /**
   * `_merge_schemas` from custom entry `i` on: a schema dictionary meeting a schema
   * dictionary is merged recursively, anything else overrides the base.
   */
  function MergeFrom(base: Schema, custom: Schema, i: nat): Schema
    decreases custom, |custom.entries| - i
  {
    if i >= |custom.entries| then base
    else
      var e := custom.entries[i];
      var b := Find(base.entries, e.key);
      var n := if b.Some? && b.value.Section? && e.node.Section? then Section(MergeFrom(b.value.schema, e.node.schema, 0)) else e.node;
      MergeFrom(Schema(Assign(base.entries, e.key, n)), custom, i + 1)
  }

  /** What the merge puts under a custom key whose base value is `b`. */
  function Merged(b: Option<Node>, n: Node): Node
  {
    if b.Some? && b.value.Section? && n.Section? then Section(MergeFrom(b.value.schema, n.schema, 0)) else n
  }

  /** The merge overrides every custom key, merging dictionaries, and keeps every other base key. */
  lemma {:induction false} MergeLookup(base: Schema, custom: Schema, i: nat)
    requires Distinct(SchemaKeys(custom))
    ensures forall j :: i <= j < |custom.entries| ==>
      Find(MergeFrom(base, custom, i).entries, custom.entries[j].key) ==
        Some(Merged(Find(base.entries, custom.entries[j].key), custom.entries[j].node))
    ensures forall k :: (forall j :: i <= j < |custom.entries| ==> custom.entries[j].key != k) ==>
      Find(MergeFrom(base, custom, i).entries, k) == Find(base.entries, k)
    decreases |custom.entries| - i
  {
    if i < |custom.entries| {
      var e := custom.entries[i];
      var next := Schema(Assign(base.entries, e.key, Merged(Find(base.entries, e.key), e.node)));
      assert MergeFrom(base, custom, i) == MergeFrom(next, custom, i + 1);
      MergeLookup(next, custom, i + 1);
      forall j | i < j < |custom.entries|
        ensures custom.entries[j].key != e.key
      {
        assert SchemaKeys(custom)[i] != SchemaKeys(custom)[j];
      }
    }
  }

  /** `_merge_schemas`: the loop over the custom items. */
  method MergeSchemas(base: Schema, custom: Schema) returns (r: Schema)
    ensures r == MergeFrom(base, custom, 0)
    decreases custom, 1
  {
    r := base;
    var i := 0;
    while i < |custom.entries|
      invariant 0 <= i <= |custom.entries|
      invariant MergeFrom(r, custom, i) == MergeFrom(base, custom, 0)
    {
      r := MergeEntry(r, custom, i);
      i := i + 1;
    }
  }

  /** One iteration of the merge loop: the custom item `i` merged into `r`. */
  method MergeEntry(r: Schema, custom: Schema, i: nat) returns (next: Schema)
    requires i < |custom.entries|
    ensures MergeFrom(r, custom, i) == MergeFrom(next, custom, i + 1)
    decreases custom, 0
  {
    var e := custom.entries[i];
    var b := Find(r.entries, e.key);
    var n := e.node;
    if b.Some? && b.value.Section? && e.node.Section? {
      var m := MergeSchemas(b.value.schema, e.node.schema);
      n := Section(m);
    }
    next := Schema(Assign(r.entries, e.key, n));
  }

  /** The required schema of `ConfigSchema(custom)`: the base, merged with a non-empty custom schema. */
  function Customised(base: Schema, custom: Option<Schema>): Schema
  {
    if custom.Some? && |custom.value.entries| > 0 then MergeFrom(base, custom.value, 0) else base
  }

  /**
   * The class-level base schema after `ConfigSchema(custom)` as written: the shallow
   * copy shares each nested dictionary with the base, so every top-level dictionary
   * the merge descends into is merged in the base too.
   */
  function LeakedBase(base: Schema, custom: Option<Schema>): (r: Schema)
    ensures |r.entries| == |base.entries|
  {
    if custom.None? || |custom.value.entries| == 0 then base
    else
      Schema(seq(|base.entries|, j requires 0 <= j < |base.entries| =>
        var e := base.entries[j];
        var c := Find(custom.value.entries, e.key);
        if e.node.Section? && c.Some? && c.value.Section? then Entry(e.key, Section(MergeFrom(e.node.schema, c.value.schema, 0)))
        else e))
  }

  /** A custom schema adding a required `email` field under "required". */
  const EmailSchema: Schema :=
    Schema([Entry("required", Section(Schema([Entry("email", Leaf(NameRule("")))])))])

  /**
   * As written, one `ConfigSchema(EmailSchema)` makes every later `ConfigSchema()`
   * require "required.email" as well.
   */
  lemma SharedBaseLeaks()
    ensures RequiredFields(LeakedBase(BaseRequiredSchema, Some(EmailSchema))) ==
      RequiredTopLevelKeys + ["required.username", "required.name", "required.email"]
    ensures RequiredFields(LeakedBase(BaseRequiredSchema, Some(EmailSchema))) != RequiredFields(BaseRequiredSchema)
  {
    EmailMerge();
    assert Find(EmailSchema.entries, "required") == Some(EmailSchema.entries[0].node);
    assert LeakedBase(BaseRequiredSchema, Some(EmailSchema)).entries[0] == WithEmail.entries[0];
    assert LeakedBase(BaseRequiredSchema, Some(EmailSchema)) == WithEmail;
    WithEmailFields();
    BaseRequiredFields();
  }

  /** The base schema with the email rule merged into its "required" section. */
  const WithEmail: Schema :=
    Schema([Entry("required", Section(Schema(RequiredNames.entries + [Entry("email", Leaf(NameRule("")))])))])

  lemma WithEmailFields()
    ensures RequiredFields(WithEmail) == RequiredTopLevelKeys + ["required.username", "required.name", "required.email"]
  {
    var merged := Schema(RequiredNames.entries + [Entry("email", Leaf(NameRule("")))]);
    assert JoinPath("required", "username") == "required.username";
    assert JoinPath("required", "name") == "required.name";
    assert JoinPath("required", "email") == "required.email";
    assert RequiredFrom(merged, 3, "required") == [];
    assert RequiredFrom(merged, 2, "required") == ["required.email"];
    assert RequiredFrom(merged, 1, "required") == ["required.name", "required.email"];
    assert RequiredFrom(merged, 0, "required") == ["required.username", "required.name", "required.email"];
    assert RequiredFrom(WithEmail, 1, "") == [];
  }

  /** The merge behind `EmailSchema`: the email rule goes after the username and the name. */
  lemma EmailMerge()
    ensures MergeFrom(RequiredNames, EmailSchema.entries[0].node.schema, 0) ==
      Schema(RequiredNames.entries + [Entry("email", Leaf(NameRule("")))])
    ensures MergeFrom(BaseRequiredSchema, EmailSchema, 0) == WithEmail
  {
    var inner := EmailSchema.entries[0].node.schema;
    var n := Leaf(NameRule(""));
    assert Find(RequiredNames.entries, "email") == None;
    assert Assign(RequiredNames.entries, "email", n) == RequiredNames.entries + [Entry("email", n)];
    assert MergeFrom(Schema(RequiredNames.entries + [Entry("email", n)]), inner, 1) == Schema(RequiredNames.entries + [Entry("email", n)]);
    var merged := Schema(RequiredNames.entries + [Entry("email", n)]);
    assert Find(BaseRequiredSchema.entries, "required") == Some(Section(RequiredNames));
    assert Assign(BaseRequiredSchema.entries, "required", Section(merged)) == [Entry("required", Section(merged))];
  }

  /** The class attribute `BASE_REQUIRED_SCHEMA`, shared by every instance. */
  class SchemaDefaults {
    var baseRequired: Schema

    constructor()
      ensures baseRequired == BaseRequiredSchema
    {
      baseRequired := BaseRequiredSchema;
    }
  }

  class ConfigSchema {
    var requiredSchema: Schema

    /** `ConfigSchema(custom)` working on its own copy of the base, which stays as it was. */
    constructor(defaults: SchemaDefaults, custom: Option<Schema>)
      ensures requiredSchema == Customised(defaults.baseRequired, custom)
    {
      var s := defaults.baseRequired;
      if custom.Some? && |custom.value.entries| > 0 {
        s := MergeSchemas(s, custom.value);
      }
      requiredSchema := s;
    }

    /** `ConfigSchema(custom)` as written: the instance as above, and the base changed through the shallow copy. */
    static method AsWritten(defaults: SchemaDefaults, custom: Option<Schema>) returns (c: ConfigSchema)
      modifies defaults
      ensures fresh(c) && c.requiredSchema == Customised(old(defaults.baseRequired), custom)
      ensures defaults.baseRequired == LeakedBase(old(defaults.baseRequired), custom)
    {
      var base := defaults.baseRequired;
      c := new ConfigSchema(defaults, custom);
      defaults.baseRequired := LeakedBase(base, custom);
    }

    /** `validate_config`. */
    method ValidateConfig(config: seq<Field>, allowExtra: bool) returns (r: Outcome<seq<Field>>)
      ensures r == ValidationResult(requiredSchema, config, allowExtra)
    {
      var top := CheckTopLevelKeys(config);
      var missing := MissingFrom(config, RequiredTopLevelKeys);
      if top.Some? {
        return Rejected(top.value);
      }
      MissingNone(config, RequiredTopLevelKeys);
      var validated := ValidateSchemaSection(config, requiredSchema, "", true);
      if validated.Rejected? {
        return validated;
      }
      if allowExtra {
        var all := CopyAllFields(config, validated.value);
        return Accepted(all);
      }
      return validated;
    }

    /** `get_required_fields`. */
    method GetRequiredFields() returns (fields: seq<string>)
      ensures fields == RequiredFields(requiredSchema)
    {
      var nested := CollectRequiredFields(requiredSchema, "");
      fields := RequiredTopLevelKeys + nested;
    }
  }

  /** With the copy made per instance, a custom schema leaves later default schemas alone. */
  method SchemasIsolated(defaults: SchemaDefaults) returns (custom: ConfigSchema, plain: ConfigSchema)
    requires defaults.baseRequired == BaseRequiredSchema
    ensures RequiredFields(custom.requiredSchema) == RequiredTopLevelKeys + ["required.username", "required.name", "required.email"]
    ensures RequiredFields(plain.requiredSchema) == RequiredTopLevelKeys + ["required.username", "required.name"]
  {
    custom := new ConfigSchema(defaults, Some(EmailSchema));
    plain := new ConfigSchema(defaults, None);
    EmailMerge();
    WithEmailFields();
    BaseRequiredFields();
  }

  /** As written, the same two constructions leave the default schema requiring the email too. */
  method SchemasShared(defaults: SchemaDefaults) returns (custom: ConfigSchema, plain: ConfigSchema)
    requires defaults.baseRequired == BaseRequiredSchema
    modifies defaults
    ensures RequiredFields(plain.requiredSchema) == RequiredTopLevelKeys + ["required.username", "required.name", "required.email"]
  {
    custom := ConfigSchema.AsWritten(defaults, Some(EmailSchema));
    plain := ConfigSchema.AsWritten(defaults, None);
    SharedBaseLeaks();
  }
}
