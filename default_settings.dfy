/** The settings the manager falls back to when there is no settings file to load. */
module DefaultSettings {
  import opened Wrappers
  import opened Json
  import opened Settings

  /** `_get_default_settings`, stamped with the time it was built. */
  function Defaults(now: string): seq<Field>
  {
    Assemble(DefaultMetadata(now), DefaultAiBehavior(), DefaultPlatformSettings(), DefaultDebug(),
             DefaultParticipation(), DefaultNotifications(), DefaultPlatformSpecific())
  }

  /** The top level of the default settings, section by section. */
  function Assemble(meta: Json, ai: Json, ps: Json, dbg: Json, pc: Json, notes: Json, specific: Json): seq<Field>
  {
    [Field("_metadata", meta), Field("ai_behavior", ai), Field("platform_settings", ps), Field("debug", dbg),
     Field("participation_control", pc), Field("notifications", notes), Field("platform_specific", specific)]
  }

  function DefaultMetadata(now: string): Json
  {
    JObj([
      Field("version", JStr("1.0.0")),
      Field("description", JStr("Hot-reloadable configuration for AI personality cloning bot - only contains settings that correspond to actual hardcoded values in the implementation")),
      Field("last_updated", JStr(now)),
      Field("schema_version", JStr("1.0"))])
  }

  function DefaultCacheTtls(): Json
  {
    JObj([
      Field("security", JInt(3600)),
      Field("classification", JInt(1800)),
      Field("information_value", JInt(600))])
  }

  function DefaultDecisionMaking(): Json
  {
    JObj([Field("cache_ttl_seconds", DefaultCacheTtls())])
  }

  function DefaultTyping(): Json
  {
    JObj([
      Field("enabled", JBool(true)),
      Field("base_speed_range", JList([JFloat(3.5), JFloat(5.0)])),
      Field("thinking_time_range", JList([JFloat(0.5), JFloat(2.0)])),
      Field("reading_pause_range", JList([JFloat(0.3), JFloat(1.0)])),
      Field("min_delay_seconds", JFloat(0.5)),
      Field("max_delay_seconds", JFloat(15.0)),
      Field("thinking_threshold_chars", JInt(100)),
      Field("reading_threshold_chars", JInt(50))])
  }

  function DefaultContextEngine(): Json
  {
    JObj([
      Field("max_context_messages", JInt(10)),
      Field("prioritize_recent_messages", JBool(true)),
      Field("context_position_priority", JStr("high")),
      Field("include_message_timing", JBool(true)),
      Field("include_sender_info", JBool(true)),
      Field("context_preview_length", JInt(150)),
      Field("show_full_recent_messages", JInt(3))])
  }

  function DefaultAiBehavior(): Json
  {
    JObj([
      Field("decision_making", DefaultDecisionMaking()),
      Field("typing_simulation", DefaultTyping()),
      Field("context_engine", DefaultContextEngine())])
  }

  function DefaultPlatformSettings(): Json
  {
    JObj([
      Field("flagged_messages", DefaultFlagged())])
  }

  function DefaultFlagged(): Json
  {
    JObj([Field("max_flagged_messages_per_channel", JInt(5))])
  }

  function DefaultDebug(): Json
  {
    JObj([
      Field("logging", JObj([
        Field("detailed_ai_decisions", JBool(false)),
        Field("log_api_calls", JBool(false)),
        Field("log_context_formatting", JBool(true))])),
      Field("development", JObj([
        Field("debug_mode", JBool(false)),
        Field("verbose_errors", JBool(false))]))])
  }

  function DefaultParticipation(): Json
  {
    JObj([
      Field("enabled", JBool(true)),
      Field("threshold_percentage", JInt(30)),
      Field("time_window_minutes", JInt(10)),
      Field("group_chat_threshold", JInt(30)),
      Field("direct_message_threshold", JInt(50)),
      Field("description", JStr("Controls AI participation rate limiting to prevent over-chatting"))])
  }

  function DefaultNotifications(): Json
  {
    JObj([
      Field("startup", JObj([
        Field("enabled", JBool(true)),
        Field("show_config_status", JBool(true))])),
      Field("runtime", JObj([
        Field("config_reload_notifications", JBool(true)),
        Field("error_notifications", JBool(true))]))])
  }

  function DefaultPlatformSpecific(): Json
  {
    JObj([
      Field("discord", JObj([
        Field("always_answer_dms", JBool(true)),
        Field("always_reply_to_mentions", JBool(true)),
        Field("description", JStr("Discord-specific behavior settings for direct messages and mentions"))]))])
  }

  // ---------------------------------------------------------------------------
  // The defaults pass the validation a loaded file must pass

  /** The entry `i` of a dict whose earlier keys differ from its key is what `c[key]`, `c.get(key, {})` and `key in c` find. */
  lemma EntryFound(c: Json, i: nat)
    requires c.JObj? && i < |c.fields| && forall j :: 0 <= j < i ==> c.fields[j].key != c.fields[i].key
    ensures Subscript(c, c.fields[i].key) == Some(c.fields[i].value)
    ensures Sub(c, c.fields[i].key) == Some(c.fields[i].value)
    ensures PyIn(c, c.fields[i].key) == Some(true)
  {
    LookupFirst(c.fields, i);
    assert KeysOf(c.fields)[i] == c.fields[i].key;
  }

  /** A present key whose value satisfies the rule passes the check. */
  lemma EntryOk(c: Json, i: nat, rule: Rule)
    requires c.JObj? && i < |c.fields| && forall j :: 0 <= j < i ==> c.fields[j].key != c.fields[i].key
    requires Satisfies(c.fields[i].value, rule)
    ensures KeyOk(c, c.fields[i].key, rule)
  {
    EntryFound(c, i);
  }

  lemma SectionAt(c: Json, i: nat)
    requires c.JObj? && i < |c.fields| && forall j :: 0 <= j < i ==> c.fields[j].key != c.fields[i].key
    ensures Sub(c, c.fields[i].key) == Some(c.fields[i].value)
  {
    EntryFound(c, i);
  }

  // The sections and values of the defaults, one entry at a time.

  lemma TopAi(meta: Json, ai: Json, ps: Json, dbg: Json, pc: Json, notes: Json, specific: Json)
    ensures Sub(JObj(Assemble(meta, ai, ps, dbg, pc, notes, specific)), "ai_behavior") == Some(ai)
  {
    SectionAt(JObj(Assemble(meta, ai, ps, dbg, pc, notes, specific)), 1);
  }

  lemma TopPlatform(meta: Json, ai: Json, ps: Json, dbg: Json, pc: Json, notes: Json, specific: Json)
    ensures Sub(JObj(Assemble(meta, ai, ps, dbg, pc, notes, specific)), "platform_settings") == Some(ps)
  {
    SectionAt(JObj(Assemble(meta, ai, ps, dbg, pc, notes, specific)), 2);
  }

  lemma TopParticipation(meta: Json, ai: Json, ps: Json, dbg: Json, pc: Json, notes: Json, specific: Json)
    ensures Sub(JObj(Assemble(meta, ai, ps, dbg, pc, notes, specific)), "participation_control") == Some(pc)
  {
    SectionAt(JObj(Assemble(meta, ai, ps, dbg, pc, notes, specific)), 4);
  }

  lemma TopPresent(meta: Json, ai: Json, ps: Json, dbg: Json, pc: Json, notes: Json, specific: Json)
    ensures SectionsPresent(Assemble(meta, ai, ps, dbg, pc, notes, specific))
  {
    var fs := Assemble(meta, ai, ps, dbg, pc, notes, specific);
    assert KeysOf(fs)[1] == "ai_behavior";
    assert KeysOf(fs)[2] == "platform_settings";
    assert KeysOf(fs)[3] == "debug";
  }

  lemma AiDecisionMaking()
    ensures Sub(DefaultAiBehavior(), "decision_making") == Some(DefaultDecisionMaking())
  {
    SectionAt(DefaultAiBehavior(), 0);
  }

  lemma AiTyping()
    ensures Sub(DefaultAiBehavior(), "typing_simulation") == Some(DefaultTyping())
  {
    SectionAt(DefaultAiBehavior(), 1);
  }

  lemma AiContextEngine()
    ensures Sub(DefaultAiBehavior(), "context_engine") == Some(DefaultContextEngine())
  {
    SectionAt(DefaultAiBehavior(), 2);
  }

  lemma DecisionTtls()
    ensures Sub(DefaultDecisionMaking(), "cache_ttl_seconds") == Some(DefaultCacheTtls())
  {
    SectionAt(DefaultDecisionMaking(), 0);
  }

  lemma PlatformFlagged()
    ensures Sub(DefaultPlatformSettings(), "flagged_messages") == Some(DefaultFlagged())
  {
    SectionAt(DefaultPlatformSettings(), 0);
  }

  lemma TypingSpeedOk()
    ensures KeyOk(DefaultTyping(), "base_speed_range", SpeedRange)
  {
    assert PyGe(JFloat(3.5), JFloat(5.0)) == Some(false);
    EntryOk(DefaultTyping(), 1, SpeedRange);
  }

  lemma FlaggedLimitOk()
    ensures KeyOk(DefaultFlagged(), "max_flagged_messages_per_channel", IntAtLeast(1))
  {
    EntryOk(DefaultFlagged(), 0, IntAtLeast(1));
  }

  lemma ContextMessagesOk()
    ensures KeyOk(DefaultContextEngine(), "max_context_messages", IntBetween(1, 50))
  {
    EntryOk(DefaultContextEngine(), 0, IntBetween(1, 50));
  }

  lemma ContextPreviewOk()
    ensures KeyOk(DefaultContextEngine(), "context_preview_length", IntBetween(50, 1000))
  {
    EntryOk(DefaultContextEngine(), 5, IntBetween(50, 1000));
  }

  lemma ContextRecentOk()
    ensures KeyOk(DefaultContextEngine(), "show_full_recent_messages", IntBetween(0, 10))
  {
    EntryOk(DefaultContextEngine(), 6, IntBetween(0, 10));
  }

  lemma ParticipationEnabledOk()
    ensures KeyOk(DefaultParticipation(), "enabled", BoolFlag)
  {
    EntryOk(DefaultParticipation(), 0, BoolFlag);
  }

  lemma ParticipationShareOk()
    ensures KeyOk(DefaultParticipation(), "threshold_percentage", NumberBetween(0, 100))
  {
    EntryOk(DefaultParticipation(), 1, NumberBetween(0, 100));
  }

  lemma ParticipationGroupOk()
    ensures KeyOk(DefaultParticipation(), "group_chat_threshold", NumberBetween(0, 100))
  {
    EntryOk(DefaultParticipation(), 3, NumberBetween(0, 100));
  }

  lemma ParticipationDirectOk()
    ensures KeyOk(DefaultParticipation(), "direct_message_threshold", NumberBetween(0, 100))
  {
    EntryOk(DefaultParticipation(), 4, NumberBetween(0, 100));
  }

  lemma ParticipationWindowOk()
    ensures KeyOk(DefaultParticipation(), "time_window_minutes", PositiveNumber)
  {
    EntryOk(DefaultParticipation(), 2, PositiveNumber);
  }

  // The checks put together from those facts.

  lemma TwoLevels(s: Json, a: string, x: Json, b: string, y: Json, key: string, rule: Rule)
    requires Sub(s, a) == Some(x) && Sub(x, b) == Some(y) && KeyOk(y, key, rule)
    ensures KeyOkAt(s, [a, b], key, rule)
  {
    assert [a, b][1..] == [b];
  }

  lemma TtlsFrom(s: Json, ai: Json, dm: Json, t: Json)
    requires Sub(s, "ai_behavior") == Some(ai) && Sub(ai, "decision_making") == Some(dm)
    requires Sub(dm, "cache_ttl_seconds") == Some(t)
    requires t.JObj? && forall i :: 0 <= i < |t.fields| ==> Satisfies(t.fields[i].value, IntAtLeast(0))
    ensures TtlsOk(s)
  {
  }

  lemma ConstraintsFrom(s: Json)
    requires ConstraintOk(s, 0) && ConstraintOk(s, 1) && ConstraintOk(s, 2) && ConstraintOk(s, 3) && ConstraintOk(s, 4)
    ensures ConstraintsOk(s)
  {
    forall i | 0 <= i < |ValueConstraints|
      ensures ConstraintOk(s, i)
    {
      if i == 0 {
      } else if i == 1 {
      } else if i == 2 {
      } else if i == 3 {
      } else {
        assert i == 4;
      }
    }
  }

  lemma ParticipationFrom(pc: Json)
    requires Truthy(pc)
    requires KeyOk(pc, "enabled", BoolFlag) && KeyOk(pc, "time_window_minutes", PositiveNumber)
    requires KeyOk(pc, "threshold_percentage", NumberBetween(0, 100))
    requires KeyOk(pc, "group_chat_threshold", NumberBetween(0, 100))
    requires KeyOk(pc, "direct_message_threshold", NumberBetween(0, 100))
    ensures ParticipationOk(pc)
  {
    forall i | 0 <= i < |ThresholdKeys|
      ensures KeyOk(pc, ThresholdKeys[i], NumberBetween(0, 100))
    {
      if i == 0 {
      } else if i == 1 {
      } else {
        assert i == 2;
      }
    }
  }

  lemma DefaultParticipationOk()
    ensures ParticipationOk(DefaultParticipation())
  {
    ParticipationEnabledOk();
    ParticipationShareOk();
    ParticipationGroupOk();
    ParticipationDirectOk();
    ParticipationWindowOk();
    ParticipationFrom(DefaultParticipation());
  }

  lemma DefaultTtlsOk(s: Json)
    requires Sub(s, "ai_behavior") == Some(DefaultAiBehavior())
    ensures TtlsOk(s)
  {
    AiDecisionMaking();
    DecisionTtls();
    TtlsFrom(s, DefaultAiBehavior(), DefaultDecisionMaking(), DefaultCacheTtls());
  }

  lemma ConstraintsFromSections(s: Json, ai: Json, ps: Json, typing: Json, flagged: Json, ce: Json)
    requires Sub(s, "ai_behavior") == Some(ai) && Sub(s, "platform_settings") == Some(ps)
    requires Sub(ai, "typing_simulation") == Some(typing) && KeyOk(typing, "base_speed_range", SpeedRange)
    requires Sub(ps, "flagged_messages") == Some(flagged)
    requires KeyOk(flagged, "max_flagged_messages_per_channel", IntAtLeast(1))
    requires Sub(ai, "context_engine") == Some(ce)
    requires KeyOk(ce, "max_context_messages", IntBetween(1, 50))
    requires KeyOk(ce, "context_preview_length", IntBetween(50, 1000))
    requires KeyOk(ce, "show_full_recent_messages", IntBetween(0, 10))
    ensures ConstraintsOk(s)
  {
    TwoLevels(s, "ai_behavior", ai, "typing_simulation", typing, "base_speed_range", SpeedRange);
    assert ConstraintOk(s, 0);
    TwoLevels(s, "platform_settings", ps, "flagged_messages", flagged, "max_flagged_messages_per_channel", IntAtLeast(1));
    assert ConstraintOk(s, 1);
    TwoLevels(s, "ai_behavior", ai, "context_engine", ce, "max_context_messages", IntBetween(1, 50));
    assert ConstraintOk(s, 2);
    TwoLevels(s, "ai_behavior", ai, "context_engine", ce, "context_preview_length", IntBetween(50, 1000));
    assert ConstraintOk(s, 3);
    TwoLevels(s, "ai_behavior", ai, "context_engine", ce, "show_full_recent_messages", IntBetween(0, 10));
    assert ConstraintOk(s, 4);
    ConstraintsFrom(s);
  }

  lemma DefaultConstraintsOk(s: Json)
    requires Sub(s, "ai_behavior") == Some(DefaultAiBehavior())
    requires Sub(s, "platform_settings") == Some(DefaultPlatformSettings())
    ensures ConstraintsOk(s)
  {
    AiTyping();
    TypingSpeedOk();
    PlatformFlagged();
    FlaggedLimitOk();
    AiContextEngine();
    ContextMessagesOk();
    ContextPreviewOk();
    ContextRecentOk();
    ConstraintsFromSections(s, DefaultAiBehavior(), DefaultPlatformSettings(), DefaultTyping(), DefaultFlagged(),
                            DefaultContextEngine());
  }

  lemma AssembledAccepted(meta: Json)
    ensures SettingsOk(JObj(Assemble(meta, DefaultAiBehavior(), DefaultPlatformSettings(), DefaultDebug(),
                                     DefaultParticipation(), DefaultNotifications(), DefaultPlatformSpecific())))
  {
    var s := JObj(Assemble(meta, DefaultAiBehavior(), DefaultPlatformSettings(), DefaultDebug(),
                           DefaultParticipation(), DefaultNotifications(), DefaultPlatformSpecific()));
    TopAi(meta, DefaultAiBehavior(), DefaultPlatformSettings(), DefaultDebug(),
          DefaultParticipation(), DefaultNotifications(), DefaultPlatformSpecific());
    TopPlatform(meta, DefaultAiBehavior(), DefaultPlatformSettings(), DefaultDebug(),
                DefaultParticipation(), DefaultNotifications(), DefaultPlatformSpecific());
    TopParticipation(meta, DefaultAiBehavior(), DefaultPlatformSettings(), DefaultDebug(),
                     DefaultParticipation(), DefaultNotifications(), DefaultPlatformSpecific());
    TopPresent(meta, DefaultAiBehavior(), DefaultPlatformSettings(), DefaultDebug(),
               DefaultParticipation(), DefaultNotifications(), DefaultPlatformSpecific());
    DefaultTtlsOk(s);
    DefaultConstraintsOk(s);
    DefaultParticipationOk();
  }

  /** The built-in defaults are settings `_validate_settings` accepts. */
  lemma {:induction false} DefaultsAccepted(now: string)
    ensures SettingsOk(JObj(Defaults(now)))
  {
    AssembledAccepted(DefaultMetadata(now));
  }
}
