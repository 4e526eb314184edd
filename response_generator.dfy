/**
 * The response generator's own logic around the language model: picking a profile
 * field, the guards in front of the security and integrity analyses, the emergency
 * fallback reply, the tool-results section of the prompt and the memory-utilisation
 * report. What the decision engine answers is an input.
 */
module ResponseGeneration {

  import opened Wrappers
  import opened Text
  import opened Json

  // ---------------------------------------------------------------------------
  // `_extract_field_value`

  /** `field_name in data and data[field_name]`. */
  predicate Present(data: seq<Field>, name: string)
  {
    Lookup(data, name).Some? && Truthy(Lookup(data, name).value)
  }

  /** The value of the first of `names` that `data` holds with a truthy value. */
  function FirstField(data: seq<Field>, names: seq<string>): (r: Option<Json>)
    ensures r.Some? ==> Truthy(r.value)
    decreases |names|
  {
    if names == [] then None
    else if Present(data, names[0]) then Lookup(data, names[0])
    else FirstField(data, names[1..])
  }

  /** The field chosen is the first listed one present with a truthy value. */
  lemma {:induction false} FirstFieldIsFirst(data: seq<Field>, names: seq<string>, i: nat)
    requires i < |names| && Present(data, names[i])
    requires forall k :: 0 <= k < i ==> !Present(data, names[k])
    ensures FirstField(data, names) == Lookup(data, names[i])
    decreases i
  {
    if i > 0 {
      assert !Present(data, names[0]);
      FirstFieldIsFirst(data, names[1..], i - 1);
    }
  }

  /** Nothing is found exactly when no listed field is present with a truthy value. */
  lemma {:induction false} FirstFieldNone(data: seq<Field>, names: seq<string>)
    ensures FirstField(data, names).None? <==> forall k :: 0 <= k < |names| ==> !Present(data, names[k])
    decreases |names|
  {
    if names != [] {
      FirstFieldNone(data, names[1..]);
      assert forall k :: 1 <= k < |names| ==> names[k] == names[1..][k - 1];
    }
  }

  /** `_extract_field_value`: the search loop over the field names. */
  method ExtractFieldValue(data: seq<Field>, names: seq<string>) returns (r: Option<Json>)
    ensures r == FirstField(data, names)
  {
    var i := 0;
    while i < |names|
      invariant 0 <= i <= |names|
      invariant FirstField(data, names) == FirstField(data, names[i..])
    {
      assert names[i..][1..] == names[i + 1..];
      if Present(data, names[i]) {
        return Lookup(data, names[i]);
      }
      i := i + 1;
    }
    return None;
  }

  // ---------------------------------------------------------------------------
  // The guards in front of the decision engine

  /**
   * `_detect_security_threats`: `analysis` is None without a decision engine, otherwise
   * the engine's verdict, or an error when it raises. Empty content, a missing engine
   * and a failing engine all count as safe.
   */
  function DetectSecurityThreats(content: string, analysis: Option<Result<bool>>): (r: bool)
    ensures r <==> content != "" && analysis == Some(Ok(true))
  {
    if content == [] then false
    else match analysis
      case None => false
      case Some(Err(_)) => false
      case Some(Ok(isThreat)) => isThreat
  }

  /**
   * `_basic_integrity_check`: the engine's basic verdict when there is an engine and it
   * answers; valid otherwise.
   */
  function BasicIntegrityCheck(hasEngine: bool, basic: Result<bool>): (r: bool)
    ensures !r <==> hasEngine && basic == Ok(false)
  {
    if hasEngine then
      match basic
      case Ok(valid) => valid
      case Err(_) => true
    else true
  }

  /** The length guards of `_validate_response_integrity`. */
  predicate FitsLength(response: string)
  {
    response != [] && |Strip(response)| >= 5 && |response| <= 2000
  }

  /**
   * `_validate_response_integrity`: a response that is empty, shorter than 5 characters
   * once stripped or longer than 2000 is refused before the engine is asked; otherwise
   * the engine's verdict decides, the basic check standing in when the engine raises
   * or is missing.
   */
  function ValidateResponseIntegrity(response: string, hasEngine: bool, advanced: Result<bool>,
                                     basic: Result<bool>): (r: bool)
    ensures r ==> 5 <= |Strip(response)| && |response| <= 2000
    ensures FitsLength(response) && !hasEngine ==> r
    ensures FitsLength(response) && hasEngine && advanced.Ok? ==> r == advanced.value
    ensures FitsLength(response) && hasEngine && advanced.Err? ==> (r <==> basic != Ok(false))
  {
    if response == [] || |Strip(response)| < 5 then false
    else if |response| > 2000 then false
    else if hasEngine then
      match advanced
      case Ok(valid) => valid
      case Err(_) => BasicIntegrityCheck(hasEngine, basic)
    else BasicIntegrityCheck(hasEngine, basic)
  }

  // ---------------------------------------------------------------------------
  // `_get_emergency_fallback_response`

  const Apology := "I'm having trouble " + "responding right now. " + "Can we try again?"

  /** The fixed reply: with the profile's username (`"friend"` when it has none) when a profile is loaded. */
  function FixedFallback(username: Option<string>): string
  {
    match username
    case Some(name) => "Sorry " + name + ", " + Apology
    case None => Apology
  }

  /**
   * `_get_emergency_fallback_response`: `username` is Some when a profile is loaded;
   * `guidance` is what the engine generates, None when it returns nothing or raises.
   * The generated text is used only when its stripped length exceeds 5.
   */
  function EmergencyFallback(hasEngine: bool, username: Option<string>, guidance: Option<string>): (r: string)
    ensures r != FixedFallback(username) ==>
      hasEngine && username.Some? && guidance == Some(r) && |Strip(r)| > 5
    ensures hasEngine && username.Some? && guidance.Some? && |Strip(guidance.value)| > 5 ==> r == guidance.value
  {
    if hasEngine && username.Some? && guidance.Some? && |Strip(guidance.value)| > 5 then guidance.value
    else FixedFallback(username)
  }

  lemma ApologyShape()
    ensures |Apology| > 5 && Apology[0] == 'I' && Apology[|Apology| - 1] == '?'
  {
  }

  /** The fixed reply has no surrounding blanks: it starts with a letter and ends with `?`. */
  lemma FixedFallbackTrimmed(username: Option<string>)
    ensures Strip(FixedFallback(username)) == FixedFallback(username)
    ensures |FixedFallback(username)| > 5
  {
    var fixed := FixedFallback(username);
    ApologyShape();
    if username.Some? {
      assert fixed == "Sorry " + (username.value + ", " + Apology);
      assert fixed[0] == 'S';
    }
    assert fixed[|fixed| - 1] == '?';
    StripTrimmed(fixed);
  }

  /** Whatever the engine does, the fallback is a reply with more than 5 visible characters. */
  lemma FallbackNeverBlank(hasEngine: bool, username: Option<string>, guidance: Option<string>)
    ensures |Strip(EmergencyFallback(hasEngine, username, guidance))| > 5
  {
    FixedFallbackTrimmed(username);
  }

  // ---------------------------------------------------------------------------
  // `_format_tool_results`

  const ResultsHeader := "\n## EXTERNAL INFORMATION GATHERED\nThe following information was gathered using external tools to help answer the user's question:\n\n"

  const IntegrationInstructions :=
    "**CRITICAL INTEGRATION INSTRUCTIONS**:\n"
    + "- Use this EXACT information in your response - do NOT use placeholder text like \"[current weather conditions]\"\n"
    + "- Extract specific details (temperatures, conditions, etc.) and include them in your response\n"
    + "- Present the information naturally as if you know it personally\n"
    + "- Do NOT mention \"tools\" or \"search results\" - just give the actual weather information\n"
    + "- If weather data is provided, give specific temperature and conditions, not generic placeholders"

  const Truncation := "... [truncated]"

  /** Python `str(v)`: a string is itself; `render` stands for Python's text of any other value. */
  function Shown(v: Json, render: Json -> string): string
  {
    if v.JStr? then v.s else render(v)
  }

  /** A result text longer than 1000 characters is cut to its first 1000 and marked. */
  function Truncated(s: string): (r: string)
    ensures |r| <= 1000 + |Truncation|
    ensures s[..if |s| < 1000 then |s| else 1000] <= r
    ensures |s| <= 1000 ==> r == s
    ensures |s| > 1000 ==> r == s[..1000] + Truncation && |r| == 1000 + |Truncation|
  {
    if |s| > 1000 then s[..1000] + Truncation else s
  }

  function SuccessSection(name: string, content: string): string
  {
    "**" + Upper(name) + " Results:**```\n" + content + "\n```\n\n"
  }

  function ErrorSection(name: string, error: string): string
  {
    "**" + Upper(name) + " Error:**\n\U{26A0}\U{FE0F} Tool execution failed: " + error + "\n\n"
  }

  /**
   * The text for one result: its (truncated) result when its `success` is truthy, its
   * error (`'Unknown error'` when it has none) otherwise. A result that is not a dict
   * raises AttributeError at `result.get`.
   */
  function Section(name: string, result: Json, render: Json -> string): (r: Result<string>)
    ensures r.Ok? <==> result.JObj?
  {
    match DictGet(result, "success", JBool(false))
    case None => Err("AttributeError")
    case Some(success) =>
      if Truthy(success) then
        Ok(SuccessSection(name, Truncated(Shown(DictGet(result, "result", JStr("")).value, render))))
      else
        Ok(ErrorSection(name, Shown(DictGet(result, "error", JStr("Unknown error")).value, render)))
  }

  /** The sections of the results, in the order of the dictionary. */
  function SectionsOf(results: seq<Field>, render: Json -> string): (r: seq<Result<string>>)
    ensures |r| == |results|
    ensures forall i :: 0 <= i < |results| ==> r[i] == Section(results[i].key, results[i].value, render)
  {
    seq(|results|, i requires 0 <= i < |results| => Section(results[i].key, results[i].value, render))
  }

  /** The texts one after the other; the first error when one of them raised. */
  function Joined(parts: seq<Result<string>>): Result<string>
    decreases |parts|
  {
    if parts == [] then Ok("")
    else
      match Joined(parts[..|parts| - 1])
      case Err(e) => Err(e)
      case Ok(init) =>
        match parts[|parts| - 1]
        case Err(e) => Err(e)
        case Ok(s) => Ok(init + s)
  }

  /** `_format_tool_results` as a value. */
  function ToolResultsText(results: seq<Field>, render: Json -> string): Result<string>
  {
    if results == [] then Ok("")
    else
      match Joined(SectionsOf(results, render))
      case Err(e) => Err(e)
      case Ok(s) => Ok(ResultsHeader + s + IntegrationInstructions)
  }

  /** `_format_tool_results`: the loop that appends one section per result. */
  method FormatToolResults(results: seq<Field>, render: Json -> string) returns (r: Result<string>)
    ensures r == ToolResultsText(results, render)
  {
    if results == [] {
      return Ok("");
    }
    ghost var parts := SectionsOf(results, render);
    var sections := "";
    var i := 0;
    while i < |results|
      invariant 0 <= i <= |results|
      invariant Joined(parts[..i]) == Ok(sections)
    {
      assert parts[..i + 1][..i] == parts[..i];
      var s := Section(results[i].key, results[i].value, render);
      assert s == parts[i];
      if s.Err? {
        JoinedFails(parts, i + 1);
        assert parts[..|parts|] == parts;
        return Err(s.error);
      }
      sections := sections + s.value;
      i := i + 1;
    }
    assert parts[..i] == parts;
    return Ok(ResultsHeader + sections + IntegrationInstructions);
  }

  /** Once a prefix fails, the whole fails. */
  lemma {:induction false} JoinedFails(parts: seq<Result<string>>, n: nat)
    requires n <= |parts| && Joined(parts[..n]).Err?
    ensures Joined(parts[..|parts|]) == Joined(parts[..n])
    decreases |parts| - n
  {
    if n < |parts| {
      assert parts[..n + 1][..n] == parts[..n];
      JoinedFails(parts, n + 1);
    }
  }

  /** The joining succeeds exactly when every part does. */
  lemma {:induction false} JoinedOk(parts: seq<Result<string>>)
    ensures Joined(parts).Ok? <==> forall i :: 0 <= i < |parts| ==> parts[i].Ok?
    decreases |parts|
  {
    if parts != [] {
      var init := parts[..|parts| - 1];
      JoinedOk(init);
      assert forall i :: 0 <= i < |init| ==> init[i] == parts[i];
    }
  }

  /** Every part's text appears in the joined text. */
  lemma {:induction false} JoinedMentions(parts: seq<Result<string>>, i: nat)
    requires i < |parts| && Joined(parts).Ok?
    ensures parts[i].Ok? && Contains(Joined(parts).value, parts[i].value)
    decreases |parts|
  {
    var init := parts[..|parts| - 1];
    var b := parts[|parts| - 1].value;
    if i < |parts| - 1 {
      assert init[i] == parts[i];
      JoinedMentions(init, i);
    } else {
      ContainsSelf(b);
    }
    ContainsConcat(Joined(init).value, b, parts[i].value);
  }

  /** The text is empty exactly when there are no results. */
  lemma NoResultsNoText(results: seq<Field>, render: Json -> string)
    ensures ToolResultsText(results, render) == Ok("") <==> results == []
  {
  }

  /** The formatting succeeds exactly when every result is a dict. */
  lemma ToolResultsOk(results: seq<Field>, render: Json -> string)
    ensures ToolResultsText(results, render).Ok? <==> forall i :: 0 <= i < |results| ==> results[i].value.JObj?
  {
    JoinedOk(SectionsOf(results, render));
  }

  /** The prompt section holds every result's section. */
  lemma ToolResultsMention(results: seq<Field>, render: Json -> string, i: nat)
    requires i < |results| && ToolResultsText(results, render).Ok?
    ensures Section(results[i].key, results[i].value, render).Ok?
    ensures Contains(ToolResultsText(results, render).value, Section(results[i].key, results[i].value, render).value)
  {
    var parts := SectionsOf(results, render);
    var s := Joined(parts).value;
    JoinedMentions(parts, i);
    var t := parts[i].value;
    ContainsConcat(ResultsHeader, s, t);
    ContainsConcat(ResultsHeader + s, IntegrationInstructions, t);
  }

  // ---------------------------------------------------------------------------
  // `_validate_memory_utilization`

  const HighMarker := "\U{1F534} HIGH RELEVANCE"
  const ModerateMarker := "\U{1F7E1} MODERATE RELEVANCE"
  const ContextualMarker := "\U{1F7E2} CONTEXTUAL BACKGROUND"

  /** A kind of memory use and the phrases that reveal it. */
  datatype Indicator = Indicator(kind: string, phrases: seq<string>)

  const MemoryIndicators: seq<Indicator> := [
    Indicator("personal_name", ["your name", "you're called", "you go by", "call you"]),
    Indicator("preferences", ["you like", "you enjoy", "your favorite", "you prefer"]),
    Indicator("background", ["you work", "your job", "you study", "your background"]),
    Indicator("relationships", ["your family", "your friend", "your partner"]),
    Indicator("personal_details", ["you mentioned", "you told me", "i remember you", "you said"])
  ]

  /** `any(phrase in text for phrase in phrases)`. */
  predicate Mentions(text: string, phrases: seq<string>)
  {
    exists p | p in phrases :: Contains(text, p)
  }

  /** The positions in `table` of the indicators `text` mentions, in table order. */
  function FoundAt(text: string, table: seq<Indicator>): (r: seq<nat>)
    ensures forall a, b :: 0 <= a < b < |r| ==> r[a] < r[b]
    ensures forall a :: 0 <= a < |r| ==> r[a] < |table|
    ensures forall k: nat :: k in r <==> k < |table| && Mentions(text, table[k].phrases)
    decreases |table|
  {
    if table == [] then []
    else
      var init := FoundAt(text, table[..|table| - 1]);
      assert forall k: nat :: k < |table| - 1 ==> table[..|table| - 1][k] == table[k];
      init + (if Mentions(text, table[|table| - 1].phrases) then [|table| - 1] else [])
  }

  function KindsAt(table: seq<Indicator>, at: seq<nat>): (r: seq<string>)
    requires forall i :: 0 <= i < |at| ==> at[i] < |table|
    ensures |r| == |at|
    ensures forall i :: 0 <= i < |at| ==> r[i] == table[at[i]].kind
  {
    seq(|at|, i requires 0 <= i < |at| => table[at[i]].kind)
  }

  /** `memory_indicators_found`. */
  function Found(text: string, table: seq<Indicator>): seq<string>
  {
    KindsAt(table, FoundAt(text, table))
  }

  /** Python `", ".join(parts)`. */
  function JoinComma(parts: seq<string>): string
    decreases |parts|
  {
    if parts == [] then ""
    else if |parts| == 1 then parts[0]
    else JoinComma(parts[..|parts| - 1]) + ", " + parts[|parts| - 1]
  }

  /**
   * The report: NoMemories when no memory text was given; otherwise the marker counts,
   * the indicators found, the score and the summary line.
   */
  datatype Utilization =
    | NoMemories
    | Analysed(high: nat, moderate: nat, contextual: nat, indicators: seq<string>, score: real, analysis: string)
  {
    predicate HasMemories()
    {
      Analysed?
    }

    function UtilizationScore(): real
    {
      if NoMemories? then 0.0 else score
    }

    function Analysis(): string
    {
      if NoMemories? then "No memories provided" else analysis
    }
  }

  function Min(x: real, y: real): real
  {
    if x < y then x else y
  }

  /**
   * `utilization_score`: the share of indicators per marker (at most 1) as a percentage,
   * 20 more when a high-relevance memory is present and some indicator was found, at
   * most 100; 0 when no markers are present.
   */
  function Score(high: nat, total: nat, found: nat): real
  {
    if total > 0 then
      var base := Min(found as real / total as real, 1.0) * 100.0;
      Min(if high > 0 && found > 0 then base + 20.0 else base, 100.0)
    else 0.0
  }

  function Summary(high: nat, found: seq<string>): string
  {
    if high > 0 && found == [] then
      "\U{26A0}\U{FE0F} High-relevance memories available but no clear memory usage indicators found in response"
    else if found != [] then "\U{2705} Memory utilization detected: " + JoinComma(found)
    else "\U{2139}\U{FE0F} No clear memory usage indicators found (may still be naturally integrated)"
  }

  /** `_validate_memory_utilization` as a value. */
  function MemoryUtilization(response: string, memories: Option<string>): Utilization
  {
    if memories.None? || memories.value == "" then NoMemories
    else
      var m := memories.value;
      var high := Count(m, HighMarker);
      var moderate := Count(m, ModerateMarker);
      var contextual := Count(m, ContextualMarker);
      var found := Found(Lower(response), MemoryIndicators);
      Analysed(high, moderate, contextual, found, Score(high, high + moderate + contextual, |found|), Summary(high, found))
  }

  /** The indicator loop of `_validate_memory_utilization`: each kind whose phrases occur is appended. */
  method FindIndicators(text: string, table: seq<Indicator>) returns (found: seq<string>)
    ensures found == Found(text, table)
  {
    found := [];
    ghost var at: seq<nat> := [];
    for i := 0 to |table|
      invariant at == FoundAt(text, table[..i])
      invariant found == KindsAt(table, at)
    {
      FindStep(text, table, i, at);
      if Mentions(text, table[i].phrases) {
        found := found + [table[i].kind];
        at := at + [i];
      }
    }
    assert table[..|table|] == table;
  }

  /** One step of the indicator loop: position `i` is added exactly when it is mentioned. */
  lemma FindStep(text: string, table: seq<Indicator>, i: nat, at: seq<nat>)
    requires i < |table| && at == FoundAt(text, table[..i])
    ensures FoundAt(text, table[..i + 1]) == at + (if Mentions(text, table[i].phrases) then [i] else [])
    ensures Mentions(text, table[i].phrases) ==> KindsAt(table, at + [i]) == KindsAt(table, at) + [table[i].kind]
  {
    assert table[..i + 1][..i] == table[..i];
  }

  /** `_validate_memory_utilization`. */
  method ValidateMemoryUtilization(response: string, memories: Option<string>) returns (u: Utilization)
    ensures u == MemoryUtilization(response, memories)
  {
    if memories.None? || memories.value == "" {
      return NoMemories;
    }
    var m := memories.value;
    var high := Count(m, HighMarker);
    var moderate := Count(m, ModerateMarker);
    var contextual := Count(m, ContextualMarker);
    var found := FindIndicators(Lower(response), MemoryIndicators);
    u := Analysed(high, moderate, contextual, found, Score(high, high + moderate + contextual, |found|), Summary(high, found));
  }

  /** Distinct kinds picked at strictly increasing positions stay distinct. */
  lemma KindsAtDistinct(table: seq<Indicator>, at: seq<nat>)
    requires forall i, j :: 0 <= i < j < |table| ==> table[i].kind != table[j].kind
    requires forall a :: 0 <= a < |at| ==> at[a] < |table|
    requires forall a, b :: 0 <= a < b < |at| ==> at[a] < at[b]
    ensures Distinct(KindsAt(table, at))
  {
    var r := KindsAt(table, at);
    forall a, b | 0 <= a < b < |r|
      ensures r[a] != r[b]
    {
      assert r[a] == table[at[a]].kind && r[b] == table[at[b]].kind;
    }
  }

  /** With distinct kinds, a kind is listed exactly when one of its phrases occurs. */
  lemma FoundIff(text: string, table: seq<Indicator>, i: nat)
    requires forall i, j :: 0 <= i < j < |table| ==> table[i].kind != table[j].kind
    requires i < |table|
    ensures table[i].kind in Found(text, table) <==> Mentions(text, table[i].phrases)
  {
    var at := FoundAt(text, table);
    var found := Found(text, table);
    if table[i].kind in found {
      var a :| 0 <= a < |found| && found[a] == table[i].kind;
      assert table[at[a]].kind == table[i].kind;
      assert at[a] in at;
    }
    if Mentions(text, table[i].phrases) {
      assert i in at;
      var a :| 0 <= a < |at| && at[a] == i;
      assert found[a] == table[i].kind;
    }
  }

  /**
   * With distinct kinds in the table, the kinds found are listed each at most once, in
   * table order, and a kind is listed exactly when one of its phrases occurs.
   */
  lemma FoundInOrder(text: string, table: seq<Indicator>)
    requires forall i, j :: 0 <= i < j < |table| ==> table[i].kind != table[j].kind
    ensures var at := FoundAt(text, table);
      var found := Found(text, table);
      |found| == |at| &&
      (forall a, b :: 0 <= a < b < |at| ==> at[a] < at[b]) &&
      (forall a :: 0 <= a < |at| ==> found[a] == table[at[a]].kind) &&
      (forall i :: 0 <= i < |table| ==> (table[i].kind in found <==> Mentions(text, table[i].phrases))) &&
      Distinct(found)
  {
    KindsAtDistinct(table, FoundAt(text, table));
    forall i | 0 <= i < |table|
      ensures table[i].kind in Found(text, table) <==> Mentions(text, table[i].phrases)
    {
      FoundIff(text, table, i);
    }
  }

  /** The kinds of the fixed table are distinct. */
  lemma IndicatorKindsDistinct()
    ensures forall i, j :: 0 <= i < j < |MemoryIndicators| ==> MemoryIndicators[i].kind != MemoryIndicators[j].kind
  {
    var kinds := seq(|MemoryIndicators|, i requires 0 <= i < |MemoryIndicators| => MemoryIndicators[i].kind);
    assert kinds == ["personal_name", "preferences", "background", "relationships", "personal_details"];
    assert kinds[0][0] != kinds[3][0];
  }

  /** The report lists the kinds of the fixed table whose phrases occur, each once, in table order. */
  lemma IndicatorsInOrder(response: string)
    ensures var found := Found(Lower(response), MemoryIndicators);
      Distinct(found) &&
      forall i :: 0 <= i < |MemoryIndicators| ==>
        (MemoryIndicators[i].kind in found <==> Mentions(Lower(response), MemoryIndicators[i].phrases))
  {
    IndicatorKindsDistinct();
    FoundInOrder(Lower(response), MemoryIndicators);
  }

  /** The score is a percentage; it is 0 without markers and at least 20 when a high-relevance memory is used. */
  lemma ScoreBounds(high: nat, total: nat, found: nat)
    ensures 0.0 <= Score(high, total, found) <= 100.0
    ensures total == 0 ==> Score(high, total, found) == 0.0
    ensures 0 < high <= total && found > 0 ==> Score(high, total, found) >= 20.0
  {
    if total > 0 {
      var q := found as real / total as real;
      assert q >= 0.0;
    }
  }

  /** Without memory text nothing is reported and the score is 0. */
  lemma NoMemoriesReported(response: string, memories: Option<string>)
    ensures !MemoryUtilization(response, memories).HasMemories() <==> memories.None? || memories.value == ""
    ensures !MemoryUtilization(response, memories).HasMemories() ==> MemoryUtilization(response, memories).UtilizationScore() == 0.0
  {
  }


}
