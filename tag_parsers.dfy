// The tolerant parsers for the structured answers of the language model:
// `<tag>value</tag>` fields searched case-insensitively anywhere in the text,
// with keyword and count fallbacks when the tag is absent.
//
// The regular expressions of the source are written out as functions with the
// same leftmost-match semantics: an enumerated tag `<t>\s*(a|b)\s*</t>` is
// matched at the first position where some alternative fits, a body tag
// `<t>\s*(.*?)\s*</t>` takes the text up to the first closing tag after the
// opening one, and without DOTALL that body may not hold a line break.

module TagParsers {
  import opened Wrappers
  import opened Text

  predicate StartsAt(s: string, t: string, i: nat)
  {
    i + |t| <= |s| && s[i..i + |t|] == t
  }

  /** The first index at or after `i` that is not whitespace (`\s*`, greedy). */
  function SkipSpaces(s: string, i: nat): (j: nat)
    requires i <= |s|
    ensures i <= j <= |s|
    ensures j == |s| || !IsSpace(s[j])
    ensures forall k :: i <= k < j ==> IsSpace(s[k])
    decreases |s| - i
  {
    if i < |s| && IsSpace(s[i]) then SkipSpaces(s, i + 1) else i
  }

  /** The first occurrence of `t` at or after `from`. */
  function FindFrom(s: string, t: string, from: nat): (r: Option<nat>)
    ensures r.Some? ==> from <= r.value && StartsAt(s, t, r.value)
    ensures forall k :: from <= k && (r.None? || k < r.value) ==> !StartsAt(s, t, k)
    decreases |s| - from
  {
    if from + |t| > |s| then None
    else if StartsAt(s, t, from) then Some(from)
    else FindFrom(s, t, from + 1)
  }

  function OpenTag(tag: string): string { "<" + tag + ">" }

  function CloseTag(tag: string): string { "</" + tag + ">" }

  /** What may stand between a tag and its word: nothing, `\s*`, or `\s*\[?\s*`. */
  datatype Pad = Tight | Spaced | Bracketed

  function Gap(s: string, i: nat, pad: Pad, bracket: char): (j: nat)
    requires i <= |s|
    ensures i <= j <= |s|
  {
    match pad
    case Tight => i
    case Spaced => SkipSpaces(s, i)
    case Bracketed =>
      var k := SkipSpaces(s, i);
      if k < |s| && s[k] == bracket then SkipSpaces(s, k + 1) else k
  }

  lemma LowerSlice(s: string, a: nat, b: nat)
    requires a <= b <= |s|
    ensures Lower(s[a..b]) == Lower(s)[a..b]
  {
  }

  /** Where the word of an enumerated tag opened at `i` begins. */
  function WordStart(low: string, tag: string, pad: Pad, i: nat): nat
    requires StartsAt(low, OpenTag(tag), i)
  {
    Gap(low, i + |OpenTag(tag)|, pad, '[')
  }

  /** The alternative `word` completes a match at `i`: opening tag, padding, word, padding, closing tag. */
  predicate FitsAt(low: string, tag: string, word: string, pad: Pad, i: nat)
  {
    StartsAt(low, OpenTag(tag), i) &&
    StartsAt(low, word, WordStart(low, tag, pad, i)) &&
    StartsAt(low, CloseTag(tag), Gap(low, WordStart(low, tag, pad, i) + |word|, pad, ']'))
  }

  /** Regex alternation at one position: the first alternative from `words[w]` on that fits. */
  function ChoiceAt(low: string, tag: string, words: seq<string>, pad: Pad, i: nat, w: nat): (r: Option<nat>)
    ensures r.Some? ==> w <= r.value < |words| && FitsAt(low, tag, words[r.value], pad, i)
    ensures r.None? ==> forall k :: w <= k < |words| ==> !FitsAt(low, tag, words[k], pad, i)
    decreases |words| - w
  {
    if w >= |words| then None
    else if FitsAt(low, tag, words[w], pad, i) then Some(w)
    else ChoiceAt(low, tag, words, pad, i, w + 1)
  }

  /** The group of a fitting alternative, in the original case. */
  function Group(s: string, low: string, tag: string, word: string, pad: Pad, i: nat): (g: string)
    requires low == Lower(s) && FitsAt(low, tag, word, pad, i)
    ensures Lower(g) == word && Contains(low, word)
  {
    var j := WordStart(low, tag, pad, i);
    assert StartsAt(low, word, j);
    assert j + |word| <= |s| && low[j..j + |word|] == word;
    LowerSlice(s, j, j + |word|);
    ContainsAt(low, word, j);
    s[j..j + |word|]
  }

  /** The leftmost match from position `i` on. */
  function ChoiceFrom(s: string, low: string, tag: string, words: seq<string>, pad: Pad, i: nat): (r: Option<string>)
    requires low == Lower(s) && i <= |s|
    ensures r.Some? ==> Lower(r.value) in words && Contains(low, Lower(r.value))
    ensures r.Some? ==> Contains(low, OpenTag(tag))
    decreases |s| - i
  {
    match ChoiceAt(low, tag, words, pad, i, 0)
    case Some(k) =>
      ContainsAt(low, OpenTag(tag), i);
      Some(Group(s, low, tag, words[k], pad, i))
    case None =>
      if i == |s| then None else ChoiceFrom(s, low, tag, words, pad, i + 1)
  }

  /** `re.search(r"<tag>PAD(w1|w2|...)PAD</tag>", s, re.IGNORECASE).group(1)`. */
  function Choice(s: string, tag: string, words: seq<string>, pad: Pad): (r: Option<string>)
    ensures r.Some? ==> Lower(r.value) in words && Contains(Lower(s), Lower(r.value))
    ensures r.Some? ==> Contains(Lower(s), OpenTag(tag))
  {
    ChoiceFrom(s, Lower(s), tag, words, pad, 0)
  }

  /** The stripped body of a `<tag>...</tag>` whose opening tag is at `i`. */
  function BodyAt(s: string, low: string, tag: string, dotAll: bool, i: nat): (r: Option<string>)
    requires |low| == |s|
    ensures r.Some? ==> StartsAt(low, OpenTag(tag), i)
    ensures r.Some? ==> Strip(r.value) == r.value && (dotAll || '\n' !in r.value)
  {
    if !StartsAt(low, OpenTag(tag), i) then None
    else
      match FindFrom(low, CloseTag(tag), i + |OpenTag(tag)|)
      case None => None
      case Some(j) =>
        var b := Strip(s[i + |OpenTag(tag)|..j]);
        StripIdempotent(s[i + |OpenTag(tag)|..j]);
        if dotAll || '\n' !in b then Some(b) else None
  }

  function BodyFrom(s: string, low: string, tag: string, dotAll: bool, i: nat): (r: Option<string>)
    requires |low| == |s| && i <= |s|
    ensures r.Some? ==> Strip(r.value) == r.value && (dotAll || '\n' !in r.value)
    ensures r.Some? ==> Contains(low, OpenTag(tag))
    decreases |s| - i
  {
    var m := BodyAt(s, low, tag, dotAll, i);
    if m.Some? then
      ContainsAt(low, OpenTag(tag), i);
      m
    else if i == |s| then None
    else BodyFrom(s, low, tag, dotAll, i + 1)
  }

  /** `re.search(r"<tag>\s*(.*?)\s*</tag>", s, flags).group(1).strip()`. */
  function Body(s: string, tag: string, dotAll: bool): (r: Option<string>)
    ensures r.Some? ==> Strip(r.value) == r.value && (dotAll || '\n' !in r.value)
    ensures r.Some? ==> Contains(Lower(s), OpenTag(tag))
  {
    BodyFrom(s, Lower(s), tag, dotAll, 0)
  }

  /** Python `any(w in low for w in words)`. */
  predicate AnyIn(low: string, words: seq<string>)
  {
    exists k :: 0 <= k < |words| && Contains(low, words[k])
  }

  // ---------------------------------------------------------------------
  // The round trip of the tag readers.

  /** Alternatives that can be told apart by their first character, none of them starting with blank or bracket. */
  predicate Separable(words: seq<string>)
  {
    (forall k :: 0 <= k < |words| ==> words[k] != [] && !IsSpace(words[k][0]) && words[k][0] != '[') &&
    (forall k, m :: 0 <= k < m < |words| ==> words[k][0] != words[m][0])
  }

  lemma SkipNone(s: string, i: nat)
    requires i < |s| && !IsSpace(s[i])
    ensures SkipSpaces(s, i) == i
  {
  }

  lemma GapNone(s: string, i: nat, pad: Pad, bracket: char)
    requires i < |s| && !IsSpace(s[i]) && s[i] != bracket
    ensures Gap(s, i, pad, bracket) == i
  {
    SkipNone(s, i);
  }

  lemma StartsAtHead(s: string, t: string, i: nat)
    requires StartsAt(s, t, i) && t != []
    ensures s[i] == t[0]
  {
    assert s[i..i + |t|][0] == s[i];
  }

  lemma {:induction false} FirstFit(low: string, tag: string, words: seq<string>, pad: Pad, i: nat, k: nat, w: nat)
    requires Separable(words) && w <= k < |words|
    requires FitsAt(low, tag, words[k], pad, i)
    ensures ChoiceAt(low, tag, words, pad, i, w) == Some(k)
    decreases k - w
  {
    if w < k {
      var j := WordStart(low, tag, pad, i);
      StartsAtHead(low, words[k], j);
      if StartsAt(low, words[w], j) {
        StartsAtHead(low, words[w], j);
        assert false;
      }
      FirstFit(low, tag, words, pad, i, k, w + 1);
    }
  }

  /**
   * A text whose lowered form begins with `<tag>`, one of the alternatives and
   * `</tag>` reads as that alternative, whatever follows.
   */
  lemma ChoiceOfTag(s: string, tag: string, words: seq<string>, pad: Pad, k: nat, rest: string)
    requires Separable(words) && k < |words|
    requires Lower(s) == OpenTag(tag) + words[k] + CloseTag(tag) + rest
    ensures Choice(s, tag, words, pad).Some?
    ensures Lower(Choice(s, tag, words, pad).value) == words[k]
  {
    var low := Lower(s);
    FitsAtStart(low, tag, words[k], pad, rest);
    FirstFit(low, tag, words, pad, 0, k, 0);
    assert Choice(s, tag, words, pad) == Some(Group(s, low, tag, words[k], pad, 0));
  }

  /** The pieces of `a + t + c + r` start where their lengths say. */
  lemma Pieces(s: string, a: string, t: string, c: string, r: string)
    requires s == a + t + c + r
    ensures StartsAt(s, a, 0) && StartsAt(s, t, |a|) && StartsAt(s, c, |a| + |t|)
  {
    assert s[..|a|] == a;
    assert s[|a|..|a| + |t|] == t;
    assert s[|a| + |t|..|a| + |t| + |c|] == c;
  }

  lemma FitsAtStart(low: string, tag: string, w: string, pad: Pad, rest: string)
    requires w != [] && !IsSpace(w[0]) && w[0] != '['
    requires low == OpenTag(tag) + w + CloseTag(tag) + rest
    ensures FitsAt(low, tag, w, pad, 0)
  {
    var j := |OpenTag(tag)|;
    Pieces(low, OpenTag(tag), w, CloseTag(tag), rest);
    StartsAtHead(low, w, j);
    GapNone(low, j, pad, '[');
    StartsAtHead(low, CloseTag(tag), j + |w|);
    GapNone(low, j + |w|, pad, ']');
  }

  /** A text that never opens the tag reads no tag. */
  lemma NoOpenNoChoice(s: string, tag: string, words: seq<string>, pad: Pad)
    requires !Contains(Lower(s), OpenTag(tag))
    ensures Choice(s, tag, words, pad) == None
  {
  }

  lemma NoOpenNoBody(s: string, tag: string, dotAll: bool)
    requires !Contains(Lower(s), OpenTag(tag))
    ensures Body(s, tag, dotAll) == None
  {
  }

  /** A tag directly at the start whose body has no closing tag in it reads as its stripped body. */
  lemma BodyOfTag(s: string, tag: string, dotAll: bool, n: nat)
    requires |OpenTag(tag)| + n + |CloseTag(tag)| <= |s|
    requires StartsAt(Lower(s), OpenTag(tag), 0)
    requires StartsAt(Lower(s), CloseTag(tag), |OpenTag(tag)| + n)
    requires forall k :: |OpenTag(tag)| <= k < |OpenTag(tag)| + n ==> !StartsAt(Lower(s), CloseTag(tag), k)
    requires dotAll || '\n' !in Strip(s[|OpenTag(tag)|..|OpenTag(tag)| + n])
    ensures Body(s, tag, dotAll) == Some(Strip(s[|OpenTag(tag)|..|OpenTag(tag)| + n]))
  {
    BodyAtStart(s, Lower(s), tag, dotAll, n);
  }

  lemma BodyAtStart(s: string, low: string, tag: string, dotAll: bool, n: nat)
    requires |low| == |s| && |OpenTag(tag)| + n + |CloseTag(tag)| <= |s|
    requires StartsAt(low, OpenTag(tag), 0)
    requires StartsAt(low, CloseTag(tag), |OpenTag(tag)| + n)
    requires forall k :: |OpenTag(tag)| <= k < |OpenTag(tag)| + n ==> !StartsAt(low, CloseTag(tag), k)
    requires dotAll || '\n' !in Strip(s[|OpenTag(tag)|..|OpenTag(tag)| + n])
    ensures BodyFrom(s, low, tag, dotAll, 0) == Some(Strip(s[|OpenTag(tag)|..|OpenTag(tag)| + n]))
  {
    var j := |OpenTag(tag)|;
    FindFromFirst(low, CloseTag(tag), j, j + n);
  }

  lemma {:induction false} FindFromFirst(s: string, t: string, from: nat, at: nat)
    requires from <= at && StartsAt(s, t, at)
    requires forall k :: from <= k < at ==> !StartsAt(s, t, k)
    ensures FindFrom(s, t, from) == Some(at)
    decreases at - from
  {
    if from < at {
      FindFromFirst(s, t, from + 1, at);
    }
  }

  // ---------------------------------------------------------------------
  // `_parse_validation_response`

  datatype Validation = Validation(valid: bool, reasoning: string)

  const InvalidWords: seq<string> := ["invalid", "violation", "breaking", "inappropriate"]

  function ParseValidation(response: string): (r: Validation)
    ensures Choice(response, "valid", ["true", "false"], Spaced).None? ==>
      (r.valid <==> !AnyIn(Lower(response), InvalidWords))
  {
    match Choice(response, "valid", ["true", "false"], Spaced)
    case Some(v) =>
      var reasoning := Body(response, "reasoning", true);
      Validation(Lower(v) == "true", if reasoning.Some? then reasoning.value else "AI validation analysis")
    case None =>
      if AnyIn(Lower(response), InvalidWords) then Validation(false, "Invalid via fallback analysis")
      else Validation(true, "Valid via fallback analysis")
  }

  /** The tag decides the verdict, whatever keywords the rest of the text holds. */
  lemma ValidationReadsTag(response: string, valid: bool, rest: string)
    requires Lower(response) == OpenTag("valid") + (if valid then "true" else "false") + CloseTag("valid") + rest
    ensures ParseValidation(response).valid == valid
  {
    ChoiceOfTag(response, "valid", ["true", "false"], Spaced, if valid then 0 else 1, rest);
  }

  // ---------------------------------------------------------------------
  // `_parse_security_response`

  datatype Security = Security(threat: bool, reasoning: string)

  const ThreatWords: seq<string> := ["threat", "manipulation", "jailbreak", "suspicious"]

  function ParseSecurity(response: string): (r: Security)
    ensures Choice(response, "security", ["safe", "threat"], Spaced).None? ==>
      (r.threat <==> AnyIn(Lower(response), ThreatWords))
  {
    match Choice(response, "security", ["safe", "threat"], Spaced)
    case Some(v) =>
      var reasoning := Body(response, "reasoning", true);
      Security(Lower(v) == "threat", if reasoning.Some? then reasoning.value else "AI security analysis")
    case None =>
      if AnyIn(Lower(response), ThreatWords) then Security(true, "Threat detected via fallback analysis")
      else Security(false, "Safe via fallback analysis")
  }

  lemma SecurityReadsTag(response: string, threat: bool, rest: string)
    requires Lower(response) == OpenTag("security") + (if threat then "threat" else "safe") + CloseTag("security") + rest
    ensures ParseSecurity(response).threat == threat
  {
    ChoiceOfTag(response, "security", ["safe", "threat"], Spaced, if threat then 1 else 0, rest);
  }

  /** Without a tag, a text that never says "threat" or any other alarm word is safe. */
  lemma SecurityFallbackSafe(response: string)
    requires !Contains(Lower(response), OpenTag("security"))
    requires forall k :: 0 <= k < |ThreatWords| ==> !Contains(Lower(response), ThreatWords[k])
    ensures !ParseSecurity(response).threat
  {
    NoOpenNoChoice(response, "security", ["safe", "threat"], Spaced);
  }

  // ---------------------------------------------------------------------
  // `_parse_classification_response`

  datatype Classification = Classification(kind: string, confidence: string, reasoning: string)

  function ClassificationFallback(low: string): (r: Classification)
    ensures Contains(low, "question") ==> r.confidence == "medium"
    ensures !Contains(low, "question") && !Contains(low, "answer") && !Contains(low, "greeting") ==>
      r == Classification("statement", "low", "Fallback: default to statement")
  {
    if Contains(low, "question") then
      if Contains(low, "identity") || Contains(low, "name") then
        Classification("question_identity", "medium", "Fallback: detected identity question")
      else if Contains(low, "personal") then
        Classification("question_personal", "medium", "Fallback: detected personal question")
      else
        Classification("question_general", "medium", "Fallback: detected general question")
    else if Contains(low, "answer") then
      if Contains(low, "name") then Classification("answer_name", "medium", "Fallback: detected name answer")
      else Classification("answer_personal", "medium", "Fallback: detected personal answer")
    else if Contains(low, "greeting") then
      Classification("greeting", "medium", "Fallback: detected greeting")
    else
      Classification("statement", "low", "Fallback: default to statement")
  }

  function ParseClassification(response: string): (r: Classification)
    ensures Body(response, "classification", false).Some? ==>
      r.kind == Body(response, "classification", false).value && '\n' !in r.kind &&
      (r.confidence == "medium" || Lower(r.confidence) in ["high", "medium", "low"])
    ensures Body(response, "classification", false).None? ==> r == ClassificationFallback(Lower(response))
  {
    match Body(response, "classification", false)
    case Some(kind) =>
      var confidence := Choice(response, "confidence", ["high", "medium", "low"], Spaced);
      var reasoning := Body(response, "reasoning", true);
      Classification(kind, if confidence.Some? then confidence.value else "medium",
                     if reasoning.Some? then reasoning.value else "AI classification")
    case None => ClassificationFallback(Lower(response))
  }

  // ---------------------------------------------------------------------
  // `_parse_information_value_response`

  datatype InformationValue = InformationValue(level: string, reasoning: string, infoTypes: seq<string>)

  const ValueWords: seq<string> := ["high", "important", "valuable", "name", "personal"]

  /** `[t.strip() for t in types.split(",") if t.strip()]`. */
  function CleanParts(parts: seq<string>): (r: seq<string>)
    requires forall k :: 0 <= k < |parts| ==> ',' !in parts[k]
    ensures |r| <= |parts|
    ensures forall k :: 0 <= k < |r| ==> r[k] != [] && Strip(r[k]) == r[k] && ',' !in r[k]
  {
    if parts == [] then []
    else
      var t := Strip(parts[0]);
      StripIdempotent(parts[0]);
      StripShape(parts[0]);
      assert ',' !in t;
      if t != [] then [t] + CleanParts(parts[1..]) else CleanParts(parts[1..])
  }

  function InfoTypes(types: string): (r: seq<string>)
    ensures Lower(types) == "none" ==> r == []
    ensures forall k :: 0 <= k < |r| ==> r[k] != [] && Strip(r[k]) == r[k] && ',' !in r[k]
  {
    if Lower(types) == "none" then [] else CleanParts(Split(types, ','))
  }

  function ParseInformationValue(response: string): (r: InformationValue)
    ensures r.level in ["high", "moderate", "low", "none"]
    ensures Choice(response, "value", ["high", "moderate", "low", "none"], Spaced).None? ==> r.infoTypes == []
    ensures forall k :: 0 <= k < |r.infoTypes| ==> r.infoTypes[k] != [] && ',' !in r.infoTypes[k]
    ensures Choice(response, "value", ["high", "moderate", "low", "none"], Spaced).None? ==>
      (r.level == "moderate" <==> AnyIn(Lower(response), ValueWords)) &&
      (r.level == "low" <==> !AnyIn(Lower(response), ValueWords))
  {
    match Choice(response, "value", ["high", "moderate", "low", "none"], Spaced)
    case Some(v) =>
      var reasoning := Body(response, "reasoning", true);
      var types := Body(response, "info_types", false);
      InformationValue(Lower(v), if reasoning.Some? then reasoning.value else "AI value assessment",
                       if types.Some? then InfoTypes(types.value) else [])
    case None =>
      if AnyIn(Lower(response), ValueWords) then
        InformationValue("moderate", "Fallback: detected potentially valuable content", [])
      else InformationValue("low", "Fallback: standard content", [])
  }

  /** A leading `<value>` tag decides the level, whatever value words follow. */
  lemma InformationValueReadsTag(response: string, k: nat, rest: string)
    requires k < 4
    requires Lower(response) == OpenTag("value") + ["high", "moderate", "low", "none"][k] + CloseTag("value") + rest
    ensures ParseInformationValue(response).level == ["high", "moderate", "low", "none"][k]
  {
    ChoiceOfTag(response, "value", ["high", "moderate", "low", "none"], Spaced, k, rest);
  }

  /** A type list without a comma (and not "none") is the one stripped type. */
  lemma InfoTypesJoin(types: string)
    requires Lower(types) != "none" && ',' !in types && Strip(types) != []
    ensures InfoTypes(types) == [Strip(types)]
  {
    SplitNoSep(types, ',');
  }

  // ---------------------------------------------------------------------
  // `extract_enhanced_decision`: the reply decision and the flag.

  /** `marker\s*(w1|w2|...)` found at `i` of the lowered text. */
  predicate RuleAt(low: string, marker: string, words: seq<string>, i: nat)
  {
    StartsAt(low, marker, i) && exists k :: 0 <= k < |words| && StartsAt(low, words[k], SkipSpaces(low, i + |marker|))
  }

  datatype Rule = Rule(marker: string, words: seq<string>)

  predicate RuleFires(low: string, rule: Rule)
  {
    exists i :: 0 <= i <= |low| && RuleAt(low, rule.marker, rule.words, i)
  }

  predicate AnyRuleFires(low: string, rules: seq<Rule>)
  {
    exists k :: 0 <= k < |rules| && RuleFires(low, rules[k])
  }

  const ReplyRules: seq<Rule> := [
    Rule("should reply:", ["true", "yes"]),
    Rule("decision:", ["true", "yes", "reply"]),
    Rule("ai should respond:", ["true", "yes"]),
    Rule("response warranted:", ["true", "yes"]),
    Rule("appropriate to reply:", ["true", "yes"])]

  const NoReplyRules: seq<Rule> := [
    Rule("should reply:", ["false", "no"]),
    Rule("decision:", ["false", "no", "do not reply", "not reply"]),
    Rule("ai should respond:", ["false", "no"]),
    Rule("response warranted:", ["false", "no"]),
    Rule("appropriate to reply:", ["false", "no"])]

  datatype ReplyDecision = ReplyDecision(reply: bool, flagged: bool)

  /** Without a tag and without a rule, the majority of "true" over "false" decides; a tie is no reply. */
  function CountDecision(low: string): bool
  {
    Count(low, "true") > Count(low, "false")
  }

  function ExtractReply(raw: string): (r: ReplyDecision)
    ensures r.flagged ==> Contains(Lower(raw), "true") && Contains(Lower(raw), OpenTag("isflagged"))
  {
    var low := Lower(raw);
    var tag := Choice(raw, "shouldreply", ["true", "false"], Bracketed);
    var reply :=
      if tag.Some? then Lower(tag.value) == "true"
      else if AnyRuleFires(low, ReplyRules) then true
      else if AnyRuleFires(low, NoReplyRules) then false
      else CountDecision(low);
    var flag := Choice(raw, "isflagged", ["true", "false"], Bracketed);
    ReplyDecision(reply, flag.Some? && Lower(flag.value) == "true")
  }

  /** A rule only fires on one of its words. */
  lemma {:induction false} RuleFiresOnWord(low: string, rule: Rule) returns (k: nat)
    requires RuleFires(low, rule)
    ensures k < |rule.words| && Contains(low, rule.words[k])
  {
    var i :| 0 <= i <= |low| && RuleAt(low, rule.marker, rule.words, i);
    var j := SkipSpaces(low, i + |rule.marker|);
    k :| 0 <= k < |rule.words| && StartsAt(low, rule.words[k], j);
    ContainsAt(low, rule.words[k], j);
  }

  /** Every word a reply rule fires on is "true", "yes" or "reply". */
  lemma ReplyRuleWords(n: nat, k: nat)
    requires n < |ReplyRules| && k < |ReplyRules[n].words|
    ensures ReplyRules[n].words[k] in ["true", "yes", "reply"]
  {
    if n == 1 {
      assert ReplyRules[1].words == ["true", "yes", "reply"];
    } else {
      assert ReplyRules[n].words == ["true", "yes"];
    }
  }

  /** The decision to reply is never taken on a text without an affirmative word. */
  lemma ReplyNeedsAffirmation(raw: string)
    requires !Contains(Lower(raw), "true") && !Contains(Lower(raw), "yes") && !Contains(Lower(raw), "reply")
    ensures !ExtractReply(raw).reply
  {
    var low := Lower(raw);
    if AnyRuleFires(low, ReplyRules) {
      var n :| 0 <= n < |ReplyRules| && RuleFires(low, ReplyRules[n]);
      var k := RuleFiresOnWord(low, ReplyRules[n]);
      ReplyRuleWords(n, k);
    }
  }

  /** A leading `<shouldReply>` tag decides the reply, whatever the rest says. */
  lemma ReplyReadsTag(raw: string, reply: bool, rest: string)
    requires Lower(raw) == OpenTag("shouldreply") + (if reply then "true" else "false") + CloseTag("shouldreply") + rest
    ensures ExtractReply(raw).reply == reply
  {
    ChoiceOfTag(raw, "shouldreply", ["true", "false"], Bracketed, if reply then 0 else 1, rest);
  }

  /** A leading `<isflagged>` tag decides the flag, whatever the reply tag or words say. */
  lemma FlaggedReadsTag(raw: string, flagged: bool, rest: string)
    requires Lower(raw) == OpenTag("isflagged") + (if flagged then "true" else "false") + CloseTag("isflagged") + rest
    ensures ExtractReply(raw).flagged == flagged
  {
    ChoiceOfTag(raw, "isflagged", ["true", "false"], Bracketed, if flagged then 0 else 1, rest);
  }

  // ---------------------------------------------------------------------
  // `extract_intention_result`

  datatype Intent = Basic | Complex

  function ExtractIntent(raw: string): (r: Intent)
    ensures r == Basic ==> Contains(Lower(raw), "basic")
    ensures Choice(raw, "intent", ["basic", "complex"], Tight).None? ==>
      (r == Basic <==> Contains(Lower(raw), "basic") && !Contains(Lower(raw), "complex"))
  {
    match Choice(raw, "intent", ["basic", "complex"], Tight)
    case Some(v) => if Lower(v) == "basic" then Basic else Complex
    case None =>
      var low := Lower(raw);
      if Contains(low, "basic") && !Contains(low, "complex") then Basic
      else Complex
  }

  lemma IntentReadsTag(raw: string, basic: bool, rest: string)
    requires Lower(raw) == OpenTag("intent") + (if basic then "basic" else "complex") + CloseTag("intent") + rest
    ensures ExtractIntent(raw) == if basic then Basic else Complex
  {
    ChoiceOfTag(raw, "intent", ["basic", "complex"], Tight, if basic then 0 else 1, rest);
  }
}
