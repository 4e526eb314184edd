/**
 * The tool registry of the agent: tool definitions by name, tool calls and their
 * dictionary form, the two syntaxes in which the model may ask for tools, and the
 * execution of calls. What a tool's function does when it is called is a parameter
 * of each execution; of the tools themselves only the argument checks of the
 * calculator and of the GIF search are modelled.
 */
module Tools {
  import opened Wrappers
  import opened Text
  import opened Json
  import TagParsers

  /** A tool's callable, by identity. */
  datatype ToolFn = ToolFn(id: nat)

  datatype ToolDefinition = ToolDefinition(
    name: string,
    callable: ToolFn,
    description: string,
    usage: string,
    parameters: seq<(string, string)>,
    examples: seq<string>,
    examplesWithParameters: seq<string>)

  // ---------------------------------------------------------------------------
  // The registry: a dict from names to definitions, in insertion order

  /** No name is registered twice, as in a dict. */
  predicate Registry(ts: seq<ToolDefinition>)
  {
    forall i, j :: 0 <= i < j < |ts| ==> ts[i].name != ts[j].name
  }

  /** `self.tools.get(name)`. */
  function FindTool(ts: seq<ToolDefinition>, name: string): (r: Option<ToolDefinition>)
    ensures r.Some? ==> r.value in ts && r.value.name == name
    ensures r.None? <==> forall i :: 0 <= i < |ts| ==> ts[i].name != name
    decreases |ts|
  {
    if ts == [] then None
    else if ts[0].name == name then Some(ts[0])
    else
      var r := FindTool(ts[1..], name);
      assert forall i :: 1 <= i < |ts| ==> ts[i] == ts[1..][i - 1];
      r
  }

  /** A registered definition is found under its own name. */
  lemma {:induction false} FindRegistered(ts: seq<ToolDefinition>, i: nat)
    requires Registry(ts) && i < |ts|
    ensures FindTool(ts, ts[i].name) == Some(ts[i])
    decreases i
  {
    if i > 0 {
      assert ts[0].name != ts[i].name;
      assert ts[1..][i - 1] == ts[i];
      FindRegistered(ts[1..], i - 1);
    }
  }

  /** `self.tools[t.name] = t`: a new name goes last (a registered one keeps its place, see `RegisterInPlace`). */
  function Register(ts: seq<ToolDefinition>, t: ToolDefinition): (r: seq<ToolDefinition>)
    ensures FindTool(ts, t.name).None? ==> r == ts + [t]
    decreases |ts|
  {
    if ts == [] then [t]
    else if ts[0].name == t.name then [t] + ts[1..]
    else [ts[0]] + Register(ts[1..], t)
  }

  /** A name already registered, first at index `i`, has its definition replaced in place. */
  lemma {:induction false} RegisterInPlace(ts: seq<ToolDefinition>, t: ToolDefinition, i: nat)
    requires i < |ts| && ts[i].name == t.name
    requires forall j :: 0 <= j < i ==> ts[j].name != t.name
    ensures Register(ts, t) == ts[i := t]
    decreases i
  {
    if i > 0 {
      var tail := ts[1..];
      assert tail[i - 1] == ts[i];
      forall j | 0 <= j < i - 1
        ensures tail[j].name != t.name
      {
        assert tail[j] == ts[j + 1];
      }
      RegisterInPlace(tail, t, i - 1);
      assert ts[i := t] == [ts[0]] + tail[i - 1 := t];
    }
  }

  /** After registering, the name finds the new definition and every other name what it found before. */
  lemma {:induction false} RegisterThenFind(ts: seq<ToolDefinition>, t: ToolDefinition, name: string)
    requires Registry(ts)
    ensures Registry(Register(ts, t))
    ensures FindTool(Register(ts, t), t.name) == Some(t)
    ensures name != t.name ==> FindTool(Register(ts, t), name) == FindTool(ts, name)
    decreases |ts|
  {
    if ts != [] && ts[0].name != t.name {
      var tail := ts[1..];
      var rest := Register(tail, t);
      RegisterThenFind(tail, t, name);
      RegisterNames(tail, t);
      assert Register(ts, t) == [ts[0]] + rest;
      forall k | 0 <= k < |rest| ensures ts[0].name != rest[k].name {
        if rest[k].name != t.name {
          var j :| 0 <= j < |tail| && tail[j].name == rest[k].name;
          assert ts[j + 1] == tail[j];
        }
      }
    }
  }

  /** Registering brings in no name but the new one. */
  lemma {:induction false} RegisterNames(ts: seq<ToolDefinition>, t: ToolDefinition)
    ensures forall k :: 0 <= k < |Register(ts, t)| ==>
      Register(ts, t)[k].name == t.name || exists j :: 0 <= j < |ts| && ts[j].name == Register(ts, t)[k].name
    decreases |ts|
  {
    if ts != [] && ts[0].name != t.name {
      var rest := Register(ts[1..], t);
      RegisterNames(ts[1..], t);
      assert Register(ts, t) == [ts[0]] + rest;
      forall k | 0 <= k < |rest| && rest[k].name != t.name
        ensures exists j :: 0 <= j < |ts| && ts[j].name == rest[k].name
      {
        var j :| 0 <= j < |ts[1..]| && ts[1..][j].name == rest[k].name;
        assert ts[j + 1].name == rest[k].name;
      }
    } else if ts != [] {
      forall k | 1 <= k < |ts| ensures ts[k].name == Register(ts, t)[k].name {
      }
    }
  }

  /** The first registered name equal to `low` once lower-cased. */
  function FindCaseless(ts: seq<ToolDefinition>, low: string): (r: Option<ToolDefinition>)
    ensures r.Some? ==> r.value in ts && Lower(r.value.name) == low
    ensures r.None? <==> forall i :: 0 <= i < |ts| ==> Lower(ts[i].name) != low
    decreases |ts|
  {
    if ts == [] then None
    else if Lower(ts[0].name) == low then Some(ts[0])
    else
      var r := FindCaseless(ts[1..], low);
      assert forall i :: 1 <= i < |ts| ==> ts[i] == ts[1..][i - 1];
      r
  }

  /** The definition `execute_tool_call` runs: the exact name first, then the first name equal to it ignoring case. */
  function ResolveTool(ts: seq<ToolDefinition>, name: string): (r: Option<ToolDefinition>)
    ensures FindTool(ts, name).Some? ==> r == FindTool(ts, name)
    ensures r.Some? ==> r.value in ts && Lower(r.value.name) == Lower(name)
    ensures r.None? <==> forall i :: 0 <= i < |ts| ==> Lower(ts[i].name) != Lower(name)
  {
    if FindTool(ts, name).Some? then FindTool(ts, name) else FindCaseless(ts, Lower(name))
  }

  /** The name a call carries after it has been executed: the registered spelling when one was found. */
  function ResolvedName(ts: seq<ToolDefinition>, name: string): string
  {
    if ResolveTool(ts, name).Some? then ResolveTool(ts, name).value.name else name
  }

  /** Executing a call again after its renaming finds the same tool and keeps the name. */
  lemma ResolveIdempotent(ts: seq<ToolDefinition>, name: string)
    requires Registry(ts)
    ensures ResolveTool(ts, ResolvedName(ts, name)) == ResolveTool(ts, name)
    ensures ResolvedName(ts, ResolvedName(ts, name)) == ResolvedName(ts, name)
  {
    if ResolveTool(ts, name).Some? {
      var d := ResolveTool(ts, name).value;
      var i :| 0 <= i < |ts| && ts[i] == d;
      FindRegistered(ts, i);
    }
  }

  // ---------------------------------------------------------------------------
  // Tool calls and their dictionary form

  /** `additional_params or {}`. */
  function OrEmpty(params: Json): Json
  {
    if Truthy(params) then params else JObj([])
  }

  /** `ToolCall.to_dict` of a call's three fields. */
  function CallDict(name: string, primary: Json, params: Json): Json
  {
    JObj([Field("tool", JStr(name)), Field("primary_param", primary), Field("params", params)])
  }

  /** `data.get(k, d)` on a dict. */
  function GetOr(fs: seq<Field>, k: string, d: Json): Json
  {
    match Lookup(fs, k)
    case Some(v) => v
    case None => d
  }

  /** The arguments `from_dict` passes to the constructor. */
  datatype CallArgs = CallArgs(tool: Json, primary: Json, params: Json)

  function FromDictArgs(data: seq<Field>): CallArgs
  {
    CallArgs(GetOr(data, "tool", JStr("")), GetOr(data, "primary_param", JStr("")), GetOr(data, "params", JObj([])))
  }

  /** A missing field takes its default: no tool, no primary parameter, no parameters. */
  lemma FromDictDefaults(data: seq<Field>)
    ensures "tool" !in KeysOf(data) ==> FromDictArgs(data).tool == JStr("")
    ensures "primary_param" !in KeysOf(data) ==> FromDictArgs(data).primary == JStr("")
    ensures OrEmpty(FromDictArgs(data).params) == JObj([]) <==>
      "params" !in KeysOf(data) || !Truthy(Lookup(data, "params").value)
  {
  }

  /** `from_dict(to_dict())` passes back the call's own fields. */
  lemma FromDictOfToDict(name: string, primary: Json, params: Json)
    ensures FromDictArgs(CallDict(name, primary, params).fields) == CallArgs(JStr(name), primary, params)
  {
    var fs := CallDict(name, primary, params).fields;
    assert fs[0].key == "tool" && fs[1].key == "primary_param" && fs[2].key == "params";
    assert "tool" != "primary_param" by { assert |"tool"| != |"primary_param"|; }
    assert "tool" != "params" && "primary_param" != "params" by {
      assert "tool"[0] != "params"[0];
      assert |"primary_param"| != |"params"|;
    }
    LookupFirst(fs, 0);
    LookupFirst(fs, 1);
    LookupFirst(fs, 2);
  }

  class ToolCall {
    var toolName: string
    var primaryParam: Json
    /** `additional_params`: a truthy value, or `{}`. */
    var params: Json

    /** `ToolCall(tool_name, primary_param, additional_params)`; None is passed as JNull. */
    constructor(toolName: string, primaryParam: Json, additionalParams: Json)
      ensures this.toolName == toolName && this.primaryParam == primaryParam
      ensures params == OrEmpty(additionalParams)
    {
      this.toolName := toolName;
      this.primaryParam := primaryParam;
      params := OrEmpty(additionalParams);
    }

    /** `to_dict`. */
    function ToDict(): Json
      reads this
    {
      CallDict(toolName, primaryParam, params)
    }

    /**
     * `from_dict` for a dict whose `"tool"` is a string or missing; a call with a
     * name of another type is not modelled, and null stands for it.
     */
    static method FromDict(data: seq<Field>) returns (c: ToolCall?)
      ensures c != null <==> FromDictArgs(data).tool.JStr?
      ensures c != null ==>
        fresh(c) &&
        c.toolName == FromDictArgs(data).tool.s &&
        c.primaryParam == FromDictArgs(data).primary &&
        c.params == OrEmpty(FromDictArgs(data).params)
    {
      var a := FromDictArgs(data);
      if !a.tool.JStr? {
        return null;
      }
      c := new ToolCall(a.tool.s, a.primary, a.params);
    }
  }

  /** A call rebuilt from its own dict has the same name, primary parameter and parameters. */
  lemma RoundTrip(name: string, primary: Json, additional: Json)
    ensures var p := OrEmpty(additional);
      var a := FromDictArgs(CallDict(name, primary, p).fields);
      a.tool == JStr(name) && a.primary == primary && OrEmpty(a.params) == p
  {
    FromDictOfToDict(name, primary, OrEmpty(additional));
  }

  /** What the call of a tool's function produced: its value, or the text of the exception it raised. */
  datatype Execution = Execution(result: Json, success: bool, error: Option<string>)

  /** `ToolResult`: the call (after any renaming) and what executing it produced. */
  datatype ToolResult = ToolResult(call: ToolCall, run: Execution)

  /** What `execute_tool_call` records for a call named `name` that resolved to `found`. */
  function Outcome(found: Option<ToolDefinition>, name: string, invoked: Result<Json>): (e: Execution)
    ensures e.success <==> found.Some? && invoked.Ok?
    ensures e.success ==> e.result == invoked.value && e.error.None?
    ensures found.None? ==> e.error == Some("Tool '" + name + "' not found") && e.result == JNull
  {
    if found.None? then Execution(JNull, false, Some("Tool '" + name + "' not found"))
    else match invoked
      case Ok(v) => Execution(v, true, None)
      case Err(msg) => Execution(JNull, false, Some("Tool execution error: " + msg))
  }

  // ---------------------------------------------------------------------------
  // `parse_tool_calls_json`

  /** How one decoded entry fares: skipped, kept, or raising TypeError on an unhashable name. */
  datatype Entry = Skip | Keep(args: CallArgs) | Raise

  function Classify(ts: seq<ToolDefinition>, item: Json): (r: Entry)
    ensures r.Keep? ==> item.JObj? && r.args == FromDictArgs(item.fields) && r.args.tool.JStr?
  {
    if !item.JObj? then Skip
    else
      var a := FromDictArgs(item.fields);
      if !Truthy(a.tool) then Skip
      else if a.tool.JList? || a.tool.JObj? then Raise
      else if a.tool.JStr? && FindTool(ts, a.tool.s).Some? then Keep(a)
      else Skip
  }

  /** The calls of the decoded list, in order; the first unhashable tool name raises. */
  function CallEntries(ts: seq<ToolDefinition>, items: seq<Json>): (r: Result<seq<CallArgs>>)
    ensures r.Ok? ==> |r.value| <= |items|
    ensures r.Ok? ==> forall i :: 0 <= i < |r.value| ==>
      r.value[i].tool.JStr? && FindTool(ts, r.value[i].tool.s).Some?
    decreases |items|
  {
    if items == [] then Ok([])
    else
      match CallEntries(ts, items[..|items| - 1])
      case Err(e) => Err(e)
      case Ok(v) =>
        match Classify(ts, items[|items| - 1])
        case Skip => Ok(v)
        case Raise => Err("TypeError: unhashable type")
        case Keep(a) => Ok(v + [a])
  }

  /** One more entry: it is skipped, raises, or adds its call at the end. */
  lemma CallEntriesStep(ts: seq<ToolDefinition>, items: seq<Json>, i: nat)
    requires i < |items| && CallEntries(ts, items[..i]).Ok?
    ensures CallEntries(ts, items[..i + 1]) ==
      match Classify(ts, items[i])
      case Skip => CallEntries(ts, items[..i])
      case Raise => Err("TypeError: unhashable type")
      case Keep(a) => Ok(CallEntries(ts, items[..i]).value + [a])
  {
    assert items[..i + 1][..i] == items[..i];
    assert items[..i + 1][i] == items[i];
  }

  /** Once an entry has raised, the whole parse raises. */
  lemma {:induction false} ErrorSticks(ts: seq<ToolDefinition>, items: seq<Json>, i: nat)
    requires i <= |items| && CallEntries(ts, items[..i]).Err?
    ensures CallEntries(ts, items).Err?
    decreases |items| - i
  {
    if i < |items| {
      assert items[..i + 1][..i] == items[..i];
      ErrorSticks(ts, items, i + 1);
    } else {
      assert items[..i] == items;
    }
  }

  /** A list holding the dict of a call to a registered tool parses back to that call. */
  lemma ParsesOwnCall(ts: seq<ToolDefinition>, name: string, primary: Json, params: Json)
    requires FindTool(ts, name).Some? && name != ""
    ensures CallEntries(ts, [CallDict(name, primary, params)]) == Ok([CallArgs(JStr(name), primary, params)])
  {
    var items := [CallDict(name, primary, params)];
    FromDictOfToDict(name, primary, params);
    assert items[..0] == [] && items[..1] == items;
    assert Classify(ts, items[0]) == Keep(CallArgs(JStr(name), primary, params));
    assert CallEntries(ts, items[..0]) == Ok([]);
    CallEntriesStep(ts, items, 0);
    assert [] + [CallArgs(JStr(name), primary, params)] == [CallArgs(JStr(name), primary, params)];
  }

  /**
   * The decoded calls of `content`: the text of its first `<toolCalls>` element,
   * stripped and decoded by `decode` (None for invalid JSON); a missing element,
   * invalid JSON or a value that is not a list give no calls.
   */
  function ParsedCalls(ts: seq<ToolDefinition>, content: string, decode: string -> Option<Json>): Result<seq<CallArgs>>
  {
    match TagParsers.Body(content, "toolcalls", true)
    case None => Ok([])
    case Some(text) =>
      match decode(text)
      case Some(JList(items)) => CallEntries(ts, items)
      case _ => Ok([])
  }

  /** A text without the opening tag asks for no tool. */
  lemma NoTagNoCalls(ts: seq<ToolDefinition>, content: string, decode: string -> Option<Json>)
    requires !Contains(Lower(content), TagParsers.OpenTag("toolcalls"))
    ensures ParsedCalls(ts, content, decode) == Ok([])
  {
    TagParsers.NoOpenNoBody(content, "toolcalls", true);
  }

  // ---------------------------------------------------------------------------
  // `parse_tool`: the legacy `<name>primary; key=value; ...</name>` syntax

  /** `\w`, over ASCII. */
  predicate WordChar(c: char)
  {
    IsAlnum(c) || c == '_'
  }

  /** The end of the run of word characters from `i`. */
  function WordEnd(s: string, i: nat): (j: nat)
    requires i <= |s|
    ensures i <= j <= |s| && (j == |s| || !WordChar(s[j]))
    ensures forall k :: i <= k < j ==> WordChar(s[k])
    decreases |s| - i
  {
    if i < |s| && WordChar(s[i]) then WordEnd(s, i + 1) else i
  }

  /** The end of the run of characters other than `<` from `i`. */
  function TextEnd(s: string, i: nat): (j: nat)
    requires i <= |s|
    ensures i <= j <= |s| && (j == |s| || s[j] == '<')
    ensures forall k :: i <= k < j ==> s[k] != '<'
    decreases |s| - i
  {
    if i < |s| && s[i] != '<' then TextEnd(s, i + 1) else i
  }

  /** The text `<name>text</name>`. */
  function Element(name: string, text: string): string
  {
    "<" + name + ">" + text + "</" + name + ">"
  }

  /** What `<(\w+)>([^<]+)</\1>` matches at `i`: the text there is `<name>text</name>`. */
  predicate TagMatch(s: string, i: nat, name: string, text: string)
  {
    TagParsers.StartsAt(s, Element(name, text), i) &&
    name != [] && (forall k :: 0 <= k < |name| ==> WordChar(name[k])) &&
    text != [] && '<' !in text
  }

  /** `a + b` occurs at `i` exactly when `a` does and `b` follows it. */
  lemma StartsAtConcat(s: string, a: string, b: string, i: nat)
    ensures TagParsers.StartsAt(s, a + b, i) <==>
      TagParsers.StartsAt(s, a, i) && TagParsers.StartsAt(s, b, i + |a|)
  {
    if i + |a| + |b| <= |s| {
      assert s[i..i + |a| + |b|] == s[i..i + |a|] + s[i + |a|..i + |a| + |b|];
      if s[i..i + |a| + |b|] == a + b {
        assert s[i..i + |a|] == (a + b)[..|a|];
        assert s[i + |a|..i + |a| + |b|] == (a + b)[|a|..];
      }
    }
  }

  /** An element is read off its pieces, and its pieces off the element. */
  lemma ElementAt(s: string, i: nat, name: string, text: string)
    requires i + 2 * |name| + |text| + 5 <= |s|
    ensures var j := i + 1 + |name|;
      var k := j + 1 + |text|;
      TagParsers.StartsAt(s, Element(name, text), i) <==>
        s[i] == '<' && s[i + 1..j] == name && s[j] == '>' && s[j + 1..k] == text &&
        s[k..k + |name| + 3] == "</" + name + ">"
  {
    var j := i + 1 + |name|;
    var k := j + 1 + |text|;
    var open := "<" + name + ">";
    var close := "</" + name + ">";
    assert Element(name, text) == open + text + close;
    StartsAtConcat(s, open + text, close, i);
    StartsAtConcat(s, open, text, i);
    StartsAtConcat(s, "<" + name, ">", i);
    StartsAtConcat(s, "<", name, i);
    assert TagParsers.StartsAt(s, "<", i) <==> s[i] == '<' by {
      assert s[i..i + 1] == [s[i]];
    }
    assert TagParsers.StartsAt(s, ">", j) <==> s[j] == '>' by {
      assert s[j..j + 1] == [s[j]];
    }
  }

  /** The regular expression at `i`, its groups read off greedily. */
  function ToolTagAt(s: string, i: nat): (r: Option<(string, string)>)
    ensures r.Some? ==> TagMatch(s, i, r.value.0, r.value.1)
  {
    if i < |s| && s[i] == '<' then
      var j := WordEnd(s, i + 1);
      if j > i + 1 && j < |s| && s[j] == '>' then
        var k := TextEnd(s, j + 1);
        var name := s[i + 1..j];
        var text := s[j + 1..k];
        if k > j + 1 && TagParsers.StartsAt(s, "</" + name + ">", k) then
          GroupsMatch(s, i, j, k);
          Some((name, text))
        else None
      else None
    else None
  }

  /** Runs of word characters and of text, between the right delimiters, are a match. */
  lemma GroupsMatch(s: string, i: nat, j: nat, k: nat)
    requires i + 1 < j && j + 1 < k <= |s| && s[i] == '<' && s[j] == '>'
    requires forall m :: i + 1 <= m < j ==> WordChar(s[m])
    requires forall m :: j + 1 <= m < k ==> s[m] != '<'
    requires TagParsers.StartsAt(s, "</" + s[i + 1..j] + ">", k)
    ensures TagMatch(s, i, s[i + 1..j], s[j + 1..k])
  {
    var name := s[i + 1..j];
    var text := s[j + 1..k];
    ElementAt(s, i, name, text);
    assert forall m :: 0 <= m < |name| ==> name[m] == s[i + 1 + m];
    assert forall c :: c in text ==> c != '<';
  }

  /** Every match of the expression at `i` is the one the greedy reading finds: backtracking finds no other. */
  lemma ToolTagAtComplete(s: string, i: nat, name: string, text: string)
    requires TagMatch(s, i, name, text)
    ensures ToolTagAt(s, i) == Some((name, text))
  {
    var j := i + 1 + |name|;
    var k := j + 1 + |text|;
    ElementAt(s, i, name, text);
    assert s[k] == '<' by {
      assert s[k..k + |name| + 3][0] == s[k];
    }
    assert forall m :: i + 1 <= m < j ==> WordChar(s[m]) by {
      forall m | i + 1 <= m < j ensures WordChar(s[m]) {
        assert s[m] == s[i + 1..j][m - i - 1];
      }
    }
    assert !WordChar('>');
    WordEndAt(s, i + 1, j);
    assert forall m :: j + 1 <= m < k ==> s[m] != '<' by {
      forall m | j + 1 <= m < k ensures s[m] != '<' {
        assert s[m] == text[m - j - 1];
        assert text[m - j - 1] in text;
      }
    }
    TextEndAt(s, j + 1, k);
    GreedyGroups(s, i, j, k);
  }

  /** The greedy reading at `i` once its runs are known to end at `j` and `k`. */
  lemma GreedyGroups(s: string, i: nat, j: nat, k: nat)
    requires i + 1 < j < k && k < |s| && s[i] == '<' && s[j] == '>'
    requires WordEnd(s, i + 1) == j && TextEnd(s, j + 1) == k && k > j + 1
    requires TagParsers.StartsAt(s, "</" + s[i + 1..j] + ">", k)
    ensures ToolTagAt(s, i) == Some((s[i + 1..j], s[j + 1..k]))
  {
  }

  lemma {:induction false} WordEndAt(s: string, i: nat, j: nat)
    requires i <= j < |s| && !WordChar(s[j]) && forall m :: i <= m < j ==> WordChar(s[m])
    ensures WordEnd(s, i) == j
    decreases j - i
  {
    if i < j {
      WordEndAt(s, i + 1, j);
    }
  }

  lemma {:induction false} TextEndAt(s: string, i: nat, j: nat)
    requires i <= j < |s| && s[j] == '<' && forall m :: i <= m < j ==> s[m] != '<'
    ensures TextEnd(s, i) == j
    decreases j - i
  {
    if i < j {
      TextEndAt(s, i + 1, j);
    }
  }

  /** `re.search`: the leftmost position from `from` where the expression matches, with its groups. */
  function SearchToolTag(s: string, from: nat): (r: Option<(nat, string, string)>)
    ensures r.Some? ==> from <= r.value.0 && ToolTagAt(s, r.value.0) == Some((r.value.1, r.value.2))
    ensures forall k :: from <= k && (r.None? || k < r.value.0) ==> ToolTagAt(s, k).None?
    decreases |s| - from
  {
    if from >= |s| then None
    else match ToolTagAt(s, from)
      case Some(m) => Some((from, m.0, m.1))
      case None => SearchToolTag(s, from + 1)
  }

  /** The first `=` of a part. */
  function FirstIndex(s: string, c: char): (i: nat)
    requires c in s
    ensures i < |s| && s[i] == c && c !in s[..i]
  {
    if s[0] == c then 0
    else
      assert c in s[1..];
      var i := FirstIndex(s[1..], c);
      assert s[..i + 1] == [s[0]] + s[1..][..i];
      i + 1
  }

  /** `int(value)` when that parses, else the text itself. */
  function ParamValue(value: string): Json
  {
    match ParseInt(value)
    case Some(n) => JInt(n)
    case None => JStr(value)
  }

  /** The stripped key of a `key=value` part, split at its first `=`. */
  function ParamKey(part: string): string
    requires '=' in part
  {
    Strip(part[..FirstIndex(part, '=')])
  }

  function ParamText(part: string): string
    requires '=' in part
  {
    Strip(part[FirstIndex(part, '=') + 1..])
  }

  /** The parameters the loop over the parts after the first builds; parts without `=` are skipped. */
  function ToolParams(parts: seq<string>): seq<Field>
    decreases |parts|
  {
    if parts == [] then []
    else
      var acc := ToolParams(parts[..|parts| - 1]);
      var p := parts[|parts| - 1];
      if '=' !in p then acc else Put(acc, ParamKey(p), ParamValue(ParamText(p)))
  }

  lemma ToolParamsStep(parts: seq<string>, i: nat)
    requires i < |parts|
    ensures ToolParams(parts[..i + 1]) ==
      if '=' !in parts[i] then ToolParams(parts[..i])
      else Put(ToolParams(parts[..i]), ParamKey(parts[i]), ParamValue(ParamText(parts[i])))
  {
    assert parts[..i + 1][..i] == parts[..i];
  }

  /** The value of the last part with key `k`, the reference reading of the parameters. */
  function LastParam(parts: seq<string>, k: string): Option<Json>
    decreases |parts|
  {
    if parts == [] then None
    else
      var p := parts[|parts| - 1];
      if '=' in p && ParamKey(p) == k then Some(ParamValue(ParamText(p)))
      else LastParam(parts[..|parts| - 1], k)
  }

  /** Later keys overwrite earlier ones: each key holds the value of its last part. */
  lemma {:induction false} ParamsLastWins(parts: seq<string>, k: string)
    ensures Lookup(ToolParams(parts), k) == LastParam(parts, k)
    decreases |parts|
  {
    if parts != [] {
      ParamsLastWins(parts[..|parts| - 1], k);
    }
  }

  /** The parameters never hold a key twice. */
  lemma {:induction false} ParamsUnique(parts: seq<string>)
    ensures UniqueKeys(ToolParams(parts))
    decreases |parts|
  {
    if parts != [] {
      ParamsUnique(parts[..|parts| - 1]);
      var p := parts[|parts| - 1];
      if '=' in p {
        PutUnique(ToolParams(parts[..|parts| - 1]), ParamKey(p), ParamValue(ParamText(p)));
      }
    }
  }

  /** A value written as an integer becomes that integer. */
  lemma IntegerParam(n: int)
    ensures ParamValue(IntToString(n)) == JInt(n)
  {
    ParseIntOfString(n);
  }

  /** What `parse_tool` answers when a registered tool is named. */
  datatype ParsedTool = ParsedTool(callable: ToolFn, primary: string, params: seq<Field>)

  // ---------------------------------------------------------------------------
  // The tools whose arguments are checked

  /** A character `calculator` accepts. */
  predicate CalcChar(c: char)
  {
    ('0' <= c <= '9') || c in "+-*/().^ "
  }

  /** `expression.replace(' ', '')`. */
  function RemoveSpaces(s: string): (r: string)
    ensures forall c :: c in r <==> c in s && c != ' '
    decreases |s|
  {
    if s == [] then []
    else
      var rest := RemoveSpaces(s[1..]);
      assert forall c :: c in s <==> c == s[0] || c in s[1..];
      if s[0] == ' ' then rest else [s[0]] + rest
  }

  /** `expression.replace('^', '**')`. */
  function ReplaceCaret(s: string): (r: string)
    ensures forall c :: c in r <==> (c in s && c != '^') || (c == '*' && '^' in s)
    decreases |s|
  {
    if s == [] then []
    else
      var rest := ReplaceCaret(s[1..]);
      assert forall c :: c in s <==> c == s[0] || c in s[1..];
      (if s[0] == '^' then "**" else [s[0]]) + rest
  }

  /**
   * `calculator`: the text is evaluated only when it holds nothing but digits,
   * operators, parentheses, dots and spaces; `evaluated` is what evaluating the
   * rewritten expression gives (its printed value, or the exception's text).
   */
  function Calculator(expression: string, evaluated: Result<string>): string
  {
    if !(forall c :: c in RemoveSpaces(expression) ==> CalcChar(c)) then "ERROR: Invalid characters in expression"
    else
      var e := ReplaceCaret(expression);
      match evaluated
      case Ok(v) => "## Calculation Result\nExpression: " + e + "\nResult: " + v
      case Err(msg) => "ERROR: Could not calculate '" + e + "': " + msg
  }

  /** The guard rejects exactly the expressions with a character outside the accepted set, and what is evaluated has none. */
  lemma CalculatorGuard(expression: string, evaluated: Result<string>)
    ensures (exists c :: c in expression && !CalcChar(c)) ==>
      Calculator(expression, evaluated) == "ERROR: Invalid characters in expression"
    ensures (forall c :: c in expression ==> CalcChar(c)) ==>
      (forall c :: c in RemoveSpaces(expression) ==> CalcChar(c)) &&
      forall c :: c in ReplaceCaret(expression) ==> CalcChar(c)
  {
    assert CalcChar(' ') && CalcChar('*');
  }

  /** The converse of the guard: an expression of accepted characters reaches evaluation, whose outcome is reported. */
  lemma CalculatorEvaluates(expression: string, evaluated: Result<string>)
    requires forall c :: c in expression ==> CalcChar(c)
    ensures var r := Calculator(expression, evaluated);
      (evaluated.Ok? ==> "## Calculation Result\nExpression: " <= r) &&
      (evaluated.Err? ==> "ERROR: Could not calculate '" <= r)
  {
    assert forall c :: c in RemoveSpaces(expression) ==> CalcChar(c);
  }

  const GifRatings: seq<string> := ["g", "pg", "pg-13", "r"]

  /** `min(max(1, num_results), 25)`. */
  function GifLimit(numResults: int): (r: int)
    ensures 1 <= r <= 25
    ensures 1 <= numResults <= 25 ==> r == numResults
    ensures numResults < 1 ==> r == 1
    ensures numResults > 25 ==> r == 25
  {
    var atLeastOne := if numResults > 1 then numResults else 1;
    if atLeastOne < 25 then atLeastOne else 25
  }

  /** The rating sent: the lower-cased rating when it is a valid one, else `"g"`. */
  function GifRating(rating: string): (r: string)
    ensures r in GifRatings
    ensures Lower(rating) in GifRatings ==> r == Lower(rating)
  {
    if Lower(rating) in GifRatings then Lower(rating) else "g"
  }

  /**
   * The query `gif_search` sends: none without an API key (`os.getenv` is the
   * `apiKey` parameter); the request and its answer are not modelled.
   */
  function GifRequest(apiKey: Option<string>, query: string, numResults: int, rating: string): (r: Result<seq<Field>>)
    ensures r.Err? <==> apiKey.None? || apiKey.value == ""
    ensures r.Ok? ==>
      Lookup(r.value, "limit") == Some(JInt(GifLimit(numResults))) &&
      Lookup(r.value, "rating") == Some(JStr(GifRating(rating)))
  {
    if apiKey.None? || apiKey.value == "" then
      Err("ERROR: GIPHY_API_KEY not found in environment variables. Please set up your Giphy API key.")
    else
      var fs := [Field("api_key", JStr(apiKey.value)), Field("q", JStr(query)), Field("limit", JInt(GifLimit(numResults))),
                 Field("rating", JStr(GifRating(rating))), Field("lang", JStr("en"))];
      assert |fs[0].key| == 7 && |fs[1].key| == 1 && |fs[2].key| == 5 && fs[2].key == "limit" && fs[3].key == "rating";
      LookupFirst(fs, 2);
      LookupFirst(fs, 3);
      Ok(fs)
  }

  /** The loop of `parse_tool` over the parts after the first `;`: each `key=value` part sets its key. */
  method ParseParams(rest: seq<string>) returns (params: seq<Field>)
    ensures params == ToolParams(rest)
  {
    params := [];
    var i := 0;
    while i < |rest|
      invariant 0 <= i <= |rest|
      invariant params == ToolParams(rest[..i])
    {
      var part := rest[i];
      ToolParamsStep(rest, i);
      if '=' in part {
        var eq := FirstIndex(part, '=');
        var key := Strip(part[..eq]);
        var value := Strip(part[eq + 1..]);
        var v: Json;
        var n := ParseInt(value);
        if n.Some? {
          v := JInt(n.value);
        } else {
          v := JStr(value);
        }
        assert key == ParamKey(part) && v == ParamValue(ParamText(part));
        params := Put(params, key, v);
      }
      i := i + 1;
    }
    assert rest[..i] == rest;
  }

  // ---------------------------------------------------------------------------
  // The manager

  class ToolManager {
    /** `self.tools`, in insertion order. */
    var tools: seq<ToolDefinition>

    predicate Valid()
      reads this
    {
      Registry(tools)
    }

    constructor()
      ensures tools == [] && Valid()
    {
      tools := [];
    }

    /** `get_tool`. */
    function GetTool(name: string): Option<ToolDefinition>
      reads this
    {
      FindTool(tools, name)
    }

    /** `define_tool`: registers the definition under its name, replacing one of the same name. */
    method DefineTool(name: string, callable: ToolFn, description: string, usage: string,
                      parameters: seq<(string, string)>, examples: seq<string>, examplesWithParameters: seq<string>)
      requires Valid()
      modifies this
      ensures Valid()
      ensures tools == Register(old(tools), ToolDefinition(name, callable, description, usage, parameters, examples, examplesWithParameters))
      ensures GetTool(name) == Some(ToolDefinition(name, callable, description, usage, parameters, examples, examplesWithParameters))
      ensures forall n :: n != name ==> GetTool(n) == old(GetTool(n))
    {
      var t := ToolDefinition(name, callable, description, usage, parameters, examples, examplesWithParameters);
      forall n | n != name ensures FindTool(Register(tools, t), n) == FindTool(tools, n) {
        RegisterThenFind(tools, t, n);
      }
      RegisterThenFind(tools, t, name);
      tools := Register(tools, t);
    }

    /**
     * `parse_tool`: the first `<name>...</name>` of the message, its text split at
     * `;` into the stripped primary parameter and `key=value` parameters; nothing when
     * there is no such element or it names no registered tool.
     */
    method ParseTool(message: string) returns (r: Option<ParsedTool>)
      ensures var m := SearchToolTag(message, 0);
        r.None? <==> m.None? || GetTool(m.value.1).None?
      ensures r.Some? ==>
        var m := SearchToolTag(message, 0).value;
        var parts := Split(m.2, ';');
        r.value == ParsedTool(GetTool(m.1).value.callable, Strip(parts[0]), ToolParams(parts[1..]))
    {
      var m := SearchToolTag(message, 0);
      if m.None? {
        return None;
      }
      var parts := Split(m.value.2, ';');
      var parameter := Strip(parts[0]);
      var params := ParseParams(parts[1..]);
      var tool := FindTool(tools, m.value.1);
      if tool.None? {
        return None;
      }
      return Some(ParsedTool(tool.value.callable, parameter, params));
    }

    /**
     * `execute_tool_call`: the exact name, else the first registered name equal to it
     * ignoring case, to which the call is then renamed; `invoked` is what calling the
     * tool's function with the call's parameters does.
     */
    method ExecuteToolCall(call: ToolCall, invoked: Result<Json>) returns (r: ToolResult)
      requires Valid()
      modifies call
      ensures call.toolName == ResolvedName(tools, old(call.toolName))
      ensures call.primaryParam == old(call.primaryParam) && call.params == old(call.params)
      ensures r.call == call
      ensures r.run == Outcome(ResolveTool(tools, old(call.toolName)), old(call.toolName), invoked)
    {
      var def := FindTool(tools, call.toolName);
      if def.None? {
        var low := Lower(call.toolName);
        var i := 0;
        while i < |tools|
          invariant 0 <= i <= |tools|
          invariant forall k :: 0 <= k < i ==> Lower(tools[k].name) != low
        {
          if Lower(tools[i].name) == low {
            assert FindCaseless(tools, low) == Some(tools[i]) by {
              CaselessFirst(tools, low, i);
            }
            def := FindTool(tools, tools[i].name);
            FindRegistered(tools, i);
            call.toolName := tools[i].name;
            break;
          }
          i := i + 1;
        }
      }
      if def.None? {
        return ToolResult(call, Execution(JNull, false, Some("Tool '" + call.toolName + "' not found")));
      }
      match invoked {
        case Ok(v) => r := ToolResult(call, Execution(v, true, None));
        case Err(msg) => r := ToolResult(call, Execution(JNull, false, Some("Tool execution error: " + msg)));
      }
    }

    lemma ResultsSnoc(rs: seq<ToolResult>, r: ToolResult, calls: seq<ToolCall>, runs: seq<Execution>)
      requires |rs| < |calls| && |rs| < |runs| && r.call == calls[|rs|] && r.run == runs[|rs|]
      requires forall j :: 0 <= j < |rs| ==> rs[j].call == calls[j] && rs[j].run == runs[j]
      ensures forall j :: 0 <= j < |rs| + 1 ==> (rs + [r])[j].call == calls[j] && (rs + [r])[j].run == runs[j]
    {
    }

    /** Positions holding the same object started with the same name. */
    ghost predicate Coherent(calls: seq<ToolCall>, names: seq<string>)
      requires |names| == |calls|
    {
      forall j, k :: 0 <= j < |calls| && 0 <= k < |calls| && calls[j] == calls[k] ==> names[j] == names[k]
    }

    /** Every call still has its first name or its resolved one, and those before `i` are resolved. */
    ghost predicate Renaming(current: seq<string>, names: seq<string>, renamed: seq<string>, i: nat)
      requires |names| == |current| && |renamed| == |current|
    {
      (forall j :: 0 <= j < |current| ==> current[j] == names[j] || current[j] == renamed[j]) &&
      (forall j :: 0 <= j < i && j < |current| ==> current[j] == renamed[j])
    }

    /** The names of the calls, read at one moment. */
    function NamesOf(calls: seq<ToolCall>): (r: seq<string>)
      reads set c | c in calls
      ensures |r| == |calls| && forall j :: 0 <= j < |calls| ==> r[j] == calls[j].toolName
    {
      seq(|calls|, j requires 0 <= j < |calls| reads set c | c in calls => calls[j].toolName)
    }

    /** Executing the call at `i` renames it and every position holding the same object, and no other. */
    lemma RenamingStep(calls: seq<ToolCall>, before: seq<string>, after: seq<string>, names: seq<string>,
                       renamed: seq<string>, i: nat)
      requires |before| == |calls| && |after| == |calls| && |names| == |calls| && |renamed| == |calls| && i < |calls|
      requires Renaming(before, names, renamed, i)
      requires forall j :: 0 <= j < |calls| && calls[j] == calls[i] ==> renamed[j] == renamed[i] && after[j] == after[i]
      requires after[i] == renamed[i]
      requires forall j :: 0 <= j < |calls| && calls[j] != calls[i] ==> after[j] == before[j]
      ensures Renaming(after, names, renamed, i + 1)
    {
    }

    /**
     * One step of `execute_tool_calls`: the call at `i` may already have been renamed
     * through an earlier position holding the same object.
     */
    method ExecuteAt(calls: seq<ToolCall>, i: nat, invoked: Result<Json>, ghost name: string) returns (r: ToolResult)
      requires Valid() && i < |calls|
      requires calls[i].toolName == name || calls[i].toolName == ResolvedName(tools, name)
      modifies calls[i]
      ensures r.call == calls[i] && r.run == Outcome(ResolveTool(tools, name), name, invoked)
      ensures calls[i].toolName == ResolvedName(tools, name)
    {
      ResolveIdempotent(tools, name);
      r := ExecuteToolCall(calls[i], invoked);
    }

    /** One pass of the `execute_tool_calls` loop: the result of the call at `i` is appended. */
    method ExecuteStep(calls: seq<ToolCall>, i: nat, invoked: Result<Json>, rs: seq<ToolResult>, ghost names: seq<string>,
                       ghost renamed: seq<string>, ghost runs: seq<Execution>) returns (rs': seq<ToolResult>)
      requires Valid() && i < |calls| && |rs| == i
      requires |names| == |calls| && |renamed| == |calls| && |runs| == |calls|
      requires renamed[i] == ResolvedName(tools, names[i]) && runs[i] == Outcome(ResolveTool(tools, names[i]), names[i], invoked)
      requires Coherent(calls, names) && Renaming(NamesOf(calls), names, renamed, i)
      requires forall j :: 0 <= j < |calls| && calls[j] == calls[i] ==> renamed[j] == renamed[i]
      requires forall j :: 0 <= j < i ==> rs[j].call == calls[j] && rs[j].run == runs[j]
      modifies calls[i]
      ensures Renaming(NamesOf(calls), names, renamed, i + 1)
      ensures |rs'| == i + 1 && forall j :: 0 <= j < i + 1 ==> rs'[j].call == calls[j] && rs'[j].run == runs[j]
    {
      ghost var before := NamesOf(calls);
      assert calls[i].toolName == names[i] || calls[i].toolName == renamed[i];
      var r := ExecuteAt(calls, i, invoked, names[i]);
      ghost var after := NamesOf(calls);
      assert forall j :: 0 <= j < |calls| && calls[j] != calls[i] ==> after[j] == before[j];
      RenamingStep(calls, before, after, names, renamed, i);
      ResultsSnoc(rs, r, calls, runs);
      rs' := rs + [r];
    }

    /** `execute_tool_calls`: one result per call, in order. */
    method ExecuteToolCalls(calls: seq<ToolCall>, invoked: seq<Result<Json>>) returns (rs: seq<ToolResult>)
      requires Valid() && |invoked| == |calls|
      modifies set c | c in calls
      ensures |rs| == |calls|
      ensures forall i :: 0 <= i < |calls| ==>
        rs[i].call == calls[i] &&
        rs[i].run == Outcome(ResolveTool(tools, old(calls[i].toolName)), old(calls[i].toolName), invoked[i])
      ensures forall i :: 0 <= i < |calls| ==> calls[i].toolName == ResolvedName(tools, old(calls[i].toolName))
    {
      ghost var ts := tools;
      ghost var names := NamesOf(calls);
      ghost var renamed := seq(|calls|, j requires 0 <= j < |calls| => ResolvedName(ts, names[j]));
      ghost var runs := seq(|calls|, j requires 0 <= j < |calls| =>
        Outcome(ResolveTool(ts, names[j]), names[j], invoked[j]));
      assert Coherent(calls, names);
      rs := [];
      var i := 0;
      while i < |calls|
        invariant 0 <= i <= |calls| && |rs| == i
        invariant names == old(NamesOf(calls))
        invariant Renaming(NamesOf(calls), names, renamed, i)
        invariant forall j :: 0 <= j < i ==> rs[j].call == calls[j] && rs[j].run == runs[j]
      {
        assert forall j :: 0 <= j < |calls| && calls[j] == calls[i] ==> renamed[j] == renamed[i] by {
          assert forall j :: 0 <= j < |calls| && calls[j] == calls[i] ==> names[j] == names[i];
        }
        rs := ExecuteStep(calls, i, invoked[i], rs, names, renamed, runs);
        i := i + 1;
      }
      assert Renaming(NamesOf(calls), names, renamed, |calls|);
    }

    /**
     * `parse_tool_calls_json`: one new call object for each entry `ParsedCalls` keeps.
     * An unhashable tool name raises TypeError out of the method.
     */
    method ParseToolCallsJson(content: string, decode: string -> Option<Json>) returns (r: Result<seq<ToolCall>>)
      ensures r.Ok? <==> ParsedCalls(tools, content, decode).Ok?
      ensures r.Ok? ==> CallsAre(r.value, ParsedCalls(tools, content, decode).value)
      ensures r.Ok? ==> forall c :: c in r.value ==> fresh(c)
      ensures r.Ok? ==> Distinct(r.value)
    {
      var body := TagParsers.Body(content, "toolcalls", true);
      if body.None? {
        return Ok([]);
      }
      var decoded := decode(body.value);
      if decoded.None? || !decoded.value.JList? {
        return Ok([]);
      }
      r := BuildCalls(decoded.value.items);
    }

    /** The loop of `parse_tool_calls_json` over the decoded list. */
    method BuildCalls(items: seq<Json>) returns (r: Result<seq<ToolCall>>)
      ensures r.Ok? <==> CallEntries(tools, items).Ok?
      ensures r.Ok? ==> CallsAre(r.value, CallEntries(tools, items).value)
      ensures r.Ok? ==> forall c :: c in r.value ==> fresh(c)
      ensures r.Ok? ==> Distinct(r.value)
    {
      var calls: seq<ToolCall> := [];
      ghost var spec: seq<CallArgs> := [];
      var i := 0;
      while i < |items|
        invariant 0 <= i <= |items|
        invariant CallEntries(tools, items[..i]) == Ok(spec)
        invariant CallsAre(calls, spec)
        invariant forall k :: 0 <= k < |calls| ==> fresh(calls[k])
        invariant Distinct(calls)
      {
        var raised;
        ghost var before := calls;
        raised, calls, spec := BuildStep(items, i, calls, spec);
        if raised {
          ErrorSticks(tools, items, i + 1);
          return Err("TypeError: unhashable type");
        }
        forall k | 0 <= k < |calls|
          ensures fresh(calls[k])
        {
          if k < |before| {
            assert calls[k] == calls[..|before|][k] == before[k];
          } else {
            assert k == |before| && |calls| == |before| + 1;
          }
        }
        i := i + 1;
      }
      assert items[..i] == items;
      assert forall c :: c in calls ==> fresh(c);
      return Ok(calls);
    }

    /** One entry of the loop: a raise, a skip, or a new call for a kept entry. */
    method BuildStep(items: seq<Json>, i: nat, calls: seq<ToolCall>, ghost spec: seq<CallArgs>)
      returns (raised: bool, calls': seq<ToolCall>, ghost spec': seq<CallArgs>)
      requires i < |items| && CallEntries(tools, items[..i]) == Ok(spec)
      requires CallsAre(calls, spec) && Distinct(calls)
      ensures raised <==> CallEntries(tools, items[..i + 1]).Err?
      ensures !raised ==> CallEntries(tools, items[..i + 1]) == Ok(spec')
      ensures !raised ==> CallsAre(calls', spec') && Distinct(calls')
      ensures |calls'| == |calls| || (|calls'| == |calls| + 1 && fresh(calls'[|calls|]))
      ensures calls'[..|calls|] == calls
    {
      CallEntriesStep(tools, items, i);
      match Classify(tools, items[i]) {
        case Raise =>
          return true, calls, spec;
        case Skip =>
          return false, calls, spec;
        case Keep(a) =>
          calls' := AppendCall(calls, spec, items[i].fields, a);
          return false, calls', spec + [a];
      }
    }
  }

  /** One kept entry of `parse_tool_calls_json`: a new call object built from the dict, appended. */
  method AppendCall(calls: seq<ToolCall>, ghost spec: seq<CallArgs>, data: seq<Field>, ghost a: CallArgs)
    returns (calls': seq<ToolCall>)
    requires CallsAre(calls, spec) && Distinct(calls)
    requires a == FromDictArgs(data) && a.tool.JStr?
    ensures |calls'| == |calls| + 1 && calls' == calls + [calls'[|calls|]] && fresh(calls'[|calls|])
    ensures CallsAre(calls', spec + [a]) && Distinct(calls')
  {
    var c := ToolCall.FromDict(data);
    CallsAreSnoc(calls, spec, c, a);
    DistinctSnoc(calls, c);
    calls' := calls + [c];
  }

  lemma CallsAreSnoc(calls: seq<ToolCall>, spec: seq<CallArgs>, c: ToolCall, a: CallArgs)
    requires CallsAre(calls, spec) && a.tool.JStr?
    requires c.toolName == a.tool.s && c.primaryParam == a.primary && c.params == OrEmpty(a.params)
    ensures CallsAre(calls + [c], spec + [a])
  {
    assert forall k :: 0 <= k < |spec| ==> (calls + [c])[k] == calls[k] && (spec + [a])[k] == spec[k];
  }

  lemma DistinctSnoc<T>(s: seq<T>, x: T)
    requires Distinct(s) && x !in s
    ensures Distinct(s + [x])
  {
  }

  /** The calls hold, one by one, the arguments of the entries. */
  predicate CallsAre(calls: seq<ToolCall>, spec: seq<CallArgs>)
    reads set c | c in calls
  {
    |calls| == |spec| &&
    forall k :: 0 <= k < |spec| ==>
      spec[k].tool.JStr? && calls[k].toolName == spec[k].tool.s && calls[k].primaryParam == spec[k].primary &&
      calls[k].params == OrEmpty(spec[k].params)
  }

  /** The case-insensitive search finds the first registered name that matches. */
  lemma {:induction false} CaselessFirst(ts: seq<ToolDefinition>, low: string, i: nat)
    requires i < |ts| && Lower(ts[i].name) == low && forall k :: 0 <= k < i ==> Lower(ts[k].name) != low
    ensures FindCaseless(ts, low) == Some(ts[i])
    decreases i
  {
    if i > 0 {
      assert ts[1..][i - 1] == ts[i];
      CaselessFirst(ts[1..], low, i - 1);
    }
  }
}
