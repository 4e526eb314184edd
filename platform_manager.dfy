/**
 * The platform-independent handling of one incoming message: the reply decision
 * routes it to the flagged-content, reply or no-reply path, and the tools a reply
 * needs are executed into a dictionary keyed by tool name. What the language
 * model decides and generates, and whether a send succeeds, are parameters.
 */
module PlatformManagement {
  import opened Wrappers
  import opened Text
  import opened Json
  import opened Tools
  import opened FlaggedMessages

  // ---------------------------------------------------------------------------
  // Result keys: `name`, then `name_1`, `name_2`, ...

  /** The key probed at counter `k`: the bare name first, then `name_k`. */
  function Key(name: string, k: nat): string
  {
    if k == 0 then name else name + "_" + NatToString(k)
  }

  lemma KeyInjective(name: string, a: nat, b: nat)
    ensures Key(name, a) == Key(name, b) ==> a == b
  {
    if Key(name, a) == Key(name, b) && a != b {
      if a != 0 && b != 0 {
        var n := |name| + 1;
        assert Key(name, a)[n..] == NatToString(a);
        assert Key(name, b)[n..] == NatToString(b);
        DigitsValueOfNat(a);
        DigitsValueOfNat(b);
      }
    }
  }

  /** Distinct probes all taken need as many taken keys. */
  lemma {:induction false} ProbesBounded(keys: set<string>, name: string, n: nat)
    requires forall j :: 0 <= j < n ==> Key(name, j) in keys
    ensures n <= |keys|
    decreases n
  {
    if n > 0 {
      var x := Key(name, n - 1);
      var rest := keys - {x};
      forall j | 0 <= j < n - 1 ensures Key(name, j) in rest {
        KeyInjective(name, j, n - 1);
      }
      ProbesBounded(rest, name, n - 1);
    }
  }

  /** The smallest counter from `k` whose key is free. */
  function FreeIndex(keys: set<string>, name: string, k: nat): (r: nat)
    requires forall j :: 0 <= j < k ==> Key(name, j) in keys
    ensures k <= r && Key(name, r) !in keys
    ensures forall j :: 0 <= j < r ==> Key(name, j) in keys
    decreases |keys| - k
  {
    if Key(name, k) !in keys then k
    else
      ProbesBounded(keys, name, k + 1);
      FreeIndex(keys, name, k + 1)
  }

  /** The smallest free counter is the only counter with a free key and all smaller ones taken. */
  lemma FreeIndexUnique(keys: set<string>, name: string, c: nat)
    requires Key(name, c) !in keys && forall j :: 0 <= j < c ==> Key(name, j) in keys
    ensures FreeIndex(keys, name, 0) == c
  {
  }

  /** The key `_execute_tools` stores a result under, given the keys already used. */
  function FreeKey(keys: seq<string>, name: string): (r: string)
    ensures r !in keys
    ensures r == name <==> name !in keys
  {
    var c := FreeIndex((set k | k in keys), name, 0);
    KeyInjective(name, 0, c);
    Key(name, c)
  }

  /** The `while tool_key in results` probe. */
  method ChooseKey(keys: seq<string>, name: string) returns (key: string)
    ensures key == FreeKey(keys, name)
  {
    ghost var taken := set k | k in keys;
    key := name;
    var counter := 1;
    while key in keys
      invariant counter >= 1 && key == Key(name, counter - 1)
      invariant forall j :: 0 <= j < counter - 1 ==> Key(name, j) in taken
      decreases |taken| - (counter - 1)
    {
      ProbesBounded(taken, name, counter);
      key := name + "_" + NatToString(counter);
      counter := counter + 1;
    }
    FreeIndexUnique(taken, name, counter - 1);
  }

  // ---------------------------------------------------------------------------
  // `_execute_tools`

  function ErrorJson(e: Option<string>): Json
  {
    match e
    case Some(s) => JStr(s)
    case None => JNull
  }

  /** The dictionary stored for one call. */
  function EntryJson(success: bool, result: Json, error: Json, call: Json): Json
  {
    JObj([Field("success", JBool(success)), Field("result", result), Field("error", error), Field("tool_call", call)])
  }

  /** What one call contributes: an entry stored under its bare name, or under the first free key of its name. */
  datatype Stored = Overwrite(name: string, entry: Json) | Probe(name: string, entry: Json)

  /** `results[key] = entry` for one call. */
  function Store(acc: seq<Field>, s: Stored): seq<Field>
  {
    match s
    case Overwrite(name, entry) => Put(acc, name, entry)
    case Probe(name, entry) => acc + [Field(FreeKey(KeysOf(acc), name), entry)]
  }

  /** The dictionary the calls fill, one `Stored` after the other. */
  function StoreAll(ss: seq<Stored>): seq<Field>
    decreases |ss|
  {
    if ss == [] then [] else Store(StoreAll(ss[..|ss| - 1]), ss[|ss| - 1])
  }

  /** The fields of a call at one moment. */
  datatype CallView = CallView(name: string, primary: Json, params: Json)

  function Views(calls: seq<ToolCall>): (r: seq<CallView>)
    reads set c | c in calls
    ensures |r| == |calls|
    ensures forall i :: 0 <= i < |calls| ==> r[i] == CallView(calls[i].toolName, calls[i].primaryParam, calls[i].params)
  {
    seq(|calls|, i requires 0 <= i < |calls| reads set c | c in calls =>
      CallView(calls[i].toolName, calls[i].primaryParam, calls[i].params))
  }

  /**
   * What a call contributes, from its fields before execution: a call whose execution
   * raised `e` is stored under its bare name; an executed call under a free key of
   * its registered name, with the success, result and error of its execution.
   */
  function StoredOf(ts: seq<ToolDefinition>, v: CallView, invoked: Result<Json>, failure: Option<string>): Stored
  {
    match failure
    case Some(e) =>
      Overwrite(v.name, EntryJson(false, JNull, JStr("Tool execution failed: " + e), CallDict(v.name, v.primary, v.params)))
    case None =>
      var run := Outcome(ResolveTool(ts, v.name), v.name, invoked);
      var name := ResolvedName(ts, v.name);
      Probe(name, EntryJson(run.success, run.result, ErrorJson(run.error), CallDict(name, v.primary, v.params)))
  }

  function StoredSeq(ts: seq<ToolDefinition>, views: seq<CallView>, invoked: seq<Result<Json>>,
                     failures: seq<Option<string>>): (r: seq<Stored>)
    requires |invoked| == |views| && |failures| == |views|
    ensures |r| == |views|
    ensures forall i :: 0 <= i < |views| ==> r[i] == StoredOf(ts, views[i], invoked[i], failures[i])
  {
    seq(|views|, i requires 0 <= i < |views| => StoredOf(ts, views[i], invoked[i], failures[i]))
  }

  lemma StoreAllSnoc(ss: seq<Stored>, i: nat)
    requires i < |ss|
    ensures StoreAll(ss[..i + 1]) == Store(StoreAll(ss[..i]), ss[i])
  {
    assert ss[..i + 1][..i] == ss[..i];
  }

  /** The results are a dictionary: no key twice. */
  lemma {:induction false} StoreAllUnique(ss: seq<Stored>)
    ensures UniqueKeys(StoreAll(ss))
    decreases |ss|
  {
    if ss != [] {
      var acc := StoreAll(ss[..|ss| - 1]);
      StoreAllUnique(ss[..|ss| - 1]);
      match ss[|ss| - 1]
      case Overwrite(name, entry) => PutUnique(acc, name, entry);
      case Probe(name, entry) =>
        var k := FreeKey(KeysOf(acc), name);
        PutNew(acc, k, entry);
        PutUnique(acc, k, entry);
    }
  }

  /**
   * Without failures there is one entry per call, in order: the call at `i` is stored
   * under the first free key of its name among the keys of the calls before it.
   */
  lemma {:induction false} StoreAllProbes(ss: seq<Stored>)
    requires forall j :: 0 <= j < |ss| ==> ss[j].Probe?
    ensures |StoreAll(ss)| == |ss|
    ensures forall i :: 0 <= i < |ss| ==>
      StoreAll(ss)[i] == Field(FreeKey(KeysOf(StoreAll(ss)[..i]), ss[i].name), ss[i].entry)
    decreases |ss|
  {
    if ss != [] {
      var init := ss[..|ss| - 1];
      var acc := StoreAll(init);
      StoreAllProbes(init);
      var r := StoreAll(ss);
      var last := ss[|ss| - 1];
      assert r == acc + [Field(FreeKey(KeysOf(acc), last.name), last.entry)];
      forall i | 0 <= i < |ss|
        ensures r[i] == Field(FreeKey(KeysOf(r[..i]), ss[i].name), ss[i].entry)
      {
        if i < |ss| - 1 {
          assert r[..i] == acc[..i];
          assert init[i] == ss[i];
        } else {
          assert r[..i] == acc;
        }
      }
    }
  }

  /**
   * A call of a name no earlier result uses is stored under the bare name; otherwise
   * under `name_k` for the least `k >= 1` that is free.
   */
  lemma FirstUsesBareName(keys: seq<string>, name: string)
    ensures name !in keys ==> FreeKey(keys, name) == name
    ensures name in keys ==>
      exists k: nat ::
        k >= 1 && FreeKey(keys, name) == name + "_" + NatToString(k) &&
        forall j :: 1 <= j < k ==> name + "_" + NatToString(j) in keys
  {
    if name in keys {
      var c := FreeIndex((set k | k in keys), name, 0);
      assert c != 0;
      assert forall j :: 1 <= j < c ==> Key(name, j) == name + "_" + NatToString(j);
      assert FreeKey(keys, name) == name + "_" + NatToString(c);
    }
  }

  /** A failed call overwrites what is stored under its bare name and leaves every other key alone. */
  lemma FailureOverwrites(ss: seq<Stored>, k: string)
    requires ss != [] && ss[|ss| - 1].Overwrite?
    ensures var last := ss[|ss| - 1];
      var before := StoreAll(ss[..|ss| - 1]);
      Lookup(StoreAll(ss), last.name) == Some(last.entry) &&
      (k != last.name ==> Lookup(StoreAll(ss), k) == Lookup(before, k)) &&
      |StoreAll(ss)| == |before| + (if last.name in KeysOf(before) then 0 else 1)
  {
    var last := ss[|ss| - 1];
    PutKeys(StoreAll(ss[..|ss| - 1]), last.name, last.entry);
  }

  /** One pass of the `_execute_tools` loop: the call is executed unless it raised, and its entry stored. */
  method ExecuteOne(manager: ToolManager, c: ToolCall, invoked: Result<Json>, failure: Option<string>,
                    acc: seq<Field>, ghost stored: Stored) returns (results: seq<Field>)
    requires manager.Valid() && stored == StoredOf(manager.tools, CallView(c.toolName, c.primaryParam, c.params), invoked, failure)
    modifies c
    ensures results == Store(acc, stored)
    ensures c.toolName == (if failure.None? then ResolvedName(manager.tools, old(c.toolName)) else old(c.toolName))
    ensures c.primaryParam == old(c.primaryParam) && c.params == old(c.params)
  {
    if failure.Some? {
      results := Put(acc, c.toolName, EntryJson(false, JNull, JStr("Tool execution failed: " + failure.value), c.ToDict()));
    } else {
      var r := manager.ExecuteToolCall(c, invoked);
      var key := ChooseKey(KeysOf(acc), c.toolName);
      var entry := EntryJson(r.run.success, r.run.result, ErrorJson(r.run.error), r.call.ToDict());
      PutNew(acc, key, entry);
      results := Put(acc, key, entry);
    }
  }

  /**
   * `_execute_tools`: the calls in order, each executed by the manager (`invoked[i]`
   * is what its function does) unless `failures[i]` says `execute_tool_call` raised.
   * When the tool module cannot be imported the answer is `{}`. The calls are
   * distinct objects, as `parse_tool_calls_json` builds them.
   */
  method ExecuteTools(manager: ToolManager, calls: seq<ToolCall>, invoked: seq<Result<Json>>,
                      failures: seq<Option<string>>, importOk: bool) returns (results: seq<Field>)
    requires manager.Valid() && |invoked| == |calls| && |failures| == |calls|
    requires Distinct(calls)
    modifies set c | c in calls
    ensures results == if importOk then StoreAll(StoredSeq(manager.tools, old(Views(calls)), invoked, failures)) else []
    ensures forall i :: 0 <= i < |calls| ==>
      calls[i].toolName == (if importOk && failures[i].None? then ResolvedName(manager.tools, old(calls[i].toolName)) else old(calls[i].toolName)) &&
      calls[i].primaryParam == old(calls[i].primaryParam) && calls[i].params == old(calls[i].params)
  {
    if !importOk {
      return [];
    }
    ghost var views := Views(calls);
    ghost var ts := manager.tools;
    ghost var ss := StoredSeq(ts, views, invoked, failures);
    ghost var renamed := seq(|calls|, j requires 0 <= j < |calls| =>
      if failures[j].None? then ResolvedName(ts, views[j].name) else views[j].name);
    results := [];
    var i := 0;
    while i < |calls|
      invariant 0 <= i <= |calls|
      invariant results == StoreAll(ss[..i])
      invariant forall j :: 0 <= j < |calls| ==>
        calls[j].toolName == (if j < i then renamed[j] else views[j].name) &&
        calls[j].primaryParam == views[j].primary && calls[j].params == views[j].params
    {
      var c := calls[i];
      label Before:
      StoreAllSnoc(ss, i);
      results := ExecuteOne(manager, c, invoked[i], failures[i], results, ss[i]);
      assert c.toolName == renamed[i];
      forall j | 0 <= j < |calls| && j != i
        ensures calls[j].toolName == old@Before(calls[j].toolName)
        ensures calls[j].primaryParam == old@Before(calls[j].primaryParam) && calls[j].params == old@Before(calls[j].params)
      {
        assert calls[j] != c;
      }
      i := i + 1;
    }
    assert ss[..i] == ss;
  }

  // ---------------------------------------------------------------------------
  // `process_message` routing

  /** What `should_reply` answers. */
  datatype Verdict = Verdict(shouldReply: bool, reasoning: string, isFlagged: bool, flaggedLine: Option<string>)

  /** What the message handling does besides changing the flagged list, in order. */
  datatype Effect = RunTools(count: nat) | MemoryOps | Send(text: string) | SendFallback(text: string)

  /**
   * What the flagged-content path meets: whether the profile allows answering flagged
   * content, the generated response (Err when generating raised; "" for none) and
   * whether sending it succeeded.
   */
  datatype FlaggedRun = FlaggedRun(allowsResponse: bool, generated: Result<string>, sent: bool)

  /**
   * What the reply path meets: whether intent and tool detection returned, the number
   * of tools required, the generated response, whether sending it succeeded, and
   * whether sending the fallback text returned.
   */
  datatype ReplyRun = ReplyRun(detected: bool, toolCount: nat, generated: Result<string>, sent: bool, fallbackSent: bool)

  const FallbackText: string := "I'm having trouble generating a response right now. Please try again!"

  /** The flagged line is recorded only when there is one and it is not empty. */
  predicate RecordsLine(line: Option<string>)
  {
    line.Some? && line.value != ""
  }

  /** `_handle_flagged_content` apart from recording the line. */
  function FlaggedOutcome(run: FlaggedRun): (bool, seq<Effect>)
  {
    if !run.allowsResponse then (false, [])
    else match run.generated
      case Err(_) => (false, [])
      case Ok(text) => if text == "" then (false, []) else (run.sent, [Send(text)])
  }

  /** `_handle_reply`: tools when some are required, memory operations, then the response or the fallback. */
  function ReplyOutcome(run: ReplyRun): (bool, seq<Effect>)
  {
    var tools := if run.toolCount > 0 then [RunTools(run.toolCount)] else [];
    match run.generated
    case Err(_) => (run.fallbackSent, tools + [MemoryOps, SendFallback(FallbackText)])
    case Ok(text) => if text == "" then (false, tools + [MemoryOps]) else (run.sent, tools + [MemoryOps, Send(text)])
  }

  /** `_handle_no_reply`: memory operations, and no reply. */
  function NoReplyOutcome(): (r: (bool, seq<Effect>))
  {
    (false, [MemoryOps])
  }

  /**
   * `process_message`: an exception from the decision, or from intent or tool
   * detection, answers false; a flagged message takes the flagged path whatever
   * the reply decision; otherwise the decision picks the reply or no-reply path.
   */
  function Routed(verdict: Result<Verdict>, flagged: FlaggedRun, reply: ReplyRun): (bool, seq<Effect>)
  {
    match verdict
    case Err(_) => (false, [])
    case Ok(v) =>
      if v.isFlagged then FlaggedOutcome(flagged)
      else if v.shouldReply then (if reply.detected then ReplyOutcome(reply) else (false, []))
      else NoReplyOutcome()
  }

  /** The routes, one lemma for each branch of `process_message`. */
  lemma RoutingCases(verdict: Result<Verdict>, flagged: FlaggedRun, reply: ReplyRun)
    ensures verdict.Err? ==> Routed(verdict, flagged, reply) == (false, [])
    ensures verdict.Ok? && verdict.value.isFlagged ==>
      Routed(verdict, flagged, reply) == FlaggedOutcome(flagged) &&
      Routed(Ok(verdict.value.(shouldReply := !verdict.value.shouldReply)), flagged, reply) == FlaggedOutcome(flagged)
    ensures verdict.Ok? && !verdict.value.isFlagged && !verdict.value.shouldReply ==>
      Routed(verdict, flagged, reply) == (false, [MemoryOps])
  {
  }

  /** A message answered true was sent: the last effect is a send, of the response or of the fallback. */
  lemma {:induction false} TrueMeansSent(verdict: Result<Verdict>, flagged: FlaggedRun, reply: ReplyRun)
    ensures var r := Routed(verdict, flagged, reply);
      r.0 ==> |r.1| > 0 && (r.1[|r.1| - 1].Send? || r.1[|r.1| - 1].SendFallback?)
  {
  }

  /** Memory operations run exactly on the reply path past detection and on the no-reply path, never for flagged content. */
  lemma MemoryOpsWhen(verdict: Result<Verdict>, flagged: FlaggedRun, reply: ReplyRun)
    ensures MemoryOps in Routed(verdict, flagged, reply).1 <==>
      verdict.Ok? && !verdict.value.isFlagged && (!verdict.value.shouldReply || reply.detected)
  {
  }

  /**
   * `process_message` on a platform: the flagged path records the flagged line (with
   * the time `now`) before anything else; no other path changes the platform.
   */
  method ProcessMessage(platform: BasePlatform, messageId: string, chatId: string, verdict: Result<Verdict>,
                        flagged: FlaggedRun, reply: ReplyRun, now: int) returns (sent: bool, effects: seq<Effect>)
    modifies platform
    ensures (sent, effects) == Routed(verdict, flagged, reply)
    ensures verdict.Ok? && verdict.value.isFlagged && RecordsLine(verdict.value.flaggedLine) ==>
      platform.flagged == Cleaned(old(platform.flagged) + [Flagged(messageId, chatId, verdict.value.flaggedLine.value, now)], platform.maxFlagged)
    ensures !(verdict.Ok? && verdict.value.isFlagged && RecordsLine(verdict.value.flaggedLine)) ==> platform.flagged == old(platform.flagged)
    ensures platform.maxFlagged == old(platform.maxFlagged) && platform.activeChats == old(platform.activeChats)
  {
    if verdict.Err? {
      return false, [];
    }
    var v := verdict.value;
    if v.isFlagged {
      sent, effects := HandleFlaggedContent(platform, messageId, chatId, v.flaggedLine, flagged, now);
      return;
    }
    if v.shouldReply {
      if !reply.detected {
        return false, [];
      }
      sent, effects := HandleReply(reply);
    } else {
      sent, effects := HandleNoReply();
    }
  }

  /** `_handle_flagged_content`. */
  method HandleFlaggedContent(platform: BasePlatform, messageId: string, chatId: string, line: Option<string>,
                              run: FlaggedRun, now: int) returns (sent: bool, effects: seq<Effect>)
    modifies platform
    ensures (sent, effects) == FlaggedOutcome(run)
    ensures RecordsLine(line) ==>
      platform.flagged == Cleaned(old(platform.flagged) + [Flagged(messageId, chatId, line.value, now)], platform.maxFlagged)
    ensures !RecordsLine(line) ==> platform.flagged == old(platform.flagged)
    ensures platform.maxFlagged == old(platform.maxFlagged) && platform.activeChats == old(platform.activeChats)
  {
    if RecordsLine(line) {
      platform.AddFlagged(messageId, chatId, line.value, now);
    }
    sent, effects := false, [];
    if run.allowsResponse && run.generated.Ok? && run.generated.value != "" {
      effects := [Send(run.generated.value)];
      if run.sent {
        return true, effects;
      }
    }
  }

  /** `_handle_reply`, from the tool detection on. */
  method HandleReply(run: ReplyRun) returns (sent: bool, effects: seq<Effect>)
    ensures (sent, effects) == ReplyOutcome(run)
  {
    var tools := [];
    if run.toolCount > 0 {
      tools := [RunTools(run.toolCount)];
    }
    match run.generated {
      case Err(_) =>
        return run.fallbackSent, tools + [MemoryOps, SendFallback(FallbackText)];
      case Ok(text) =>
        if text != "" {
          effects := tools + [MemoryOps, Send(text)];
          if run.sent {
            return true, effects;
          }
          return false, effects;
        }
    }
    return false, tools + [MemoryOps];
  }

  /** `_handle_no_reply`. */
  method HandleNoReply() returns (sent: bool, effects: seq<Effect>)
    ensures !sent && effects == [MemoryOps]
  {
    effects := [MemoryOps];
    return false, effects;
  }
}
