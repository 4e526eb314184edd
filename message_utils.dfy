// Helpers that recognise the assistant's own messages and render messages for
// the conversation context. A time is a count of microseconds since a
// midnight, so the wall-clock fields `%H:%M:%S` are its remainders.

module MessageUtils {
  import opened Wrappers
  import opened Text
  import opened ChatObjects

  /** The identifier the platforms give the assistant's own person. */
  const AiMarker: string := "ai_assistant"

  const MicrosPerSecond: int := 1_000_000

  /** `timedelta(minutes=5)`. */
  const ActiveWindow: int := 5 * 60 * MicrosPerSecond

  /** `is_ai_person`. */
  predicate IsAiPerson(p: Person?)
    reads if p == null then {} else {p.identifiers}
    ensures IsAiPerson(p) <==> p != null && AiMarker in p.GetIdentifiers(None)
  {
    p != null && AiMarker in p.identifiers.items
  }

  /** `is_ai_message`: the sender carries the assistant's identifier. */
  predicate IsAiMessage(m: Message?)
    reads if m == null then {} else {m.sender.identifiers}
    ensures IsAiMessage(m) <==> m != null && IsAiPerson(m.sender)
  {
    m != null && AiMarker in m.sender.identifiers.items
  }

  /** The first identifier that is not all (ASCII) digits. */
  function FirstName(ids: seq<string>): (r: Option<nat>)
    ensures r.Some? ==> r.value < |ids| && !IsDigits(ids[r.value])
    ensures r.Some? ==> forall j :: 0 <= j < r.value ==> IsDigits(ids[j])
    ensures r.None? ==> forall j :: 0 <= j < |ids| ==> IsDigits(ids[j])
    decreases |ids|
  {
    if ids == [] then None
    else if !IsDigits(ids[0]) then Some(0)
    else
      var rest := FirstName(ids[1..]);
      if rest.None? then None else Some(rest.value + 1)
  }

  /** What `get_sender_display_name` shows. */
  function DisplayName(m: Message?, includeAiIndicator: bool): string
    reads if m == null then {} else {m.sender.identifiers}
  {
    if m == null then "Unknown"
    else if IsAiMessage(m) then (if includeAiIndicator then "**YOU** (AI)" else "AI")
    else
      var ids := m.sender.identifiers.items;
      match FirstName(ids)
      case Some(i) => ids[i]
      case None => m.sender.personId
  }

  /** `get_sender_display_name`: the search loop over the identifiers. */
  method SenderDisplayName(m: Message?, includeAiIndicator: bool) returns (name: string)
    ensures name == DisplayName(m, includeAiIndicator)
  {
    if m == null {
      return "Unknown";
    }
    if AiMarker in m.sender.identifiers.items {
      return if includeAiIndicator then "**YOU** (AI)" else "AI";
    }
    var ids := m.sender.identifiers.items;
    var i := 0;
    while i < |ids|
      invariant 0 <= i <= |ids|
      invariant forall j :: 0 <= j < i ==> IsDigits(ids[j])
    {
      if !IsDigits(ids[i]) {
        FirstNameUnique(ids, i);
        return ids[i];
      }
      i := i + 1;
    }
    FirstNameUnique(ids, i);
    return m.sender.personId;
  }

  /** The first non-numeric identifier is determined by the all-digits prefix before it. */
  lemma FirstNameUnique(ids: seq<string>, i: nat)
    requires i <= |ids|
    requires forall j :: 0 <= j < i ==> IsDigits(ids[j])
    requires i < |ids| ==> !IsDigits(ids[i])
    ensures FirstName(ids) == if i < |ids| then Some(i) else None
  {
  }

  /** A shown name comes from the sender: an identifier that is not a number, or the id. */
  lemma DisplayNameOfHuman(m: Message, includeAiIndicator: bool)
    requires !IsAiMessage(m)
    ensures var name := DisplayName(m, includeAiIndicator);
      (name in m.sender.identifiers.items && !IsDigits(name)) ||
      (name == m.sender.personId && forall j :: 0 <= j < |m.sender.identifiers.items| ==> IsDigits(m.sender.identifiers.items[j]))
  {
  }

  // ---------------------------------------------------------------------------
  // Truncation

  const StartMark: string := "[MESSAGE START] "
  const EndMark: string := " [MESSAGE END]"

  /** The kept part of an over-long stripped content: its first `maxLength` characters, right-stripped. */
  function Cut(c: string, maxLength: int): (t: string)
    ensures t <= c
    ensures maxLength >= 0 ==> |t| <= maxLength
    ensures t == [] || !IsSpace(t[|t| - 1])
    ensures maxLength >= 0 ==>
      forall k :: |t| <= k < (if maxLength < |c| then maxLength else |c|) ==> IsSpace(c[k])
    ensures maxLength < 0 ==>
      forall k :: |t| <= k < (if |c| + maxLength > 0 then |c| + maxLength else 0) ==> IsSpace(c[k])
  {
    var p := Take(c, maxLength);
    TakeIsPrefix(c, maxLength);
    RStripShape(p);
    RStrip(p)
  }

  function Fits(c: string, maxLength: Option<int>): bool
  {
    maxLength.None? || |c| <= maxLength.value
  }

  /** The suffix reporting how much was cut. */
  function CutNote(n: nat): string
  {
    "... [TRUNCATED - " + NatToString(n) + " chars cut]"
  }

  /** The rendering of an already stripped content. */
  function FormatStripped(c: string, maxLength: Option<int>, showBoundaries: bool): (r: string)
    ensures !showBoundaries && Fits(c, maxLength) ==> r == c
    ensures showBoundaries && Fits(c, maxLength) ==> r == StartMark + c + EndMark
    ensures showBoundaries ==> StartMark <= r && r[|r| - |EndMark|..] == EndMark
  {
    if Fits(c, maxLength) then
      if showBoundaries then StartMark + c + EndMark else c
    else
      var t := Cut(c, maxLength.value);
      var body := t + CutNote(|c| - |t|);
      if showBoundaries then StartMark + body + EndMark else body
  }

  /** `format_message_content_with_truncation`: nothing for an empty content, else the stripped content rendered. */
  function FormatContent(content: string, maxLength: Option<int>, showBoundaries: bool): (r: string)
    ensures content == [] ==> r == []
    ensures content != [] && !showBoundaries && Fits(Strip(content), maxLength) ==> r == Strip(content)
    ensures content != [] && showBoundaries && Fits(Strip(content), maxLength) ==>
      r == StartMark + Strip(content) + EndMark
    ensures content != [] && showBoundaries ==> StartMark <= r && r[|r| - |EndMark|..] == EndMark
  {
    if content == [] then [] else FormatStripped(Strip(content), maxLength, showBoundaries)
  }

  /**
   * A cut content keeps a prefix of the stripped text no longer than the limit, and
   * reports the number of characters it dropped, at least one when the limit is not negative.
   */
  lemma TruncationReport(c: string, maxLength: int, showBoundaries: bool)
    requires !Fits(c, Some(maxLength))
    ensures var t := Cut(c, maxLength);
      t <= c && (maxLength >= 0 ==> |t| <= maxLength && |c| - |t| >= 1) &&
      FormatStripped(c, Some(maxLength), showBoundaries) ==
        (if showBoundaries then StartMark else "") + t + CutNote(|c| - |t|) + (if showBoundaries then EndMark else "")
  {
    CutLength(c, maxLength);
    CutLayout(c, maxLength, showBoundaries, Cut(c, maxLength));
  }

  /** A cut of a text over a non-negative limit drops at least one character. */
  lemma CutLength(c: string, maxLength: int)
    requires !Fits(c, Some(maxLength))
    ensures maxLength >= 0 ==> |c| - |Cut(c, maxLength)| >= 1
  {
  }

  lemma CutLayout(c: string, maxLength: int, showBoundaries: bool, t: string)
    requires !Fits(c, Some(maxLength)) && t == Cut(c, maxLength)
    ensures FormatStripped(c, Some(maxLength), showBoundaries) ==
      (if showBoundaries then StartMark else "") + t + CutNote(|c| - |t|) + (if showBoundaries then EndMark else "")
  {
    if showBoundaries {
      Regroup(StartMark, t, CutNote(|c| - |t|), EndMark);
    } else {
      Regroup("", t, CutNote(|c| - |t|), "");
    }
  }

  lemma Regroup(a: string, t: string, n: string, b: string)
    ensures a + (t + n) + b == a + t + n + b
    ensures a == [] && b == [] ==> a + t + n + b == t + n
  {
  }

  /** The count in the note reads back as the number of characters cut. */
  lemma CutNoteReadsBack(n: nat)
    ensures CutNote(n)[17..|CutNote(n)| - 11] == NatToString(n)
    ensures ParseInt(NatToString(n)) == Some(n)
  {
    ParseIntOfString(n);
  }

  // ---------------------------------------------------------------------------
  // Rendering a message for the context

  /** `strftime('%H:%M:%S')`. */
  function ClockText(t: int): (r: string)
    ensures |r| == 8 && r[2] == ':' && r[5] == ':'
  {
    var secs := t / MicrosPerSecond;
    TwoDigits(secs / 3600 % 24) + ":" + TwoDigits(secs / 60 % 60) + ":" + TwoDigits(secs % 60)
  }

  /** `format_message_for_context`. */
  function FormatForContext(m: Message?, maxLength: Option<int>, includeTimestamp: bool,
                            includeSender: bool, showBoundaries: bool): (r: string)
    reads if m == null then {} else {m, m.sender.identifiers}
    ensures m == null ==> r == "[INVALID MESSAGE]"
    ensures m != null ==> var body := FormatContent(m.content, maxLength, showBoundaries);
      |body| <= |r| && r[|r| - |body|..] == body
  {
    if m == null then "[INVALID MESSAGE]"
    else
      var stamp := if includeTimestamp then "[" + ClockText(m.createdAt) + "] " else "";
      var body := FormatContent(m.content, maxLength, showBoundaries);
      var r := if includeSender then stamp + DisplayName(m, true) + ": " + body else stamp + body;
      assert r[|r| - |body|..] == body;
      r
  }

  /** The sender's name follows the timestamp when both are asked for. */
  lemma ContextStartsWithStampAndName(m: Message, maxLength: Option<int>, showBoundaries: bool)
    ensures var r := FormatForContext(m, maxLength, true, true, showBoundaries);
      var head := "[" + ClockText(m.createdAt) + "] " + DisplayName(m, true) + ": ";
      head <= r && |r| == |head| + |FormatContent(m.content, maxLength, showBoundaries)|
  {
  }

  // ---------------------------------------------------------------------------
  // Context analysis

  datatype ContextSummary = ContextSummary(total: nat, ai: nat, user: nat, lastSenderWasAi: bool, active: bool)

  /** The number of the assistant's messages in `ms`. */
  function CountAi(ms: seq<Message>): (n: nat)
    reads set m | m in ms :: m.sender.identifiers
    ensures n <= |ms|
    decreases |ms|
  {
    if ms == [] then 0
    else CountAi(ms[..|ms| - 1]) + (if IsAiMessage(ms[|ms| - 1]) then 1 else 0)
  }

  /** The assistant's messages are counted exactly: none gives 0, all gives the length. */
  lemma {:induction false} CountAiExtremes(ms: seq<Message>)
    ensures CountAi(ms) == 0 <==> forall k :: 0 <= k < |ms| ==> !IsAiMessage(ms[k])
    ensures CountAi(ms) == |ms| <==> forall k :: 0 <= k < |ms| ==> IsAiMessage(ms[k])
    decreases |ms|
  {
    if ms != [] {
      var init := ms[..|ms| - 1];
      CountAiExtremes(init);
      assert forall k :: 0 <= k < |init| ==> init[k] == ms[k];
    }
  }

  /** `analyze_message_context`, without the floating-point participation ratio. */
  method AnalyzeContext(ms: seq<Message>, now: int) returns (r: ContextSummary)
    ensures r.total == |ms| && r.ai == CountAi(ms) && r.ai + r.user == r.total
    ensures r.lastSenderWasAi <==> ms != [] && IsAiMessage(ms[|ms| - 1])
    ensures r.active <==> ms != [] && now - ms[|ms| - 1].createdAt < ActiveWindow
  {
    if ms == [] {
      return ContextSummary(0, 0, 0, false, false);
    }
    var ai := 0;
    var user := 0;
    var i := 0;
    while i < |ms|
      invariant 0 <= i <= |ms|
      invariant ai == CountAi(ms[..i]) && ai + user == i
    {
      assert ms[..i + 1][..i] == ms[..i];
      if AiMarker in ms[i].sender.identifiers.items {
        ai := ai + 1;
      } else {
        user := user + 1;
      }
      i := i + 1;
    }
    assert ms[..i] == ms;
    var last := ms[|ms| - 1];
    var active := now - last.createdAt < ActiveWindow;
    return ContextSummary(|ms|, ai, user, AiMarker in last.sender.identifiers.items, active);
  }
}
