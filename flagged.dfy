// The state every chat platform shares: the list of flagged messages, bounded per
// chat by keeping each chat's most recent entries, and the list of active chats,
// those with a message in the last minute.
//
// Time is an explicit parameter in microseconds since the epoch (UTC).

module FlaggedMessages {
  import opened Wrappers
  import opened Text
  import opened Sorting

  /** The limit when no settings manager is attached. */
  const DefaultMaxFlagged: int := 5

  /** One minute, the window within which a chat counts as active. */
  const ActiveWindow: int := 60 * 1_000_000

  datatype Flagged = Flagged(messageId: string, chatId: string, line: string, timestamp: int)

  function TimeKey(): Flagged -> int
  {
    (f: Flagged) => f.timestamp
  }

  /** The entries of one chat, in list order (`get_flagged_messages_for_chat`). */
  function OfChat(s: seq<Flagged>, c: string): (r: seq<Flagged>)
    ensures |r| <= |s|
    ensures forall k :: 0 <= k < |r| ==> r[k].chatId == c
    decreases |s|
  {
    if s == [] then []
    else
      var init := OfChat(s[..|s| - 1], c);
      if s[|s| - 1].chatId == c then init + [s[|s| - 1]] else init
  }

  lemma {:induction false} OfChatMembers(s: seq<Flagged>, c: string)
    ensures forall e :: e in OfChat(s, c) <==> e in s && e.chatId == c
    decreases |s|
  {
    if s != [] {
      OfChatMembers(s[..|s| - 1], c);
      assert s == s[..|s| - 1] + [s[|s| - 1]];
    }
  }

  /** The chats of the entries, each once, in the order they first appear. */
  function ChatOrder(s: seq<Flagged>): (r: seq<string>)
    ensures forall c :: c in r <==> exists k :: 0 <= k < |s| && s[k].chatId == c
    ensures forall i, j :: 0 <= i < j < |r| ==> r[i] != r[j]
    decreases |s|
  {
    if s == [] then []
    else
      var o := ChatOrder(s[..|s| - 1]);
      assert forall k :: 0 <= k < |s| - 1 ==> s[..|s| - 1][k] == s[k];
      if s[|s| - 1].chatId in o then o else o + [s[|s| - 1].chatId]
  }

  /** The most recent `limit` entries of one chat, newest first (Python's slice `[:limit]`). */
  function Newest(s: seq<Flagged>, c: string, limit: int): seq<Flagged>
  {
    Take(SortDesc(OfChat(s, c), TimeKey()), limit)
  }

  /** The kept entries of the chats in `order`, chat after chat. */
  function Kept(s: seq<Flagged>, order: seq<string>, limit: int): seq<Flagged>
    decreases |order|
  {
    if order == [] then []
    else Kept(s, order[..|order| - 1], limit) + Newest(s, order[|order| - 1], limit)
  }

  /** `_cleanup_flagged_messages`: grouped by chat in first-seen order, each chat cut to its newest entries. */
  function Cleaned(s: seq<Flagged>, limit: int): seq<Flagged>
  {
    Kept(s, ChatOrder(s), limit)
  }

  /** `any(flagged["message_id"] == id for flagged in entries)`. */
  function AnyWithId(s: seq<Flagged>, id: string): (b: bool)
    ensures b <==> exists k :: 0 <= k < |s| && s[k].messageId == id
  {
    if s == [] then false
    else
      assert forall k :: 1 <= k < |s| ==> s[1..][k - 1] == s[k];
      s[0].messageId == id || AnyWithId(s[1..], id)
  }

  /** The entries `remove_flagged_messages_not_in_context` keeps: other chats' and, of this chat, those still in context. */
  function InContext(s: seq<Flagged>, chat: string, ids: seq<string>): (r: seq<Flagged>)
    ensures forall e :: e in r <==> e in s && (e.chatId != chat || e.messageId in ids)
    decreases |s|
  {
    if s == [] then []
    else
      var init := InContext(s[..|s| - 1], chat, ids);
      var e := s[|s| - 1];
      assert s == s[..|s| - 1] + [e];
      if e.chatId != chat || e.messageId in ids then init + [e] else init
  }

  /** Removing one chat's stale entries leaves every other chat's entries as they were, in order. */
  lemma {:induction false} InContextOtherChats(s: seq<Flagged>, chat: string, ids: seq<string>, c: string)
    requires c != chat
    ensures OfChat(InContext(s, chat, ids), c) == OfChat(s, c)
    decreases |s|
  {
    if s != [] {
      var init := InContext(s[..|s| - 1], chat, ids);
      var e := s[|s| - 1];
      InContextOtherChats(s[..|s| - 1], chat, ids, c);
      if e.chatId != chat || e.messageId in ids {
        assert (init + [e])[..|init + [e]| - 1] == init;
      }
    }
  }

  // ---------------------------------------------------------------------------
  // The properties of cleanup

  lemma {:induction false} OfChatAppend(a: seq<Flagged>, b: seq<Flagged>, c: string)
    ensures OfChat(a + b, c) == OfChat(a, c) + OfChat(b, c)
    decreases |b|
  {
    if b == [] {
      assert a + b == a;
    } else {
      var b' := b[..|b| - 1];
      OfChatAppend(a, b', c);
      assert (a + b)[..|a + b| - 1] == a + b';
      assert (a + b)[|a + b| - 1] == b[|b| - 1];
    }
  }

  /** A list of one chat's entries is its own filter. */
  lemma {:induction false} OfChatOwn(s: seq<Flagged>, c: string)
    requires forall k :: 0 <= k < |s| ==> s[k].chatId == c
    ensures OfChat(s, c) == s
    decreases |s|
  {
    if s != [] {
      OfChatOwn(s[..|s| - 1], c);
      assert s == s[..|s| - 1] + [s[|s| - 1]];
    }
  }

  lemma {:induction false} OfChatOther(s: seq<Flagged>, c: string)
    requires forall k :: 0 <= k < |s| ==> s[k].chatId != c
    ensures OfChat(s, c) == []
    decreases |s|
  {
    if s != [] {
      OfChatOther(s[..|s| - 1], c);
    }
  }

  lemma NewestIsOwn(s: seq<Flagged>, d: string, limit: int)
    ensures forall k :: 0 <= k < |Newest(s, d, limit)| ==> Newest(s, d, limit)[k].chatId == d
  {
    var o := OfChat(s, d);
    var sorted := SortDesc(o, TimeKey());
    SortPerm(o, TimeKey());
    forall k | 0 <= k < |Newest(s, d, limit)|
      ensures Newest(s, d, limit)[k].chatId == d
    {
      assert Newest(s, d, limit)[k] == sorted[k];
      assert sorted[k] in multiset(o);
    }
  }

  lemma {:induction false} KeptOfChat(s: seq<Flagged>, order: seq<string>, limit: int, c: string)
    requires forall i, j :: 0 <= i < j < |order| ==> order[i] != order[j]
    ensures OfChat(Kept(s, order, limit), c) == if c in order then Newest(s, c, limit) else []
    decreases |order|
  {
    if order != [] {
      var init := order[..|order| - 1];
      var d := order[|order| - 1];
      assert order == init + [d];
      KeptOfChat(s, init, limit, c);
      OfChatAppend(Kept(s, init, limit), Newest(s, d, limit), c);
      NewestIsOwn(s, d, limit);
      if d == c {
        OfChatOwn(Newest(s, d, limit), c);
        assert c !in init;
      } else {
        OfChatOther(Newest(s, d, limit), c);
      }
    }
  }

  /** After cleanup each chat holds exactly its newest `limit` entries, newest first. */
  lemma CleanedOfChat(s: seq<Flagged>, limit: int, c: string)
    ensures OfChat(Cleaned(s, limit), c) == Newest(s, c, limit)
  {
    KeptOfChat(s, ChatOrder(s), limit, c);
    if c !in ChatOrder(s) {
      OfChatOther(s, c);
    }
  }

  /**
   * Each chat holds at most `limit` entries after cleanup, ordered newest first and drawn from its own
   * entries; a chat within the limit keeps all of them. That the kept ones are the newest is `CleanedOfChat`.
   */
  lemma CleanedIsBounded(s: seq<Flagged>, limit: int, c: string)
    requires limit >= 0
    ensures var kept := OfChat(Cleaned(s, limit), c);
      |kept| <= limit &&
      (forall i, j :: 0 <= i < j < |kept| ==> kept[i].timestamp >= kept[j].timestamp) &&
      multiset(kept) <= multiset(OfChat(s, c))
    ensures |OfChat(s, c)| <= limit ==> multiset(OfChat(Cleaned(s, limit), c)) == multiset(OfChat(s, c))
  {
    CleanedOfChat(s, limit, c);
    NewestOf(OfChat(s, c), limit);
  }

  /** The newest `limit` entries of a list, by time: few enough, newest first, taken from the list. */
  lemma NewestOf(xs: seq<Flagged>, limit: int)
    requires limit >= 0
    ensures var kept := Take(SortDesc(xs, TimeKey()), limit);
      |kept| <= limit &&
      (forall i, j :: 0 <= i < j < |kept| ==> kept[i].timestamp >= kept[j].timestamp) &&
      multiset(kept) <= multiset(xs) &&
      (|xs| <= limit ==> multiset(kept) == multiset(xs))
  {
    var sorted := SortDesc(xs, TimeKey());
    SortPerm(xs, TimeKey());
    var kept := Take(sorted, limit);
    if limit < |sorted| {
      assert sorted == kept + sorted[limit..];
    } else {
      assert kept == sorted;
    }
    forall i, j | 0 <= i < j < |kept|
      ensures kept[i].timestamp >= kept[j].timestamp
    {
      assert TimeKey()(sorted[i]) >= TimeKey()(sorted[j]);
    }
  }

  /** The entries of the chats not in `order`. */
  function Others(s: seq<Flagged>, order: seq<string>): seq<Flagged>
    decreases |s|
  {
    if s == [] then []
    else
      var init := Others(s[..|s| - 1], order);
      if s[|s| - 1].chatId in order then init else init + [s[|s| - 1]]
  }

  lemma {:induction false} OthersSplit(s: seq<Flagged>, order: seq<string>, c: string)
    requires c !in order
    ensures multiset(Others(s, order)) == multiset(OfChat(s, c)) + multiset(Others(s, order + [c]))
    decreases |s|
  {
    if s != [] {
      OthersSplit(s[..|s| - 1], order, c);
    }
  }

  lemma {:induction false} KeptPart(s: seq<Flagged>, order: seq<string>, limit: int)
    requires forall i, j :: 0 <= i < j < |order| ==> order[i] != order[j]
    ensures multiset(Kept(s, order, limit)) + multiset(Others(s, order)) <= multiset(s)
    decreases |order|
  {
    if order == [] {
      OthersNone(s);
    } else {
      var init := order[..|order| - 1];
      var d := order[|order| - 1];
      assert order == init + [d];
      assert d !in init by {
        assert forall i :: 0 <= i < |init| ==> init[i] == order[i];
      }
      KeptPart(s, init, limit);
      OthersSplit(s, init, d);
      NewestIsPart(s, d, limit);
      assert Kept(s, order, limit) == Kept(s, init, limit) + Newest(s, d, limit);
    }
  }

  /** Cutting a chat to its newest entries keeps only entries of that chat. */
  lemma NewestIsPart(s: seq<Flagged>, c: string, limit: int)
    ensures multiset(Newest(s, c, limit)) <= multiset(OfChat(s, c))
  {
    var sorted := SortDesc(OfChat(s, c), TimeKey());
    SortPerm(OfChat(s, c), TimeKey());
    TakeIsPrefix(sorted, limit);
    PrefixMultiset(Take(sorted, limit), sorted);
  }

  lemma {:induction false} OthersNone(s: seq<Flagged>)
    ensures Others(s, []) == s
    decreases |s|
  {
    if s != [] {
      OthersNone(s[..|s| - 1]);
      assert s == s[..|s| - 1] + [s[|s| - 1]];
    }
  }

  /** Cleanup only keeps existing entries, so it never grows the list. */
  lemma CleanedIsSubset(s: seq<Flagged>, limit: int)
    ensures multiset(Cleaned(s, limit)) <= multiset(s)
    ensures |Cleaned(s, limit)| <= |s|
  {
    var kept := Cleaned(s, limit);
    KeptPart(s, ChatOrder(s), limit);
    var rest := multiset(s) - multiset(kept);
    assert multiset(s) == multiset(kept) + rest;
    assert |multiset(s)| == |multiset(kept)| + |rest|;
  }

  /**
   * A message added with a time later than every other entry of its chat survives the
   * cleanup that follows it, as long as the limit keeps anything at all.
   */
  lemma AddedIsKept(s: seq<Flagged>, e: Flagged, limit: int)
    requires limit >= 1
    requires forall k :: 0 <= k < |s| && s[k].chatId == e.chatId ==> s[k].timestamp < e.timestamp
    ensures e in Cleaned(s + [e], limit)
  {
    var t := s + [e];
    var c := e.chatId;
    CleanedOfChat(t, limit, c);
    var init := OfChat(s, c);
    AppendedOfChat(s, e);
    var sortedInit := SortDesc(init, TimeKey());
    NewestFirst(s, e);
    assert SortDesc(init + [e], TimeKey()) == Insert(e, sortedInit, TimeKey()) by {
      assert (init + [e])[..|init|] == init;
    }
    assert Newest(t, c, limit)[0] == e;
    OfChatMembers(t, c);
    OfChatMembers(Cleaned(t, limit), c);
  }

  lemma AppendedOfChat(s: seq<Flagged>, e: Flagged)
    ensures OfChat(s + [e], e.chatId) == OfChat(s, e.chatId) + [e]
  {
    assert (s + [e])[..|s|] == s;
  }

  /** The added entry, newer than all of its chat's, sorts ahead of them. */
  lemma NewestFirst(s: seq<Flagged>, e: Flagged)
    requires forall k :: 0 <= k < |s| && s[k].chatId == e.chatId ==> s[k].timestamp < e.timestamp
    ensures var sorted := SortDesc(OfChat(s, e.chatId), TimeKey());
      Insert(e, sorted, TimeKey())[0] == e
  {
    var init := OfChat(s, e.chatId);
    var sorted := SortDesc(init, TimeKey());
    if sorted != [] {
      SortPerm(init, TimeKey());
      assert sorted[0] in multiset(init);
      OfChatMembers(s, e.chatId);
      assert sorted[0] in s;
      assert sorted[0].timestamp < e.timestamp;
    }
  }

  // ---------------------------------------------------------------------------
  // The platform state

  class ActiveChat {
    var activeChatId: string
    var lastMessageTime: int
    var chatObject: Option<object>

    constructor(id: string, chat: Option<object>, now: int)
      ensures activeChatId == id && lastMessageTime == now && chatObject == chat
    {
      activeChatId := id;
      lastMessageTime := now;
      chatObject := chat;
    }

    /** `isActive`: the last message was less than a minute ago. */
    predicate IsActive(now: int)
      reads this
    {
      now - lastMessageTime < ActiveWindow
    }

    method UpdateLastMessageTime(now: int)
      modifies this
      ensures lastMessageTime == now && activeChatId == old(activeChatId) && chatObject == old(chatObject)
      ensures IsActive(now)
    {
      lastMessageTime := now;
    }
  }

  /** The active chats, in list order. */
  function ActiveOnly(cs: seq<ActiveChat>, now: int): (r: seq<ActiveChat>)
    reads cs
    ensures |r| <= |cs|
    ensures forall k :: 0 <= k < |r| ==> r[k] in cs && r[k].IsActive(now)
    ensures forall k :: 0 <= k < |cs| && cs[k].IsActive(now) ==> cs[k] in r
    decreases |cs|
  {
    if cs == [] then []
    else
      var init := ActiveOnly(cs[..|cs| - 1], now);
      var c := cs[|cs| - 1];
      assert cs == cs[..|cs| - 1] + [c];
      if c.IsActive(now) then init + [c] else init
  }

  /** The chat objects of the active chats that have one, in list order. */
  function ActiveObjects(cs: seq<ActiveChat>, now: int): (r: seq<object>)
    reads cs
    ensures |r| <= |cs|
    ensures forall j :: 0 <= j < |cs| && cs[j].IsActive(now) && cs[j].chatObject.Some? ==> cs[j].chatObject.value in r
    decreases |cs|
  {
    if cs == [] then []
    else
      var init := ActiveObjects(cs[..|cs| - 1], now);
      var c := cs[|cs| - 1];
      assert forall k :: 0 <= k < |cs| - 1 ==> cs[..|cs| - 1][k] == cs[k];
      if c.chatObject.Some? && c.IsActive(now) then init + [c.chatObject.value] else init
  }

  /** Every object returned comes from an active chat. */
  lemma {:induction false} ActiveObjectsSound(cs: seq<ActiveChat>, now: int)
    ensures forall k :: 0 <= k < |ActiveObjects(cs, now)| ==>
      exists j :: 0 <= j < |cs| && cs[j].IsActive(now) && cs[j].chatObject == Some(ActiveObjects(cs, now)[k])
    decreases |cs|
  {
    if cs != [] {
      var pre := cs[..|cs| - 1];
      var init := ActiveObjects(pre, now);
      ActiveObjectsSound(pre, now);
      var r := ActiveObjects(cs, now);
      forall k | 0 <= k < |r|
        ensures exists j :: 0 <= j < |cs| && cs[j].IsActive(now) && cs[j].chatObject == Some(r[k])
      {
        if k < |init| {
          assert r[k] == init[k];
          var j :| 0 <= j < |pre| && pre[j].IsActive(now) && pre[j].chatObject == Some(init[k]);
          assert cs[j] == pre[j];
        } else {
          assert cs[|cs| - 1].chatObject == Some(r[k]);
        }
      }
    } else {
      assert ActiveObjects(cs, now) == [];
    }
  }

  /** The two loops of `_cleanup_flagged_messages`: group by chat, then keep each chat's newest. */
  method Regroup(s: seq<Flagged>, limit: int) returns (cleaned: seq<Flagged>)
    ensures cleaned == Cleaned(s, limit)
  {
    var order, byChat := GroupByChat(s);
    cleaned := [];
    var k := 0;
    while k < |order|
      invariant 0 <= k <= |order|
      invariant cleaned == Kept(s, order[..k], limit)
    {
      assert order[..k + 1][..k] == order[..k];
      cleaned := cleaned + Take(SortDesc(byChat[order[k]], TimeKey()), limit);
      k := k + 1;
    }
    assert order[..k] == order;
  }

  /** The first loop: the chats in first-seen order, each with its entries in list order. */
  method GroupByChat(s: seq<Flagged>) returns (order: seq<string>, byChat: map<string, seq<Flagged>>)
    ensures order == ChatOrder(s)
    ensures forall c :: c in byChat <==> c in order
    ensures forall c :: c in byChat ==> byChat[c] == OfChat(s, c)
  {
    byChat := map[];
    order := [];
    var i := 0;
    while i < |s|
      invariant 0 <= i <= |s|
      invariant order == ChatOrder(s[..i])
      invariant forall c :: c in byChat <==> c in order
      invariant forall c :: c in byChat ==> byChat[c] == OfChat(s[..i], c)
    {
      var e := s[i];
      GroupStep(s, i, order, byChat);
      if e.chatId !in byChat {
        byChat := byChat[e.chatId := []];
        order := order + [e.chatId];
      }
      byChat := byChat[e.chatId := byChat[e.chatId] + [e]];
      i := i + 1;
    }
    assert s[..i] == s;
  }

  /** One step of the grouping loop, stated on the prefix it extends. */
  lemma GroupStep(s: seq<Flagged>, i: nat, order: seq<string>, byChat: map<string, seq<Flagged>>)
    requires i < |s|
    requires order == ChatOrder(s[..i])
    requires forall c :: c in byChat <==> c in order
    requires forall c :: c in byChat ==> byChat[c] == OfChat(s[..i], c)
    ensures ChatOrder(s[..i + 1]) == if s[i].chatId in byChat then order else order + [s[i].chatId]
    ensures OfChat(s[..i + 1], s[i].chatId) == (if s[i].chatId in byChat then byChat[s[i].chatId] else []) + [s[i]]
    ensures forall c :: c != s[i].chatId ==> OfChat(s[..i + 1], c) == OfChat(s[..i], c)
  {
    var t := s[..i + 1];
    assert t[..i] == s[..i];
    assert t[i] == s[i];
    if s[i].chatId !in byChat {
      assert forall k :: 0 <= k < i ==> s[..i][k].chatId != s[i].chatId;
      OfChatOther(s[..i], s[i].chatId);
    }
  }

  class BasePlatform {
    var flagged: seq<Flagged>
    var maxFlagged: int
    var activeChats: seq<ActiveChat>

    constructor(maxFlagged: int)
      ensures flagged == [] && this.maxFlagged == maxFlagged && activeChats == []
    {
      flagged := [];
      this.maxFlagged := maxFlagged;
      activeChats := [];
    }

    /** `_cleanup_flagged_messages`. */
    method CleanupFlagged()
      modifies this
      ensures flagged == Cleaned(old(flagged), maxFlagged)
      ensures maxFlagged == old(maxFlagged) && activeChats == old(activeChats)
    {
      flagged := Regroup(flagged, maxFlagged);
    }

    /** `add_flagged_message`: append an entry stamped now, then clean up. */
    method AddFlagged(messageId: string, chatId: string, line: string, now: int)
      modifies this
      ensures flagged == Cleaned(old(flagged) + [Flagged(messageId, chatId, line, now)], maxFlagged)
      ensures maxFlagged == old(maxFlagged) && activeChats == old(activeChats)
    {
      flagged := flagged + [Flagged(messageId, chatId, line, now)];
      CleanupFlagged();
    }

    /** `is_message_flagged`. */
    function IsFlagged(messageId: string): (b: bool)
      reads this
      ensures b <==> exists k :: 0 <= k < |flagged| && flagged[k].messageId == messageId
    {
      AnyWithId(flagged, messageId)
    }

    /** `get_flagged_messages_for_chat`. */
    function FlaggedForChat(chatId: string): (r: seq<Flagged>)
      reads this
      ensures forall e :: e in r <==> e in flagged && e.chatId == chatId
    {
      OfChatMembers(flagged, chatId);
      OfChat(flagged, chatId)
    }

    /** `remove_flagged_messages_not_in_context`. */
    method RemoveNotInContext(chatId: string, contextIds: seq<string>)
      modifies this
      ensures flagged == InContext(old(flagged), chatId, contextIds)
      ensures maxFlagged == old(maxFlagged) && activeChats == old(activeChats)
    {
      flagged := InContext(flagged, chatId, contextIds);
    }

    /** `cleanup_inactive_chats`. */
    method CleanupInactiveChats(now: int)
      modifies this
      ensures activeChats == ActiveOnly(old(activeChats), now)
      ensures flagged == old(flagged) && maxFlagged == old(maxFlagged)
    {
      activeChats := ActiveOnly(activeChats, now);
    }

    /** `get_active_chats`. */
    method GetActiveChats(now: int) returns (r: seq<object>)
      ensures r == ActiveObjects(activeChats, now)
    {
      r := [];
      var i := 0;
      while i < |activeChats|
        invariant 0 <= i <= |activeChats|
        invariant r == ActiveObjects(activeChats[..i], now)
      {
        var c := activeChats[i];
        assert activeChats[..i + 1][..i] == activeChats[..i];
        if c.chatObject.Some? && c.IsActive(now) {
          r := r + [c.chatObject.value];
        }
        i := i + 1;
      }
      assert activeChats[..i] == activeChats;
    }
  }
}
