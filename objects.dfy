// The chat objects: people with a list of identifiers, chats holding their
// participants and messages, and messages with their reply threading and
// update protocol.
//
// Python dicts keep insertion order, so a dict is modelled by its keys in
// insertion order next to the key-to-value map. A Person's identifier list is
// an object of its own, because two people built from the default arguments
// share one list. Type checks that a static type rules out (a content that is
// not a string, a participant that is not a Person) are not modelled. The
// checks on untyped values (metadata, reactions, mentions) are modelled over
// JSON values.

module ChatObjects {
  import opened Wrappers
  import Json

  /** `xs[:limit]` behind an optional limit: no limit, or a negative one, means everything. */
  function Limited<T>(xs: seq<T>, limit: Option<int>): (r: seq<T>)
    ensures r <= xs
    ensures limit.None? || limit.value < 0 ==> r == xs
    ensures limit.Some? && limit.value >= 0 ==> |r| == if limit.value < |xs| then limit.value else |xs|
  {
    if limit.None? || limit.value < 0 then xs
    else xs[..if limit.value < |xs| then limit.value else |xs|]
  }

  /** The keys of `s` other than `k`, in order. */
  function Without(s: seq<string>, k: string): (r: seq<string>)
    ensures forall x :: x in r <==> x in s && x != k
    ensures Json.Distinct(s) ==> Json.Distinct(r)
    ensures k !in s ==> r == s
    decreases |s|
  {
    if s == [] then []
    else
      var init := Without(s[..|s| - 1], k);
      var last := s[|s| - 1];
      assert s == s[..|s| - 1] + [last];
      assert Json.Distinct(s) ==> last !in s[..|s| - 1];
      if last == k then init else init + [last]
  }

  // ---------------------------------------------------------------------------
  // An insertion-ordered dict with string keys

  datatype Dict<V> = Dict(keys: seq<string>, vals: map<string, V>)
  {
    predicate Valid()
    {
      Json.Distinct(keys) && (forall k :: k in keys ==> k in vals) && (forall k :: k in vals ==> k in keys)
    }

    /** `list(d.values())`. */
    function Values(): (r: seq<V>)
      requires Valid()
      ensures |r| == |keys|
      ensures forall i :: 0 <= i < |keys| ==> r[i] == vals[keys[i]]
    {
      seq(|keys|, i requires 0 <= i < |keys| => vals[keys[i]])
    }

    /** `d.get(k)`. */
    function Get(k: string): (r: Option<V>)
      ensures r.Some? <==> k in vals
      ensures r.Some? ==> r.value == vals[k]
    {
      if k in vals then Some(vals[k]) else None
    }

    /** `d[k] = v`: an existing key keeps its place, a new key goes last. */
    function Put(k: string, v: V): (d: Dict<V>)
      requires Valid()
      ensures d.Valid()
      ensures d.vals == vals[k := v]
      ensures d.keys == if k in vals then keys else keys + [k]
    {
      Dict(if k in vals then keys else keys + [k], vals[k := v])
    }

    /** `del d[k]` or `d.pop(k, None)`: the key leaves, the others keep their order. */
    function Remove(k: string): (d: Dict<V>)
      requires Valid()
      ensures d.Valid()
      ensures d.vals == vals - {k}
      ensures d.keys == Without(keys, k)
    {
      Dict(Without(keys, k), vals - {k})
    }
  }

  function EmptyDict<V>(): (d: Dict<V>)
    ensures d.Valid() && d.vals == map[]
  {
    Dict([], map[])
  }

  /** A key set makes the list of its distinct keys exactly as long as itself. */
  lemma {:induction false} DistinctCard(keys: seq<string>, ks: set<string>)
    requires Json.Distinct(keys)
    requires forall k :: k in ks <==> k in keys
    ensures |ks| == |keys|
    decreases |keys|
  {
    if keys != [] {
      var last := keys[|keys| - 1];
      var init := keys[..|keys| - 1];
      assert keys == init + [last];
      assert last !in init;
      DistinctCard(init, ks - {last});
    }
  }

  /** `len(d)` is the number of keys in the order and in the map alike. */
  lemma DictSize<V>(d: Dict<V>)
    requires d.Valid()
    ensures |d.vals| == |d.keys| == |d.Values()|
  {
    DistinctCard(d.keys, d.vals.Keys);
  }

  /** A stored value is read back; every other key is unaffected. */
  lemma PutGet<V>(d: Dict<V>, k: string, v: V, j: string)
    requires d.Valid()
    ensures d.Put(k, v).Get(k) == Some(v)
    ensures j != k ==> d.Put(k, v).Get(j) == d.Get(j)
    ensures j != k ==> d.Remove(k).Get(j) == d.Get(j)
    ensures d.Remove(k).Get(k) == None
  {
  }

  /** Overwriting a key leaves the order of the values as it was, with the one value replaced. */
  lemma {:induction false} PutKeepsOrder<V>(d: Dict<V>, k: string, v: V)
    requires d.Valid() && k in d.vals
    ensures var r := d.Put(k, v).Values();
      |r| == |d.Values()| &&
      forall i :: 0 <= i < |r| ==> r[i] == if d.keys[i] == k then v else d.Values()[i]
  {
  }

  // ---------------------------------------------------------------------------
  // Person

  /** A Python list of identifiers, which several people may share. */
  class IdList {
    var items: seq<string>

    constructor(items: seq<string>)
      ensures this.items == items
    {
      this.items := items;
    }
  }

  /** The first occurrence of `x` taken out, as `list.remove` does. */
  function RemoveFirst(s: seq<string>, x: string): (r: seq<string>)
    ensures x !in s ==> r == s
    ensures x in s ==> |r| == |s| - 1
    decreases |s|
  {
    if s == [] then []
    else if s[0] == x then s[1..]
    else [s[0]] + RemoveFirst(s[1..], x)
  }

  /** `list.remove` cuts the list at the first occurrence and closes the gap. */
  lemma {:induction false} RemoveFirstAt(s: seq<string>, x: string, i: nat)
    requires i < |s| && s[i] == x && x !in s[..i]
    ensures RemoveFirst(s, x) == s[..i] + s[i + 1..]
    decreases i
  {
    if i > 0 {
      assert s[0] in s[..i];
      assert s[1..][..i - 1] == s[1..i];
      RemoveFirstAt(s[1..], x, i - 1);
      assert s[..i] == [s[0]] + s[1..i];
    }
  }

  /** Adding an identifier and removing it again restores the list, even when it was already there. */
  lemma {:induction false} AddThenRemove(s: seq<string>, x: string)
    ensures RemoveFirst(s + [x], x) == if x in s then RemoveFirst(s, x) + [x] else s
    decreases |s|
  {
    if s == [] {
    } else {
      assert (s + [x])[1..] == s[1..] + [x];
      AddThenRemove(s[1..], x);
    }
  }

  class Person {
    const personId: string
    const identifiers: IdList

    constructor(personId: string, identifiers: IdList)
      ensures this.personId == personId && this.identifiers == identifiers
    {
      this.personId := personId;
      this.identifiers := identifiers;
    }

    /** `add_identifier`: appended, duplicates included. */
    method AddIdentifier(identifier: string)
      modifies identifiers
      ensures identifiers.items == old(identifiers.items) + [identifier]
    {
      identifiers.items := identifiers.items + [identifier];
    }

    /** `remove_identifier`: `ok` is false where Python raises ValueError, and then nothing changes. */
    method RemoveIdentifier(identifier: string) returns (ok: bool)
      modifies identifiers
      ensures ok <==> identifier in old(identifiers.items)
      ensures identifiers.items == RemoveFirst(old(identifiers.items), identifier)
    {
      ok := identifier in identifiers.items;
      if ok {
        identifiers.items := RemoveFirst(identifiers.items, identifier);
      }
    }

    /** `get_identifier`: the argument back when it is one of the identifiers. */
    function GetIdentifier(identifier: string): (r: Option<string>)
      reads identifiers
      ensures r.Some? <==> identifier in identifiers.items
      ensures r.Some? ==> r.value == identifier
    {
      if identifier in identifiers.items then Some(identifier) else None
    }

    /** `get_identifiers`. */
    function GetIdentifiers(limit: Option<int>): (r: seq<string>)
      reads identifiers
      ensures r <= identifiers.items
      ensures limit.None? || limit.value < 0 ==> r == identifiers.items
    {
      Limited(identifiers.items, limit)
    }

    /** `__eq__` and `__hash__` look at the id alone. */
    predicate SamePerson(other: Person)
    {
      personId == other.personId
    }
  }

  /**
   * The default arguments of `Person.__init__`, evaluated once when the class is
   * defined: one id and one list object for every person built without arguments.
   */
  class PersonDefaults {
    const personId: string
    const identifiers: IdList

    constructor(personId: string)
      ensures this.personId == personId && fresh(identifiers) && identifiers.items == []
    {
      this.personId := personId;
      identifiers := new IdList([]);
    }
  }

  /** `Person()` with no arguments. */
  method DefaultPerson(defaults: PersonDefaults) returns (p: Person)
    ensures fresh(p)
    ensures p.personId == defaults.personId && p.identifiers == defaults.identifiers
  {
    p := new Person(defaults.personId, defaults.identifiers);
  }

  /** Two default-built people share the list: an identifier added to one shows up on the other. */
  method DefaultsAlias(defaults: PersonDefaults, identifier: string) returns (p: Person, q: Person)
    modifies defaults.identifiers
    ensures p.SamePerson(q) && p != q
    ensures q.GetIdentifier(identifier) == Some(identifier)
  {
    p := DefaultPerson(defaults);
    q := DefaultPerson(defaults);
    p.AddIdentifier(identifier);
  }

  // ---------------------------------------------------------------------------
  // Reply threads

  /** The thread fields of a message: the root of its thread and the ids from the root to its parent. */
  datatype Thread = Thread(root: Option<string>, chain: seq<string>)

  /** Python truthiness of an optional id: present and non-empty. */
  predicate Present(id: Option<string>)
  {
    id.Some? && id.value != ""
  }

  /** The thread of a reply to the message `parentId` whose own thread is `parent`. */
  function ChildThread(parentId: string, parent: Thread): (t: Thread)
    ensures |t.chain| == |parent.chain| + 1 && t.chain[|t.chain| - 1] == parentId
    ensures t.chain[..|parent.chain|] == parent.chain
  {
    Thread(if Present(parent.root) then parent.root else Some(parentId), parent.chain + [parentId])
  }

  /** A thread as `add_message` leaves it: none at all, or a chain that starts at its root. */
  predicate Threaded(t: Thread)
  {
    (t.root.None? && t.chain == []) || (t.chain != [] && t.root == Some(t.chain[0]) && t.chain[0] != "")
  }

  /** Replying to a threaded message with a non-empty id gives a threaded message. */
  lemma ChildIsThreaded(parentId: string, parent: Thread)
    requires parentId != "" && Threaded(parent)
    ensures Threaded(ChildThread(parentId, parent))
    ensures ChildThread(parentId, parent).root == Some(ChildThread(parentId, parent).chain[0])
  {
  }

  /** A reply whose parent has no thread starts a new one rooted at the parent. */
  lemma ReplyToRootMessage(parentId: string)
    ensures ChildThread(parentId, Thread(None, [])) == Thread(Some(parentId), [parentId])
  {
  }

  // ---------------------------------------------------------------------------
  // Message

  datatype ResponseType = NoArgsProvided | SenderNotPerson | ChatNotChat | MetadataNotDict | Success

  /** What `update` does: return a response, or raise ValueError with a message. */
  datatype UpdateOutcome = Returned(response: ResponseType) | Raised(error: string)

  /** A dict with string keys and list values. */
  predicate ReactionsOk(j: Json.Json)
  {
    j.JObj? && forall i :: 0 <= i < |j.fields| ==> j.fields[i].value.JList?
  }

  /** A list of strings. */
  predicate MentionsOk(j: Json.Json)
  {
    j.JList? && forall i :: 0 <= i < |j.items| ==> j.items[i].JStr?
  }

  const ReactionsError: string := "reactions must be a dictionary with string keys and list values!"
  const MentionsError: string := "mentions must be a list of strings (person_ids)!"

  predicate Given(j: Option<Json.Json>)
  {
    j.Some? && Json.Truthy(j.value)
  }

  /** The checks of `update`, in the order it makes them. */
  function UpdateVerdict(content: Option<string>, metadata: Option<Json.Json>,
                         reactions: Option<Json.Json>, mentions: Option<Json.Json>): (r: UpdateOutcome)
    ensures r == Returned(Success) <==>
      (Present(content) || Given(metadata) || Given(reactions) || Given(mentions)) &&
      (metadata.None? || metadata.value.JObj?) &&
      (reactions.None? || ReactionsOk(reactions.value)) &&
      (mentions.None? || MentionsOk(mentions.value))
  {
    if !(Present(content) || Given(metadata) || Given(reactions) || Given(mentions)) then Returned(NoArgsProvided)
    else if metadata.Some? && !metadata.value.JObj? then Returned(MetadataNotDict)
    else if reactions.Some? && !ReactionsOk(reactions.value) then Raised(ReactionsError)
    else if mentions.Some? && !MentionsOk(mentions.value) then Raised(MentionsError)
    else Returned(Success)
  }

  /** An empty content on its own counts as no argument at all, so it cannot clear a message. */
  lemma EmptyContentIsNoArgs()
    ensures UpdateVerdict(Some(""), None, None, None) == Returned(NoArgsProvided)
    ensures UpdateVerdict(Some(""), Some(Json.JObj([])), Some(Json.JObj([])), Some(Json.JList([]))) == Returned(NoArgsProvided)
  {
  }

  /** The arguments of `Message.__init__`; `None` stands for an argument left out. */
  datatype MessageArgs = MessageArgs(
    content: string, sender: Person?, chat: Chat?, messageId: Option<string>,
    replyTo: Option<string>, root: Option<string>, chain: Option<seq<string>>,
    reactions: Option<Json.Json>, mentions: Option<Json.Json>,
    forwardedMessage: Option<string>, forwardedChat: Option<string>,
    createdAt: Option<int>, updatedAt: Option<int>, metadata: Option<Json.Json>)

  function IdOf(args: MessageArgs, freshId: string): string
  {
    if args.messageId.Some? then args.messageId.value else freshId
  }

  function OrEmptyObj(j: Option<Json.Json>): Json.Json
  {
    if j.Some? then j.value else Json.JObj([])
  }

  function OrEmptyList(j: Option<Json.Json>): Json.Json
  {
    if j.Some? then j.value else Json.JList([])
  }

  /** The first check of `Message.__init__` that fails, with its message. */
  function ConstructionError(args: MessageArgs, freshId: string): (e: Option<string>)
    ensures e.None? <==>
      IdOf(args, freshId) != "" && args.sender != null && args.chat != null &&
      OrEmptyObj(args.metadata).JObj? && ReactionsOk(OrEmptyObj(args.reactions)) &&
      MentionsOk(OrEmptyList(args.mentions))
  {
    if IdOf(args, freshId) == "" then Some("message_id must be a non-empty string!")
    else if args.sender == null then Some("sender must be a Person object!")
    else if args.chat == null then Some("chat must be a Chat object!")
    else if !OrEmptyObj(args.metadata).JObj? then Some("metadata must be a dictionary!")
    else if !ReactionsOk(OrEmptyObj(args.reactions)) then Some(ReactionsError)
    else if !MentionsOk(OrEmptyList(args.mentions)) then Some(MentionsError)
    else None
  }

  class Message {
    const messageId: string
    var content: string
    var contentLength: int
    const sender: Person
    const chat: Chat
    const createdAt: int
    var updatedAt: int
    var metadata: Json.Json
    const replyToMessageId: Option<string>
    var rootMessageId: Option<string>
    var replyChainIds: seq<string>
    var reactions: Json.Json
    var mentions: Json.Json
    const forwardedFromMessageId: Option<string>
    const forwardedFromChatId: Option<string>

    /** The invariant construction and `update` keep: the stored length is the content's. */
    predicate Valid()
      reads this
    {
      contentLength == |content| && messageId != "" && metadata.JObj? && ReactionsOk(reactions) && MentionsOk(mentions)
    }

    constructor(args: MessageArgs, freshId: string, now: int)
      requires ConstructionError(args, freshId).None?
      ensures Valid()
      ensures messageId == IdOf(args, freshId) && content == args.content && sender == args.sender && chat == args.chat
      ensures createdAt == (if args.createdAt.Some? then args.createdAt.value else now)
      ensures updatedAt == (if args.updatedAt.Some? then args.updatedAt.value else now)
      ensures metadata == OrEmptyObj(args.metadata) && reactions == OrEmptyObj(args.reactions)
      ensures mentions == OrEmptyList(args.mentions)
      ensures replyToMessageId == args.replyTo && rootMessageId == args.root
      ensures replyChainIds == (if args.chain.Some? then args.chain.value else [])
      ensures forwardedFromMessageId == args.forwardedMessage && forwardedFromChatId == args.forwardedChat
    {
      messageId := IdOf(args, freshId);
      content := args.content;
      contentLength := |args.content|;
      sender := args.sender;
      chat := args.chat;
      createdAt := if args.createdAt.Some? then args.createdAt.value else now;
      updatedAt := if args.updatedAt.Some? then args.updatedAt.value else now;
      metadata := OrEmptyObj(args.metadata);
      replyToMessageId := args.replyTo;
      rootMessageId := args.root;
      replyChainIds := if args.chain.Some? then args.chain.value else [];
      reactions := OrEmptyObj(args.reactions);
      mentions := OrEmptyList(args.mentions);
      forwardedFromMessageId := args.forwardedMessage;
      forwardedFromChatId := args.forwardedChat;
    }

    /** `is_reply`. */
    predicate IsReply()
    {
      replyToMessageId.Some?
    }

    function ThreadOf(): Thread
      reads this
    {
      Thread(rootMessageId, replyChainIds)
    }

    /** `update`: the checks come first, and only a SUCCESS changes anything. */
    method Update(content: Option<string>, metadata: Option<Json.Json>,
                  reactions: Option<Json.Json>, mentions: Option<Json.Json>, now: int) returns (r: UpdateOutcome)
      requires Valid()
      modifies this
      ensures r == UpdateVerdict(content, metadata, reactions, mentions)
      ensures r != Returned(Success) ==>
        this.content == old(this.content) && contentLength == old(contentLength) && updatedAt == old(updatedAt) &&
        this.metadata == old(this.metadata) && this.reactions == old(this.reactions) && this.mentions == old(this.mentions)
      ensures r == Returned(Success) ==>
        this.content == (if content.Some? then content.value else old(this.content)) &&
        this.metadata == (if metadata.Some? then metadata.value else old(this.metadata)) &&
        this.reactions == (if reactions.Some? then reactions.value else old(this.reactions)) &&
        this.mentions == (if mentions.Some? then mentions.value else old(this.mentions)) &&
        updatedAt == now
      ensures rootMessageId == old(rootMessageId) && replyChainIds == old(replyChainIds)
      ensures Valid()
    {
      if !(Present(content) || Given(metadata) || Given(reactions) || Given(mentions)) {
        return Returned(NoArgsProvided);
      }
      if metadata.Some? && !metadata.value.JObj? {
        return Returned(MetadataNotDict);
      }
      if reactions.Some? && !ReactionsOk(reactions.value) {
        return Raised(ReactionsError);
      }
      if mentions.Some? && !MentionsOk(mentions.value) {
        return Raised(MentionsError);
      }
      if content.Some? {
        this.content := content.value;
        contentLength := |content.value|;
      }
      if metadata.Some? {
        this.metadata := metadata.value;
      }
      if reactions.Some? {
        this.reactions := reactions.value;
      }
      if mentions.Some? {
        this.mentions := mentions.value;
      }
      updatedAt := now;
      return Returned(Success);
    }
  }

  /** `Message(...)`: the new message, or the ValueError the constructor raises. */
  method NewMessage(args: MessageArgs, freshId: string, now: int) returns (r: Result<Message>)
    ensures r.Err? <==> ConstructionError(args, freshId).Some?
    ensures r.Err? ==> r.error == ConstructionError(args, freshId).value
    ensures r.Ok? ==> fresh(r.value) && r.value.Valid()
    ensures r.Ok? ==> r.value.content == args.content && r.value.messageId == IdOf(args, freshId)
  {
    var e := ConstructionError(args, freshId);
    if e.Some? {
      return Err(e.value);
    }
    var m := new Message(args, freshId, now);
    return Ok(m);
  }

  // ---------------------------------------------------------------------------
  // Chat

  /** The people in `ps` that carry `identifier`, in order. */
  function WithIdentifier(ps: seq<Person>, identifier: string): (r: seq<Person>)
    reads set p | p in ps :: p.identifiers
    ensures |r| <= |ps|
    decreases |ps|
  {
    if ps == [] then []
    else
      var init := WithIdentifier(ps[..|ps| - 1], identifier);
      var p := ps[|ps| - 1];
      if identifier in p.identifiers.items then init + [p] else init
  }

  /** Exactly the people carrying the identifier are selected. */
  lemma {:induction false} WithIdentifierMembers(ps: seq<Person>, identifier: string)
    ensures forall p :: p in WithIdentifier(ps, identifier) <==> p in ps && identifier in p.identifiers.items
    decreases |ps|
  {
    if ps != [] {
      var init := ps[..|ps| - 1];
      WithIdentifierMembers(init, identifier);
      assert ps == init + [ps[|ps| - 1]];
    }
  }

  class Chat {
    const chatId: string
    var participants: Dict<Person>
    var messages: Dict<Message>

    predicate Valid()
      reads this
    {
      participants.Valid() && messages.Valid()
    }

    constructor(chatId: Option<string>, freshId: string, participants: Option<Dict<Person>>, messages: Option<Dict<Message>>)
      requires participants.Some? ==> participants.value.Valid()
      requires messages.Some? ==> messages.value.Valid()
      ensures Valid()
      ensures this.chatId == (if chatId.Some? then chatId.value else freshId)
      ensures this.participants == (if participants.Some? then participants.value else EmptyDict())
      ensures this.messages == (if messages.Some? then messages.value else EmptyDict())
    {
      this.chatId := if chatId.Some? then chatId.value else freshId;
      this.participants := if participants.Some? then participants.value else EmptyDict();
      this.messages := if messages.Some? then messages.value else EmptyDict();
    }

    /** `add_participant`: a person already present by id is left as it is. */
    method AddParticipant(p: Person)
      requires Valid()
      modifies this
      ensures Valid()
      ensures participants == if p.personId in old(participants.vals) then old(participants) else old(participants).Put(p.personId, p)
      ensures messages == old(messages)
    {
      if p.personId in participants.vals {
        return;
      }
      participants := participants.Put(p.personId, p);
    }

    /** `remove_participant`: deletes the entry with the person's id, if any. */
    method RemoveParticipant(p: Person)
      requires Valid()
      modifies this
      ensures Valid()
      ensures participants == old(participants).Remove(p.personId)
      ensures p.personId !in old(participants.vals) ==> participants.vals == old(participants.vals)
      ensures messages == old(messages)
    {
      if p.personId !in participants.vals {
        assert participants.vals - {p.personId} == participants.vals;
        return;
      }
      participants := participants.Remove(p.personId);
    }

    /** `get_participant`. */
    function GetParticipant(participantId: string): (r: Option<Person>)
      reads this
      ensures r.Some? <==> participantId in participants.vals
    {
      participants.Get(participantId)
    }

    /** `get_participants`. */
    function GetParticipants(limit: Option<int>): (r: seq<Person>)
      reads this
      requires Valid()
      ensures r <= participants.Values()
      ensures limit.None? || limit.value < 0 ==> r == participants.Values()
    {
      Limited(participants.Values(), limit)
    }

    /** `get_participants_count`. */
    function ParticipantsCount(): (n: nat)
      reads this
      requires Valid()
      ensures n == |participants.vals|
    {
      DictSize(participants);
      |participants.keys|
    }

    /** `get_participants_by_identifier`. */
    method ParticipantsWithIdentifier(identifier: string) returns (r: seq<Person>)
      requires Valid()
      ensures r == WithIdentifier(participants.Values(), identifier)
    {
      var ps := participants.Values();
      r := [];
      var i := 0;
      while i < |ps|
        invariant 0 <= i <= |ps|
        invariant r == WithIdentifier(ps[..i], identifier)
      {
        assert ps[..i + 1][..i] == ps[..i];
        if identifier in ps[i].identifiers.items {
          r := r + [ps[i]];
        }
        i := i + 1;
      }
      assert ps[..i] == ps;
    }

    /** The error `add_message` raises, checked in its order, from the chat's current state. */
    function AddError(m: Message): (e: Option<string>)
      reads this
    {
      if m.chat.chatId != chatId then
        Some("Message's chat_id '" + m.chat.chatId + "' does not match this chat's ID '" + chatId + "'.")
      else if m.sender.personId !in participants.vals then
        Some("Sender '" + m.sender.personId + "' is not a participant in this chat.")
      else if Present(m.replyToMessageId) && m.replyToMessageId.value !in messages.vals then
        Some("Reply to message_id '" + m.replyToMessageId.value + "' not found in chat.")
      else None
    }

    /** The thread `add_message` gives `m`, from the chat's current state. */
    function NewThread(m: Message): Thread
      reads this, if Present(m.replyToMessageId) && m.replyToMessageId.value in messages.vals
                  then {messages.vals[m.replyToMessageId.value]} else {}
    {
      if Present(m.replyToMessageId) && m.replyToMessageId.value in messages.vals then
        var parent := messages.vals[m.replyToMessageId.value];
        ChildThread(parent.messageId, parent.ThreadOf())
      else Thread(None, [])
    }

    /**
     * `add_message`: rejected when the chat differs, the sender is not a participant or
     * the reply target is unknown; otherwise threaded from its parent and stored under
     * its id, replacing any message stored there.
     */
    method AddMessage(m: Message) returns (r: Result<Message>)
      requires Valid()
      modifies this, m
      ensures Valid()
      ensures r.Err? <==> old(AddError(m)).Some?
      ensures r.Err? ==> r.error == old(AddError(m)).value && messages == old(messages)
      ensures r.Err? ==> m.rootMessageId == old(m.rootMessageId) && m.replyChainIds == old(m.replyChainIds)
      ensures r.Ok? ==> r.value == m && messages == old(messages).Put(m.messageId, m) && m.ThreadOf() == old(NewThread(m))
      ensures participants == old(participants)
      ensures m.content == old(m.content) && m.contentLength == old(m.contentLength) && m.metadata == old(m.metadata)
      ensures m.reactions == old(m.reactions) && m.mentions == old(m.mentions) && m.updatedAt == old(m.updatedAt)
    {
      var e := AddError(m);
      if e.Some? {
        return Err(e.value);
      }
      if Present(m.replyToMessageId) {
        var parent := messages.vals[m.replyToMessageId.value];
        var t := ChildThread(parent.messageId, parent.ThreadOf());
        m.rootMessageId := t.root;
        m.replyChainIds := t.chain;
      } else {
        m.rootMessageId := None;
        m.replyChainIds := [];
      }
      messages := messages.Put(m.messageId, m);
      return Ok(m);
    }

    /** `remove_message`: pops and returns the message stored under the id, if any. */
    method RemoveMessage(messageId: string) returns (r: Option<Message>)
      requires Valid()
      modifies this
      ensures Valid()
      ensures r == old(messages.Get(messageId))
      ensures messages == old(messages).Remove(messageId) && participants == old(participants)
    {
      r := messages.Get(messageId);
      messages := messages.Remove(messageId);
    }

    /** `get_message`. */
    function GetMessage(messageId: string): (r: Option<Message>)
      reads this
      ensures r.Some? <==> messageId in messages.vals
    {
      messages.Get(messageId)
    }

    /** `get_messages`: in insertion order, cut to the limit. */
    function GetMessages(limit: Option<int>): (r: seq<Message>)
      reads this
      requires Valid()
      ensures r <= messages.Values()
      ensures limit.None? || limit.value < 0 ==> r == messages.Values()
    {
      Limited(messages.Values(), limit)
    }

    /** `__eq__` and `__hash__` look at the id alone. */
    predicate SameChat(other: Chat)
    {
      chatId == other.chatId
    }
  }

  /** A reply whose id is the empty string counts as a reply, but `add_message` gives it no thread. */
  lemma EmptyReplyIdIsNotThreaded(m: Message)
    requires m.replyToMessageId == Some("")
    ensures m.IsReply() && !Present(m.replyToMessageId)
  {
  }

  /** Replying into a chat whose messages are threaded gives a threaded reply that ends at its parent. */
  lemma AddedReplyIsThreaded(c: Chat, m: Message)
    requires Present(m.replyToMessageId) && m.replyToMessageId.value in c.messages.vals
    requires c.messages.vals[m.replyToMessageId.value].messageId != ""
    requires Threaded(c.messages.vals[m.replyToMessageId.value].ThreadOf())
    ensures Threaded(c.NewThread(m))
    ensures c.NewThread(m).chain[|c.NewThread(m).chain| - 1] == c.messages.vals[m.replyToMessageId.value].messageId
  {
    var parent := c.messages.vals[m.replyToMessageId.value];
    ChildIsThreaded(parent.messageId, parent.ThreadOf());
  }
}
