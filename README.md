# A verified model of the chat-bot core

This project models in Dafny the core of a chat bot that sits on Discord and Matrix, decides
when to answer, remembers facts about its users and calls small tools. The model covers:

- the **long-term memory store** of the decision engine: the redundancy test, consolidation,
  upsert into the per-user memory file, score-ranked eviction to 50 records, the pattern
  fallback extractor and the empty-store gate of memory retrieval;
- the engine's TTL **decision cache** and its tolerant **tag parsers** for model replies;
- **flagged-message and active-chat tracking** of the base platform;
- the **chat, message and person objects**: participants, reply threading, the message
  update protocol, the identifier list;
- the **message utilities**: AI-sender checks, display names, truncation, context lines and
  statistics;
- **profiles and settings**: dot-path get/set/remove and deep merge over nested JSON, the
  profile access cache, schema validation, settings validation and the profile manager's
  file unwrapping, discovery filter, cache freshness and safe file names;
- the **tool registry**: tool-call records, the legacy `<name>…</name>` tag parser, the
  JSON tool-call parser and tool execution with case-insensitive lookup;
- the **platform manager**: message routing and the de-duplicated keys of tool results;
- the **response generator**'s checks around the model: field extraction, the security and
  integrity guards, the emergency fallback, the tool-results section and the memory-utilization
  report.

Python values are modelled as a recursive `Json` datatype. A dict is an association list
of fields with unique keys, so insertion order is kept as in Python. Objects whose fields
the source updates in place (chats, messages, persons, the platform's flagged list, the
settings manager, profiles, the profile manager, the tool manager, the memory directory,
the decision cache) are classes with `modifies` clauses. Their methods are proved against
specification functions, and the properties are lemmas about those functions.

Every call into a language model, the clock, the file system and the regex engine is a
parameter of the model: a model verdict is an `Option`/`Result` input, "now" is an integer
clock, a file is an in-memory value, and a regex match is an optional list of groups.

Shared building blocks (not rows of the table, as they model Python built-ins rather than
the repository): `Wrappers` (Option/Result), `Text` (`strip`, `lower`, `in` on strings,
`count`, `str(int)`), `Json` (values and dicts, apart from the dot-path walks, which
model the repository's own helpers and have rows), `Sorting` (Python's stable `sorted`) and
`PathOrder` (ordering of strings and paths).

## Model

| member | source | states |
|---|---|---|
| MemoryStore.Weight | mods/agent/decisions/decision.py:2488-2491 | weights range over 1..3; 3 exactly for "high", 1 exactly for "low", anything else (unknown or "medium") weighs 2 |
| MemoryStore.EitherKey | mods/agent/decisions/decision.py:2376-2377 | `p.get(k1) or p.get(k2)`: k1's value when it is present and truthy, else k2's value when present, else None |
| MemoryStore.Redundancy | mods/agent/decisions/decision.py:2337-2394 | Rejected exactly when the info is empty or a key is a meta key or a string value contains a meta token; Raises exactly for truthy non-dict info; Duplicate(i) names the first record matching by any rule; Fresh means no record matches |
| MemoryStore.RejectedOrAccepted | mods/agent/decisions/decision.py:2345-2355 | a non-empty dict payload without meta keys or tokens is never rejected: it is a duplicate of some record or fresh |
| MemoryStore.FindRedundant | mods/agent/decisions/decision.py:2353-2394 | the loop with early returns computes exactly the verdict `Redundancy` |
| MemoryStore.CrossCategoryIsExact | mods/agent/decisions/decision.py:2375-2384 | a location fact matches a personal-info record exactly when both locations are truthy and normalise (str, lower, strip) to the same string: no substring rule across categories |
| MemoryStore.SameCategoryIsSubstring | mods/agent/decisions/decision.py:2361-2373 | within one category a shared key matches exactly when the normalised values are equal, or both longer than 3 and one contains the other |
| MemoryStore.SameCategoryMatchIsClose | mods/agent/decisions/decision.py:2361-2384 | a same-category location match of one-key payloads implies the values are close (equal or substring) |
| MemoryStore.SingleKeyMatchIsClose | mods/agent/decisions/decision.py:2362-2373 | the shared-key rule on one-key payloads compares exactly those two values |
| MemoryStore.SingleKeyIdentityIsEqual | mods/agent/decisions/decision.py:2376-2384 | the location identity rule on one-key payloads holds only for equal normal forms |
| MemoryStore.Consolidate | mods/agent/decisions/decision.py:2396-2414 | category and source kept; timestamp refreshed to now; new info overwrites shared keys and every other old key is kept; importance replaced only by a strictly heavier one, so its weight never decreases |
| MemoryStore.ScoreBounds | mods/agent/decisions/decision.py:2490-2500 | 365 × score lies between 365 × weight and 365 × weight + 365 for a record not dated in the future (recency in whole days, 0 for an unparseable stamp) |
| MemoryStore.Cleanup | mods/agent/decisions/decision.py:2481-2504 | a store within the cap is returned unchanged; otherwise exactly 50 records, sorted by score descending, drawn from the input |
| MemoryStore.CleanupKeepsBest | mods/agent/decisions/decision.py:2502-2504 | kept and dropped records together are exactly the input (as a multiset), and no dropped record outscores a kept one |
| MemoryStore.CleanupIsStableTake | mods/agent/decisions/decision.py:2502 | the sort is stable: among records of one score, the kept ones are a prefix (in store order) of those in the input |
| MemoryStore.Source | mods/agent/decisions/decision.py:2465 | "User message: " then the whole message when it has at most 100 characters, else its first 100 characters followed by "..." |
| MemoryStore.Upsert | mods/agent/decisions/decision.py:2448-2470 | nothing is written exactly when the fact is rejected (or its info is a non-dict, which raises); every written store holds at most 50 records |
| MemoryStore.UpsertReplaces | mods/agent/decisions/decision.py:2450-2454 | a duplicate with an index replaces exactly that record by its consolidation, never lowering its importance |
| MemoryStore.UpsertAppends | mods/agent/decisions/decision.py:2459-2467 | a fresh fact below the cap appends exactly one record after the old ones, with the fact's data, stamped now, its source the first 100 characters of the message after the source prefix (with "..." when cut), category defaulting to "personal_info" and importance to "medium" |
| MemoryStore.UpsertFullStore | mods/agent/decisions/decision.py:2467-2470 | a fresh fact saved into a full store leaves exactly 50 records |
| MemoryStore.FileNameInjective | mods/agent/decisions/decision.py:2427 | `<platform>_<user>.json` names one file per (platform, user) when platform prefixes hold no underscore |
| MemoryStore.SaveFile | mods/agent/decisions/decision.py:2430-2479 | a save succeeds exactly when the file is not unreadable and `Upsert` accepts the fact for the records on file (none for a missing file); it then writes `Upsert`'s records with `last_updated` refreshed, keeps user, platform and `created_at` of an existing file and stamps a new one with the caller's identity; a failed save leaves the file as it was |
| MemoryStore.MemoryDirectory.constructor | mods/agent/decisions/decision.py:2424-2425 | the memory directory starts with no files |
| MemoryStore.MemoryDirectory.Save | mods/agent/decisions/decision.py:2416-2479 | the directory changes only in the user's file, exactly as `SaveFile` says, and only when the save reports success |
| MemoryAgent.FindExisting | mods/agent/decisions/decision.py:2588-2600 | the nested loop returns true exactly when some stored entry has the same key (or both are location keys) and an equal normalised value |
| MemoryAgent.TitleKeepsExisting | mods/agent/decisions/decision.py:2592-2598 | title-casing a value does not change whether it is already stored, since both sides are lower-cased |
| MemoryAgent.Fire | mods/agent/decisions/decision.py:2609-2716 | a matched pattern proposes only facts of its own family that are well-formed and not already stored where the source checks; health and family matches always propose |
| MemoryAgent.FireAge | mods/agent/decisions/decision.py:2611-2614 | an age is proposed (high importance) exactly when that age is not already stored |
| MemoryAgent.FireLocation | mods/agent/decisions/decision.py:2627-2632 | a location is proposed exactly when it is over 2 characters, not a stop word and not stored; it is stored title-cased, high importance |
| MemoryAgent.FireOccupation | mods/agent/decisions/decision.py:2646-2649 | an occupation is proposed exactly when it is over 2 characters, without consulting the store |
| MemoryAgent.FireName | mods/agent/decisions/decision.py:2659-2664 | a name is proposed exactly when it is over 1 character, its lower form is not a stop word and it is not stored |
| MemoryAgent.FirePreference | mods/agent/decisions/decision.py:2676-2684 | two groups always give the unstripped "X: Y" preference; one group gives an interest exactly when its stripped form is over 2 characters; medium importance |
| MemoryAgent.FireHealth | mods/agent/decisions/decision.py:2695-2701 | a health match always proposes a high-importance dietary fact |
| MemoryAgent.FireKin | mods/agent/decisions/decision.py:2712-2716 | a family match always proposes; medium importance exactly for the "relationship status mentioned" value |
| MemoryAgent.FallbackFrom | mods/agent/decisions/decision.py:2602-2718 | whatever the rule order reaches, a proposal is well-formed and respects the "already exists" checks |
| MemoryAgent.Fallback | mods/agent/decisions/decision.py:2576-2718 | short texts, acknowledgments and texts with the excluded phrases propose nothing; every proposal is well-formed |
| MemoryAgent.FirstProposalWins | mods/agent/decisions/decision.py:2602-2716 | when no earlier pattern (age, location, occupation, name, preference, health, family, in that order) proposes, the first pattern that does decides the outcome |
| MemoryAgent.ReachFrom | mods/agent/decisions/decision.py:2609-2716 | the scan from any earlier position reaches the first proposing pattern unchanged |
| MemoryAgent.ScanFallback | mods/agent/decisions/decision.py:2581-2718 | the family-by-family loops with early returns compute exactly `Fallback` |
| MemoryAgent.ExtractMemoryDecision | mods/agent/decisions/decision.py:2314-2335 | saving needs a `<save>` tag reading "true"; data is present only when saving; when saving, data is the JSON of the `<data>` body, or absent when there is no body; a `<data>` body that is not JSON turns saving off |
| MemoryAgent.SaveReadsTag | mods/agent/decisions/decision.py:2316-2327 | a reply opening with `<save>false</save>` never saves; one opening with `<save>true</save>` saves unless its data is not JSON |
| MemoryAgent.ToFact | mods/agent/decisions/decision.py:2614-2716 | a fallback proposal becomes a personal-info fact whose info has the one proposed key and value and the proposal's importance |
| MemoryAgent.Proposal | mods/agent/decisions/decision.py:2551-2562 | the model's fact when it says save (and only if truthy); otherwise the fallback's fact exactly when the fallback proposes one |
| MemoryAgent.FallbackNeverRepeats | mods/agent/decisions/decision.py:2613-2663 | a fallback proposal of an age, location or name never repeats a value already stored under that key |
| MemoryAgent.ShouldSaveMemory | mods/agent/decisions/decision.py:2522-2569 | a model call that raises answers False, consults no fallback and writes nothing; nothing changes when there is no proposal; otherwise the directory is updated exactly by the save of the proposal and the result is that save's success |
| MemoryAgent.RetrievalGate | mods/agent/decisions/decision.py:2956-2982 | "no file" exactly for a missing or empty file; it proceeds exactly when the file is a dict with a truthy standard category, another non-empty dict section or a truthy sized `memories` entry; "no information" exactly for a dict with none of these and a missing or falsy `memories`; it fails exactly on a truthy non-dict file or a truthy unsized `memories` entry with no section |
| MemoryAgent.RecordsProceed | mods/agent/decisions/decision.py:2978-2979 | a file with at least one stored record always proceeds to retrieval |
| MemoryAgent.CheckRetrieval | mods/agent/decisions/decision.py:2963-2982 | the loops with breaks compute exactly `RetrievalGate` |
| DecisionCache.DefaultTtls | mods/agent/decisions/decision.py:47-60 | the TTL table has exactly the security, classification and information_value entries, each positive |
| DecisionCache.Cache.constructor | mods/agent/decisions/decision.py:27-45 | the cache starts empty with the given TTLs |
| DecisionCache.Cache.Get | mods/agent/decisions/decision.py:174-190 | the result is what `Served` says and the table becomes `AfterLookup` (bucket created, expired entry deleted); TTLs unchanged |
| DecisionCache.Cache.Put | mods/agent/decisions/decision.py:192-200 | the table becomes `Store`: the key of that type overwritten with the data stamped now |
| DecisionCache.Cache.ReloadTtl | mods/agent/decisions/decision.py:62-72 | the TTLs are replaced and the cached entries kept |
| DecisionCache.MissIsNone | mods/agent/decisions/decision.py:176-181 | a key never stored is a miss, and the lookup only creates the empty bucket |
| DecisionCache.HitAfterStore | mods/agent/decisions/decision.py:183-197 | a stored result is served back exactly while its age does not exceed the TTL |
| DecisionCache.NoTtlNeverExpires | mods/agent/decisions/decision.py:183-184 | with a TTL of 0 (or an unknown type) an entry is served forever and never deleted |
| DecisionCache.ExpiredIsDeleted | mods/agent/decisions/decision.py:184-188 | an entry older than a positive TTL (strictly) is a miss and is deleted, the rest of the table kept |
| DecisionCache.ExpiryIsMonotone | mods/agent/decisions/decision.py:185-186 | an entry expired now stays expired at every later time |
| DecisionCache.StoreIsolated | mods/agent/decisions/decision.py:197-200 | storing a result changes no other (type, key) slot |
| DecisionCache.ServedIdempotent | mods/agent/decisions/decision.py:174-190 | a second lookup at the same time gives the same answer and changes nothing more |
| TagParsers.SkipSpaces | mods/agent/decisions/decision.py:821 | greedy `\s*`: the first non-blank index at or after the start, with only blanks skipped |
| TagParsers.FindFrom | mods/agent/decisions/decision.py:822 | the first occurrence of a text at or after a position, and no earlier one |
| TagParsers.ChoiceAt | mods/agent/decisions/decision.py:821 | regex alternation at one position: the first alternative that fits, and none before it fits |
| TagParsers.Group | mods/agent/decisions/decision.py:825 | the captured alternative, in the original case, lowers to the alternative and occurs in the text |
| TagParsers.ChoiceFrom | mods/agent/decisions/decision.py:821 | a match from a position on reads one of the alternatives and needs the opening tag in the text |
| TagParsers.Choice | mods/agent/decisions/decision.py:821 | a case-insensitive search for `<tag>`, blanks, one of the alternatives, blanks, `</tag>`: a result is one of the alternatives and the text holds the opening tag |
| TagParsers.BodyAt | mods/agent/decisions/decision.py:822 | a body read at a position starts at an opening tag, is stripped, and holds no newline unless DOTALL |
| TagParsers.BodyFrom | mods/agent/decisions/decision.py:822 | the leftmost body from a position on is stripped, newline-free without DOTALL, and needs the opening tag |
| TagParsers.Body | mods/agent/decisions/decision.py:822 | `re.search(r"<tag>\s*(.*?)\s*</tag>", s, flags).group(1).strip()`: stripped, newline-free without DOTALL, only when the tag opens |
| TagParsers.FirstFit | mods/agent/decisions/decision.py:821 | with alternatives that are not prefixes of each other, the alternative that fits is the one chosen |
| TagParsers.ChoiceOfTag | mods/agent/decisions/decision.py:821 | a text whose lower form begins with `<tag>`, an alternative and `</tag>` reads as that alternative, whatever follows |
| TagParsers.NoOpenNoChoice | mods/agent/decisions/decision.py:824 | a text that never opens the tag reads no alternative |
| TagParsers.NoOpenNoBody | mods/agent/decisions/decision.py:826 | a text that never opens the tag reads no body |
| TagParsers.BodyOfTag | mods/agent/decisions/decision.py:822 | a tag at the start whose body holds no closing tag reads as its stripped body (lazy `.*?` stops at the first close) |
| TagParsers.FindFromFirst | mods/agent/decisions/decision.py:822 | a search finds exactly the first occurrence |
| TagParsers.ParseValidation | mods/agent/decisions/decision.py:818-837 | without a `<valid>` tag the response is valid exactly when it holds none of "invalid", "violation", "breaking", "inappropriate" |
| TagParsers.ValidationReadsTag | mods/agent/decisions/decision.py:821-827 | a leading `<valid>true/false</valid>` decides the verdict, whatever keywords follow |
| TagParsers.ParseSecurity | mods/agent/decisions/decision.py:839-858 | without a `<security>` tag it is a threat exactly when the response holds one of the alarm words |
| TagParsers.SecurityReadsTag | mods/agent/decisions/decision.py:842-848 | a leading `<security>safe/threat</security>` decides the verdict, whatever keywords follow |
| TagParsers.SecurityFallbackSafe | mods/agent/decisions/decision.py:850-854 | with no tag and no alarm word the response is safe |
| TagParsers.ClassificationFallback | mods/agent/decisions/decision.py:873-889 | a "question" always gets medium confidence; with no question, answer or greeting it is a low-confidence "statement" |
| TagParsers.ParseClassification | mods/agent/decisions/decision.py:860-893 | a `<classification>` body is the kind (on one line), with the confidence tag's value or "medium"; without the tag, the keyword fallback |
| TagParsers.CleanParts | mods/agent/decisions/decision.py:910 | the stripped non-empty parts, never more than the parts, none containing a comma |
| TagParsers.InfoTypes | mods/agent/decisions/decision.py:906-910 | "none" (in any case) gives no types; otherwise every type is non-empty, stripped and comma-free |
| TagParsers.ParseInformationValue | mods/agent/decisions/decision.py:895-922 | the level is always one of high, moderate, low, none; without a `<value>` tag there are no info types, and the level is "moderate" exactly when one of the value words occurs, else "low"; every type is non-empty and comma-free |
| TagParsers.InformationValueReadsTag | mods/agent/decisions/decision.py:897-903 | a leading `<value>` tag with one of the four levels decides the level, whatever value words follow |
| TagParsers.InfoTypesJoin | mods/agent/decisions/decision.py:908-910 | a type list without a comma (and not "none") is the one stripped type |
| TagParsers.ExtractReply | mods/agent/decisions/decision.py:1348-1410 | the message is flagged only when the text opens `<isflagged>` and says "true" (see `FlaggedReadsTag` for the converse) |
| TagParsers.RuleFiresOnWord | mods/agent/decisions/decision.py:1376-1388 | a reply rule fires only on one of its own words |
| TagParsers.ReplyRuleWords | mods/agent/decisions/decision.py:1359-1365 | every word a should-reply rule fires on is "true", "yes" or "reply" |
| TagParsers.ReplyNeedsAffirmation | mods/agent/decisions/decision.py:1353-1403 | a text with none of "true", "yes", "reply" never decides to reply (rules, counts and ties all say no) |
| TagParsers.ReplyReadsTag | mods/agent/decisions/decision.py:1353-1405 | a leading `<shouldReply>true/false</shouldReply>` decides the reply, whatever the rest says |
| TagParsers.FlaggedReadsTag | mods/agent/decisions/decision.py:1409-1410 | a leading `<isFlagged>true/false</isFlagged>` decides the flag, whatever the rest says |
| TagParsers.ExtractIntent | mods/agent/decisions/decision.py:1692-1707 | "basic" is chosen only when the text says "basic"; without a tag, exactly when it says "basic" and not "complex"; everything else is "complex" |
| TagParsers.IntentReadsTag | mods/agent/decisions/decision.py:1694-1707 | a leading `<intent>basic/complex</intent>` decides the intent |
| FlaggedMessages.OfChat | mods/platform/base_platform.py:279 | the entries of one chat: never more than the list, all of that chat |
| FlaggedMessages.OfChatMembers | mods/platform/base_platform.py:279 | an entry is among a chat's entries exactly when it is in the list with that chat id |
| FlaggedMessages.ChatOrder | mods/platform/base_platform.py:286-291 | the chats of the list in first-seen order: each chat that has an entry, once |
| FlaggedMessages.AnyWithId | mods/platform/base_platform.py:267 | true exactly when some entry has that message id |
| FlaggedMessages.InContext | mods/platform/base_platform.py:314-318 | an entry survives exactly when it belongs to another chat or its id is in the context list |
| FlaggedMessages.InContextOtherChats | mods/platform/base_platform.py:314-318 | the entries of every other chat are kept untouched and in order |
| FlaggedMessages.OfChatAppend | mods/platform/base_platform.py:279 | selecting a chat distributes over concatenation |
| FlaggedMessages.OfChatOwn | mods/platform/base_platform.py:279 | a list of one chat's entries selects to itself |
| FlaggedMessages.OfChatOther | mods/platform/base_platform.py:279 | a list without a chat's entries selects to nothing |
| FlaggedMessages.NewestIsOwn | mods/platform/base_platform.py:294-295 | a chat's retained entries all belong to that chat |
| FlaggedMessages.KeptOfChat | mods/platform/base_platform.py:293-295 | after the extend loop a chat holds exactly its newest entries if it was grouped, and nothing otherwise |
| FlaggedMessages.CleanedOfChat | mods/platform/base_platform.py:281-299 | after cleanup each chat holds exactly its newest `max_flagged_messages_per_channel` entries, newest first |
| FlaggedMessages.CleanedIsBounded | mods/platform/base_platform.py:293-299 | each chat keeps at most the limit, ordered by descending timestamp, drawn from its own entries; all of them when it had no more than the limit |
| FlaggedMessages.NewestOf | mods/platform/base_platform.py:294-295 | `sorted(..., reverse=True)[:limit]`: at most the limit, newest first, from the list, everything when it fits |
| FlaggedMessages.OthersSplit | mods/platform/base_platform.py:286-295 | the entries not yet grouped split into one chat's entries and the rest |
| FlaggedMessages.KeptPart | mods/platform/base_platform.py:293-295 | what the extend loop keeps plus what is still ungrouped is drawn from the list |
| FlaggedMessages.NewestIsPart | mods/platform/base_platform.py:294-295 | a chat's retained entries are drawn from that chat's entries |
| FlaggedMessages.OthersNone | mods/platform/base_platform.py:286-291 | before any chat is grouped, everything is ungrouped |
| FlaggedMessages.CleanedIsSubset | mods/platform/base_platform.py:297-299 | cleanup only keeps existing entries and never increases the count |
| FlaggedMessages.AddedIsKept | mods/platform/base_platform.py:246-254 | an entry added after all of its chat's entries survives the cleanup that follows it (for a limit of at least 1) |
| FlaggedMessages.AppendedOfChat | mods/platform/base_platform.py:253 | the appended entry is the last of its chat's entries |
| FlaggedMessages.NewestFirst | mods/platform/base_platform.py:294 | the newest entry sorts ahead of the rest of its chat |
| FlaggedMessages.ActiveChat.constructor | mods/platform/base_platform.py:30-40 | the chat id, the object and the time of the last message (now) are set |
| FlaggedMessages.ActiveChat.UpdateLastMessageTime | mods/platform/base_platform.py:51-53 | only the time of the last message changes, to now, so the chat is active |
| FlaggedMessages.ActiveOnly | mods/platform/base_platform.py:326-328 | exactly the chats active now (less than a minute, strictly), in list order |
| FlaggedMessages.ActiveObjects | mods/platform/base_platform.py:354-365 | every active chat that has a chat object contributes that object, in list order |
| FlaggedMessages.ActiveObjectsSound | mods/platform/base_platform.py:361-364 | every returned object is the object of an active chat |
| FlaggedMessages.Regroup | mods/platform/base_platform.py:286-297 | the two loops (group, then extend with each chat's sorted prefix) compute exactly `Cleaned` |
| FlaggedMessages.GroupByChat | mods/platform/base_platform.py:286-291 | `by_chat` has exactly the first-seen chats as keys, each mapping to that chat's entries in order |
| FlaggedMessages.GroupStep | mods/platform/base_platform.py:287-291 | one grouping step appends the entry to its chat's list, creating it (at the end of the order) when new |
| FlaggedMessages.BasePlatform.constructor | mods/platform/base_platform.py:65-95 | no flagged messages and no active chats, with the configured per-chat limit |
| FlaggedMessages.BasePlatform.CleanupFlagged | mods/platform/base_platform.py:281-302 | the flagged list becomes `Cleaned` of the old list; nothing else changes |
| FlaggedMessages.BasePlatform.AddFlagged | mods/platform/base_platform.py:237-255 | the flagged list becomes the cleanup of the old list with the new entry, stamped now, appended |
| FlaggedMessages.BasePlatform.IsFlagged | mods/platform/base_platform.py:257-267 | true exactly when some flagged entry has the id |
| FlaggedMessages.BasePlatform.FlaggedForChat | mods/platform/base_platform.py:269-279 | an entry is returned exactly when it is flagged and in that chat |
| FlaggedMessages.BasePlatform.RemoveNotInContext | mods/platform/base_platform.py:304-324 | the flagged list becomes `InContext` of the old one; nothing else changes |
| FlaggedMessages.BasePlatform.CleanupInactiveChats | mods/platform/base_platform.py:326-328 | the active chats become exactly those active now, in order; nothing else changes |
| FlaggedMessages.BasePlatform.GetActiveChats | mods/platform/base_platform.py:354-365 | the chat objects of the active chats that have one, as `ActiveObjects` says |
| ChatObjects.Limited | mods/objects/chats/Chat.py:96-98 | a prefix of the items: all of them for no limit or a negative one, otherwise exactly `min(limit, len)` |
| ChatObjects.RemoveFirst | mods/objects/person/Person.py:33 | `list.remove`: an absent item leaves the list alone, a present one removes exactly one element |
| ChatObjects.RemoveFirstAt | mods/objects/person/Person.py:33 | the element removed is the first occurrence, the rest kept in order |
| ChatObjects.AddThenRemove | mods/objects/person/Person.py:32-33 | removing right after adding takes out the earlier copy when there is one, and otherwise undoes the add |
| ChatObjects.Person.constructor | mods/objects/person/Person.py:14-22 | the person holds the given id and the given identifier list object (not a copy) |
| ChatObjects.Person.AddIdentifier | mods/objects/person/Person.py:32 | appends the identifier, even a duplicate |
| ChatObjects.Person.RemoveIdentifier | mods/objects/person/Person.py:33 | succeeds exactly when the identifier is present (the source raises otherwise) and removes its first occurrence |
| ChatObjects.Person.GetIdentifier | mods/objects/person/Person.py:34-37 | returns the argument exactly when it is among the identifiers, else None |
| ChatObjects.Person.GetIdentifiers | mods/objects/person/Person.py:38-40 | a prefix of the identifiers; all of them for no limit or a negative one |
| ChatObjects.PersonDefaults.constructor | mods/objects/person/Person.py:16-17 | the defaults are one id and one empty list, created once |
| ChatObjects.DefaultPerson | mods/objects/person/Person.py:14-21 | a person built without arguments takes the shared default id and the shared list object |
| ChatObjects.DefaultsAlias | mods/objects/person/Person.py:16-21 | two default-built people are equal (same id) though distinct objects, and an identifier added to one shows on the other |
| ChatObjects.ChildThread | mods/objects/chats/Chat.py:169-171 | a reply's chain is the parent's chain followed by the parent's id |
| ChatObjects.ChildIsThreaded | mods/objects/chats/Chat.py:169-171 | a reply to a well-threaded message is well threaded: its chain is non-empty and starts with its root |
| ChatObjects.ReplyToRootMessage | mods/objects/chats/Chat.py:169-171 | a reply to an unthreaded message takes that message as root and as the whole chain |
| ChatObjects.UpdateVerdict | mods/objects/messages/Message.py:173-191 | success exactly when some argument is truthy, metadata is a dict, reactions map strings to lists and mentions are a list of strings |
| ChatObjects.EmptyContentIsNoArgs | mods/objects/messages/Message.py:173 | an empty content alone (or with empty dicts and lists) counts as no argument at all |
| ChatObjects.ConstructionError | mods/objects/messages/Message.py:98-144 | no error exactly when the id is non-empty, sender and chat are given, metadata is a dict and reactions and mentions are well-formed; otherwise the first failing check's message |
| ChatObjects.Message.constructor | mods/objects/messages/Message.py:81-144 | every field is the argument or its default (now for the times, empty containers), and `content_length` is the content's length |
| ChatObjects.Message.Update | mods/objects/messages/Message.py:150-191 | the outcome is `UpdateVerdict`; on any other outcome nothing changes; on success each given argument replaces its field, the others stay, `updated_at` is now and `content_length` follows the content; threading untouched |
| ChatObjects.NewMessage | mods/objects/messages/Message.py:98-144 | construction fails exactly when `ConstructionError` names an error, with that message; otherwise a fresh valid message with the given content and id |
| ChatObjects.WithIdentifier | mods/objects/chats/Chat.py:121-125 | never more participants than the chat has |
| ChatObjects.WithIdentifierMembers | mods/objects/chats/Chat.py:121-125 | a participant is returned exactly when the identifier is among its identifiers |
| ChatObjects.Chat.constructor | mods/objects/chats/Chat.py:20-36 | the chat id, participants and messages are the arguments, or a fresh id and empty dicts |
| ChatObjects.Chat.AddParticipant | mods/objects/chats/Chat.py:48-58 | no change when the person id is present; otherwise the person is inserted under its id at the end; messages unchanged |
| ChatObjects.Chat.RemoveParticipant | mods/objects/chats/Chat.py:60-70 | deletes the person id when present, no change when absent; messages unchanged |
| ChatObjects.Chat.GetParticipant | mods/objects/chats/Chat.py:72-84 | found exactly when the id is a participant |
| ChatObjects.Chat.GetParticipants | mods/objects/chats/Chat.py:86-98 | a prefix of the participants in insertion order; all of them for no limit or a negative one |
| ChatObjects.Chat.ParticipantsCount | mods/objects/chats/Chat.py:100-107 | the number of participants |
| ChatObjects.Chat.ParticipantsWithIdentifier | mods/objects/chats/Chat.py:109-125 | the loop returns exactly `WithIdentifier` of the participants in order |
| ChatObjects.Chat.AddMessage | mods/objects/chats/Chat.py:135-180 | fails exactly on a chat mismatch, a non-participant sender or an unknown reply target, changing nothing; otherwise stores the message under its id (overwriting), sets root and chain as `NewThread` says and returns the message |
| ChatObjects.Chat.RemoveMessage | mods/objects/chats/Chat.py:182-199 | returns the removed message, or None when absent, and deletes only that id |
| ChatObjects.Chat.GetMessage | mods/objects/chats/Chat.py:201-213 | found exactly when the id is stored |
| ChatObjects.Chat.GetMessages | mods/objects/chats/Chat.py:215-229 | a prefix of the messages in insertion order; all of them for no limit or a negative one |
| ChatObjects.EmptyReplyIdIsNotThreaded | mods/objects/chats/Chat.py:164 | an empty reply id makes `is_reply` true but is not treated as a reply by threading |
| ChatObjects.AddedReplyIsThreaded | mods/objects/chats/Chat.py:164-171 | a reply added below a well-threaded parent is well threaded and its chain ends with the parent's id |
| MessageUtils.IsAiPerson | mods/utils/message_utils.py:38-53 | true exactly when a person is given and "ai_assistant" is among the identifiers `get_identifiers()` reports |
| MessageUtils.IsAiMessage | mods/utils/message_utils.py:17-36 | true exactly when a message is given and its sender is the AI person |
| MessageUtils.FirstName | mods/utils/message_utils.py:77-80 | the first identifier that is not all digits, every earlier one being digits; none when all are |
| MessageUtils.SenderDisplayName | mods/utils/message_utils.py:55-83 | the search loop returns exactly `DisplayName`: "Unknown" for no message, "**YOU** (AI)" or "AI" for the AI, else the first non-numeric identifier, else the person id |
| MessageUtils.FirstNameUnique | mods/utils/message_utils.py:77-80 | the identifier picked is exactly the first non-numeric one |
| MessageUtils.DisplayNameOfHuman | mods/utils/message_utils.py:72-83 | a human sender's name is one of its non-numeric identifiers, or its person id when every identifier is numeric |
| MessageUtils.Cut | mods/utils/message_utils.py:114 | `content[:max].rstrip()`: a prefix no longer than the limit, ending in a non-blank, and every character of `content[:max]` after it is whitespace, so exactly the trailing blanks were dropped |
| MessageUtils.FormatStripped | mods/utils/message_utils.py:107-119 | a fitting text is returned as it is without boundaries and as `[MESSAGE START] ` + text + ` [MESSAGE END]` with them; with boundaries every result starts and ends with those marks |
| MessageUtils.FormatContent | mods/utils/message_utils.py:85-119 | empty content gives ""; otherwise the stripped content is rendered: unchanged when it fits and no boundaries are asked for, wrapped exactly in the two marks when it fits and they are; boundaries wrap the text only when asked for |
| MessageUtils.TruncationReport | mods/utils/message_utils.py:113-119 | an over-long text keeps a prefix no longer than the limit, reports exactly the number of characters cut (at least one), and is wrapped in boundaries only when asked for |
| MessageUtils.CutNoteReadsBack | mods/utils/message_utils.py:117-119 | the count written in the truncation note reads back as the number of characters cut |
| MessageUtils.ClockText | mods/utils/message_utils.py:150 | `%H:%M:%S`: eight characters with colons at positions 2 and 5 |
| MessageUtils.FormatForContext | mods/utils/message_utils.py:121-163 | "[INVALID MESSAGE]" for no message; otherwise the line ends with the formatted content |
| MessageUtils.ContextStartsWithStampAndName | mods/utils/message_utils.py:145-161 | with timestamp and sender, the line is `[HH:MM:SS] `, the display name, `: `, then exactly the formatted content |
| MessageUtils.CountAi | mods/utils/message_utils.py:184-191 | never more AI messages than messages |
| MessageUtils.CountAiExtremes | mods/utils/message_utils.py:187-191 | the AI count is 0 exactly when no message is the AI's, and the total exactly when all are |
| MessageUtils.AnalyzeContext | mods/utils/message_utils.py:165-211 | total is the length, AI plus user messages make the total, the AI count is `CountAi`, the last-sender flag reflects the last message, and activity means the last message is under five minutes old; empty input gives all zeros |
| Json.SetPath | mods/config/profile.py:528-538 | on success the result is a dict in which the dotted path resolves to the stored value |
| Json.SetPathFails | mods/config/profile.py:532-538 | the nested set raises exactly when the walk meets an existing value that is not a dict |
| Json.NewDictNeverBlocks | mods/config/profile.py:532-536 | a nested set into an empty dict always succeeds, missing levels being created |
| Json.SetPathFrame | mods/config/profile.py:528-538 | every path branching off the written one resolves as before the set |
| Json.DelPath | mods/config/profile.py:113-140 | the removal succeeds exactly when the whole path resolves, and leaves a dict |
| Json.DelPathRemoves | mods/config/profile.py:130-134 | after the removal the removed path no longer resolves |
| Json.DelPathAncestors | mods/config/profile.py:123-134 | every dict on the way to the removed key is kept |
| Json.DelPathFrame | mods/config/profile.py:113-140 | every path branching off the removed one resolves as before |
| Json.PathOf | mods/config/profile.py:516 | a dotted path always splits into at least one key |
| Json.PathOfInjective | mods/config/profile.py:516 | two different path strings never split into the same keys, so cache keys and paths correspond |
| Json.Walk | mods/config/profile.py:516-526 | the key-by-key walk returns the value the path resolves to, and nothing on a missing key or a non-dict |
| ProfileData.CacheAfterWrite | mods/config/profile.py:93-95 | after a write at a path, the cache holds every other path it held and not that one |
| ProfileData.LiveIsCurrent | mods/config/profile.py:513-514 | an entry still attached to the data serves the value the path currently resolves to |
| ProfileData.GetIsStable | mods/config/profile.py:511-524 | a lookup keeps the cache valid and a second lookup serves the same value |
| ProfileData.SetKeepsCacheValid | mods/config/profile.py:85-95 | `set_field` keeps every live cache entry attached to the new data |
| ProfileData.RemoveKeepsCacheValid | mods/config/profile.py:113-140 | `remove_field` keeps every live cache entry attached to the new data |
| ProfileData.SetThenGet | mods/config/profile.py:85-95 | after `set_field(path, v)`, `get_field(path)` returns `v` |
| ProfileData.StaleBelowWrittenPath | mods/config/profile.py:95 | concrete data: after `a` is overwritten, a value cached for `a.b` is still served though `a.b` no longer resolves to it |
| ProfileData.InvalidatedCache | mods/config/profile.py:95 | the corrected invalidation keeps exactly the entries not at or below the written path |
| ProfileData.FreshAfterSet | mods/config/profile.py:85-95 | with the corrected invalidation, every read after a set serves the current value |
| ProfileData.FreshAfterRemove | mods/config/profile.py:113-140 | with the corrected invalidation, every read after a removal serves the current value |
| ProfileData.CustomSettingsExact | mods/config/profile.py:215-225 | the custom settings are exactly the top-level keys outside the base sections, with their values |
| ProfileData.MergeIntoLookup | mods/config/profile.py:544-548 | the merge loop: an overlay key not both dicts takes the overlay value, dicts are merged, other keys keep their values |
| ProfileData.DeepMergeLookup | mods/config/profile.py:540-550 | `_deep_merge`: a key only in the base keeps its value, an overlay key wins, dict meeting dict is merged recursively |
| ProfileData.MergePreference | mods/config/profile.py:422-445 | on a key both profiles hold, not both as dicts, the preferred profile's value is kept; a key in one profile only keeps that value |
| ProfileData.Profile.constructor | mods/config/profile.py:25-53 | name, schema, source and the two stamps are set, the data is the validated configuration and the cache is empty |
| ProfileData.Profile.Create | mods/config/profile.py:25-53 | validates against the given schema or a default one; a rejection is the validation error and no profile |
| ProfileData.Profile.GetField | mods/config/profile.py:72-83 | returns the served value (cached first, else resolved, else the default) and remembers a successful lookup |
| ProfileData.Profile.SetField | mods/config/profile.py:85-95 | succeeds exactly when the nested set does; then the data is the set result, the stamp is now and the cache is updated; otherwise nothing changes |
| ProfileData.Profile.RemoveField | mods/config/profile.py:113-140 | true exactly when the whole path resolves; then only that key is deleted; otherwise nothing changes |
| ProfileData.Profile.HasFieldAsWritten | mods/config/profile.py:97-111 | answers true for every path |
| ProfileData.Profile.HasField | mods/config/profile.py:97-111 | true exactly when the path resolves in the data |
| ProfileData.Profile.GetCustomSettings | mods/config/profile.py:215-225 | returns the top-level fields outside the base sections, in order |
| ProfileData.Profile.MergeProfile | mods/config/profile.py:422-445 | the merged data under `<this>_merged_<other>`, validated again with this profile's schema; a rejection is an error |
| ProfileData.AbsentPathExample | mods/config/profile.py:97-111 | concrete data in which `required.email` does not resolve |
| ConfigSchema.ValidateField | mods/config/config_schema.py:36-71 | a missing value is rejected exactly when required, else becomes the default; a present value is accepted, unchanged, exactly when it has the type, an allowed value and a length in bounds; a rejection names the field path and is a Type error exactly when the type is wrong |
| ConfigSchema.MissingFrom | mods/config/config_schema.py:195-198 | the missing keys are exactly the listed keys the config lacks |
| ConfigSchema.MissingNone | mods/config/config_schema.py:200 | nothing is missing exactly when every listed key is present |
| ConfigSchema.CheckTopLevelKeys | mods/config/config_schema.py:185-206 | no error exactly when all six top-level keys are present; otherwise a Required error with the missing keys |
| ConfigSchema.ValidateSchemaSection | mods/config/config_schema.py:208-248 | the loop over the schema items computes the section walk: sections recursed into, rules validated, plain values copied |
| ConfigSchema.CopyAllFields | mods/config/config_schema.py:250-264 | the copy loop computes the recursive copy of the fields missing from the target |
| ConfigSchema.CopyKeeps | mods/config/config_schema.py:250-264 | the copy keeps every validated entry and nested entry, and adds every key of the source |
| ConfigSchema.CopyFrame | mods/config/config_schema.py:250-264 | the copy changes no key that the visited source entries do not carry |
| ConfigSchema.CopyAddsNew | mods/config/config_schema.py:250-255 | every source key the target lacks arrives in the copy with the source's value |
| ConfigSchema.BaseSectionValidation | mods/config/config_schema.py:91-96 | against the base schema the strict walk accepts exactly a "required" dict with a non-empty username and name and keeps those two; a missing section is a Required error, a non-dict one a Type error |
| ConfigSchema.BaseProfileValidation | mods/config/config_schema.py:154-183 | `validate_config` accepts exactly the profiles with the six sections and a valid "required" section; with extra fields allowed every key of the profile is kept |
| ConfigSchema.CollectRequiredFields | mods/config/config_schema.py:304-317 | the loop collects the paths of the required rules, depth first |
| ConfigSchema.BaseRequiredFields | mods/config/config_schema.py:297-302 | the base schema requires the six top-level keys, then `required.username` and `required.name` |
| ConfigSchema.MergeLookup | mods/config/config_schema.py:146-152 | the merge puts every custom key in, merging a section into a section, and keeps every other base key |
| ConfigSchema.MergeSchemas | mods/config/config_schema.py:146-152 | the loop over the custom items computes the merge |
| ConfigSchema.LeakedBase | mods/config/config_schema.py:142-144 | the base schema after the shallow copy is merged into keeps its number of top-level entries |
| ConfigSchema.SharedBaseLeaks | mods/config/config_schema.py:142-144 | concrete schema: after a custom schema adds `required.email`, the shared base schema requires the email too |
| ConfigSchema.WithEmailFields | mods/config/config_schema.py:297-317 | the base schema with the email rule requires the six keys, username, name and email |
| ConfigSchema.EmailMerge | mods/config/config_schema.py:146-152 | merging the email rule puts it after the username and the name |
| ConfigSchema.SchemaDefaults.constructor | mods/config/config_schema.py:91-96 | the class-level base schema is the username-and-name schema |
| ConfigSchema.ConfigSchema.constructor | mods/config/config_schema.py:135-144 | the corrected constructor: the schema is the base merged with a non-empty custom schema, the base untouched |
| ConfigSchema.ConfigSchema.AsWritten | mods/config/config_schema.py:135-144 | the constructor as written: the instance gets the merged schema and the shared base is changed into the leaked base |
| ConfigSchema.ConfigSchema.ValidateConfig | mods/config/config_schema.py:154-183 | the top-level check, the strict walk, then the copy of the extra fields when allowed |
| ConfigSchema.ConfigSchema.GetRequiredFields | mods/config/config_schema.py:297-302 | the top-level keys followed by the collected required paths |
| ConfigSchema.SchemasIsolated | mods/config/config_schema.py:135-144 | with the copy per instance, a schema built after a custom one still requires only username and name |
| ConfigSchema.SchemasShared | mods/config/config_schema.py:135-144 | as written, a default schema built after a custom one requires the email as well |
| Settings.KeyOkAtRead | mods/config/settings_manager.py:247-282 | a value check that passed guarantees that a value found at its path satisfies the rule |
| Settings.ValidatedValue | mods/config/settings_manager.py:247-282 | in accepted settings the speed range, the flagged-message limit and the three context-engine values each satisfy their rule where present |
| Settings.ValidatedTtl | mods/config/settings_manager.py:237-245 | in accepted settings every cache TTL is a non-negative integer |
| Settings.ValidatedParticipation | mods/config/settings_manager.py:284-307 | in accepted settings the participation flag is a boolean, the thresholds lie between 0 and 100 and the time window is positive, where present |
| Settings.MissingSectionRejected | mods/config/settings_manager.py:231-235 | settings lacking `ai_behavior`, `platform_settings` or `debug` are rejected |
| Settings.CheckSections | mods/config/settings_manager.py:231-235 | the loop answers whether all three required sections are present |
| Settings.CheckCacheTtls | mods/config/settings_manager.py:237-245 | the loop answers whether every TTL is a non-negative integer, a non-dict on the way counting as a failure |
| Settings.CheckConstraints | mods/config/settings_manager.py:247-282 | the loop answers whether every single-value check passes |
| Settings.CheckParticipation | mods/config/settings_manager.py:284-307 | the participation checks, skipped when the section is falsy |
| Settings.ValidateSettings | mods/config/settings_manager.py:227-313 | true exactly when every check passes and none raises |
| DefaultSettings.DefaultsAccepted | mods/config/settings_manager.py:91-169 | the built-in default settings pass `_validate_settings`, so a settings file created from them is loaded |
| SettingsManagement.Stamp | mods/config/settings_manager.py:458 | the stamp succeeds exactly when `_metadata` is a dict, and then `_metadata.last_updated` is the time |
| SettingsManagement.StampFrame | mods/config/settings_manager.py:458 | stamping leaves every path off the stamp path as it was |
| SettingsManagement.SetThenGet | mods/config/settings_manager.py:372-452 | after a successful `set`, `get` returns the value, unless saving stamps that path or one above it |
| SettingsManagement.SetFrame | mods/config/settings_manager.py:418-452 | `set` leaves every path off the written path and off the stamp path as it was |
| SettingsManagement.SetWithoutMetadataStores | mods/config/settings_manager.py:418-478 | concrete settings without `_metadata`: the stamp raises, yet the saved value is stored and read back |
| SettingsManagement.SectionOf | mods/config/settings_manager.py:400-411 | a missing section reads as `{}`; a present dict or list is returned as it is; a scalar makes `.copy()` raise |
| SettingsManagement.SectionIsGet | mods/config/settings_manager.py:372-411 | a present section read whole is what `get` finds at its name |
| SettingsManagement.SettingsManager.constructor | mods/config/settings_manager.py:49-89 | an existing or newly created file is loaded when it validates, leaving `{}` otherwise; without a file and without creation the defaults are used |
| SettingsManagement.SettingsManager.Load | mods/config/settings_manager.py:200-225 | content replaces the settings, with its modification time, exactly when it parses and validates; otherwise nothing changes |
| SettingsManagement.SettingsManager.Reload | mods/config/settings_manager.py:480-487 | always true; the settings change only to content that validates |
| SettingsManagement.SettingsManager.Get | mods/config/settings_manager.py:372-398 | the value the dotted path resolves to, else the default |
| SettingsManagement.SettingsManager.GetSection | mods/config/settings_manager.py:400-411 | the section as `SectionOf` defines it |
| SettingsManagement.SettingsManager.SetAsWritten | mods/config/settings_manager.py:418-478 | as written: true exactly when the nested set succeeds and, when saving, the stamp does too; the value is stored either way |
| SettingsManagement.SettingsManager.Set | mods/config/settings_manager.py:418-452 | as intended: true exactly when the nested set succeeds, the new state is the same, and the value is read back |
| SettingsManagement.SettingsManager.IsEnabled | mods/config/settings_manager.py:489-499 | true exactly when the value at the path is truthy, a missing one counting as false |
| ProfileManagement.PickProfile | mods/config/profile_manager.py:366-375 | a single profile is taken; otherwise `default` when present, else the first; an empty dict raises |
| ProfileManagement.ExtractConfigData | mods/config/profile_manager.py:356-379 | a `profiles` dict yields the picked profile; otherwise the value of `config_data` when present, else the data itself; a value `in` cannot search raises |
| ProfileManagement.SavedConfigReadsBack | mods/config/profile_manager.py:195-199 | the file `save_profile` writes unwraps to exactly the configuration saved |
| ProfileManagement.AnyGlobExists | mods/config/profile_manager.py:92-95 | a name matches the pattern list exactly when it matches one of the patterns |
| ProfileManagement.AnyGlobSnoc | mods/config/profile_manager.py:92-95 | adding a pattern adds exactly its matches |
| ProfileManagement.JsonSuffix | mods/config/profile_manager.py:92 | every name `*<stem>.json` matches is matched by `*.json` |
| ProfileManagement.SearchIsJson | mods/config/profile_manager.py:92 | the four searched patterns together find exactly the `.json` names |
| ProfileManagement.Collect | mods/config/profile_manager.py:92-104 | the search loops keep exactly the files that match a pattern and are not excluded |
| ProfileManagement.CollectOne | mods/config/profile_manager.py:93-95 | one pattern's loop adds exactly the files it matches that are not excluded |
| ProfileManagement.DiscoverProfiles | mods/config/profile_manager.py:56-105 | the result is strictly sorted, free of duplicates, and holds exactly the files of the directory and its non-excluded subdirectories that are `.json` and not excluded |
| ProfileManagement.NoExcludedPattern | mods/config/profile_manager.py:69-76 | a name that starts with none of the excluded prefixes and does not end in `p.json` matches no excluded pattern |
| ProfileManagement.BackupIsDiscovered | mods/config/profile_manager.py:69-89 | a backup `<stem>.backup_<time>.json` that `_create_backup` makes, whose name starts with none of the excluded prefixes, is discovered as a profile |
| ProfileManagement.BotBackupIsDiscovered | mods/config/profile_manager.py:69-89 | the backup of `bot.json` (a stem that begins with `b`, like `backup_`) is discovered as a profile |
| ProfileManagement.BackupsExcluded | mods/config/profile_manager.py:381-387 | with backups excluded as well, no backup name is ever discovered |
| ProfileManagement.SafeName | mods/config/profile_manager.py:184-186 | the safe name is no longer than the name, holds only letters, digits, `-` and `_`, and keeps every such character of the name as often as it occurs (order: `SafeNameConcat`) |
| ProfileManagement.SafeNameOfSafe | mods/config/profile_manager.py:184-186 | a name of kept characters only is its own safe name |
| ProfileManagement.SafeNameIdempotent | mods/config/profile_manager.py:184-186 | the filter is idempotent |
| ProfileManagement.SafeNameConcat | mods/config/profile_manager.py:184-186 | the filter distributes over concatenation, so the kept characters stay in the order of the name |
| ProfileManagement.ProfileManager.constructor | mods/config/profile_manager.py:32-54 | directory and backup flag as given, the given schema or a default one, both caches empty |
| ProfileManagement.ProfileManager.LoadProfile | mods/config/profile_manager.py:107-165 | a missing file is FileNotFound; a cached time not older than the file's serves the cached profile; otherwise invalid JSON, an unwrap that raises, a non-dict and a rejected profile are errors that change nothing, and an accepted profile is created, named, cached with the file's time and returned |
| ProfileManagement.ProfileManager.SaveProfile | mods/config/profile_manager.py:167-216 | the target is the given path, else the source file, else the safe default name; it succeeds exactly when the backup (if needed) and the write do; then the profile's source, both caches and freshness are updated; otherwise nothing changes |
| ProfileManagement.ProfileManager.DeleteProfile | mods/config/profile_manager.py:260-290 | true exactly when a profile with a source file was found and the backup (if asked) and the unlink succeed; then its two cache entries are dropped; otherwise nothing changes |
| ProfileManagement.ProfileManager.ClearCache | mods/config/profile_manager.py:389-393 | both caches are empty, so no later load is served from the cache |
| ProfileManagement.DiscoverProfilesWithoutBackups | mods/config/profile_manager.py:56-105 | the corrected discovery: strictly sorted, and exactly the searched `.json` files that are neither excluded nor backups |
| Tools.FindTool | mods/agent/tools/tool.py:149-153 | a found tool is registered under that name; nothing is found exactly when no tool has the name |
| Tools.FindRegistered | mods/agent/tools/tool.py:149-153 | in a registry with unique names, each tool is found under its own name |
| Tools.Register | mods/agent/tools/tool.py:147 | a new name is appended |
| Tools.RegisterInPlace | mods/agent/tools/tool.py:147 | a name already registered has its definition replaced at the position of its first occurrence, nothing else changing |
| Tools.RegisterThenFind | mods/agent/tools/tool.py:125-153 | registering keeps names unique, the new tool is found under its name and every other name finds what it found before |
| Tools.RegisterNames | mods/agent/tools/tool.py:147 | registering introduces no name but the new one |
| Tools.FindCaseless | mods/agent/tools/tool.py:256-261 | a registered tool whose name equals the given one ignoring case; nothing exactly when no name does |
| Tools.CaselessFirst | mods/agent/tools/tool.py:256-261 | the tool found is the first in registration order whose name equals ignoring case |
| Tools.ResolveTool | mods/agent/tools/tool.py:254-261 | the exact name wins; otherwise a tool whose name equals ignoring case; nothing exactly when no name does |
| Tools.ResolveIdempotent | mods/agent/tools/tool.py:254-261 | resolving the name a call was renamed to finds the same tool and keeps the name |
| Tools.FromDictDefaults | mods/agent/tools/tool.py:88-94 | a missing `tool` or `primary_param` reads as `""`; the parameters are `{}` exactly when `params` is missing or falsy |
| Tools.FromDictOfToDict | mods/agent/tools/tool.py:79-94 | `from_dict(to_dict())` reads back the call's own fields |
| Tools.ToolCall.constructor | mods/agent/tools/tool.py:74-77 | name and primary parameter as given, parameters `{}` when the given ones are falsy |
| Tools.ToolCall.FromDict | mods/agent/tools/tool.py:88-94 | a call exactly when `tool` is a string, with the fields `from_dict` reads |
| Tools.RoundTrip | mods/agent/tools/tool.py:74-94 | a call built, turned into a dict and read back has the same name, primary parameter and parameters |
| Tools.Outcome | mods/agent/tools/tool.py:263-284 | success exactly when the tool is found and its call returns; then the result is the returned value; a missing tool is the "not found" error with no result |
| Tools.Classify | mods/agent/tools/tool.py:193-197 | an entry is kept only when it is a dict whose `tool` is a string, read as `from_dict` reads it |
| Tools.CallEntries | mods/agent/tools/tool.py:193-197 | no more calls than entries, each naming a registered tool |
| Tools.CallEntriesStep | mods/agent/tools/tool.py:193-197 | one more entry adds at most its own call |
| Tools.ErrorSticks | mods/agent/tools/tool.py:190-199 | once an entry raises, the whole parse raises |
| Tools.ParsesOwnCall | mods/agent/tools/tool.py:162-201 | the dict of a call to a registered tool parses back to that call |
| Tools.NoTagNoCalls | mods/agent/tools/tool.py:182-186 | a text without `<toolCalls>` (in any case) asks for no tool |
| Tools.WordEnd | mods/agent/tools/tool.py:215 | the greedy `\w+` run: every character before the end is a word character and the end is not |
| Tools.TextEnd | mods/agent/tools/tool.py:215 | the greedy `[^<]+` run: the end is the first `<` or the end of the text |
| Tools.ElementAt | mods/agent/tools/tool.py:215 | the text holds `<name>text</name>` at a position exactly when the opening tag, the name, the text and the closing tag sit there one after the other |
| Tools.ToolTagAt | mods/agent/tools/tool.py:215-216 | a match at a position is a `<name>text</name>` element there |
| Tools.GroupsMatch | mods/agent/tools/tool.py:215 | a word name, a text without `<` and the closing tag make an element |
| Tools.ToolTagAtComplete | mods/agent/tools/tool.py:215-216 | every element at a position is the one the match reports |
| Tools.GreedyGroups | mods/agent/tools/tool.py:215-216 | the match's groups are the longest name and text runs when the closing tag follows them |
| Tools.SearchToolTag | mods/agent/tools/tool.py:215-219 | the leftmost match: a match at the reported position and none before it |
| Tools.FirstIndex | mods/agent/tools/tool.py:230 | the first position of the character |
| Tools.ToolParamsStep | mods/agent/tools/tool.py:227-236 | one more part adds at most its own `key=value` pair |
| Tools.ParseParams | mods/agent/tools/tool.py:225-236 | the loop over the parts after the first `;` builds exactly `ToolParams` of them: parts without `=` skipped, each other part setting its stripped key to its int or stripped text, later keys overwriting |
| Tools.ParamsLastWins | mods/agent/tools/tool.py:227-236 | a key given twice keeps its last value |
| Tools.ParamsUnique | mods/agent/tools/tool.py:226-236 | the parameter dict has unique keys |
| Tools.IntegerParam | mods/agent/tools/tool.py:233-236 | a value written as an integer is read as that integer |
| Tools.RemoveSpaces | mods/agent/tools/tool.py:590 | the characters left are exactly those of the expression other than spaces |
| Tools.ReplaceCaret | mods/agent/tools/tool.py:593 | the carets are gone and a `*` appears where one was |
| Tools.CalculatorGuard | mods/agent/tools/tool.py:578-598 | an expression with a character outside digits, operators, parentheses, dot and space is refused; otherwise what is evaluated holds only those |
| Tools.CalculatorEvaluates | mods/agent/tools/tool.py:588-598 | an expression of accepted characters passes the guard and reports the evaluation: the result section when it succeeds, the "Could not calculate" error when it raises |
| Tools.GifLimit | mods/agent/tools/tool.py:635 | the limit is between 1 and 25, the requested number when it is in that range |
| Tools.GifRating | mods/agent/tools/tool.py:636-638 | always a valid rating, the requested one lower-cased when it is valid |
| Tools.GifRequest | mods/agent/tools/tool.py:630-647 | an error exactly when the API key is missing or empty; otherwise the query carries the clamped limit and the checked rating |
| Tools.ToolManager.constructor | mods/agent/tools/tool.py:122-123 | no tools registered |
| Tools.ToolManager.DefineTool | mods/agent/tools/tool.py:125-147 | the registry is the old one with the tool registered; the tool is found under its name and every other name is unaffected |
| Tools.ToolManager.ParseTool | mods/agent/tools/tool.py:203-242 | nothing exactly when no element matches or its name is not registered; otherwise the tool's function, the stripped primary parameter and the `key=value` parameters |
| Tools.ToolManager.ExecuteToolCall | mods/agent/tools/tool.py:244-284 | the call is renamed to the resolved name, its parameters unchanged; the result pairs the call with the outcome of the resolved tool |
| Tools.ToolManager.ExecuteToolCalls | mods/agent/tools/tool.py:286-300 | one result per call, in order, each the outcome of its call's resolved tool; every call is renamed to its resolved name |
| Tools.ToolManager.ParseToolCallsJson | mods/agent/tools/tool.py:162-201 | succeeds exactly when the parse does not raise; the calls are new, distinct objects with exactly the parsed fields |
| Tools.ToolManager.BuildCalls | mods/agent/tools/tool.py:192-197 | the loop builds one new call object per kept entry |
| PlatformManagement.KeyInjective | mods/platform/platform_manager.py:443-446 | different counters probe different keys |
| PlatformManagement.FreeIndex | mods/platform/platform_manager.py:443-446 | the first counter whose key is free: every smaller counter's key is taken |
| PlatformManagement.FreeIndexUnique | mods/platform/platform_manager.py:443-446 | that counter is the only one with a free key and every smaller key taken |
| PlatformManagement.FreeKey | mods/platform/platform_manager.py:443-446 | the key chosen is not yet used, and it is the bare tool name exactly when the name is not yet used |
| PlatformManagement.ChooseKey | mods/platform/platform_manager.py:443-446 | the `while tool_key in results` loop ends, on the first free key of the probe order |
| PlatformManagement.StoreAllUnique | mods/platform/platform_manager.py:437-461 | the results dictionary never holds a key twice |
| PlatformManagement.StoreAllProbes | mods/platform/platform_manager.py:437-453 | with no call raising, one entry per call, in order, each under the first free key of its name among the keys before it |
| PlatformManagement.FirstUsesBareName | mods/platform/platform_manager.py:443-446 | a name not used yet is stored as itself; otherwise as `name_k` for the least free `k` counted from 1 |
| PlatformManagement.FailureOverwrites | mods/platform/platform_manager.py:455-461 | a call that raised overwrites the entry under its bare name and leaves every other key as it was |
| PlatformManagement.ExecuteOne | mods/platform/platform_manager.py:440-461 | one pass stores the call's entry, executed and renamed unless it raised; its parameters are untouched |
| PlatformManagement.ExecuteTools | mods/platform/platform_manager.py:425-468 | the results are the entries of the calls, in order, read from their fields before execution; `{}` when the tool module cannot be imported; executed calls are renamed to the tool's registered name |
| PlatformManagement.RoutingCases | mods/platform/platform_manager.py:74-118 | a raising decision answers false with no effect; a flagged message takes the flagged path whatever the reply decision; a message not to be answered only runs memory operations |
| PlatformManagement.TrueMeansSent | mods/platform/platform_manager.py:56-319 | a message answered true ends with a send of the response or of the fallback text |
| PlatformManagement.MemoryOpsWhen | mods/platform/platform_manager.py:258-259 | memory operations run exactly for unflagged messages on the no-reply path or past detection on the reply path |
| PlatformManagement.ProcessMessage | mods/platform/platform_manager.py:56-118 | the answer and effects of the route taken; only a flagged message with a non-empty flagged line changes the platform, by recording that line |
| PlatformManagement.HandleFlaggedContent | mods/platform/platform_manager.py:120-180 | a non-empty flagged line is recorded; a response is sent only when the profile allows it and generation gives a non-empty text; true only when that send succeeds |
| PlatformManagement.HandleReply | mods/platform/platform_manager.py:202-292 | tools run when some are required, then memory operations, then the response; a raising generation sends the fixed fallback text and answers whether that send returned |
| PlatformManagement.HandleNoReply | mods/platform/platform_manager.py:294-317 | memory operations only, and false |
| ResponseGeneration.FirstField | mods/agent/response_generator.py:884-889 | a value found is truthy |
| ResponseGeneration.FirstFieldIsFirst | mods/agent/response_generator.py:884-889 | the value of the first listed name present with a truthy value |
| ResponseGeneration.FirstFieldNone | mods/agent/response_generator.py:884-889 | nothing exactly when no listed name is present with a truthy value |
| ResponseGeneration.ExtractFieldValue | mods/agent/response_generator.py:884-889 | the loop over the names returns the first present truthy value, or nothing |
| ResponseGeneration.DetectSecurityThreats | mods/agent/response_generator.py:891-915 | a threat exactly when the content is not empty and the engine's analysis returned and says so; a missing or raising engine is safe |
| ResponseGeneration.BasicIntegrityCheck | mods/agent/response_generator.py:948-964 | invalid exactly when the engine exists and answers invalid; a missing or raising engine counts as valid |
| ResponseGeneration.ValidateResponseIntegrity | mods/agent/response_generator.py:917-946 | a valid response has at least 5 characters once stripped and at most 2000; within those the engine's verdict decides, the basic check standing in when it raises or is missing |
| ResponseGeneration.EmergencyFallback | mods/agent/response_generator.py:1100-1120 | the engine's guidance is used exactly when engine and profile exist and it has more than 5 characters once stripped; otherwise the fixed reply, with the username when a profile is loaded |
| ResponseGeneration.ApologyShape | mods/agent/response_generator.py:1120 | the fixed apology starts with a letter and ends with `?` |
| ResponseGeneration.FixedFallbackTrimmed | mods/agent/response_generator.py:1117-1120 | the fixed reply has no surrounding blanks and more than 5 characters |
| ResponseGeneration.FallbackNeverBlank | mods/agent/response_generator.py:1100-1120 | whatever the engine does, the fallback has more than 5 characters once stripped |
| ResponseGeneration.Truncated | mods/agent/response_generator.py:600-601 | a text of at most 1000 characters is kept; a longer one becomes exactly its first 1000 characters followed by `... [truncated]` |
| ResponseGeneration.Section | mods/agent/response_generator.py:598-614 | a section exactly when the result is a dict; otherwise the `.get` raises |
| ResponseGeneration.FormatToolResults | mods/agent/response_generator.py:585-620 | the loop yields the header, the sections in dictionary order and the instructions; `""` for no results; the first non-dict result raises |
| ResponseGeneration.JoinedFails | mods/agent/response_generator.py:597-614 | once a section raises, later sections change nothing |
| ResponseGeneration.JoinedOk | mods/agent/response_generator.py:597-614 | the sections join exactly when none raised |
| ResponseGeneration.JoinedMentions | mods/agent/response_generator.py:597-614 | the joined text contains every section |
| ResponseGeneration.NoResultsNoText | mods/agent/response_generator.py:588-589 | the text is empty exactly when there are no results |
| ResponseGeneration.ToolResultsOk | mods/agent/response_generator.py:597-614 | the formatting succeeds exactly when every result is a dict |
| ResponseGeneration.ToolResultsMention | mods/agent/response_generator.py:585-620 | the formatted text contains the section of every tool result |
| ResponseGeneration.FoundAt | mods/agent/response_generator.py:1164-1166 | the positions of the indicators mentioned, increasing, each present exactly when one of its phrases occurs |
| ResponseGeneration.KindsAt | mods/agent/response_generator.py:1166 | the kinds at those positions, one each |
| ResponseGeneration.FindIndicators | mods/agent/response_generator.py:1164-1166 | the loop appends the kinds whose phrases occur |
| ResponseGeneration.FindStep | mods/agent/response_generator.py:1164-1166 | one more indicator adds its kind exactly when one of its phrases occurs |
| ResponseGeneration.KindsAtDistinct | mods/agent/response_generator.py:1156-1166 | distinct kinds at increasing positions are listed once each |
| ResponseGeneration.FoundIff | mods/agent/response_generator.py:1164-1166 | a kind is listed exactly when one of its phrases occurs |
| ResponseGeneration.FoundInOrder | mods/agent/response_generator.py:1164-1166 | with distinct kinds, the kinds found are listed each once, in table order, exactly those mentioned |
| ResponseGeneration.IndicatorKindsDistinct | mods/agent/response_generator.py:1156-1162 | the five indicator kinds are distinct |
| ResponseGeneration.IndicatorsInOrder | mods/agent/response_generator.py:1154-1166 | the report lists each kind of the fixed table once, exactly when the lower-cased response mentions one of its phrases |
| ResponseGeneration.ValidateMemoryUtilization | mods/agent/response_generator.py:1129-1184 | the report: no memories for empty memory text; otherwise the marker counts, the indicators, the score and the summary |
| ResponseGeneration.ScoreBounds | mods/agent/response_generator.py:1168-1177 | the score is between 0 and 100, 0 without markers, at least 20 when a high-relevance memory is present and some indicator found |
| ResponseGeneration.NoMemoriesReported | mods/agent/response_generator.py:1141-1142 | nothing is analysed exactly when the memory text is missing or empty, and the score is then 0 |

## Left out

- `ChatObjects.Chat.constructor`: the given participants and messages dicts are stored by value, while mods/objects/chats/Chat.py:35-36 keeps the caller's own dict objects, so later changes through either reference are shared there and not here; the only callers (mods/platform/matrix.py:601, mods/platform/dcord.py:241) pass neither dict.
- `MemoryStore.Upsert`: a fact's `category` and `importance` are `Option<string>`, so a JSON `null` or a non-string value under those keys of the model's `<data>` object (which `get` would return as is) cannot be represented; an absent key is the `None` case.
- Language-model calls: every `llm.invoke` and every `ai_*` analysis of the decision engine, with its prompt text, is left out. What the model answers is an `Option`/`Result` input.
- Prompt and presentation text is left out because it is text with nothing to check. This covers `construct_*_prompt`, `format_for_llm`, `get_llm_context_summary`, `for_prompt`, `get_full_prompt`, `get_tools_prompt`, `_format_context_by_intent`, `_analyze_conversation_timing`, `_format_user_profile`, `_get_base_knowledge`, and the `__str__`/`__repr__` methods.
- `generate_response`, `_generate_security_aware_response` and `_handle_security_breach` of the response generator are left out: they only assemble prompts around model calls. The checks they call are modelled.
- Relevance tiering of memory retrieval (`retrieve_relevant_memories` beyond its empty-store gate) is left out: it is a model call whose answer has no checkable meaning.
- File and JSON I/O is not modelled. Files are in-memory values, `json.loads` is a `decode` parameter, and file modification times are parameters. This covers memory files, profile and settings files, `_create_backup` and `delete_profile`'s unlink.
- File watching, change callbacks, `shutdown` and the context-manager methods of the settings manager are left out: they are threads and observers outside the sequential model.
- Concurrency is left out: every operation runs sequentially. This covers locks, `async`/`await`, `asyncio.sleep` and typing indicators.
- Clock, randomness and identifiers are inputs, not computed. The clock is an integer parameter in microseconds, and uuids are arguments.
- Hashes are left out: the md5 cache keys and the sha256 content hash of messages are opaque strings.
- `_calculate_typing_delay` and `_send_response_with_typing` are left out (random floating-point delays); a send is a boolean input.
- The `ai_participation_ratio` of `analyze_message_context` and the `priority_score` of `analyze_information_value` are left out because they are floating-point heuristics.
- The fallback extractor's regular expressions are a matcher parameter. Only the order of the rules and the duplicate checks are modelled.
- The network tools are left out because they are HTTP clients. This covers `google_search`, `duckduckgo_search`, `ddg_news`, `websearch`, `deep_search`, `fetch_webpage`, `get_weather_info`, `_parse_weather_from_search`, `get_current_time`, `get_definition` and the HTTP request of `gif_search`.
- `eval` in `calculator` is a parameter giving the evaluation's text or error.
- Case folding follows Python's `str.lower` and `str.upper` for ASCII letters only; there is no Unicode case mapping. Whitespace is Python's full `str.isspace` set.
- `Text.IsAlnum`, `Text.IsDigits`, `Text.ParseInt` and `Tools.WordChar` accept ASCII letters and digits only, where Python's `str.isalnum`, `str.isdigit`, `int()` and `\w` also accept the other Unicode letters and digits. The members below inherit this restriction.
- `ProfileManagement.SafeName`: drops every non-ASCII letter or digit, which Python's `isalnum` keeps, so the name "Zoë" gives `Zo_profile.json` here and `Zoë_profile.json` in Python.
- `ProfileManagement.ProfileManager.LoadProfile`: a profile file whose unwrapped data is a list, a string or a number is reported as the separate error `NotADict`; Python instead fails inside `validate_config`, with a `ValidationError` or a `TypeError` depending on the value, which profile_manager.py:161-165 re-raises. Both leave the caches unchanged, so only the error's kind differs.
- `MessageUtils.FirstName`: an identifier of non-ASCII digits, such as "١٢٣", is taken as a name here, while Python's `isdigit` skips it as numeric.
- `Tools.WordEnd`: a word run stops at the first non-ASCII letter, so `Tools.ToolManager.ParseTool` finds no element in `<café>x</café>`, which Python's Unicode `\w+` matches.
- `Tools.ParamValue`: a value of non-ASCII digits stays a string here, while Python's `int()` reads it as a number.
- JSON floats are exact Dafny reals. NaN and Infinity, which `json.load` accepts, are not represented. In Python a NaN threshold passes the range test of `_validate_participation_settings` (mods/config/settings_manager.py:298), since every comparison with NaN is false, and a NaN or infinite `time_window` passes its `<= 0` test (305). So `Settings.ValidatedParticipation` promises thresholds between 0 and 100 only for representable numbers.
- The chat-platform adapters (Matrix and Discord clients) are left out: they are network clients.
- Profile helpers are not modelled beyond the dot-path operations, because they are lookups of a fixed path or serialisations. This covers the property accessors and `get_*_style` getters, `should_reply_to_off_topic`, `get_off_topic_guidance`, `create_variant`, `to_dict`/`to_json`, `validate`, and the profile's `__eq__`/`__hash__`.
- Profile-manager and schema bookkeeping is left out: it consists of loops over file I/O or presentation. This covers `load_all_profiles`, `get_profile`, `list_profiles`, `create_profile`, `duplicate_profile`, `validate_all_profiles`, `get_cache_info`, `get_field_description`, `create_example_config`, and the error class's constructor.
- The base platform's abstract methods are left out; the platform adapters implement them. This covers `send_message`, `collect_context`, the `convert_platform_*` methods, `start_platform`, `get_platform_name`, `get_chat` and `get_person`. The settings-change hook is left out as well.
- Runtime type checks that Dafny's types rule out are not modelled, such as a content that is not a string or a participant that is not a `Person`.
- Chat, Message and Person use Python's identity-free equality, modelled as comparison of ids. Hashing is not modelled.
- `PlatformManagement.ExecuteTools`: requires that the calls are distinct objects, as `parse_tool_calls_json` builds them. A list holding the same `ToolCall` twice is not modelled.
- `PlatformManagement.ExecuteTools`: a call whose `execute_tool_call` raises is taken to raise before the case-insensitive rename. The tool's own exceptions are caught inside `execute_tool_call`, so only such early failures reach that branch.
- `PlatformManagement.HandleReply`: a send that raises and a send that returns false are one input. The exceptions of intent and tool detection are folded into the routing's `detected`. The memory operations are one effect, with no detail.
- `PlatformManagement.ProcessMessage`: the records the decision passes on (reasoning, intent) are logged only, so they are not modelled.
- `ResponseGeneration.ValidateMemoryUtilization`: the score is a Dafny `real`, with exact division in place of Python floats, and the `0` of a report without markers is `0.0`.
- `Tools.ToolCall.FromDict`: a `tool` field that is not a string gives null. In Python it gives a `ToolCall` with that value as its name, which `parse_tool_calls_json` never keeps.
- `Tools.GifRequest`: only the query parameters are modelled. The request and the formatting of its answer are not.
- Logging is left out everywhere.

## Findings

| source | as written | input that shows it | evidently intended | confidence | as-written member | corrected member |
|---|---|---|---|---|---|---|
| mods/config/config_schema.py:142-152 | a custom schema is merged into a shallow copy of the class-level base schema, so nested dicts are shared and the merge writes into the base | `ConfigSchema({"required": {"email": ...}})`, then `ConfigSchema()` | each schema starts from its own copy of the base | not executed | ConfigSchema.SchemasShared | ConfigSchema.SchemasIsolated |
| mods/config/profile.py:97-111 | `has_field` catches KeyError and TypeError around `_get_nested_value`, which never raises, so it is always true | a profile without `required.email`, asked `has_field("required.email")` | true exactly when the path resolves | not executed | ProfileData.Profile.HasFieldAsWritten | ProfileData.Profile.HasField |
| mods/config/profile.py:95 | `set_field` and `remove_field` pop only the written path from the access cache, so values cached below it stay served | `{"a": {"b": 1}}`, read `a.b`, then `set_field("a", {"b": 2})`, then read `a.b` (gives 1) | every cached path at or below the written one is invalidated | not executed | ProfileData.StaleBelowWrittenPath | ProfileData.FreshAfterSet |
| mods/config/settings_manager.py:418-478 | `_save_settings` raises a KeyError on a missing `_metadata` before `watching` is bound, and its handler then raises UnboundLocalError, so `set` answers false although the value is stored | settings without `_metadata`, `set("a", 1)` | the value is stored and `set` answers true | not executed | SettingsManagement.SetWithoutMetadataStores | SettingsManagement.SettingsManager.Set |
| mods/config/profile_manager.py:69-89 | `_create_backup` writes `<stem>.backup_<time>.json` next to the profile, and no exclusion pattern matches it, so the backup is discovered as a profile | a profile `bot.json` backed up once | backups are not discovered | not executed | ProfileManagement.BotBackupIsDiscovered | ProfileManagement.DiscoverProfilesWithoutBackups |
