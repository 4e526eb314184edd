/**
 * The memory agent around the store: the pattern fallback that proposes a fact when
 * the model declines to save one, the duplicate check the fallback consults, the save
 * decision that ties the two to the store, and the gate in front of memory retrieval.
 *
 * The regular expressions of the fallback are a parameter: a matcher that, given a
 * pattern and a text, yields the captured groups of the first match or nothing.
 */
module MemoryAgent {

  import opened Wrappers
  import opened Text
  import opened Json
  import opened MemoryStore
  import TagParsers

  // ---------------------------------------------------------------------------
  // The duplicate check of the fallback

  predicate IsLocationKey(k: string)
  {
    k == "location" || k == "current_location"
  }

  /** The same key, or two location keys, which count as one. */
  predicate KeyMatch(key: string, memKey: string)
  {
    key == memKey || (IsLocationKey(key) && IsLocationKey(memKey))
  }

  /** `info_already_exists`: some stored record holds a matching key whose value normalises like `value`. */
  predicate InfoAlreadyExists(key: string, value: string, records: seq<Record>)
  {
    exists i, k :: 0 <= i < |records| && k in records[i].data && KeyMatch(key, k)
      && Norm(Str(value)) == Norm(records[i].data[k])
  }

  /** The loops of `info_already_exists`: every record, every entry of its data, returning at the first hit. */
  method FindExisting(key: string, value: string, records: seq<Record>) returns (found: bool)
    ensures found == InfoAlreadyExists(key, value, records)
  {
    var target := Norm(Str(value));
    var i := 0;
    while i < |records|
      invariant 0 <= i <= |records|
      invariant forall j, k :: 0 <= j < i && k in records[j].data && KeyMatch(key, k) ==> target != Norm(records[j].data[k])
    {
      var data := records[i].data;
      var keys := data.Keys;
      while keys != {}
        invariant keys <= data.Keys
        invariant forall k :: k in data && k !in keys && KeyMatch(key, k) ==> target != Norm(data[k])
        decreases keys
      {
        var k :| k in keys;
        if KeyMatch(key, k) && target == Norm(data[k]) {
          return true;
        }
        keys := keys - {k};
      }
      i := i + 1;
    }
    return false;
  }

  /** Title-casing a value does not change how it compares with stored values. */
  lemma TitleKeepsExisting(key: string, value: string, records: seq<Record>)
    ensures InfoAlreadyExists(key, Title(value), records) <==> InfoAlreadyExists(key, value, records)
  {
    LowerTitle(value);
    assert Norm(Str(Title(value))) == Norm(Str(value));
  }

  // ---------------------------------------------------------------------------
  // The pattern fallback

  /** The families of fallback patterns, in the order they are tried. */
  datatype Family = Age | Location | Occupation | Name | Preference | Health | Kin

  const Order: seq<Family> := [Age, Location, Occupation, Name, Preference, Health, Kin]

  /** How many patterns each family lists. */
  function PatternCount(f: Family): nat
  {
    match f
    case Age => 4
    case Location => 6
    case Occupation => 4
    case Name => 3
    case Preference => 6
    case Health => 5
    case Kin => 4
  }

  /** `re.search` of pattern `i` of a family: the groups of the first match, if there is one. */
  type Matcher = (Family, nat, string) -> Option<seq<string>>

  /** The keys a fallback proposal can carry. */
  datatype FactKey = AgeKey | LocationKey | OccupationKey | NameKey | PreferenceKey | InterestKey
    | RestrictionKey | DietKey | FamilyKey

  function KeyName(k: FactKey): string
  {
    match k
    case AgeKey => "age"
    case LocationKey => "location"
    case OccupationKey => "occupation"
    case NameKey => "name"
    case PreferenceKey => "preference"
    case InterestKey => "interest"
    case RestrictionKey => "dietary_restriction"
    case DietKey => "dietary_preference"
    case FamilyKey => "family"
  }

  datatype Level = High | Medium

  function LevelName(l: Level): string
  {
    match l
    case High => "high"
    case Medium => "medium"
  }

  /** A proposed fact: the one key of its info, its value, and its importance. */
  datatype Saved = Saved(key: FactKey, value: string, importance: Level)

  const Acknowledgments: seq<string> := ["ok", "yes", "no", "hi", "hey", "lol", "haha", "nice", "cool", "thanks"]

  const BlockedPhrases: seq<string> := ["weather", "remember where", "located ?", "tell me", "can you"]

  const LocationStopWords: seq<string> := ["the", "a", "an", "my", "your", "his", "her", "there", "here"]

  const NameStopWords: seq<string> := ["the", "a", "an", "my", "your", "his", "her", "it", "that", "this"]

  /** Text too short, a bare acknowledgment, or a question or request phrase: nothing is proposed. */
  predicate Rejects(lower: string)
  {
    |lower| < 5 || lower in Acknowledgments || exists p :: p in BlockedPhrases && Contains(lower, p)
  }

  function Group1(gs: seq<string>): string
  {
    if |gs| > 0 then gs[0] else ""
  }

  /** The keys the fallback checks against the stored records before proposing. */
  predicate Checked(key: FactKey)
  {
    key == AgeKey || key == LocationKey || key == NameKey
  }

  const StatusMentioned: string := "relationship status mentioned"

  /** The facts the fallback proposes at medium importance; every other one is high. */
  predicate MediumFact(s: Saved)
  {
    s.key == PreferenceKey || s.key == InterestKey || (s.key == FamilyKey && s.value == StatusMentioned)
  }

  /** The family a proposed key comes from. */
  function FamilyOfKey(key: FactKey): Family
  {
    match key
    case AgeKey => Age
    case LocationKey => Location
    case OccupationKey => Occupation
    case NameKey => Name
    case PreferenceKey => Preference
    case InterestKey => Preference
    case RestrictionKey => Health
    case DietKey => Health
    case FamilyKey => Kin
  }

  /** What every proposal of the fallback satisfies. */
  predicate GoodProposal(s: Saved, records: seq<Record>)
  {
    (s.importance == Medium <==> MediumFact(s))
    && (Checked(s.key) ==> !InfoAlreadyExists(KeyName(s.key), s.value, records))
  }

  /** The outcome of one matched pattern of a family: a proposal, or None to go on to the next pattern. */
  function Fire(f: Family, gs: seq<string>, records: seq<Record>): (r: Option<Saved>)
    ensures r.Some? ==> GoodProposal(r.value, records) && FamilyOfKey(r.value.key) == f
    ensures (f == Health || f == Kin) ==> r.Some?
  {
    match f
    case Age => FireAge(Group1(gs), records)
    case Location => FireLocation(Strip(Group1(gs)), records)
    case Occupation => FireOccupation(Strip(Group1(gs)), records)
    case Name => FireName(Strip(Group1(gs)), records)
    case Preference => FirePreference(gs, records)
    case Health => FireHealth(gs, records)
    case Kin => FireKin(gs, records)
  }

  /** An age is proposed unless it is already stored. */
  function FireAge(age: string, records: seq<Record>): (r: Option<Saved>)
    ensures r.Some? <==> !InfoAlreadyExists("age", age, records)
    ensures r.Some? ==> r.value == Saved(AgeKey, age, High) && GoodProposal(r.value, records)
  {
    if !InfoAlreadyExists("age", age, records) then Some(Saved(AgeKey, age, High)) else None
  }

  /** A stripped location of three or more characters, not a stop word and not stored yet, is proposed title-cased. */
  function FireLocation(loc: string, records: seq<Record>): (r: Option<Saved>)
    ensures r.Some? <==> |loc| > 2 && loc !in LocationStopWords && !InfoAlreadyExists("location", loc, records)
    ensures r.Some? ==> r.value == Saved(LocationKey, Title(loc), High) && GoodProposal(r.value, records)
  {
    if |loc| > 2 && loc !in LocationStopWords && !InfoAlreadyExists("location", loc, records) then
      TitleKeepsExisting("location", loc, records);
      Some(Saved(LocationKey, Title(loc), High))
    else None
  }

  /** A stripped occupation of three or more characters is proposed, without looking at the store. */
  function FireOccupation(job: string, records: seq<Record>): (r: Option<Saved>)
    ensures r.Some? <==> |job| > 2
    ensures r.Some? ==> r.value == Saved(OccupationKey, job, High) && GoodProposal(r.value, records)
  {
    if |job| > 2 then Some(Saved(OccupationKey, job, High)) else None
  }

  /** A stripped name of two or more characters, not a stop word in any case and not stored yet, is proposed. */
  function FireName(name: string, records: seq<Record>): (r: Option<Saved>)
    ensures r.Some? <==> |name| > 1 && Lower(name) !in NameStopWords && !InfoAlreadyExists("name", name, records)
    ensures r.Some? ==> r.value == Saved(NameKey, name, High) && GoodProposal(r.value, records)
  {
    if |name| > 1 && Lower(name) !in NameStopWords && !InfoAlreadyExists("name", name, records) then
      assert GoodProposal(Saved(NameKey, name, High), records);
      Some(Saved(NameKey, name, High))
    else None
  }

  /** "my favorite X is Y" gives an unstripped "X: Y" preference; the other patterns a stripped interest of three or more characters. */
  function FirePreference(gs: seq<string>, records: seq<Record>): (r: Option<Saved>)
    ensures |gs| == 2 ==> r == Some(Saved(PreferenceKey, gs[0] + ": " + gs[1], Medium))
    ensures |gs| != 2 ==> (r.Some? <==> |Strip(Group1(gs))| > 2)
    ensures r.Some? ==> (r.value.importance == Medium && FamilyOfKey(r.value.key) == Preference
      && GoodProposal(r.value, records))
  {
    if |gs| == 2 then Some(Saved(PreferenceKey, gs[0] + ": " + gs[1], Medium))
    else
      var activity := Strip(Group1(gs));
      if |activity| > 2 then Some(Saved(InterestKey, activity, Medium)) else None
  }

  /** A captured restriction, or the fixed vegetarian/vegan preference when the pattern has no group. */
  function FireHealth(gs: seq<string>, records: seq<Record>): (r: Option<Saved>)
    ensures r.Some? && r.value.importance == High && FamilyOfKey(r.value.key) == Health
    ensures GoodProposal(r.value, records)
  {
    if |gs| > 0 then Some(Saved(RestrictionKey, Strip(gs[0]), High))
    else Some(Saved(DietKey, "vegetarian/vegan", High))
  }

  /** A child count is high importance; a relationship status is medium. */
  function FireKin(gs: seq<string>, records: seq<Record>): (r: Option<Saved>)
    ensures r.Some? && r.value.key == FamilyKey
    ensures r.value.importance == Medium <==> r.value.value == StatusMentioned
    ensures GoodProposal(r.value, records)
  {
    if |gs| > 0 then
      var v := "has " + gs[0] + " children";
      assert v[0] != StatusMentioned[0];
      Some(Saved(FamilyKey, v, High))
    else Some(Saved(FamilyKey, StatusMentioned, Medium))
  }

  /** Pattern `i` of family `f`: names are matched in the original text, everything else in the normalised one. */
  function Attempt(content: string, lower: string, m: Matcher, records: seq<Record>, f: Family, i: nat): Option<Saved>
  {
    match m(f, i, if f == Name then content else lower)
    case None => None
    case Some(gs) => Fire(f, gs, records)
  }

  /** The patterns from family `fi`, pattern `pi` on, tried in order: the first proposal wins. */
  function FallbackFrom(content: string, lower: string, m: Matcher, records: seq<Record>, fi: nat, pi: nat): (r: Option<Saved>)
    requires fi <= |Order|
    ensures r.Some? ==> GoodProposal(r.value, records)
    decreases |Order| - fi, if fi < |Order| then PatternCount(Order[fi]) - pi else 0
  {
    if fi == |Order| then None
    else if pi >= PatternCount(Order[fi]) then FallbackFrom(content, lower, m, records, fi + 1, 0)
    else
      match Attempt(content, lower, m, records, Order[fi], pi)
      case Some(s) => Some(s)
      case None => FallbackFrom(content, lower, m, records, fi, pi + 1)
  }

  /** `_quality_memory_fallback`: the fact a message reveals by pattern, if any. */
  function Fallback(content: string, m: Matcher, records: seq<Record>): (r: Option<Saved>)
    ensures Rejects(Strip(Lower(content))) ==> r.None?
    ensures r.Some? ==> GoodProposal(r.value, records)
  {
    var lower := Strip(Lower(content));
    if Rejects(lower) then None else FallbackFrom(content, lower, m, records, 0, 0)
  }

  /** Pattern `(a, b)` comes before pattern `(c, d)`. */
  predicate Before(a: nat, b: nat, c: nat, d: nat)
  {
    a < c || (a == c && b < d)
  }

  /** Patterns are tried in order and the first that proposes a fact decides the outcome. */
  lemma {:induction false} FirstProposalWins(content: string, m: Matcher, records: seq<Record>, fi: nat, pi: nat)
    requires !Rejects(Strip(Lower(content)))
    requires fi < |Order| && pi < PatternCount(Order[fi])
    requires Attempt(content, Strip(Lower(content)), m, records, Order[fi], pi).Some?
    requires forall a: nat, b: nat :: Before(a, b, fi, pi) && a < |Order| && b < PatternCount(Order[a]) ==>
      Attempt(content, Strip(Lower(content)), m, records, Order[a], b).None?
    ensures Fallback(content, m, records) == Attempt(content, Strip(Lower(content)), m, records, Order[fi], pi)
  {
    ReachFrom(content, Strip(Lower(content)), m, records, 0, 0, fi, pi);
  }

  lemma {:induction false} ReachFrom(content: string, lower: string, m: Matcher, records: seq<Record>, a: nat, b: nat, fi: nat, pi: nat)
    requires fi < |Order| && pi < PatternCount(Order[fi])
    requires a < fi || (a == fi && b <= pi)
    requires Attempt(content, lower, m, records, Order[fi], pi).Some?
    requires forall x: nat, y: nat :: Before(x, y, fi, pi) && x < |Order| && y < PatternCount(Order[x]) ==>
      Attempt(content, lower, m, records, Order[x], y).None?
    ensures FallbackFrom(content, lower, m, records, a, b) == Attempt(content, lower, m, records, Order[fi], pi)
    decreases |Order| - a, PatternCount(Order[a]) - b
  {
    if b >= PatternCount(Order[a]) {
      ReachFrom(content, lower, m, records, a + 1, 0, fi, pi);
    } else if a != fi || b != pi {
      assert Before(a, b, fi, pi);
      ReachFrom(content, lower, m, records, a, b + 1, fi, pi);
    }
  }

  /** The fallback as the source runs it: each family's patterns in a loop, the families one after another. */
  method ScanFallback(content: string, m: Matcher, records: seq<Record>) returns (r: Option<Saved>)
    ensures r == Fallback(content, m, records)
  {
    var lower := Strip(Lower(content));
    if |lower| < 5 || lower in Acknowledgments || exists p | p in BlockedPhrases :: Contains(lower, p) {
      return None;
    }
    var fi := 0;
    while fi < |Order|
      invariant 0 <= fi <= |Order|
      invariant FallbackFrom(content, lower, m, records, fi, 0) == FallbackFrom(content, lower, m, records, 0, 0)
    {
      var pi := 0;
      while pi < PatternCount(Order[fi])
        invariant 0 <= pi <= PatternCount(Order[fi])
        invariant FallbackFrom(content, lower, m, records, fi, pi) == FallbackFrom(content, lower, m, records, 0, 0)
      {
        var attempt := Attempt(content, lower, m, records, Order[fi], pi);
        if attempt.Some? {
          return attempt;
        }
        pi := pi + 1;
      }
      fi := fi + 1;
    }
    return None;
  }

  // ---------------------------------------------------------------------------
  // The save decision

  /** The model's verdict, already parsed: `<save>` and the JSON of `<data>`, which may be missing. */
  datatype MemoryDecision = MemoryDecision(shouldSave: bool, data: Option<Fact>)

  /**
   * `json.loads` of the `<data>` body, which is not modelled: None when the text is not
   * JSON, Some(None) for JSON that is not an object (the store then never saves it).
   */
  type JsonReader = string -> Option<Option<Fact>>

  /** `extract_memory_decision`: `<save>(true|false)</save>`, then the JSON of `<data>...</data>`. */
  function ExtractMemoryDecision(raw: string, read: JsonReader): (d: MemoryDecision)
    ensures d.shouldSave ==> Contains(Lower(raw), TagParsers.OpenTag("save")) && Contains(Lower(raw), "true")
    ensures d.data.Some? ==> d.shouldSave
    ensures d.shouldSave ==> var body := TagParsers.Body(raw, "data", true);
      (body.None? && d.data.None?) || (body.Some? && read(body.value) == Some(d.data))
    ensures var body := TagParsers.Body(raw, "data", true);
      body.Some? && read(body.value).None? ==> !d.shouldSave && d.data.None?
  {
    var save := TagParsers.Choice(raw, "save", ["true", "false"], TagParsers.Tight);
    if save.None? || Lower(save.value) != "true" then MemoryDecision(false, None)
    else
      match TagParsers.Body(raw, "data", true)
      case None => MemoryDecision(true, None)
      case Some(body) =>
        match read(body)
        case None => MemoryDecision(false, None)
        case Some(fact) => MemoryDecision(true, fact)
  }

  /** A leading `<save>false</save>` is never overruled, and a leading `<save>true</save>` holds unless the data is not JSON. */
  lemma SaveReadsTag(raw: string, read: JsonReader, save: bool, rest: string)
    requires Lower(raw) == TagParsers.OpenTag("save") + (if save then "true" else "false") + TagParsers.CloseTag("save") + rest
    ensures var d := ExtractMemoryDecision(raw, read);
      d.shouldSave <==> save && (TagParsers.Body(raw, "data", true).None? || read(TagParsers.Body(raw, "data", true).value).Some?)
  {
    TagParsers.ChoiceOfTag(raw, "save", ["true", "false"], TagParsers.Tight, if save then 0 else 1, rest);
  }

  /** The fact dict a fallback proposal is saved as. */
  function ToFact(s: Saved): (f: Fact)
    ensures FactTruthy(f) && InfoOf(f) == Dict(map[KeyName(s.key) := Str(s.value)])
    ensures CategoryOf(f) == "personal_info" && ImportanceOf(f) == LevelName(s.importance)
  {
    Fact(Some("personal_info"), Some(Dict(map[KeyName(s.key) := Str(s.value)])), None, Some(LevelName(s.importance)), false)
  }

  /** The fact `should_save_memory` hands to the store: the model's when it says save, else the fallback's. */
  function Proposal(d: MemoryDecision, content: string, m: Matcher, records: seq<Record>): (p: Option<Fact>)
    ensures p.Some? ==> FactTruthy(p.value)
    ensures d.shouldSave ==> p == (if d.data.Some? && FactTruthy(d.data.value) then d.data else None)
    ensures !d.shouldSave ==> (p.Some? <==> Fallback(content, m, records).Some?)
  {
    if d.shouldSave then
      if d.data.Some? && FactTruthy(d.data.value) then d.data else None
    else
      match Fallback(content, m, records)
      case Some(s) => Some(ToFact(s))
      case None => None
  }

  /** A fallback proposal of an age, location or name never repeats a value already stored under that key. */
  lemma FallbackNeverRepeats(d: MemoryDecision, content: string, m: Matcher, records: seq<Record>)
    requires !d.shouldSave && Fallback(content, m, records).Some?
    ensures var s := Fallback(content, m, records).value;
      Proposal(d, content, m, records) == Some(ToFact(s))
      && (Checked(s.key) ==> !InfoAlreadyExists(KeyName(s.key), s.value, records))
  {
  }

  /**
   * `should_save_memory`: read the user's records, take the model's fact or the fallback's, and save it.
   * `answer` is the parsed model answer, None when the model call raised: then the method answers
   * False, consults no fallback and writes nothing.
   */
  method ShouldSaveMemory(dir: MemoryDirectory, user: string, platform: string, answer: Option<MemoryDecision>,
                          content: string, m: Matcher, now: int) returns (saved: bool)
    modifies dir
    ensures answer.None? ==> !saved && dir.files == old(dir.files)
    ensures answer.Some? ==> var d := answer.value; var name := FileName(platform, user);
      var p := Proposal(d, content, m, old(dir.Existing(user, platform)));
      var st := if name in old(dir.files) then Some(old(dir.files)[name]) else None;
      if p.None? then !saved && dir.files == old(dir.files)
      else
        var r := SaveFile(st, user, platform, p.value, content, now);
        saved == r.0 && dir.files == (if saved then old(dir.files)[name := r.1.value] else old(dir.files))
  {
    if answer.None? {
      return false;
    }
    var d := answer.value;
    var existing := dir.Existing(user, platform);
    var shouldSave := d.shouldSave;
    var data := d.data;
    if !shouldSave {
      var fallback := ScanFallback(content, m, existing);
      if fallback.Some? {
        shouldSave := true;
        data := Some(ToFact(fallback.value));
      }
    }
    saved := false;
    if shouldSave && data.Some? && FactTruthy(data.value) {
      saved := dir.Save(user, platform, data.value, content, now);
    }
  }

  // ---------------------------------------------------------------------------
  // The retrieval gate

  /** Whether memory retrieval goes on to ask the model, and why not. */
  datatype Gate = NoFile | NoInformation | Proceed | Fails

  const StandardCategories: seq<string> := ["personal_info", "preferences", "professional", "relationships"]

  const ExcludedKeys: seq<string> := ["user_id", "platform", "created_at", "last_updated", "memories"]

  predicate HasStandardSection(fs: seq<Field>)
  {
    exists c :: c in StandardCategories && Lookup(fs, c).Some? && Truthy(Lookup(fs, c).value)
  }

  /** Another key outside the file's bookkeeping whose value is a non-empty dict. */
  predicate ExtraSection(f: Field)
  {
    f.key !in ExcludedKeys && f.key !in StandardCategories && f.value.JObj? && f.value.fields != []
  }

  predicate HasExtraSection(fs: seq<Field>)
  {
    exists i :: 0 <= i < |fs| && ExtraSection(fs[i])
  }

  /** The `memories` entry: truthy and sized gives information; truthy and unsized makes `len` raise. */
  function MemoriesGate(mem: Option<Json>): Gate
  {
    if mem.None? || !Truthy(mem.value) then NoInformation
    else if mem.value.JStr? || mem.value.JList? || mem.value.JObj? then Proceed
    else Fails
  }

  /** A truthy `memories` entry that has a length, which is then positive. */
  predicate HasRecords(fs: seq<Field>)
  {
    var mem := Lookup(fs, "memories");
    mem.Some? && Truthy(mem.value) && (mem.value.JStr? || mem.value.JList? || mem.value.JObj?)
  }

  /** A truthy `memories` entry without a length (a number or `true`), on which `len` raises. */
  predicate UnsizedRecords(fs: seq<Field>)
  {
    var mem := Lookup(fs, "memories");
    mem.Some? && Truthy(mem.value) && !(mem.value.JStr? || mem.value.JList? || mem.value.JObj?)
  }

  /** A loaded file that is a truthy dict. */
  predicate DictFile(loaded: Option<Json>)
  {
    loaded.Some? && Truthy(loaded.value) && loaded.value.JObj?
  }

  /** The short-circuit of `retrieve_relevant_memories` on the loaded file (None when missing or unreadable). */
  function RetrievalGate(loaded: Option<Json>): (g: Gate)
    ensures g == NoFile <==> loaded.None? || !Truthy(loaded.value)
    ensures g == Proceed <==> (DictFile(loaded)
      && (HasStandardSection(loaded.value.fields) || HasExtraSection(loaded.value.fields) || HasRecords(loaded.value.fields)))
    ensures g == NoInformation <==> (DictFile(loaded)
      && !HasStandardSection(loaded.value.fields) && !HasExtraSection(loaded.value.fields)
      && (Lookup(loaded.value.fields, "memories").None? || !Truthy(Lookup(loaded.value.fields, "memories").value)))
    ensures g == Fails <==> (loaded.Some? && Truthy(loaded.value)
      && (!loaded.value.JObj? || (!HasStandardSection(loaded.value.fields) && !HasExtraSection(loaded.value.fields)
                                  && UnsizedRecords(loaded.value.fields))))
  {
    if loaded.None? || !Truthy(loaded.value) then NoFile
    else
      match loaded.value
      case JObj(fs) =>
        if HasStandardSection(fs) || HasExtraSection(fs) then Proceed
        else MemoriesGate(Lookup(fs, "memories"))
      case _ => Fails
  }

  /** A file with at least one stored record always goes on to retrieval. */
  lemma RecordsProceed(fs: seq<Field>, items: seq<Json>)
    requires Lookup(fs, "memories") == Some(JList(items)) && items != []
    ensures RetrievalGate(Some(JObj(fs))) == Proceed
  {
  }

  /** The loops of the gate: the standard categories, then every other entry, then the record list. */
  method CheckRetrieval(loaded: Option<Json>) returns (g: Gate)
    ensures g == RetrievalGate(loaded)
  {
    if loaded.None? || !Truthy(loaded.value) {
      return NoFile;
    }
    if !loaded.value.JObj? {
      return Fails;
    }
    var fs := loaded.value.fields;
    var found := false;
    var i := 0;
    while i < |StandardCategories| && !found
      invariant 0 <= i <= |StandardCategories|
      invariant found ==> HasStandardSection(fs)
      invariant !found ==> forall j :: 0 <= j < i ==> !(Lookup(fs, StandardCategories[j]).Some? && Truthy(Lookup(fs, StandardCategories[j]).value))
    {
      var v := Lookup(fs, StandardCategories[i]);
      if v.Some? && Truthy(v.value) {
        found := true;
      }
      i := i + 1;
    }
    if !found {
      var k := 0;
      while k < |fs| && !found
        invariant 0 <= k <= |fs|
        invariant found ==> HasExtraSection(fs)
        invariant !found ==> forall j :: 0 <= j < k ==> !ExtraSection(fs[j])
      {
        if ExtraSection(fs[k]) {
          found := true;
        }
        k := k + 1;
      }
    }
    if found {
      return Proceed;
    }
    return MemoriesGate(Lookup(fs, "memories"));
  }
}
