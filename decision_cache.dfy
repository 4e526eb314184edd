// The time-to-live cache of the decision engine: results of the security,
// classification and information-value analyses are stored per decision type
// and cache key, stamped with the time they were stored, and served until
// they are older than the type's TTL.
//
// Time is an explicit parameter counted in microseconds (the resolution of
// Python's datetime), so "age in seconds > ttl" is exactly
// "now - stamp > ttl * 1_000_000".

module DecisionCache {
  import opened Wrappers
  import Json

  const MicrosPerSecond: int := 1_000_000

  /** The TTLs used when no settings manager is attached, in seconds. */
  const SecurityTtl: int := 3600
  const ClassificationTtl: int := 1800
  const InformationValueTtl: int := 600

  function DefaultTtls(): (m: map<string, int>)
    ensures m.Keys == {"security", "classification", "information_value"}
    ensures forall t :: t in m ==> m[t] > 0
  {
    map["security" := SecurityTtl, "classification" := ClassificationTtl,
        "information_value" := InformationValueTtl]
  }

  datatype Entry = Entry(data: Json.Json, timestamp: int)

  type Table = map<string, map<string, Entry>>

  /** A type without a configured TTL gets 0, which never expires. */
  function TtlOf(ttl: map<string, int>, decisionType: string): int
  {
    if decisionType in ttl then ttl[decisionType] else 0
  }

  predicate Expired(ttl: int, e: Entry, now: int)
  {
    ttl > 0 && now - e.timestamp > ttl * MicrosPerSecond
  }

  /** The table with an (empty) bucket for the decision type. */
  function WithBucket(table: Table, decisionType: string): (r: Table)
  {
    if decisionType in table then table else table[decisionType := map[]]
  }

  /** What a lookup returns. */
  function Served(table: Table, ttl: map<string, int>, decisionType: string, key: string, now: int): Option<Json.Json>
  {
    var bucket := WithBucket(table, decisionType)[decisionType];
    if key !in bucket then None
    else if Expired(TtlOf(ttl, decisionType), bucket[key], now) then None
    else Some(bucket[key].data)
  }

  /** The table after a lookup: the bucket exists and an expired entry is gone. */
  function AfterLookup(table: Table, ttl: map<string, int>, decisionType: string, key: string, now: int): Table
  {
    var t := WithBucket(table, decisionType);
    var bucket := t[decisionType];
    if key in bucket && Expired(TtlOf(ttl, decisionType), bucket[key], now)
    then t[decisionType := bucket - {key}]
    else t
  }

  /** The table after storing a result at time `now`. */
  function Store(table: Table, decisionType: string, key: string, data: Json.Json, now: int): Table
  {
    var t := WithBucket(table, decisionType);
    t[decisionType := t[decisionType][key := Entry(data, now)]]
  }

  class Cache {
    var table: Table
    var ttl: map<string, int>

    constructor(ttl: map<string, int>)
      ensures table == map[] && this.ttl == ttl
    {
      table := map[];
      this.ttl := ttl;
    }

    /** `_get_cached_result`. */
    method Get(decisionType: string, key: string, now: int) returns (r: Option<Json.Json>)
      modifies this
      ensures r == Served(old(table), ttl, decisionType, key, now)
      ensures table == AfterLookup(old(table), ttl, decisionType, key, now)
      ensures ttl == old(ttl)
    {
      if decisionType !in table {
        table := table[decisionType := map[]];
      }
      if key !in table[decisionType] {
        return None;
      }
      var entry := table[decisionType][key];
      var limit := if decisionType in ttl then ttl[decisionType] else 0;
      if limit > 0 {
        var age := now - entry.timestamp;
        if age > limit * MicrosPerSecond {
          table := table[decisionType := table[decisionType] - {key}];
          return None;
        }
      }
      return Some(entry.data);
    }

    /** `_cache_result`. */
    method Put(decisionType: string, key: string, data: Json.Json, now: int)
      modifies this
      ensures table == Store(old(table), decisionType, key, data, now)
      ensures ttl == old(ttl)
    {
      if decisionType !in table {
        table := table[decisionType := map[]];
      }
      table := table[decisionType := table[decisionType][key := Entry(data, now)]];
    }

    /** `_on_settings_changed`: the TTLs are re-read, the entries stay. */
    method ReloadTtl(newTtl: map<string, int>)
      modifies this
      ensures ttl == newTtl && table == old(table)
    {
      ttl := newTtl;
    }
  }

  /** A key never stored is a miss, and the lookup deletes nothing. */
  lemma MissIsNone(table: Table, ttl: map<string, int>, decisionType: string, key: string, now: int)
    requires decisionType !in table || key !in table[decisionType]
    ensures Served(table, ttl, decisionType, key, now) == None
    ensures AfterLookup(table, ttl, decisionType, key, now) == WithBucket(table, decisionType)
  {}

  /** A stored result is served back exactly while it is not older than the TTL. */
  lemma HitAfterStore(table: Table, ttl: map<string, int>, decisionType: string, key: string,
                      data: Json.Json, stored: int, now: int)
    ensures Served(Store(table, decisionType, key, data, stored), ttl, decisionType, key, now) == Some(data)
        <==> !(TtlOf(ttl, decisionType) > 0 && now - stored > TtlOf(ttl, decisionType) * MicrosPerSecond)
  {}

  /** With no positive TTL an entry is served forever. */
  lemma NoTtlNeverExpires(table: Table, ttl: map<string, int>, decisionType: string, key: string, now: int)
    requires TtlOf(ttl, decisionType) <= 0
    requires decisionType in table && key in table[decisionType]
    ensures Served(table, ttl, decisionType, key, now) == Some(table[decisionType][key].data)
    ensures AfterLookup(table, ttl, decisionType, key, now) == table
  {}

  /** An expired entry is reported as a miss and removed, the rest of the table is kept. */
  lemma ExpiredIsDeleted(table: Table, ttl: map<string, int>, decisionType: string, key: string, now: int)
    requires decisionType in table && key in table[decisionType]
    requires Expired(TtlOf(ttl, decisionType), table[decisionType][key], now)
    ensures Served(table, ttl, decisionType, key, now) == None
    ensures var after := AfterLookup(table, ttl, decisionType, key, now);
      after.Keys == table.Keys &&
      after[decisionType] == table[decisionType] - {key} &&
      (forall t :: t in table && t != decisionType ==> after[t] == table[t])
  {}

  /** Expiry is permanent: an entry expired now is expired at every later time. */
  lemma ExpiryIsMonotone(ttl: int, e: Entry, now: int, later: int)
    requires Expired(ttl, e, now) && now <= later
    ensures Expired(ttl, e, later)
  {}

  /** Storing a result overwrites its own slot and no other. */
  lemma StoreIsolated(table: Table, ttl: map<string, int>, decisionType: string, key: string, data: Json.Json,
                      stored: int, otherType: string, otherKey: string, now: int)
    requires otherType != decisionType || otherKey != key
    ensures Served(Store(table, decisionType, key, data, stored), ttl, otherType, otherKey, now)
         == Served(table, ttl, otherType, otherKey, now)
  {}

  /** A second lookup at the same time sees the same answer and changes nothing more. */
  lemma ServedIdempotent(table: Table, ttl: map<string, int>, decisionType: string, key: string, now: int)
    ensures var after := AfterLookup(table, ttl, decisionType, key, now);
      Served(after, ttl, decisionType, key, now) == Served(table, ttl, decisionType, key, now) &&
      AfterLookup(after, ttl, decisionType, key, now) == after
  {}
}
