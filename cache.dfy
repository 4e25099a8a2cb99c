/**
 * The service's in-memory summary cache: a process-wide dictionary from a key
 * derived from (text, summary type) to the stored summary and the moment it
 * was stored. Entries are served for one hour; expiry is checked when an entry
 * is read and expired entries are never removed.
 *
 * The wall clock is an injected integer, counted in microseconds (the
 * resolution of the timestamps the service subtracts). The md5 digest of the
 * key string is modelled by the string itself.
 */
module SummaryCache {
  import opened Wrappers

  const MicrosPerSecond: int := 1000000

  /** How long a stored summary is served: one hour. */
  const CacheExpiration: int := 3600 * MicrosPerSecond

  /**
   * How a (text, summary type) pair becomes a dictionary key. `Joined` is the
   * service as written: the digest of `text + "_" + type`. `Paired` is the
   * corrected key that keeps the two strings apart.
   */
  datatype KeyScheme = Joined | Paired

  datatype Key = JoinedKey(preimage: string) | PairKey(text: string, summaryType: string)

  /** The string whose digest is the key in the service as written. */
  function KeyPreimage(text: string, summaryType: string): (s: string)
    ensures |s| == |text| + 1 + |summaryType|
    ensures s[..|text|] == text && s[|text|] == '_' && s[|text| + 1..] == summaryType
  {
    text + "_" + summaryType
  }

  function CacheKey(scheme: KeyScheme, text: string, summaryType: string): Key
  {
    match scheme
    case Joined => JoinedKey(KeyPreimage(text, summaryType))
    case Paired => PairKey(text, summaryType)
  }

  /** A stored summary and the clock reading at which it was stored. */
  datatype Entry = Entry(summary: string, timestamp: int)

  /** An entry is served while less than an hour has passed since it was stored. */
  predicate IsFresh(e: Entry, now: int)
  {
    now - e.timestamp < CacheExpiration
  }

  /** The summary under `key` if it is present and fresh at `now`. */
  function Lookup(entries: map<Key, Entry>, key: Key, now: int): Option<string>
  {
    if key in entries && IsFresh(entries[key], now) then Some(entries[key].summary) else None
  }

  /** The dictionary after `summary` is stored under `key` at time `at`. */
  function Stored(entries: map<Key, Entry>, key: Key, summary: string, at: int): map<Key, Entry>
  {
    entries[key := Entry(summary, at)]
  }

  /** The process-wide cache dictionary. */
  class Cache {
    const scheme: KeyScheme
    var entries: map<Key, Entry>

    constructor (scheme: KeyScheme)
      ensures this.scheme == scheme && entries == map[]
    {
      this.scheme := scheme;
      entries := map[];
    }

    /** The stored summary for (text, summaryType) if it is younger than an hour at `now`. */
    function GetCachedSummary(text: string, summaryType: string, now: int): (r: Option<string>)
      reads this
      ensures var key := CacheKey(scheme, text, summaryType);
        (r.Some? <==> key in entries && now - entries[key].timestamp < CacheExpiration) &&
        (r.Some? ==> r.value == entries[key].summary)
    {
      Lookup(entries, CacheKey(scheme, text, summaryType), now)
    }

    /** Stores `summary` for (text, summaryType), stamped `now`, replacing any earlier entry. */
    method CacheSummary(text: string, summaryType: string, summary: string, now: int)
      modifies this
      ensures entries == Stored(old(entries), CacheKey(scheme, text, summaryType), summary, now)
      ensures GetCachedSummary(text, summaryType, now) == Some(summary)
      ensures forall k :: k in old(entries) && k != CacheKey(scheme, text, summaryType) ==>
                k in entries && entries[k] == old(entries)[k]
    {
      entries := entries[CacheKey(scheme, text, summaryType) := Entry(summary, now)];
    }
  }

  /** A summary stored at `at` is read back at `now` exactly when less than an hour has passed. */
  lemma ReadAfterWrite(entries: map<Key, Entry>, key: Key, summary: string, at: int, now: int)
    ensures Lookup(Stored(entries, key, summary, at), key, now) ==
            (if now - at < CacheExpiration then Some(summary) else None)
  {
  }

  /** Storing under one key leaves the lookup of every other key as it was. */
  lemma WriteLeavesOtherKeys(entries: map<Key, Entry>, key: Key, summary: string, at: int, other: Key, now: int)
    requires other != key
    ensures Lookup(Stored(entries, key, summary, at), other, now) == Lookup(entries, other, now)
  {
  }

  /** Once an entry has expired it stays expired at every later clock reading. */
  lemma ExpiryIsPermanent(entries: map<Key, Entry>, key: Key, now: int, later: int)
    requires key in entries && Lookup(entries, key, now) == None
    requires now <= later
    ensures Lookup(entries, key, later) == None
  {
  }

  /**
   * The joined key is not injective: moving an underscore-separated suffix of
   * the text to the front of the type gives the same key.
   */
  lemma JoinedKeysCollide(text: string, middle: string, summaryType: string)
    ensures CacheKey(Joined, text + "_" + middle, summaryType) == CacheKey(Joined, text, middle + "_" + summaryType)
  {
  }

  /** Two valid summary types collide: "x_two" as a paragraph and "x" as two paragraphs. */
  lemma JoinedKeyCollisionOfValidTypes()
    ensures CacheKey(Joined, "x_two", "paragraph") == CacheKey(Joined, "x", "two_paragraph")
  {
  }

  /** The joined key does identify the pair when the text holds no underscore. */
  lemma JoinedKeyInjectiveWithoutUnderscore(t1: string, s1: string, t2: string, s2: string)
    requires '_' !in t1 && '_' !in t2
    requires CacheKey(Joined, t1, s1) == CacheKey(Joined, t2, s2)
    ensures t1 == t2 && s1 == s2
  {
  }

  /** The corrected key identifies the pair for every text. */
  lemma PairedKeyInjective(t1: string, s1: string, t2: string, s2: string)
    requires CacheKey(Paired, t1, s1) == CacheKey(Paired, t2, s2)
    ensures t1 == t2 && s1 == s2
  {
  }
}
