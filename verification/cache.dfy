/**
 * The TTL-bounded key/value cache. Each key names one record; a record is either the current
 * format (a write time and a payload), the legacy format (a bare list of articles, written by
 * older versions) or anything else found on disk. Expiry is decided when reading.
 */
module CacheStore {
  import opened Wrappers
  import opened Articles

  /** Seconds during which a timestamped record is served. */
  const TimeToLive: int := 3600

  /** The JSON values the pipeline stores: an enrichment label or a query's article list. */
  datatype Payload = Text(text: string) | ArticleList(items: seq<Article>)

  datatype Entry =
    | Timestamped(storedAt: int, data: Payload)
    | Legacy(items: seq<Article>)
    | Unrecognised

  type Store = map<string, Entry>

  /** Python truthiness of a payload: the empty string and the empty list are falsy. */
  predicate Truthy(p: Payload)
  {
    match p
    case Text(s) => s != []
    case ArticleList(xs) => xs != []
  }

  /** Reads `key` at time `now`; an absent, expired or unrecognised record is a miss. */
  function Load(store: Store, key: string, now: int): (r: Option<Payload>)
    ensures r.Some? ==> key in store && !store[key].Unrecognised?
  {
    if key !in store then None
    else
      match store[key]
      case Timestamped(t, d) => if now - t < TimeToLive then Some(d) else None
      case Legacy(xs) => Some(ArticleList(xs))
      case Unrecognised => None
  }

  /** Writes `data` under `key` stamped with `now`, overwriting whatever was there. */
  function Save(store: Store, key: string, data: Payload, now: int): (r: Store)
    ensures r.Keys == store.Keys + {key}
    ensures r[key] == Timestamped(now, data)
    ensures forall k :: k in store && k != key ==> r[k] == store[k]
  {
    store[key := Timestamped(now, data)]
  }

  /** A record written at `t` is read back unchanged while fewer than TimeToLive seconds have passed. */
  lemma ReadAfterWrite(store: Store, key: string, data: Payload, t: int, now: int)
    requires now - t < TimeToLive
    ensures Load(Save(store, key, data, t), key, now) == Some(data)
  {
  }

  /** ... and is a miss from TimeToLive seconds on. */
  lemma ExpiredIsMiss(store: Store, key: string, data: Payload, t: int, now: int)
    requires now - t >= TimeToLive
    ensures Load(Save(store, key, data, t), key, now) == None
  {
  }

  /** Timestamped records are served exactly while they are fresh. */
  lemma TimestampedValidity(store: Store, key: string, now: int)
    requires key in store && store[key].Timestamped?
    ensures Load(store, key, now).Some? <==> now - store[key].storedAt < TimeToLive
    ensures Load(store, key, now).Some? ==> Load(store, key, now).value == store[key].data
  {
  }

  /** A legacy bare list is served at every time, however old it is. */
  lemma LegacyNeverExpires(store: Store, key: string, now: int)
    requires key in store && store[key].Legacy?
    ensures Load(store, key, now) == Some(ArticleList(store[key].items))
  {
  }

  /** Absent keys and unrecognised records are misses. */
  lemma UnrecognisedIsMiss(store: Store, key: string, now: int)
    requires key !in store || store[key].Unrecognised?
    ensures Load(store, key, now) == None
  {
  }

  /** Writing one key leaves every other key's reads as they were. */
  lemma SaveIsolated(store: Store, key: string, data: Payload, t: int, other: string, now: int)
    requires other != key
    ensures Load(Save(store, key, data, t), other, now) == Load(store, other, now)
  {
  }

  /** A cached enrichment label, counted as a hit only when it is a non-empty string. */
  function CachedText(store: Store, key: string, now: int): (r: Option<string>)
    ensures r.Some? <==> exists s :: Load(store, key, now) == Some(Text(s)) && s != []
    ensures r.Some? ==> Load(store, key, now) == Some(Text(r.value))
  {
    match Load(store, key, now)
    case Some(Text(s)) => if Truthy(Text(s)) then Some(s) else None
    case _ => None
  }

  /** A cached query response, counted as a hit only when it is a non-empty list. */
  function CachedArticles(store: Store, key: string, now: int): (r: Option<seq<Article>>)
    ensures r.Some? <==> exists xs :: Load(store, key, now) == Some(ArticleList(xs)) && xs != []
    ensures r.Some? ==> Load(store, key, now) == Some(ArticleList(r.value))
  {
    match Load(store, key, now)
    case Some(ArticleList(xs)) => if Truthy(ArticleList(xs)) then Some(xs) else None
    case _ => None
  }

  /** A stored empty list (what a failed query leaves behind) never counts as a hit. */
  lemma EmptyListIsMiss(store: Store, key: string, t: int, now: int)
    ensures CachedArticles(Save(store, key, ArticleList([]), t), key, now) == None
  {
  }

  /** A stored empty label never counts as a hit either. */
  lemma EmptyTextIsMiss(store: Store, key: string, t: int, now: int)
    ensures CachedText(Save(store, key, Text([]), t), key, now) == None
  {
  }
}
