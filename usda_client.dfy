/** The food-data client's expiring cache and its `get_food` lookup
    (`USDAClient._cache_get`, `_cache_set`, `get_food`). The wall clock and the
    HTTP response are parameters: `readAt` is the clock when the cache is read,
    `writeAt` when it is written, and `response` is what the provider answers. */
module Usda {
  import opened Wrappers
  import opened Text
  import opened Common
  import opened NutrientNormalizer

  /** Entries older than this many seconds are stale. */
  const CacheTtl: real := 3600.0

  /** `(time.time(), value)` as stored by `_cache_set`. */
  datatype CacheEntry = CacheEntry(storedAt: real, value: FoodRecord)

  type Cache = map<string, CacheEntry>

  /** The exceptions `get_food` raises. */
  datatype ClientError =
    | InvalidId               // ValueError: the id is None or not positive
    | NotFound(id: nat)       // ValueError: the provider answered 404
    | MalformedBody(id: nat)  // ValueError: the body is not JSON
    | RequestFailed(status: int)  // RuntimeError: any other status outside 2xx
    | UnexpectedFormat(id: nat)   // RuntimeError: JSON, but not an object

  /** What `r.json()` yields. */
  datatype Body = JsonObject(record: FoodRecord) | OtherJson | NotJson

  datatype Response = Response(status: int, body: Body)

  /** Python truthiness of a decoded object: `{}` is false. */
  predicate NonEmpty(record: FoodRecord) {
    record.keyCount > 0
  }

  /** `f"food:{fdc_id}"` */
  function FoodKey(id: nat): string {
    "food:" + DecimalString(id)
  }

  /** `_cache_get` as a value: what it returns and the cache it leaves. */
  function CacheLookup(cache: Cache, key: string, now: real): (Option<FoodRecord>, Cache) {
    if key !in cache then (None, cache)
    else if now - cache[key].storedAt > CacheTtl then (None, cache - {key})
    else (Some(cache[key].value), cache)
  }

  /** `get_food` as a value: its outcome and the cache it leaves. */
  function Lookup(cache: Cache, fdcId: Option<int>, readAt: real, writeAt: real, response: Response)
    : (Result<FoodRecord, ClientError>, Cache)
  {
    if fdcId.None? || fdcId.value <= 0 then (Failure(InvalidId), cache)
    else
      var id: nat := fdcId.value;
      var key := FoodKey(id);
      var (cached, afterRead) := CacheLookup(cache, key, readAt);
      if cached.Some? && NonEmpty(cached.value) then (Success(cached.value), afterRead)
      else if response.status == 404 then (Failure(NotFound(id)), afterRead)
      else if !(200 <= response.status < 300) then (Failure(RequestFailed(response.status)), afterRead)
      else
        match response.body
        case NotJson => (Failure(MalformedBody(id)), afterRead)
        case OtherJson => (Failure(UnexpectedFormat(id)), afterRead)
        case JsonObject(data) => (Success(data), afterRead[key := CacheEntry(writeAt, data)])
  }

  class UsdaClient {
    var cache: Cache

    constructor ()
      ensures cache == map[]
    {
      cache := map[];
    }

    /** `_cache_get`: a stale entry is dropped and reported as a miss. */
    method CacheGet(key: string, now: real) returns (value: Option<FoodRecord>)
      modifies this
      ensures (value, cache) == CacheLookup(old(cache), key, now)
    {
      if key !in cache {
        return None;
      }
      var entry := cache[key];
      if now - entry.storedAt > CacheTtl {
        cache := cache - {key};
        return None;
      }
      value := Some(entry.value);
    }

    /** `_cache_set` */
    method CacheSet(key: string, value: FoodRecord, now: real)
      modifies this
      ensures cache == old(cache)[key := CacheEntry(now, value)]
    {
      cache := cache[key := CacheEntry(now, value)];
    }

    /** `get_food`: validate the id, serve a fresh non-empty cached record, and
        otherwise take the provider's response, caching only a decoded object. */
    method GetFood(fdcId: Option<int>, readAt: real, writeAt: real, response: Response)
      returns (r: Result<FoodRecord, ClientError>)
      modifies this
      ensures (r, cache) == Lookup(old(cache), fdcId, readAt, writeAt, response)
    {
      if fdcId.None? || fdcId.value <= 0 {
        return Failure(InvalidId);
      }
      var id: nat := fdcId.value;
      var key := FoodKey(id);
      var cached := CacheGet(key, readAt);
      if cached.Some? && NonEmpty(cached.value) {
        return Success(cached.value);
      }
      if response.status == 404 {
        return Failure(NotFound(id));
      }
      if !(200 <= response.status < 300) {
        return Failure(RequestFailed(response.status));
      }
      match response.body {
        case NotJson =>
          return Failure(MalformedBody(id));
        case OtherJson =>
          return Failure(UnexpectedFormat(id));
        case JsonObject(data) =>
          CacheSet(key, data, writeAt);
          return Success(data);
      }
    }
  }

  /** A cache read touches only its own key: other entries survive unchanged. */
  lemma CacheLookupTouchesOnlyKey(cache: Cache, key: string, now: real, other: string)
    requires other != key
    ensures var after := CacheLookup(cache, key, now).1;
      (other in after <==> other in cache) && (other in cache ==> after[other] == cache[other])
  {
  }

  /** An entry at most one TTL old is served as stored; an older one is evicted. */
  lemma CacheExpiry(cache: Cache, key: string, now: real)
    requires key in cache
    ensures now - cache[key].storedAt <= CacheTtl ==> CacheLookup(cache, key, now) == (Some(cache[key].value), cache)
    ensures now - cache[key].storedAt > CacheTtl ==>
      CacheLookup(cache, key, now).0 == None && CacheLookup(cache, key, now).1 == cache - {key}
  {
  }

  /** Writing then reading within the TTL gives back what was written. */
  lemma SetThenGet(cache: Cache, key: string, value: FoodRecord, storedAt: real, now: real)
    requires now - storedAt <= CacheTtl
    ensures CacheLookup(cache[key := CacheEntry(storedAt, value)], key, now).0 == Some(value)
  {
  }

  /** Distinct ids never share a cache key. */
  lemma FoodKeyInjective(a: nat, b: nat)
    requires FoodKey(a) == FoodKey(b)
    ensures a == b
  {
    PrefixedDecimalInjective("food:", a, b);
  }

  /** A missing or non-positive id fails before the cache or the provider is consulted. */
  lemma InvalidIdTouchesNothing(cache: Cache, fdcId: Option<int>, readAt: real, writeAt: real, response: Response)
    requires fdcId.None? || fdcId.value <= 0
    ensures Lookup(cache, fdcId, readAt, writeAt, response) == (Failure(InvalidId), cache)
  {
  }

  /** A fresh, non-empty cached record is returned whatever the provider would say. */
  lemma CacheHitIgnoresProvider(cache: Cache, id: nat, readAt: real, writeAt: real, r1: Response, r2: Response)
    requires id > 0 && FoodKey(id) in cache
    requires readAt - cache[FoodKey(id)].storedAt <= CacheTtl && NonEmpty(cache[FoodKey(id)].value)
    ensures Lookup(cache, Some(id), readAt, writeAt, r1) == Lookup(cache, Some(id), readAt, writeAt, r2)
    ensures Lookup(cache, Some(id), readAt, writeAt, r1) == (Success(cache[FoodKey(id)].value), cache)
  {
  }

  /** Only a decoded object from a 2xx response is written to the cache; every
      failure leaves the cache as the read left it. */
  lemma OnlySuccessIsCached(cache: Cache, fdcId: Option<int>, readAt: real, writeAt: real, response: Response)
    requires fdcId.Some? && fdcId.value > 0
    ensures var (r, after) := Lookup(cache, fdcId, readAt, writeAt, response);
      var afterRead := CacheLookup(cache, FoodKey(fdcId.value), readAt).1;
      (r.Failure? ==> after == afterRead) &&
      (after != afterRead ==> 200 <= response.status < 300 && response.body == JsonObject(r.value) &&
                              after == afterRead[FoodKey(fdcId.value) := CacheEntry(writeAt, r.value)])
  {
  }

  /** A 404 is NotFound, any other non-2xx status is RequestFailed, and a 2xx body
      that is not a JSON object is an error too (on a cache miss). */
  lemma ProviderErrors(cache: Cache, id: nat, readAt: real, writeAt: real, response: Response)
    requires id > 0
    requires var c := CacheLookup(cache, FoodKey(id), readAt).0; c.None? || !NonEmpty(c.value)
    ensures var r := Lookup(cache, Some(id), readAt, writeAt, response).0;
      (response.status == 404 ==> r == Failure(NotFound(id))) &&
      (response.status != 404 && !(200 <= response.status < 300) ==> r == Failure(RequestFailed(response.status))) &&
      (200 <= response.status < 300 ==> (r.Success? <==> response.body.JsonObject?))
  {
  }

  /** After a record is fetched from the provider, asking again within the TTL
      is served from the cache with the same record, whatever the provider
      would answer then. */
  lemma FetchThenHit(cache: Cache, id: nat, readAt: real, writeAt: real, response: Response,
                     readAgain: real, writeAgain: real, other: Response)
    requires id > 0
    requires var c := CacheLookup(cache, FoodKey(id), readAt).0; c.None? || !NonEmpty(c.value)
    requires var r := Lookup(cache, Some(id), readAt, writeAt, response).0; r.Success? && NonEmpty(r.value)
    requires readAgain - writeAt <= CacheTtl
    ensures var (r, after) := Lookup(cache, Some(id), readAt, writeAt, response);
      Lookup(after, Some(id), readAgain, writeAgain, other) == (r, after)
  {
  }
}
