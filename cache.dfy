/**
  The response cache of cache.py: request fingerprints and a keyed table of
  `key -> (value, expires_at)` with lazy expiry on read.

  The SQLite table is the `rows` field of RequestCache.  The clock, the
  SHA-256 digest and `json.dumps` are parameters: `now` is an integer number
  of seconds, `sha256` and `dumps` are arbitrary functions, and the
  properties of keys are stated about the pre-image string they hash.
*/
module Cache {
  import opened Wrappers
  import opened JsonValues
  import opened Strings
  import opened KeyOrder

  /** The seven fields every fetched response record carries. */
  const RequiredKeys: set<string> :=
    {"status", "statusText", "url", "headers", "text", "redirected", "type"}

  /** `_validate_data`: the loaded value when it is a dict holding every required key. */
  function ValidateData(data: Json): (r: Option<Json>)
    ensures r.Some? <==> data.JObject? && RequiredKeys <= KeySet(data.fields)
    ensures r.Some? ==> r.value == data
  {
    if data.JObject? && RequiredKeys <= KeySet(data.fields) then Some(data) else None
  }

  // ---------------------------------------------------------------------
  // Fingerprints (generate_key)
  // ---------------------------------------------------------------------

  /** `json.dumps(body, sort_keys=True) if body else ""`, for a printer `dumps` of item lists. */
  function BodyText(dumps: Items -> string, body: Option<Items>): string
  {
    if body.None? || body.value == [] then "" else dumps(SortByKey(body.value))
  }

  /** The string `generate_key` hashes: `METHOD|url|params|data|json`. */
  function PreImage(dumps: Items -> string, verb: string, url: string,
                    params: Option<Items>, data: Option<Items>, jsonData: Option<Items>): string
  {
    Upper(verb) + "|" + (url + "|" + (BodyText(dumps, params) + "|"
      + (BodyText(dumps, data) + "|" + BodyText(dumps, jsonData))))
  }

  /** `generate_key`: the digest of the pre-image. */
  function GenerateKey(sha256: string -> string, dumps: Items -> string, verb: string, url: string,
                       params: Option<Items>, data: Option<Items>, jsonData: Option<Items>): string
  {
    sha256(PreImage(dumps, verb, url, params, data, jsonData))
  }

  /** `json.dumps` of a dict is never the empty string (it is at least "{}"). */
  ghost predicate NeverEmpty(dumps: Items -> string)
  {
    forall d :: dumps(d) != ""
  }

  /** `json.dumps` prints different item lists differently. */
  ghost predicate Injective(dumps: Items -> string)
  {
    forall a, b :: dumps(a) == dumps(b) ==> a == b
  }

  /** An optional body that is a real dict: no key twice. */
  predicate IsDict(body: Option<Items>)
  {
    body.Some? ==> DistinctKeys(body.value)
  }

  /** What a body holds, regardless of order; `None` holds nothing, like `{}`. */
  function Contents(body: Option<Items>): multiset<(string, Json)>
  {
    if body.None? then multiset{} else multiset(body.value)
  }

  /** Two `|`-joined strings with the same first field are equal exactly when the rests are. */
  lemma CancelFront(x: string, r1: string, r2: string)
    ensures x + "|" + r1 == x + "|" + r2 <==> r1 == r2
  {
    if x + "|" + r1 == x + "|" + r2 {
      assert r1 == (x + "|" + r1)[|x| + 1..];
      assert r2 == (x + "|" + r2)[|x| + 1..];
    }
  }

  /** Two `|`-joined strings with the same rest are equal exactly when the first fields are. */
  lemma CancelBack(x1: string, x2: string, r: string)
    ensures x1 + "|" + r == x2 + "|" + r <==> x1 == x2
  {
    if x1 + "|" + r == x2 + "|" + r {
      assert |x1| == |x2|;
      assert x1 == (x1 + "|" + r)[..|x1|];
      assert x2 == (x2 + "|" + r)[..|x2|];
    }
  }

  /** A body's serialisation tells its contents apart, and nothing else. */
  lemma BodyTextIff(dumps: Items -> string, b1: Option<Items>, b2: Option<Items>)
    requires NeverEmpty(dumps) && Injective(dumps)
    requires IsDict(b1) && IsDict(b2)
    ensures BodyText(dumps, b1) == BodyText(dumps, b2) <==> Contents(b1) == Contents(b2)
  {
    var e1 := b1.None? || b1.value == [];
    var e2 := b2.None? || b2.value == [];
    if !e1 { assert b1.value[0] in Contents(b1); }
    if !e2 { assert b2.value[0] in Contents(b2); }
    if !e1 && !e2 {
      SortIgnoresOrder(b1.value, b2.value);
    }
  }

  /** Holding everything else fixed, the pre-image ignores the method's case and separates methods otherwise. */
  lemma PreImageMethodIff(dumps: Items -> string, m1: string, m2: string, url: string,
                          params: Option<Items>, data: Option<Items>, jsonData: Option<Items>)
    ensures PreImage(dumps, m1, url, params, data, jsonData) == PreImage(dumps, m2, url, params, data, jsonData)
            <==> Upper(m1) == Upper(m2)
  {
    var r := url + "|" + (BodyText(dumps, params) + "|" + (BodyText(dumps, data) + "|" + BodyText(dumps, jsonData)));
    CancelBack(Upper(m1), Upper(m2), r);
  }

  /** Holding everything else fixed, different URLs give different pre-images. */
  lemma PreImageUrlIff(dumps: Items -> string, verb: string, u1: string, u2: string,
                       params: Option<Items>, data: Option<Items>, jsonData: Option<Items>)
    ensures PreImage(dumps, verb, u1, params, data, jsonData) == PreImage(dumps, verb, u2, params, data, jsonData)
            <==> u1 == u2
  {
    var r := BodyText(dumps, params) + "|" + (BodyText(dumps, data) + "|" + BodyText(dumps, jsonData));
    CancelFront(Upper(verb), u1 + "|" + r, u2 + "|" + r);
    CancelBack(u1, u2, r);
  }

  /** Holding everything else fixed, the pre-image depends on the params exactly through their contents. */
  lemma PreImageParamsIff(dumps: Items -> string, verb: string, url: string,
                          p1: Option<Items>, p2: Option<Items>, data: Option<Items>, jsonData: Option<Items>)
    requires NeverEmpty(dumps) && Injective(dumps)
    requires IsDict(p1) && IsDict(p2)
    ensures PreImage(dumps, verb, url, p1, data, jsonData) == PreImage(dumps, verb, url, p2, data, jsonData)
            <==> Contents(p1) == Contents(p2)
  {
    var r := BodyText(dumps, data) + "|" + BodyText(dumps, jsonData);
    var t1, t2 := BodyText(dumps, p1), BodyText(dumps, p2);
    CancelFront(Upper(verb), url + "|" + (t1 + "|" + r), url + "|" + (t2 + "|" + r));
    CancelFront(url, t1 + "|" + r, t2 + "|" + r);
    CancelBack(t1, t2, r);
    BodyTextIff(dumps, p1, p2);
  }

  /** Holding everything else fixed, the pre-image depends on the form body exactly through its contents. */
  lemma PreImageDataIff(dumps: Items -> string, verb: string, url: string,
                        params: Option<Items>, d1: Option<Items>, d2: Option<Items>, jsonData: Option<Items>)
    requires NeverEmpty(dumps) && Injective(dumps)
    requires IsDict(d1) && IsDict(d2)
    ensures PreImage(dumps, verb, url, params, d1, jsonData) == PreImage(dumps, verb, url, params, d2, jsonData)
            <==> Contents(d1) == Contents(d2)
  {
    var p, j := BodyText(dumps, params), BodyText(dumps, jsonData);
    var t1, t2 := BodyText(dumps, d1), BodyText(dumps, d2);
    CancelFront(Upper(verb), url + "|" + (p + "|" + (t1 + "|" + j)), url + "|" + (p + "|" + (t2 + "|" + j)));
    CancelFront(url, p + "|" + (t1 + "|" + j), p + "|" + (t2 + "|" + j));
    CancelFront(p, t1 + "|" + j, t2 + "|" + j);
    CancelBack(t1, t2, j);
    BodyTextIff(dumps, d1, d2);
  }

  /** Holding everything else fixed, the pre-image depends on the JSON body exactly through its contents. */
  lemma PreImageJsonIff(dumps: Items -> string, verb: string, url: string,
                        params: Option<Items>, data: Option<Items>, j1: Option<Items>, j2: Option<Items>)
    requires NeverEmpty(dumps) && Injective(dumps)
    requires IsDict(j1) && IsDict(j2)
    ensures PreImage(dumps, verb, url, params, data, j1) == PreImage(dumps, verb, url, params, data, j2)
            <==> Contents(j1) == Contents(j2)
  {
    var p, d := BodyText(dumps, params), BodyText(dumps, data);
    var t1, t2 := BodyText(dumps, j1), BodyText(dumps, j2);
    CancelFront(Upper(verb), url + "|" + (p + "|" + (d + "|" + t1)), url + "|" + (p + "|" + (d + "|" + t2)));
    CancelFront(url, p + "|" + (d + "|" + t1), p + "|" + (d + "|" + t2));
    CancelFront(p, d + "|" + t1, d + "|" + t2);
    CancelFront(d, t1, t2);
    BodyTextIff(dumps, j1, j2);
  }

  /**
    Two requests that differ only in the case of the method and in the key
    order of their bodies get the same key, whatever the digest and printer.
  */
  lemma KeyIgnoresCaseAndOrder(sha256: string -> string, dumps: Items -> string,
                               m1: string, m2: string, url: string,
                               p1: Option<Items>, p2: Option<Items>, d1: Option<Items>, d2: Option<Items>,
                               j1: Option<Items>, j2: Option<Items>)
    requires Upper(m1) == Upper(m2)
    requires IsDict(p1) && IsDict(p2) && Contents(p1) == Contents(p2)
    requires IsDict(d1) && IsDict(d2) && Contents(d1) == Contents(d2)
    requires IsDict(j1) && IsDict(j2) && Contents(j1) == Contents(j2)
    ensures GenerateKey(sha256, dumps, m1, url, p1, d1, j1) == GenerateKey(sha256, dumps, m2, url, p2, d2, j2)
  {
    SameContentsSameText(dumps, p1, p2);
    SameContentsSameText(dumps, d1, d2);
    SameContentsSameText(dumps, j1, j2);
  }

  lemma SameContentsSameText(dumps: Items -> string, b1: Option<Items>, b2: Option<Items>)
    requires IsDict(b1) && IsDict(b2) && Contents(b1) == Contents(b2)
    ensures BodyText(dumps, b1) == BodyText(dumps, b2)
  {
    if b1.Some? && b1.value != [] {
      assert b1.value[0] in Contents(b1);
    }
    if b2.Some? && b2.value != [] {
      assert b2.value[0] in Contents(b2);
    }
    if b1.Some? && b2.Some? {
      SortIgnoresOrder(b1.value, b2.value);
    }
  }

  /** The case of tests/test_cache.py: absent and empty params agree, and adding params changes the pre-image. */
  lemma ParamsChangePreImage(dumps: Items -> string, verb: string, url: string, params: Items)
    requires NeverEmpty(dumps)
    requires params != []
    ensures PreImage(dumps, verb, url, None, None, None) == PreImage(dumps, verb, url, Some([]), None, None)
    ensures PreImage(dumps, verb, url, None, None, None) != PreImage(dumps, verb, url, Some(params), None, None)
  {
    var r := "" + "|" + ("" + "|" + "");
    var t := BodyText(dumps, Some(params));
    CancelFront(Upper(verb), url + "|" + ("" + "|" + r), url + "|" + (t + "|" + r));
    CancelFront(url, "" + "|" + r, t + "|" + r);
    CancelBack("", t, r);
  }

  // ---------------------------------------------------------------------
  // The table (get, set, clear_expired, clear_all)
  // ---------------------------------------------------------------------

  /** The `value` column: a JSON text that loads to a value, or one that does not. */
  datatype Stored = Decoded(json: Json) | Corrupt

  /** One row of the table. */
  datatype Entry = Entry(value: Stored, expiresAt: int)

  type Table = map<string, Entry>

  /** What `get` returns and the table it leaves behind. */
  datatype LookupResult = LookupResult(result: Option<Json>, table: Table)

  /** `get(key)` at time `now`. */
  function Lookup(t: Table, key: string, now: int): LookupResult
  {
    if key !in t then LookupResult(None, t)
    else if now < t[key].expiresAt then
      match t[key].value
      case Corrupt => LookupResult(None, t)
      case Decoded(j) => LookupResult(ValidateData(j), t)
    else LookupResult(None, t - {key})
  }

  /** `set(key, value, ttl)` at time `now`: insert or replace. */
  function Store(t: Table, key: string, value: Json, ttl: int, now: int): Table
  {
    t[key := Entry(Decoded(value), now + ttl)]
  }

  /** `clear_expired()` at time `now`: rows with `expires_at < now` go. */
  function WithoutExpired(t: Table, now: int): Table
  {
    map k | k in t && t[k].expiresAt >= now :: t[k]
  }

  /** A value `get` hands back is a validated record stored in a live row. */
  lemma LookupReturnsOnlyLiveValidRecords(t: Table, key: string, now: int)
    ensures var r := Lookup(t, key, now);
      r.result.Some? <==>
        key in t && now < t[key].expiresAt && t[key].value.Decoded? && ValidateData(t[key].value.json).Some?
    ensures var r := Lookup(t, key, now);
      r.result.Some? ==> t[key].value == Decoded(r.result.value)
  {
  }

  /** `get` deletes exactly the looked-up row, and only when it has expired. */
  lemma LookupDeletesOnlyExpiredRow(t: Table, key: string, now: int)
    ensures var r := Lookup(t, key, now);
      r.table == if key in t && t[key].expiresAt <= now then t - {key} else t
    ensures var r := Lookup(t, key, now);
      key in t && t[key].expiresAt <= now ==> r.result.None? && key !in r.table
    ensures var r := Lookup(t, key, now);
      forall k :: k in t && k != key ==> k in r.table && r.table[k] == t[k]
  {
  }

  /** After `set(k, v, ttl)` at time `now`, every `get(k)` before `now + ttl` returns `v`. */
  lemma SetThenGet(t: Table, key: string, value: Json, ttl: int, now: int, later: int)
    requires ValidateData(value).Some?
    requires later < now + ttl
    ensures Lookup(Store(t, key, value, ttl, now), key, later) ==
            LookupResult(Some(value), Store(t, key, value, ttl, now))
  {
  }

  /** A second `set` on the same key replaces the first: last write wins. */
  lemma LastWriteWins(t: Table, key: string, v1: Json, v2: Json, ttl1: int, ttl2: int, now1: int, now2: int)
    ensures Store(Store(t, key, v1, ttl1, now1), key, v2, ttl2, now2) == Store(t, key, v2, ttl2, now2)
  {
  }

  /** A row stored with a TTL of zero or less is never returned, and the next read removes it. */
  lemma NonPositiveTtlNeverReturned(t: Table, key: string, value: Json, ttl: int, now: int, later: int)
    requires ttl <= 0 && now <= later
    ensures Lookup(Store(t, key, value, ttl, now), key, later).result == None
    ensures key !in Lookup(Store(t, key, value, ttl, now), key, later).table
  {
  }

  /** `clear_expired` keeps exactly the rows with `expires_at >= now`, unchanged. */
  lemma SweepKeepsExactlyLiveRows(t: Table, now: int)
    ensures forall k :: k in WithoutExpired(t, now) <==> k in t && t[k].expiresAt >= now
    ensures forall k :: k in WithoutExpired(t, now) ==> WithoutExpired(t, now)[k] == t[k]
  {
  }

  /**
    The boundary between the two expiry tests: a row expiring exactly at `now`
    survives `clear_expired` but is already expired for `get`.
  */
  lemma ExpiryBoundary(t: Table, key: string, now: int)
    requires key in t && t[key].expiresAt == now
    ensures key in WithoutExpired(t, now)
    ensures Lookup(t, key, now).result == None
    ensures key !in Lookup(t, key, now).table
  {
  }

  /** A sweep never changes what `get` returns at the same moment. */
  lemma SweepPreservesLookups(t: Table, key: string, now: int)
    ensures Lookup(WithoutExpired(t, now), key, now).result == Lookup(t, key, now).result
  {
  }

  /** The response cache, its table held in `rows`. */
  class RequestCache {
    var rows: Table

    /** Opens a cache whose table already holds `persisted` (an existing database file). */
    constructor (persisted: Table)
      ensures rows == persisted
    {
      rows := persisted;
    }

    /** `get(key)`: the record if its row is live and valid; an expired row is deleted on the way. */
    method Get(key: string, now: int) returns (r: Option<Json>)
      modifies this
      ensures LookupResult(r, rows) == Lookup(old(rows), key, now)
    {
      if key in rows {
        var entry := rows[key];
        if now < entry.expiresAt {
          match entry.value
          case Corrupt =>
            r := None;
          case Decoded(j) =>
            r := ValidateData(j);
        } else {
          rows := rows - {key};
          r := None;
        }
      } else {
        r := None;
      }
    }

    /** `set(key, value, ttl)`: insert or replace the row, expiring at `now + ttl`. */
    method Set(key: string, value: Json, ttl: int, now: int)
      modifies this
      ensures rows == Store(old(rows), key, value, ttl, now)
      ensures key in rows && rows[key] == Entry(Decoded(value), now + ttl)
      ensures forall k :: k in old(rows) && k != key ==> k in rows && rows[k] == old(rows)[k]
    {
      rows := rows[key := Entry(Decoded(value), now + ttl)];
    }

    /** `clear_expired()`: delete every row with `expires_at < now`. */
    method ClearExpired(now: int)
      modifies this
      ensures rows == WithoutExpired(old(rows), now)
    {
      rows := map k | k in rows && rows[k].expiresAt >= now :: rows[k];
    }

    /** `clear_all()`: delete every row. */
    method ClearAll()
      modifies this
      ensures rows == map[]
    {
      rows := map[];
    }
  }
}
