/**
 * The response cache of the scraping API (backend/api.py): `MemoryCache`, an
 * insertion-ordered dictionary with a time-to-live per entry, a size bound
 * enforced by evicting from the least recently used end, and hit and miss
 * counters; and the parts of `CacheManager` that compute keys and invalidate
 * entries.
 *
 * The clock is a parameter (`now`), one reading per operation. Values are
 * stored as given; the pickle/zlib compression of large values is an
 * encoding the model does not look inside.
 */
module ApiCache {
  import opened Wrappers
  import opened Text
  import opened Sequences

  function KeySet(order: seq<string>): set<string>
  {
    set k | k in order
  }

  predicate NoDup(order: seq<string>)
  {
    forall i, j :: 0 <= i < j < |order| ==> order[i] != order[j]
  }

  /** The key order with `key` taken out. */
  function Remove(order: seq<string>, key: string): (r: seq<string>)
    ensures KeySet(r) == KeySet(order) - {key}
    ensures NoDup(order) ==> NoDup(r)
    ensures |r| <= |order|
    ensures key in order && NoDup(order) ==> |r| == |order| - 1
    ensures key !in order ==> r == order
    ensures SubseqOf(r, order)
  {
    if order == [] then []
    else
      var rest := Remove(order[1..], key);
      assert order == [order[0]] + order[1..];
      assert KeySet(order) == {order[0]} + KeySet(order[1..]);
      assert NoDup(order) ==> NoDup(order[1..]) && order[0] !in KeySet(order[1..]) by {
        if NoDup(order) {
          HeadNotInTail(order);
        }
      }
      if order[0] == key then
        SubseqOfSkip(order[0], rest, order[1..]);
        rest
      else
        assert KeySet([order[0]] + rest) == {order[0]} + KeySet(rest);
        SubseqOfCons(order[0], rest, order[1..]);
        [order[0]] + rest
  }

  /** With every key present once, taking `key` out removes exactly its position. */
  lemma {:induction false} RemoveAt(order: seq<string>, key: string, i: nat)
    requires NoDup(order) && i < |order| && order[i] == key
    ensures Remove(order, key) == order[..i] + order[i + 1..]
  {
    HeadNotInTail(order);
    var tail := order[1..];
    if i == 0 {
      assert Remove(order, key) == Remove(tail, key);
      assert key !in tail;
    } else {
      assert order[0] != key;
      assert Remove(order, key) == [order[0]] + Remove(tail, key);
      assert tail[i - 1] == key;
      RemoveAt(tail, key, i - 1);
      assert order[..i] == [order[0]] + tail[..i - 1];
      assert order[i + 1..] == tail[i..];
    }
  }

  /** `_is_expired` as a predicate on a timestamp map: absent keys count as expired. */
  predicate IsStale(timestamps: map<string, real>, key: string, ttl: real, now: real)
  {
    key !in timestamps || now - timestamps[key] > ttl
  }

  /** The keys `_cleanup_expired` keeps, in their order. */
  function KeepLive(order: seq<string>, timestamps: map<string, real>, ttl: real, now: real): (r: seq<string>)
    ensures forall k :: k in r <==> k in order && !IsStale(timestamps, k, ttl, now)
    ensures SubseqOf(r, order)
    ensures NoDup(order) ==> NoDup(r)
    ensures |r| <= |order|
  {
    if order == [] then []
    else
      var rest := KeepLive(order[1..], timestamps, ttl, now);
      assert order == [order[0]] + order[1..];
      if IsStale(timestamps, order[0], ttl, now) then
        SubseqOfSkip(order[0], rest, order[1..]);
        rest
      else
        SubseqOfCons(order[0], rest, order[1..]);
        assert NoDup(order) ==> order[0] !in order[1..] by {
          if NoDup(order) {
            HeadNotInTail(order);
          }
        }
        [order[0]] + rest
  }

  /** The key order with every key of `gone` taken out. */
  function Without(order: seq<string>, gone: set<string>): (r: seq<string>)
    ensures KeySet(r) == KeySet(order) - gone
    ensures NoDup(order) ==> NoDup(r)
  {
    if order == [] then []
    else
      var rest := Without(order[1..], gone);
      assert order == [order[0]] + order[1..];
      assert KeySet(order) == {order[0]} + KeySet(order[1..]);
      assert NoDup(order) ==> NoDup(order[1..]) && order[0] !in KeySet(order[1..]) by {
        if NoDup(order) {
          HeadNotInTail(order);
        }
      }
      if order[0] in gone then rest
      else
        assert KeySet([order[0]] + rest) == {order[0]} + KeySet(rest);
        [order[0]] + rest
  }

  lemma {:induction false} WithoutNothing(order: seq<string>)
    ensures Without(order, {}) == order
  {
    if order != [] {
      WithoutNothing(order[1..]);
      assert order == [order[0]] + order[1..];
    }
  }

  /** Popping one more key is leaving out one more key. */
  lemma {:induction false} RemoveWithout(order: seq<string>, gone: set<string>, key: string)
    ensures Remove(Without(order, gone), key) == Without(order, gone + {key})
  {
    if order != [] {
      RemoveWithout(order[1..], gone, key);
      var rest := Without(order[1..], gone);
      if order[0] !in gone {
        assert Without(order, gone) == [order[0]] + rest;
        assert ([order[0]] + rest)[1..] == rest;
      }
    }
  }

  /** Leaving out exactly the stale keys is the purge. */
  lemma {:induction false} WithoutStale(order: seq<string>, gone: set<string>, timestamps: map<string, real>, ttl: real, now: real)
    requires forall k :: k in order ==> (k in gone <==> IsStale(timestamps, k, ttl, now))
    ensures Without(order, gone) == KeepLive(order, timestamps, ttl, now)
  {
    if order != [] {
      assert order[0] in order;
      assert forall k :: k in order[1..] ==> k in order;
      WithoutStale(order[1..], gone, timestamps, ttl, now);
    }
  }

  /** The cache after popping the keys of `gone` from the one given by the first three. */
  ghost predicate Popped<V>(order0: seq<string>, values0: map<string, V>, stamps0: map<string, real>, gone: set<string>,
                            order: seq<string>, values: map<string, V>, stamps: map<string, real>)
  {
    order == Without(order0, gone) && NoDup(order)
    && values == Restrict(values0, KeySet(order)) && stamps == Restrict(stamps0, KeySet(order))
  }

  /** One more pop keeps the cache popped, with one more key gone. */
  lemma PopStep<V>(order0: seq<string>, values0: map<string, V>, stamps0: map<string, real>, gone: set<string>, key: string,
                   order: seq<string>, values: map<string, V>, stamps: map<string, real>)
    requires Popped(order0, values0, stamps0, gone, order, values, stamps)
    ensures Popped(order0, values0, stamps0, gone + {key}, Remove(order, key), values - {key}, stamps - {key})
  {
    RemoveWithout(order0, gone, key);
    RestrictLess(values0, KeySet(order), key);
    RestrictLess(stamps0, KeySet(order), key);
  }

  /**
   * The keys `_enforce_size_limit` leaves: the `maxSize` most recent ones.
   * With a negative bound the loop empties the cache before it fails.
   */
  function Evicted(order: seq<string>, maxSize: int): (r: seq<string>)
    ensures KeySet(r) <= KeySet(order)
  {
    if maxSize < 0 then [] else if |order| <= maxSize then order else order[|order| - maxSize..]
  }

  lemma EvictedIsRecentSuffix(order: seq<string>, maxSize: int)
    requires maxSize >= 0
    ensures |Evicted(order, maxSize)| == if |order| < maxSize then |order| else maxSize
    ensures Evicted(order, maxSize) == order[|order| - |Evicted(order, maxSize)|..]
  {
  }

  /** A key appended with a live stamp is the last one the purge keeps. */
  lemma {:induction false} KeepLiveKeepsLast(order: seq<string>, key: string, timestamps: map<string, real>, ttl: real, now: real)
    requires !IsStale(timestamps, key, ttl, now)
    ensures var r := KeepLive(order + [key], timestamps, ttl, now); r != [] && r[|r| - 1] == key
  {
    var o := order + [key];
    if order == [] {
      assert KeepLive(o, timestamps, ttl, now) == [key] + KeepLive([], timestamps, ttl, now);
    } else {
      assert o[0] == order[0] && o[1..] == order[1..] + [key];
      KeepLiveKeepsLast(order[1..], key, timestamps, ttl, now);
      var rest := KeepLive(o[1..], timestamps, ttl, now);
      assert rest != [] && rest[|rest| - 1] == key;
      if !IsStale(timestamps, o[0], ttl, now) {
        assert KeepLive(o, timestamps, ttl, now) == [o[0]] + rest;
        assert ([o[0]] + rest)[|rest|] == rest[|rest| - 1];
      } else {
        assert KeepLive(o, timestamps, ttl, now) == rest;
      }
    }
  }

  function Restrict<V>(m: map<string, V>, keys: set<string>): (r: map<string, V>)
    ensures r.Keys == m.Keys * keys
    ensures forall k :: k in r ==> r[k] == m[k]
  {
    map k | k in m && k in keys :: m[k]
  }

  /** Popping a key from a restricted map restricts it to one key less. */
  lemma RestrictLess<V>(m: map<string, V>, keys: set<string>, key: string)
    ensures Restrict(m, keys) - {key} == Restrict(m, keys - {key})
  {
  }

  /** What `get_stats` returns; `hitRatePercent` is not rounded. */
  datatype Stats = Stats(size: nat, maxSize: int, hits: nat, misses: nat, hitRatePercent: real, ttl: real)

  class MemoryCache<V> {
    /** The key order of the OrderedDict, least recently used first. */
    var order: seq<string>
    var values: map<string, V>
    var timestamps: map<string, real>
    const maxSize: int
    const ttl: real
    var hits: nat
    var misses: nat

    /** `cache` and `timestamps` always hold the same keys. */
    predicate Valid()
      reads this
    {
      NoDup(order) && KeySet(order) == values.Keys && values.Keys == timestamps.Keys
    }

    constructor(maxSize: int, ttl: real)
      ensures Valid()
      ensures order == [] && values == map[] && timestamps == map[]
      ensures this.maxSize == maxSize && this.ttl == ttl && hits == 0 && misses == 0
    {
      order := [];
      values := map[];
      timestamps := map[];
      this.maxSize := maxSize;
      this.ttl := ttl;
      hits := 0;
      misses := 0;
    }

    /** `_is_expired`: an entry older than the time-to-live; an age equal to it is still live. */
    predicate Expired(key: string, now: real)
      reads this
    {
      IsStale(timestamps, key, ttl, now)
    }

    /** `_cleanup_expired`: drop every entry that has expired at `now`. */
    method CleanupExpired(now: real)
      requires Valid()
      modifies this
      ensures Valid()
      ensures order == KeepLive(old(order), old(timestamps), ttl, now)
      ensures values == Restrict(old(values), KeySet(order))
      ensures timestamps == Restrict(old(timestamps), KeySet(order))
      ensures forall k :: k in values ==> !Expired(k, now)
      ensures hits == old(hits) && misses == old(misses)
    {
      var expired := StaleKeys(now);
      PopAll(expired);
      WithoutStale(old(order), KeySet(expired), old(timestamps), ttl, now);
    }

    /** The collecting loop of `_cleanup_expired`: the keys whose stamp is more than `ttl` old. */
    method StaleKeys(now: real) returns (expired: seq<string>)
      ensures forall k :: k in expired <==> k in order && IsStale(timestamps, k, ttl, now)
    {
      expired := [];
      var i := 0;
      while i < |order|
        invariant 0 <= i <= |order|
        invariant forall k :: k in expired <==> k in order[..i] && IsStale(timestamps, k, ttl, now)
      {
        if IsStale(timestamps, order[i], ttl, now) {
          expired := expired + [order[i]];
        }
        i := i + 1;
      }
      assert order[..i] == order;
    }

    /** The popping loop of `_cleanup_expired`: `pop(key, None)` on both dictionaries for each key. */
    method PopAll(keys: seq<string>)
      requires Valid()
      modifies this
      ensures Valid()
      ensures order == Without(old(order), KeySet(keys))
      ensures values == Restrict(old(values), KeySet(order)) && timestamps == Restrict(old(timestamps), KeySet(order))
      ensures hits == old(hits) && misses == old(misses)
    {
      ghost var order0, values0, stamps0 := order, values, timestamps;
      WithoutNothing(order);
      assert KeySet(keys[..0]) == {};
      var j := 0;
      ghost var gone: set<string> := {};
      while j < |keys|
        invariant 0 <= j <= |keys| && gone == KeySet(keys[..j])
        invariant Popped(order0, values0, stamps0, gone, order, values, timestamps)
        invariant hits == old(hits) && misses == old(misses)
      {
        var key := keys[j];
        PopStep(order0, values0, stamps0, gone, key, order, values, timestamps);
        KeySetPrefix(keys, j);
        PopKey(key);
        gone := gone + {key};
        j := j + 1;
      }
      assert keys[..j] == keys;
    }

    /** `cache.pop(key, None)` and `timestamps.pop(key, None)`. */
    method PopKey(key: string)
      modifies this
      ensures order == Remove(old(order), key)
      ensures values == old(values) - {key} && timestamps == old(timestamps) - {key}
      ensures hits == old(hits) && misses == old(misses)
    {
      order := Remove(order, key);
      values := values - {key};
      timestamps := timestamps - {key};
    }

    /**
     * `_enforce_size_limit`: evict from the least recently used end until at
     * most `maxSize` entries remain. Returns false when the bound is negative:
     * the loop then empties the cache and fails on an empty iterator.
     */
    method EnforceSizeLimit() returns (ok: bool)
      requires Valid()
      modifies this
      ensures Valid()
      ensures ok <==> maxSize >= 0
      ensures order == Evicted(old(order), maxSize)
      ensures values == Restrict(old(values), KeySet(order))
      ensures timestamps == Restrict(old(timestamps), KeySet(order))
      ensures ok ==> |order| <= maxSize
      ensures hits == old(hits) && misses == old(misses)
    {
      var keys, vals, stamps := order, values, timestamps;
      ghost var dropped := 0;
      ok := true;
      while |keys| > maxSize
        invariant unchanged(this)
        invariant ok && dropped <= |order| && keys == order[dropped..]
        invariant maxSize >= 0 ==> |keys| >= maxSize || keys == order
        invariant NoDup(keys) && KeySet(keys) == vals.Keys && vals.Keys == stamps.Keys
        invariant forall k :: k in vals ==> k in values && vals[k] == values[k]
        invariant forall k :: k in stamps ==> k in timestamps && stamps[k] == timestamps[k]
        decreases |keys|
      {
        if keys == [] {
          ok := false;
          break;
        }
        var oldest := keys[0];
        PopOldest(keys, vals, stamps);
        assert keys[1..] == order[dropped + 1..];
        keys := keys[1..];
        vals := vals - {oldest};
        stamps := stamps - {oldest};
        dropped := dropped + 1;
      }
      assert keys == Evicted(order, maxSize) by {
        if maxSize >= 0 && keys != order {
          assert |keys| == maxSize && dropped == |order| - maxSize;
        }
      }
      SubMapIsRestrict(values, vals);
      SubMapIsRestrict(timestamps, stamps);
      order, values, timestamps := keys, vals, stamps;
    }

    /**
     * `get`: a miss when the key is absent or expired (an expired entry is
     * removed), otherwise a hit that moves the key to the most recent end.
     */
    method Get(key: string, now: real) returns (r: Option<V>)
      requires Valid()
      modifies this
      ensures Valid()
      ensures r.Some? <==> key in old(values) && now - old(timestamps)[key] <= ttl
      ensures r.Some? ==> r.value == old(values)[key] && order == Remove(old(order), key) + [key]
                          && values == old(values) && timestamps == old(timestamps)
                          && hits == old(hits) + 1 && misses == old(misses)
      ensures r.None? ==> order == Remove(old(order), key) && values == old(values) - {key}
                          && timestamps == old(timestamps) - {key}
                          && hits == old(hits) && misses == old(misses) + 1
    {
      if key !in values || Expired(key, now) {
        misses := misses + 1;
        if key in values {
          order := Remove(order, key);
          values := values - {key};
          timestamps := timestamps - {key};
        }
        return None;
      }
      var value := values[key];
      assert KeySet(Remove(order, key) + [key]) == KeySet(Remove(order, key)) + {key};
      assert key !in Remove(order, key);
      NoDupAppend(Remove(order, key), key);
      order := Remove(order, key) + [key];
      hits := hits + 1;
      r := Some(value);
    }

    /**
     * `set`: store the value stamped `now` at the most recent end, then purge
     * expired entries and evict down to `maxSize`. Returns false when the
     * eviction fails (negative bound).
     */
    method Set(key: string, value: V, now: real) returns (ok: bool)
      requires Valid()
      modifies this
      ensures Valid()
      ensures ok <==> maxSize >= 0
      ensures order == Evicted(KeepLive(Remove(old(order), key) + [key], old(timestamps)[key := now], ttl, now), maxSize)
      ensures values == Restrict(old(values)[key := value], KeySet(order))
      ensures timestamps == Restrict(old(timestamps)[key := now], KeySet(order))
      ensures forall k :: k in values ==> !Expired(k, now)
      ensures ok ==> |order| <= maxSize
      ensures hits == old(hits) && misses == old(misses)
    {
      values := values[key := value];
      timestamps := timestamps[key := now];
      assert key !in Remove(order, key);
      assert KeySet(Remove(order, key) + [key]) == KeySet(Remove(order, key)) + {key};
      NoDupAppend(Remove(order, key), key);
      order := Remove(order, key) + [key];
      ghost var v1, t1 := values, timestamps;
      CleanupExpired(now);
      ghost var live := order;
      ok := EnforceSizeLimit();
      RestrictTwice(v1, KeySet(live), KeySet(order));
      RestrictTwice(t1, KeySet(live), KeySet(order));
    }

    /** `delete`: true exactly when the key was present; it is then removed. */
    method Delete(key: string) returns (deleted: bool)
      requires Valid()
      modifies this
      ensures Valid()
      ensures deleted <==> key in old(values)
      ensures order == Remove(old(order), key)
      ensures values == old(values) - {key} && timestamps == old(timestamps) - {key}
      ensures hits == old(hits) && misses == old(misses)
    {
      if key in values {
        order := Remove(order, key);
        values := values - {key};
        timestamps := timestamps - {key};
        return true;
      }
      return false;
    }

    /** `clear`: empty both maps and return how many entries there were. */
    method Clear() returns (count: nat)
      requires Valid()
      modifies this
      ensures Valid()
      ensures count == |old(values)|
      ensures order == [] && values == map[] && timestamps == map[]
      ensures hits == old(hits) && misses == old(misses)
    {
      NoDupCard(order);
      count := |order|;
      order := [];
      values := map[];
      timestamps := map[];
    }

    /** `get_stats`. */
    function GetStats(): (r: Stats)
      reads this
      ensures r.size == |order| && r.hits == hits && r.misses == misses
      ensures 0.0 <= r.hitRatePercent <= 100.0
      ensures hits + misses == 0 ==> r.hitRatePercent == 0.0
      ensures hits + misses > 0 ==> r.hitRatePercent * ((hits + misses) as real) == (hits as real) * 100.0
    {
      var total := hits + misses;
      var rate := if total > 0 then (hits as real) / (total as real) * 100.0 else 0.0;
      Stats(|order|, maxSize, hits, misses, rate, ttl)
    }
  }

  lemma HeadNotInTail(order: seq<string>)
    requires NoDup(order) && order != []
    ensures order[0] !in order[1..] && NoDup(order[1..])
  {
    forall j | 0 <= j < |order| - 1
      ensures order[1..][j] != order[0]
    {
      assert order[1..][j] == order[j + 1];
    }
  }

  lemma RestrictTwice<V>(m: map<string, V>, outer: set<string>, inner: set<string>)
    requires inner <= outer
    ensures Restrict(Restrict(m, outer), inner) == Restrict(m, inner)
  {
  }

  /** Taking the oldest key off keeps the key order and both maps in step. */
  lemma PopOldest<V>(keys: seq<string>, vals: map<string, V>, stamps: map<string, real>)
    requires keys != [] && NoDup(keys) && KeySet(keys) == vals.Keys && vals.Keys == stamps.Keys
    ensures NoDup(keys[1..]) && KeySet(keys[1..]) == (vals - {keys[0]}).Keys
    ensures (vals - {keys[0]}).Keys == (stamps - {keys[0]}).Keys
  {
    HeadNotInTail(keys);
    assert KeySet(keys[1..]) == KeySet(keys) - {keys[0]};
  }

  lemma KeySetPrefix(keys: seq<string>, i: nat)
    requires i < |keys|
    ensures KeySet(keys[..i + 1]) == KeySet(keys[..i]) + {keys[i]}
  {
    assert keys[..i + 1] == keys[..i] + [keys[i]];
  }

  lemma SubMapIsRestrict<V>(m: map<string, V>, sub: map<string, V>)
    requires forall k :: k in sub ==> k in m && sub[k] == m[k]
    ensures sub == Restrict(m, sub.Keys)
  {
  }

  lemma NoDupAppend(order: seq<string>, key: string)
    requires NoDup(order) && key !in order
    ensures NoDup(order + [key])
  {
  }

  lemma {:induction false} NoDupCard(order: seq<string>)
    requires NoDup(order)
    ensures |KeySet(order)| == |order|
  {
    if order != [] {
      HeadNotInTail(order);
      assert KeySet(order) == KeySet(order[1..]) + {order[0]};
      NoDupCard(order[1..]);
    }
  }

  // ------------------------------------------------------------ cache manager

  /** The fields of `ScrapeRequest`. */
  datatype ScrapeRequest = ScrapeRequest(
    baseUrl: string,
    maxSubdomains: int,
    maxPages: int,
    maxConcurrent: int,
    delayBetweenRequests: real,
    maxMemoryMb: int,
    preferSitemap: bool,
    sitemapOverride: Option<string>,
    includeContent: bool,
    includeLinks: bool,
    includeMetadata: bool,
    useCache: bool)

  /** The request dictionary with `delay_between_requests` and `max_concurrent` removed. */
  datatype CacheFields = CacheFields(
    baseUrl: string,
    maxSubdomains: int,
    maxPages: int,
    maxMemoryMb: int,
    preferSitemap: bool,
    sitemapOverride: Option<string>,
    includeContent: bool,
    includeLinks: bool,
    includeMetadata: bool,
    useCache: bool)

  function Cacheable(r: ScrapeRequest): CacheFields
  {
    CacheFields(r.baseUrl, r.maxSubdomains, r.maxPages, r.maxMemoryMb, r.preferSitemap, r.sitemapOverride,
                r.includeContent, r.includeLinks, r.includeMetadata, r.useCache)
  }

  /**
   * `_get_cache_key`: "request:" followed by the md5 digest of the sorted
   * JSON dump of the cacheable fields; the dump and the digest are parameters.
   */
  function CacheKey(r: ScrapeRequest, dump: CacheFields -> string, md5: string -> string): (key: string)
    ensures |key| >= 8 && key[..8] == "request:"
  {
    "request:" + md5(dump(Cacheable(r)))
  }

  /** Two requests that differ only in pacing and concurrency share a cache entry. */
  lemma CacheKeyIgnoresPacing(a: ScrapeRequest, b: ScrapeRequest, dump: CacheFields -> string, md5: string -> string)
    requires a.(delayBetweenRequests := b.delayBetweenRequests, maxConcurrent := b.maxConcurrent) == b
    ensures CacheKey(a, dump, md5) == CacheKey(b, dump, md5)
  {
  }

  /** The keys `invalidate_cache` deletes, in cache order. */
  function Matching(order: seq<string>, pattern: string): (r: seq<string>)
    ensures forall k :: k in r <==> k in order && Contains(k, pattern)
    ensures SubseqOf(r, order)
    ensures |r| <= |order|
  {
    if order == [] then []
    else
      var rest := Matching(order[1..], pattern);
      assert order == [order[0]] + order[1..];
      if Contains(order[0], pattern) then
        SubseqOfCons(order[0], rest, order[1..]);
        [order[0]] + rest
      else
        SubseqOfSkip(order[0], rest, order[1..]);
        rest
  }

  lemma {:induction false} MatchingNoDup(order: seq<string>, pattern: string)
    requires NoDup(order)
    ensures NoDup(Matching(order, pattern))
  {
    if order != [] {
      MatchingNoDup(order[1..], pattern);
      HeadNotInTail(order);
    }
  }

  /**
   * What a `set` leaves of the entry it stored and of the others: the entry
   * survives when there is room for one and the lifetime is not negative,
   * and every other surviving entry keeps its value.
   */
  lemma StoredEntry<V>(order0: seq<string>, values0: map<string, V>, stamps0: map<string, real>, key: string, value: V,
                       now: real, ttl: real, maxSize: int,
                       order: seq<string>, values: map<string, V>, stamps: map<string, real>)
    requires order == Evicted(KeepLive(Remove(order0, key) + [key], stamps0[key := now], ttl, now), maxSize)
    requires values == Restrict(values0[key := value], KeySet(order))
    requires stamps == Restrict(stamps0[key := now], KeySet(order))
    ensures maxSize >= 1 && ttl >= 0.0 ==> key in values && values[key] == value && stamps[key] == now
    ensures forall k :: k in values && k != key ==> k in values0 && values[k] == values0[k]
  {
    if maxSize >= 1 && ttl >= 0.0 {
      var live := KeepLive(Remove(order0, key) + [key], stamps0[key := now], ttl, now);
      KeepLiveKeepsLast(Remove(order0, key), key, stamps0[key := now], ttl, now);
      EvictedIsRecentSuffix(live, maxSize);
      assert order[|order| - 1] == key;
    }
  }

  class CacheManager<V> {
    const cache: MemoryCache<V>

    constructor(cache: MemoryCache<V>)
      ensures this.cache == cache
    {
      this.cache := cache;
    }

    /**
     * `get_cached_result`: the cache lookup under the request's key. The
     * zlib/pickle round trip of large values is taken to be the identity.
     */
    method GetCachedResult(r: ScrapeRequest, dump: CacheFields -> string, md5: string -> string, now: real)
      returns (res: Option<V>)
      requires cache.Valid()
      modifies cache
      ensures cache.Valid()
      ensures var key := CacheKey(r, dump, md5);
        && (res.Some? <==> key in old(cache.values) && now - old(cache.timestamps)[key] <= cache.ttl)
        && (res.Some? ==> res.value == old(cache.values)[key] && cache.order == Remove(old(cache.order), key) + [key]
                          && cache.values == old(cache.values) && cache.timestamps == old(cache.timestamps)
                          && cache.hits == old(cache.hits) + 1 && cache.misses == old(cache.misses))
        && (res.None? ==> cache.order == Remove(old(cache.order), key) && cache.values == old(cache.values) - {key}
                          && cache.timestamps == old(cache.timestamps) - {key}
                          && cache.hits == old(cache.hits) && cache.misses == old(cache.misses) + 1)
    {
      res := cache.Get(CacheKey(r, dump, md5), now);
    }

    /**
     * `cache_result`: the response is stored under the request's key; with
     * room for one entry and a non-negative lifetime it survives the purge
     * and the eviction that follow, so a lookup at the same moment finds it.
     */
    method CacheResult(r: ScrapeRequest, response: V, dump: CacheFields -> string, md5: string -> string, now: real)
      requires cache.Valid()
      modifies cache
      ensures cache.Valid()
      ensures var key := CacheKey(r, dump, md5);
        && cache.order == Evicted(KeepLive(Remove(old(cache.order), key) + [key], old(cache.timestamps)[key := now],
                                           cache.ttl, now), cache.maxSize)
        && cache.values == Restrict(old(cache.values)[key := response], KeySet(cache.order))
        && cache.timestamps == Restrict(old(cache.timestamps)[key := now], KeySet(cache.order))
        && cache.hits == old(cache.hits) && cache.misses == old(cache.misses)
      ensures var key := CacheKey(r, dump, md5);
        cache.maxSize >= 1 && cache.ttl >= 0.0 ==>
          key in cache.values && cache.values[key] == response && cache.timestamps[key] == now
      ensures forall k :: k in cache.values && k != CacheKey(r, dump, md5) ==>
                k in old(cache.values) && cache.values[k] == old(cache.values)[k]
    {
      var key := CacheKey(r, dump, md5);
      ghost var order0, values0, stamps0 := cache.order, cache.values, cache.timestamps;
      var _ := cache.Set(key, response, now);
      StoredEntry(order0, values0, stamps0, key, response, now, cache.ttl, cache.maxSize,
                  cache.order, cache.values, cache.timestamps);
    }

    /**
     * `invalidate_cache`: with a non-empty pattern, delete exactly the keys
     * containing it and return how many; otherwise clear the whole cache and
     * return its former size.
     */
    method InvalidateCache(pattern: Option<string>) returns (deleted: nat)
      requires cache.Valid()
      modifies cache
      ensures cache.Valid()
      ensures pattern.Some? && pattern.value != [] ==>
                cache.values.Keys == old(cache.values.Keys) - KeySet(Matching(old(cache.order), pattern.value))
                && deleted == |Matching(old(cache.order), pattern.value)|
      ensures !(pattern.Some? && pattern.value != []) ==> cache.values == map[] && deleted == |old(cache.values)|
      ensures forall k :: k in cache.values ==> k in old(cache.values) && cache.values[k] == old(cache.values)[k]
      ensures forall k :: k in cache.timestamps ==> cache.timestamps[k] == old(cache.timestamps)[k]
      ensures SubseqOf(cache.order, old(cache.order))
      ensures cache.hits == old(cache.hits) && cache.misses == old(cache.misses)
    {
      if pattern.Some? && pattern.value != [] {
        var keys := Matching(cache.order, pattern.value);
        MatchingNoDup(cache.order, pattern.value);
        deleted := DeleteKeys(keys);
      } else {
        SubseqOfSelf(cache.order);
        deleted := cache.Clear();
      }
    }

    /** The deleting loop of `invalidate_cache`: each listed key is present once and is deleted. */
    method DeleteKeys(keys: seq<string>) returns (deleted: nat)
      requires cache.Valid() && NoDup(keys) && KeySet(keys) <= cache.values.Keys
      modifies cache
      ensures cache.Valid()
      ensures cache.values.Keys == old(cache.values.Keys) - KeySet(keys) && deleted == |keys|
      ensures forall k :: k in cache.values ==> cache.values[k] == old(cache.values)[k]
      ensures forall k :: k in cache.timestamps ==> cache.timestamps[k] == old(cache.timestamps)[k]
      ensures SubseqOf(cache.order, old(cache.order))
      ensures cache.hits == old(cache.hits) && cache.misses == old(cache.misses)
    {
      ghost var values0, stamps0, order0 := cache.values, cache.timestamps, cache.order;
      SubseqOfSelf(cache.order);
      deleted := 0;
      var i := 0;
      while i < |keys|
        invariant 0 <= i <= |keys| && deleted == i
        invariant cache.Valid()
        invariant cache.values.Keys == values0.Keys - KeySet(keys[..i])
        invariant forall k :: k in cache.values ==> cache.values[k] == values0[k]
        invariant forall k :: k in cache.timestamps ==> cache.timestamps[k] == stamps0[k]
        invariant SubseqOf(cache.order, order0)
        invariant cache.hits == old(cache.hits) && cache.misses == old(cache.misses)
      {
        assert keys[i] !in keys[..i] by {
          forall j | 0 <= j < i
            ensures keys[..i][j] != keys[i]
          {
            assert keys[..i][j] == keys[j];
          }
        }
        KeySetPrefix(keys, i);
        ghost var before := cache.order;
        var ok := cache.Delete(keys[i]);
        SubseqOfTrans(cache.order, before, order0);
        if ok {
          deleted := deleted + 1;
        }
        i := i + 1;
      }
      assert keys[..i] == keys;
    }
  }
}
