/** The multi-key cache in front of the transaction log: fetching many ids at once through it gives exactly what the source
    gives, and writes that clear it keep it in agreement. */
module MultiCache {
  import opened Sequences

  /** A parsed entry; what is in it does not matter to the cache. */
  datatype Content = Content(fields: map<string, string>)
  type Source = map<string, Content>
  type Entries = map<string, string>

  datatype Json = Json(stringify: Content -> string, parse: string -> Content)

  ghost predicate RoundTrips(json: Json) {
    forall d: Content :: json.parse(json.stringify(d)) == d && json.stringify(d) != ""
  }

  /** The key of a transaction under its client's prefix. */
  function CacheKey(prefix: string, uuid: string): (k: string)
    ensures Ours(prefix, k) && IdOf(prefix, k) == Lower(uuid)
  {
    prefix + Lower(uuid)
  }

  predicate Ours(prefix: string, k: string) {
    prefix <= k
  }

  function IdOf(prefix: string, k: string): (id: string)
    requires Ours(prefix, k)
  {
    k[|prefix|..]
  }

  lemma SameId(prefix: string, k: string, l: string)
    requires Ours(prefix, k) && Ours(prefix, l) && IdOf(prefix, k) == IdOf(prefix, l)
    ensures k == l
  {
    assert k == prefix + IdOf(prefix, k) && l == prefix + IdOf(prefix, l);
  }

  /** Whatever the cache holds under the client's prefix is what the source holds. */
  ghost predicate Agrees(json: Json, prefix: string, entries: Entries, source: Source) {
    forall k :: k in entries && Ours(prefix, k) ==> Current(json, prefix, entries, source, k)
  }

  ghost predicate Current(json: Json, prefix: string, entries: Entries, source: Source, k: string)
    requires k in entries && Ours(prefix, k)
  {
    IdOf(prefix, k) in source && entries[k] == json.stringify(source[IdOf(prefix, k)])
  }

  /** The first n ids asked for, in lower case. */
  ghost function Wanted(uuids: seq<string>, n: nat): (ids: set<string>)
    requires n <= |uuids|
  {
    if n == 0 then {} else Wanted(uuids, n - 1) + {Lower(uuids[n - 1])}
  }

  /** A direct lookup of the wanted ids. */
  ghost function Lookup(source: Source, uuids: seq<string>): (r: map<string, Content>)
  {
    map u | u in source && u in Wanted(uuids, |uuids|) :: source[u]
  }

  /** The keys of the first n wanted ids, each with its id. */
  ghost predicate KeysFor(prefix: string, uuids: seq<string>, n: nat, ids: map<string, string>)
    requires n <= |uuids|
  {
    (forall k :: k in ids ==> Ours(prefix, k) && ids[k] == IdOf(prefix, k)) && ids.Values == Wanted(uuids, n)
  }

  ghost predicate Injective(ids: map<string, string>) {
    forall k, l :: k in ids && l in ids && ids[k] == ids[l] ==> k == l
  }

  lemma KeysForInjective(prefix: string, uuids: seq<string>, ids: map<string, string>)
    requires KeysFor(prefix, uuids, |uuids|, ids)
    ensures Injective(ids)
  {
    forall k, l | k in ids && l in ids && ids[k] == ids[l]
      ensures k == l
    {
      SameId(prefix, k, l);
    }
  }

  lemma KeysForStep(prefix: string, uuids: seq<string>, n: nat, ids: map<string, string>)
    requires n < |uuids| && KeysFor(prefix, uuids, n, ids)
    ensures KeysFor(prefix, uuids, n + 1, ids[CacheKey(prefix, uuids[n]) := Lower(uuids[n])])
  {
    var next := ids[CacheKey(prefix, uuids[n]) := Lower(uuids[n])];
    forall u | u in ids.Values
      ensures u in next.Values
    {
      var k :| k in ids && ids[k] == u;
      assert next[k] == u;
    }
    assert next[CacheKey(prefix, uuids[n])] == Lower(uuids[n]);
  }

  /** The cache keys of the wanted ids. */
  ghost predicate WantedKey(prefix: string, uuids: seq<string>, k: string) {
    Ours(prefix, k) && IdOf(prefix, k) in Wanted(uuids, |uuids|)
  }

  lemma OwnKey(prefix: string, uuids: seq<string>, ids: map<string, string>, k: string)
    requires KeysFor(prefix, uuids, |uuids|, ids)
    ensures k in ids <==> WantedKey(prefix, uuids, k)
  {
    if WantedKey(prefix, uuids, k) {
      var l :| l in ids && ids[l] == IdOf(prefix, k);
      SameId(prefix, k, l);
    }
  }

  /** All that changes from before to after are entries of wanted ids, and these get what the source holds. */
  ghost predicate OnlyRefreshes(json: Json, prefix: string, uuids: seq<string>, before: Entries, after: Entries, source: Source) {
    && before.Keys <= after.Keys
    && forall k :: k in after && !(k in before && before[k] == after[k]) ==>
         WantedKey(prefix, uuids, k) && Current(json, prefix, after, source, k)
  }

  class Memcached {
    var entries: Entries

    constructor ()
      ensures entries == map[]
    {
      entries := map[];
    }

    method Set(k: string, v: string, fails: bool)
      modifies this
      ensures entries == if fails then old(entries) else old(entries)[k := v]
    {
      if !fails {
        entries := entries[k := v];
      }
    }

    method Del(k: string)
      modifies this
      ensures entries == old(entries) - {k}
    {
      entries := entries - {k};
    }
  }

  datatype FetchResult = Fetched(data: map<string, Content>) | SourceFailed

  class TransactionLogCache {
    const json: Json
    const prefix: string
    const uuids: seq<string>
    var cacheKeys: map<string, string>

    constructor (json: Json, prefix: string, uuids: seq<string>)
      ensures this.json == json && this.prefix == prefix && this.uuids == uuids && KeysFor(prefix, uuids, |uuids|, cacheKeys)
    {
      this.json, this.prefix, this.uuids, cacheKeys := json, prefix, uuids, map[];
      new;
      SetCacheKeys();
    }

    method SetCacheKeys()
      modifies this
      ensures KeysFor(prefix, uuids, |uuids|, cacheKeys)
    {
      cacheKeys := map[];
      for i := 0 to |uuids|
        invariant KeysFor(prefix, uuids, i, cacheKeys)
      {
        KeysForStep(prefix, uuids, i, cacheKeys);
        cacheKeys := cacheKeys[CacheKey(prefix, uuids[i]) := Lower(uuids[i])];
      }
    }

    /** The hits, parsed, and the ids not found; a cache that does not answer has no hits. */
    method FetchFromCache(cache: Memcached, answers: bool) returns (cached: map<string, Content>, missed: set<string>)
      requires Injective(cacheKeys)
      ensures Sorted(json, cache.entries, cacheKeys, {}, cached, missed)
    {
      cached, missed := map[], {};
      var keys := cacheKeys.Keys;
      NothingSorted(json, cache.entries, cacheKeys);
      while keys != {}
        invariant Sorted(json, cache.entries, cacheKeys, keys, cached, missed)
        decreases |keys|
      {
        var key :| key in keys;
        if answers && key in cache.entries && cache.entries[key] != "" {
          HitKeepsSorted(json, cache.entries, cacheKeys, keys, cached, missed, key);
          cached := cached[cacheKeys[key] := json.parse(cache.entries[key])];
        } else {
          MissKeepsSorted(json, cache.entries, cacheKeys, keys, cached, missed, key);
          missed := missed + {cacheKeys[key]};
        }
        keys := keys - {key};
      }
    }

    /** Fetch through the cache.  The cache may not answer, a set may fail, and the source may fail. */
    method Fetch(cache: Memcached, source: Source, answers: bool, sourceFails: bool, setFails: set<string>) returns (r: FetchResult)
      requires KeysFor(prefix, uuids, |uuids|, cacheKeys) && RoundTrips(json) && Agrees(json, prefix, cache.entries, source)
      modifies cache
      ensures Agrees(json, prefix, cache.entries, source)
      ensures OnlyRefreshes(json, prefix, uuids, old(cache.entries), cache.entries, source)
      ensures r.Fetched? ==> r.data == Lookup(source, uuids)
      ensures r.SourceFailed? ==> sourceFails && cache.entries == old(cache.entries)
    {
      KeysForInjective(prefix, uuids, cacheKeys);
      var cached, missed := FetchFromCache(cache, answers);
      FetchedIsLookup(json, prefix, uuids, cache.entries, source, cacheKeys, cached, missed);
      if missed == {} {
        return Fetched(cached);
      }
      if sourceFails {
        return SourceFailed;
      }
      var data := map u | u in missed && u in source :: source[u];
      Remember(cache, source, data, setFails);
      return Fetched(cached + data);
    }

    /** Put everything fetched into the cache. */
    method Remember(cache: Memcached, ghost source: Source, data: map<string, Content>, setFails: set<string>)
      requires KeysFor(prefix, uuids, |uuids|, cacheKeys) && Agrees(json, prefix, cache.entries, source)
      requires data.Keys <= cacheKeys.Values && forall u :: u in data ==> u in source && source[u] == data[u]
      modifies cache
      ensures Agrees(json, prefix, cache.entries, source)
      ensures OnlyRefreshes(json, prefix, uuids, old(cache.entries), cache.entries, source)
    {
      var left := data.Keys;
      while left != {}
        invariant left <= data.Keys && Agrees(json, prefix, cache.entries, source)
        invariant OnlyRefreshes(json, prefix, uuids, old(cache.entries), cache.entries, source)
        decreases |left|
      {
        var uuid :| uuid in left;
        SetCache(cache, source, uuid, data[uuid], uuid in setFails);
        left := left - {uuid};
      }
    }

    method SetCache(cache: Memcached, ghost source: Source, uuid: string, d: Content, fails: bool)
      requires KeysFor(prefix, uuids, |uuids|, cacheKeys) && Agrees(json, prefix, cache.entries, source)
      requires uuid in cacheKeys.Values && uuid in source && source[uuid] == d
      modifies cache
      ensures Agrees(json, prefix, cache.entries, source)
      ensures OnlyRefreshes(json, prefix, uuids, old(cache.entries), cache.entries, source)
    {
      var key :| key in cacheKeys && cacheKeys[key] == uuid;
      OwnKey(prefix, uuids, cacheKeys, key);
      SetKeepsAgreement(json, prefix, cache.entries, source, key);
      cache.Set(key, json.stringify(d), fails);
    }

    /** With the keys of its ids the cache loses exactly the entries of these ids, and no entry of another client. */
    method Clear(cache: Memcached)
      modifies cache
      ensures cache.entries == old(cache.entries) - cacheKeys.Keys
    {
      var keys := cacheKeys.Keys;
      while keys != {}
        invariant keys <= cacheKeys.Keys
        invariant cache.entries == old(cache.entries) - (cacheKeys.Keys - keys)
        decreases |keys|
      {
        var key :| key in keys;
        cache.Del(key);
        keys := keys - {key};
      }
    }
  }

  // ------------------------------------------------------------------ hits and misses

  /** The ids of the keys outside `left` are either missed or cached with the entry of their key. */
  ghost predicate Sorted(json: Json, entries: Entries, ids: map<string, string>, left: set<string>, cached: map<string, Content>,
                         missed: set<string>)
  {
    && left <= ids.Keys && missed !! cached.Keys
    && (forall k :: k in ids ==> (ids[k] in missed + cached.Keys <==> k !in left))
    && missed + cached.Keys <= ids.Values
    && (forall k :: k in ids && ids[k] in cached ==> k in entries && cached[ids[k]] == json.parse(entries[k]))
  }

  lemma NothingSorted(json: Json, entries: Entries, ids: map<string, string>)
    ensures Sorted(json, entries, ids, ids.Keys, map[], {})
  {
  }

  lemma HitKeepsSorted(json: Json, entries: Entries, ids: map<string, string>, left: set<string>, cached: map<string, Content>,
                       missed: set<string>, key: string)
    requires Injective(ids) && Sorted(json, entries, ids, left, cached, missed) && key in left && key in entries
    ensures Sorted(json, entries, ids, left - {key}, cached[ids[key] := json.parse(entries[key])], missed)
  {
  }

  lemma MissKeepsSorted(json: Json, entries: Entries, ids: map<string, string>, left: set<string>, cached: map<string, Content>,
                        missed: set<string>, key: string)
    requires Injective(ids) && Sorted(json, entries, ids, left, cached, missed) && key in left
    ensures Sorted(json, entries, ids, left - {key}, cached, missed + {ids[key]})
  {
  }

  lemma CachedIsSource(json: Json, prefix: string, uuids: seq<string>, entries: Entries, source: Source,
                       ids: map<string, string>, cached: map<string, Content>, missed: set<string>)
    requires RoundTrips(json) && Agrees(json, prefix, entries, source) && KeysFor(prefix, uuids, |uuids|, ids)
    requires Sorted(json, entries, ids, {}, cached, missed)
    ensures missed !! cached.Keys && missed + cached.Keys == ids.Values
    ensures forall u :: u in cached ==> u in source && cached[u] == source[u]
  {
    forall u | u in cached
      ensures u in source && cached[u] == source[u]
    {
      var k :| k in ids && ids[k] == u;
      assert Current(json, prefix, entries, source, k);
    }
  }

  lemma FetchedIsLookup(json: Json, prefix: string, uuids: seq<string>, entries: Entries, source: Source,
                        ids: map<string, string>, cached: map<string, Content>, missed: set<string>)
    requires RoundTrips(json) && Agrees(json, prefix, entries, source) && KeysFor(prefix, uuids, |uuids|, ids)
    requires Sorted(json, entries, ids, {}, cached, missed)
    ensures missed <= ids.Values
    ensures cached + (map u | u in missed && u in source :: source[u]) == Lookup(source, uuids)
    ensures missed == {} ==> cached == Lookup(source, uuids)
  {
    CachedIsSource(json, prefix, uuids, entries, source, ids, cached, missed);
    CachedAndMissed(source, ids, uuids, cached, missed);
  }

  lemma CachedAndMissed(source: Source, ids: map<string, string>, uuids: seq<string>, cached: map<string, Content>,
                        missed: set<string>)
    requires missed !! cached.Keys && missed + cached.Keys == ids.Values
    requires forall u :: u in cached ==> u in source && cached[u] == source[u]
    requires ids.Values == Wanted(uuids, |uuids|)
    ensures cached + (map u | u in missed && u in source :: source[u]) == Lookup(source, uuids)
    ensures missed == {} ==> cached == Lookup(source, uuids)
  {
    var found := map u | u in missed && u in source :: source[u];
    forall u ensures u in cached + found <==> u in Lookup(source, uuids) {
      assert u in Wanted(uuids, |uuids|) <==> u in missed || u in cached;
    }
    SameEntries(cached + found, Lookup(source, uuids));
    if missed == {} {
      assert found == map[] && cached + found == cached;
    }
  }

  lemma SameEntries(a: map<string, Content>, b: map<string, Content>)
    requires (forall u :: u in a <==> u in b) && forall u :: u in a && u in b ==> a[u] == b[u]
    ensures a == b
  {
  }

  lemma SetKeepsAgreement(json: Json, prefix: string, entries: Entries, source: Source, k: string)
    requires Agrees(json, prefix, entries, source) && Ours(prefix, k) && IdOf(prefix, k) in source
    ensures Agrees(json, prefix, entries[k := json.stringify(source[IdOf(prefix, k)])], source)
  {
    var next := entries[k := json.stringify(source[IdOf(prefix, k)])];
    forall l | l in next && Ours(prefix, l)
      ensures Current(json, prefix, next, source, l)
    {
      assert l != k ==> Current(json, prefix, entries, source, l);
    }
  }

  // ------------------------------------------------------------------ writes

  /** A write to the source keeps the agreement if and only if it changes nothing that is still cached. */
  lemma WriteKeepsAgreementIff(json: Json, prefix: string, entries: Entries, source: Source, writes: Source)
    requires RoundTrips(json) && Agrees(json, prefix, entries, source)
    ensures Agrees(json, prefix, entries, source + writes)
      <==> forall k :: k in entries && Ours(prefix, k) && IdOf(prefix, k) in writes ==> source[IdOf(prefix, k)] == writes[IdOf(prefix, k)]
  {
    forall k | k in entries && Ours(prefix, k)
      ensures Current(json, prefix, entries, source + writes, k)
         <==> (IdOf(prefix, k) in writes ==> source[IdOf(prefix, k)] == writes[IdOf(prefix, k)])
    {
      assert Current(json, prefix, entries, source, k);
      assert json.parse(entries[k]) == source[IdOf(prefix, k)];
      assert IdOf(prefix, k) in writes ==> json.parse(json.stringify(writes[IdOf(prefix, k)])) == writes[IdOf(prefix, k)];
    }
  }

  /** Expiry and eviction do no harm. */
  lemma ForgettingKeepsAgreement(json: Json, prefix: string, entries: Entries, source: Source, gone: set<string>)
    requires Agrees(json, prefix, entries, source)
    ensures Agrees(json, prefix, entries - gone, source)
  {
    forall k | k in entries - gone && Ours(prefix, k)
      ensures Current(json, prefix, entries - gone, source, k)
    {
      assert Current(json, prefix, entries, source, k);
    }
  }

  /** The write of items and the clearing of their cache keys, taken together, keep the agreement and touch no other entry. */
  method WriteThenClear(cache: Memcached, c: TransactionLogCache, ghost source: Source, ghost writes: Source)
    requires KeysFor(c.prefix, c.uuids, |c.uuids|, c.cacheKeys) && RoundTrips(c.json) && Agrees(c.json, c.prefix, cache.entries, source)
    requires writes.Keys <= Wanted(c.uuids, |c.uuids|)
    modifies cache
    ensures Agrees(c.json, c.prefix, cache.entries, source + writes)
    ensures ClearsOnly(c.prefix, c.uuids, old(cache.entries), cache.entries)
  {
    c.Clear(cache);
    forall k ensures k in c.cacheKeys <==> WantedKey(c.prefix, c.uuids, k) {
      OwnKey(c.prefix, c.uuids, c.cacheKeys, k);
    }
    ClearingKeepsAgreement(c.json, c.prefix, c.uuids, old(cache.entries), cache.entries, source, writes);
  }

  /** The entries of the wanted ids are gone, all others are as they were. */
  ghost predicate ClearsOnly(prefix: string, uuids: seq<string>, before: Entries, after: Entries) {
    (forall k :: k in after <==> k in before && !WantedKey(prefix, uuids, k)) && forall k :: k in after ==> after[k] == before[k]
  }

  lemma ClearingKeepsAgreement(json: Json, prefix: string, uuids: seq<string>, before: Entries, after: Entries, source: Source, writes: Source)
    requires RoundTrips(json) && Agrees(json, prefix, before, source)
    requires writes.Keys <= Wanted(uuids, |uuids|) && ClearsOnly(prefix, uuids, before, after)
    ensures Agrees(json, prefix, after, source + writes)
  {
    forall k | k in after && Ours(prefix, k) ensures Current(json, prefix, after, source + writes, k) {
      assert Current(json, prefix, before, source, k);
    }
  }

  // ------------------------------------------------------------------ many clients, any list of operations

  /** The prefix of a client's keys. */
  function ClientPrefix(base: string, client: string): (p: string)
  {
    base + "cma_tl_cid_" + client + "_uid_"
  }

  /** No key belongs to two clients: a client's id, a numeral, has no underscore in it. */
  lemma ClientsApart(base: string, a: string, b: string, k: string)
    requires '_' !in a && '_' !in b && Ours(ClientPrefix(base, a), k) && Ours(ClientPrefix(base, b), k)
    ensures a == b
  {
    var rest := k[|base| + 11..];
    assert rest[..|a| + 5] == a + "_uid_";
    assert rest[..|b| + 5] == b + "_uid_";
    assert rest[|a|] == '_' && rest[|b|] == '_';
    assert forall i :: 0 <= i < |a| ==> rest[i] == a[i];
    assert forall i :: 0 <= i < |b| ==> rest[i] == b[i];
    assert |a| == |b|;
  }

  /** The shared cache, and every client's table. */
  datatype Shared = Shared(entries: Entries, tables: map<string, Source>)

  datatype Move =
    | FetchBy(client: string, uuids: seq<string>)
    | WriteBy(client: string, uuids: seq<string>, writes: Source)
    | Forget(keys: set<string>)

  /** A fetch refreshes what it likes among its ids; a write changes items of the ids and clears these; expiry and eviction
      remove any entries. */
  ghost predicate Moves(json: Json, base: string, s: Shared, m: Move, t: Shared) {
    match m
    case FetchBy(c, uuids) =>
      c in s.tables && t.tables == s.tables
      && OnlyRefreshes(json, ClientPrefix(base, c), uuids, s.entries, t.entries, s.tables[c])
    case WriteBy(c, uuids, writes) =>
      c in s.tables && writes.Keys <= Wanted(uuids, |uuids|) && t.tables == s.tables[c := s.tables[c] + writes]
      && ClearsOnly(ClientPrefix(base, c), uuids, s.entries, t.entries)
    case Forget(keys) => t == s.(entries := s.entries - keys)
  }

  ghost predicate AllAgree(json: Json, base: string, s: Shared) {
    forall c :: c in s.tables ==> '_' !in c && Agrees(json, ClientPrefix(base, c), s.entries, s.tables[c])
  }

  lemma FetchKeepsAllAgree(json: Json, base: string, s: Shared, m: Move, t: Shared)
    requires AllAgree(json, base, s) && Moves(json, base, s, m, t) && m.FetchBy?
    ensures AllAgree(json, base, t)
  {
    forall c | c in t.tables ensures Agrees(json, ClientPrefix(base, c), t.entries, t.tables[c]) {
      forall k | k in t.entries && Ours(ClientPrefix(base, c), k)
        ensures Current(json, ClientPrefix(base, c), t.entries, t.tables[c], k)
      {
        if k in s.entries && s.entries[k] == t.entries[k] {
          assert Current(json, ClientPrefix(base, c), s.entries, s.tables[c], k);
        } else {
          ClientsApart(base, c, m.client, k);
        }
      }
    }
  }

  lemma WriteKeepsAllAgree(json: Json, base: string, s: Shared, m: Move, t: Shared)
    requires RoundTrips(json) && AllAgree(json, base, s) && Moves(json, base, s, m, t) && m.WriteBy?
    ensures AllAgree(json, base, t)
  {
    ClearingKeepsAgreement(json, ClientPrefix(base, m.client), m.uuids, s.entries, t.entries, s.tables[m.client], m.writes);
    forall c | c in t.tables && c != m.client ensures Agrees(json, ClientPrefix(base, c), t.entries, t.tables[c]) {
      forall k | k in t.entries && Ours(ClientPrefix(base, c), k)
        ensures Current(json, ClientPrefix(base, c), t.entries, t.tables[c], k)
      {
        assert Current(json, ClientPrefix(base, c), s.entries, s.tables[c], k);
      }
    }
  }

  lemma MoveKeepsAllAgree(json: Json, base: string, s: Shared, m: Move, t: Shared)
    requires RoundTrips(json) && AllAgree(json, base, s) && Moves(json, base, s, m, t)
    ensures AllAgree(json, base, t)
  {
    match m
    case FetchBy(_, _) => FetchKeepsAllAgree(json, base, s, m, t);
    case WriteBy(_, _, _) => WriteKeepsAllAgree(json, base, s, m, t);
    case Forget(keys) =>
      forall c | c in t.tables ensures Agrees(json, ClientPrefix(base, c), t.entries, t.tables[c]) {
        ForgettingKeepsAgreement(json, ClientPrefix(base, c), s.entries, s.tables[c], keys);
      }
  }

  /** The states that a list of operations runs through. */
  ghost predicate Runs(json: Json, base: string, states: seq<Shared>, ms: seq<Move>) {
    |states| == |ms| + 1 && forall i :: 0 <= i < |ms| ==> Moves(json, base, states[i], ms[i], states[i + 1])
  }

  /** However many clients share the cache, and whatever list of fetches, writes with their clearing, expiries and evictions they
      run through it: whenever the cache agreed with every client's table at the start (an empty one does), it does so at every
      moment, so that every fetch gives a direct lookup of its client's table. */
  lemma {:induction false} SharedCacheAgrees(json: Json, base: string, states: seq<Shared>, ms: seq<Move>, i: nat)
    requires RoundTrips(json) && Runs(json, base, states, ms) && AllAgree(json, base, states[0]) && i < |states|
    ensures AllAgree(json, base, states[i])
  {
    if i > 0 {
      SharedCacheAgrees(json, base, states, ms, i - 1);
      MoveKeepsAllAgree(json, base, states[i - 1], ms[i - 1], states[i]);
    }
  }
}
