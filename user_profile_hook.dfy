/**
 * The process-wide profile name cache of src/hooks/useUserProfileOptimized.js: a map from uid
 * to (displayName, timestamp) read with a 5-minute time-to-live, the signed-in user's hook
 * (single resolve with a 1-second duplicate-fetch guard, overwrite, delete), the batch resolver
 * and the per-card resolver. Profile reads are inputs; `now` is an integer millisecond clock.
 */
module UserProfileHook {
  import opened Common

  const CacheDuration: int := 5 * 60 * 1000
  const FetchGuardMs: int := 1000
  const UnknownUser := "Unknown User"

  datatype Entry = Entry(displayName: string, timestamp: int)

  /** A `userProfiles` document. */
  datatype Profile = Profile(nickname: Option<string>)

  /** What `getDoc` on a profile gives: the document if it exists, or a thrown error. */
  datatype Lookup = Found(profile: Option<Profile>) | LookupFailed

  type Cache = map<string, Entry>

  /** `cached && now - cached.timestamp < CACHE_DURATION`. */
  predicate IsFresh(cache: Cache, uid: string, now: int)
  {
    uid in cache && now - cache[uid].timestamp < CacheDuration
  }

  /** The name a cache read serves without a lookup, if any. */
  function CachedName(cache: Cache, uid: string, now: int): Option<string>
  {
    if IsFresh(cache, uid, now) then Some(cache[uid].displayName) else None
  }

  /** `profileSnap.exists() && profileSnap.data().nickname ? nickname : fallback`. */
  function ProfileName(profile: Option<Profile>, fallback: string): (r: string)
    ensures fallback != "" ==> r != ""
    ensures r == fallback || (profile.Some? && profile.value.nickname == Some(r))
  {
    if profile.Some? && Truthy(profile.value.nickname) then profile.value.nickname.value
    else fallback
  }

  /** The name the batch resolver reports for a looked-up uid. */
  function BatchName(l: Lookup): string
  {
    match l
    case Found(p) => ProfileName(p, UnknownUser)
    case LookupFailed => UnknownUser
  }

  /** `[...new Set(uids)]`: each uid once. */
  function Unique(uids: seq<string>): (r: seq<string>)
    ensures forall u :: u in r <==> u in uids
    ensures forall i, j :: 0 <= i < j < |r| ==> r[i] != r[j]
    decreases |uids|
  {
    if uids == [] then []
    else
      var init := Unique(uids[..|uids| - 1]);
      var last := uids[|uids| - 1];
      assert uids == uids[..|uids| - 1] + [last];
      if last in init then init else init + [last]
  }

  /** The uids of `us`, in order, whose cache entry is stale or absent: `uncachedUids`. */
  function Uncached(us: seq<string>, cache: Cache, now: int): (r: seq<string>)
    ensures forall u :: u in r <==> u in us && !IsFresh(cache, u, now)
    decreases |us|
  {
    if us == [] then []
    else
      var init := Uncached(us[..|us| - 1], cache, now);
      var last := us[|us| - 1];
      assert us == us[..|us| - 1] + [last];
      if IsFresh(cache, last, now) then init else init + [last]
  }

  lemma {:induction false} UncachedKeepsDistinct(us: seq<string>, cache: Cache, now: int)
    requires forall i, j :: 0 <= i < j < |us| ==> us[i] != us[j]
    ensures forall i, j :: 0 <= i < j < |Uncached(us, cache, now)| ==>
      Uncached(us, cache, now)[i] != Uncached(us, cache, now)[j]
    decreases |us|
  {
    if us != [] {
      var init := us[..|us| - 1];
      UncachedKeepsDistinct(init, cache, now);
      var last := us[|us| - 1];
      assert last !in init;
    }
  }

  /** The cache writes of the batch: every successful lookup, stamped with the batch's `now`. */
  function BatchWrites(fetched: seq<string>, now: int, store: string -> Lookup): Cache
  {
    map u | u in fetched && store(u).Found? :: Entry(BatchName(store(u)), now)
  }

  /** The names the batch serves from the cache. */
  function FreshNames(us: seq<string>, cache: Cache, now: int): map<string, string>
  {
    map u | u in us && IsFresh(cache, u, now) :: cache[u].displayName
  }

  /** The names the batch reports for the uids it looked up. */
  function FetchedNames(fetched: seq<string>, store: string -> Lookup): map<string, string>
  {
    map u | u in fetched :: BatchName(store(u))
  }

  lemma FreshNamesStep(us: seq<string>, x: string, cache: Cache, now: int)
    ensures FreshNames(us + [x], cache, now) ==
      if IsFresh(cache, x, now) then FreshNames(us, cache, now)[x := cache[x].displayName]
      else FreshNames(us, cache, now)
  {
  }

  lemma BatchStep(fs: seq<string>, x: string, now: int, store: string -> Lookup)
    ensures FetchedNames(fs + [x], store) == FetchedNames(fs, store)[x := BatchName(store(x))]
    ensures BatchWrites(fs + [x], now, store) ==
      if store(x).Found? then BatchWrites(fs, now, store)[x := Entry(BatchName(store(x)), now)]
      else BatchWrites(fs, now, store)
  {
  }

  lemma MergeThenUpdate<V>(a: map<string, V>, b: map<string, V>, k: string, v: V)
    ensures (a + b)[k := v] == a + b[k := v]
  {
  }

  /** One lookup of the batch extends the cache writes and the names by that uid's. */
  lemma LookupStep(cache0: Cache, served: map<string, string>, fs: seq<string>, x: string,
                   now: int, store: string -> Lookup)
    ensures store(x).Found? ==>
      (cache0 + BatchWrites(fs, now, store))[x := Entry(BatchName(store(x)), now)]
        == cache0 + BatchWrites(fs + [x], now, store)
    ensures store(x).LookupFailed? ==>
      cache0 + BatchWrites(fs, now, store) == cache0 + BatchWrites(fs + [x], now, store)
    ensures (served + FetchedNames(fs, store))[x := BatchName(store(x))]
      == served + FetchedNames(fs + [x], store)
  {
    BatchStep(fs, x, now, store);
    MergeThenUpdate(cache0, BatchWrites(fs, now, store), x, Entry(BatchName(store(x)), now));
    MergeThenUpdate(served, FetchedNames(fs, store), x, BatchName(store(x)));
  }

  /** What the two loops of the batch compute, stated per uid. */
  lemma BatchResultSpec(uids: seq<string>, cache: Cache, now: int, store: string -> Lookup)
    ensures var fetched := Uncached(Unique(uids), cache, now);
      var results := FreshNames(Unique(uids), cache, now) + FetchedNames(fetched, store);
      && results.Keys == (set u | u in uids)
      && (forall u :: u in uids && IsFresh(cache, u, now) ==> results[u] == cache[u].displayName)
      && (forall u :: u in uids && !IsFresh(cache, u, now) ==> results[u] == BatchName(store(u)))
  {
  }

  /** An overwrite is read back at once and until the time-to-live runs out. */
  lemma OverwriteIsReadBack(cache: Cache, uid: string, name: string, t: int, now: int)
    requires t <= now < t + CacheDuration
    ensures CachedName(cache[uid := Entry(name, t)], uid, now) == Some(name)
  {
  }

  /** An entry is served for five minutes and not a millisecond longer. */
  lemma EntryExpires(cache: Cache, uid: string, now: int)
    requires uid in cache && now >= cache[uid].timestamp + CacheDuration
    ensures CachedName(cache, uid, now).None?
  {
  }

  /** Overwriting or deleting one uid leaves every other uid's reads as they were. */
  lemma OtherUidsUnaffected(cache: Cache, uid: string, other: string, e: Entry, now: int)
    requires other != uid
    ensures CachedName(cache[uid := e], other, now) == CachedName(cache, other, now)
    ensures CachedName(cache - {uid}, other, now) == CachedName(cache, other, now)
    ensures CachedName(cache - {uid}, uid, now).None?
  {
  }

  /** The module-level `profileCache` map. */
  class ProfileCache {
    var entries: Cache

    constructor ()
      ensures entries == map[]
    {
      entries := map[];
    }

    /** The first loop of the batch: fresh entries are served, the others queued for lookup. */
    method ServeFromCache(uniqueUids: seq<string>, now: int)
      returns (results: map<string, string>, uncachedUids: seq<string>)
      ensures results == FreshNames(uniqueUids, entries, now)
      ensures uncachedUids == Uncached(uniqueUids, entries, now)
    {
      uncachedUids := [];
      results := map[];
      var i := 0;
      while i < |uniqueUids|
        invariant 0 <= i <= |uniqueUids|
        invariant uncachedUids == Uncached(uniqueUids[..i], entries, now)
        invariant results == FreshNames(uniqueUids[..i], entries, now)
      {
        var uid := uniqueUids[i];
        var cached := if uid in entries then Some(entries[uid]) else None;
        assert uniqueUids[..i + 1] == uniqueUids[..i] + [uid];
        FreshNamesStep(uniqueUids[..i], uid, entries, now);
        if cached.Some? && now - cached.value.timestamp < CacheDuration {
          results := results[uid := cached.value.displayName];
        } else {
          uncachedUids := uncachedUids + [uid];
        }
        i := i + 1;
      }
      assert uniqueUids[..i] == uniqueUids;
    }

    /**
     * The lookups of the batch. They run concurrently under `Promise.all`; they write distinct
     * keys, so running them one after the other gives the same final cache and results.
     */
    method FetchUncached(uncachedUids: seq<string>, now: int, store: string -> Lookup,
                         served: map<string, string>)
      returns (results: map<string, string>)
      modifies this
      ensures results == served + FetchedNames(uncachedUids, store)
      ensures entries == old(entries) + BatchWrites(uncachedUids, now, store)
    {
      ghost var cache0 := entries;
      results := served;
      assert FetchedNames([], store) == map[] && BatchWrites([], now, store) == map[];
      assert served + map[] == served && cache0 + map[] == cache0;
      var j := 0;
      while j < |uncachedUids|
        invariant 0 <= j <= |uncachedUids|
        invariant entries == cache0 + BatchWrites(uncachedUids[..j], now, store)
        invariant results == served + FetchedNames(uncachedUids[..j], store)
      {
        var uid := uncachedUids[j];
        ghost var fs := uncachedUids[..j];
        assert uncachedUids[..j + 1] == fs + [uid];
        LookupStep(cache0, served, fs, uid, now, store);
        var snap := store(uid);
        if snap.Found? {
          var displayName := ProfileName(snap.profile, UnknownUser);
          entries := entries[uid := Entry(displayName, now)];
          results := results[uid := displayName];
        } else {
          results := results[uid := UnknownUser];
        }
        j := j + 1;
      }
      assert uncachedUids[..j] == uncachedUids;
    }

    /**
     * `batchFetchUserProfiles`: every distinct uid gets one name; fresh entries are served from
     * the cache; exactly the stale or absent ones are looked up (`fetched`, each once); a
     * missing nickname or a failed read gives 'Unknown User'; only successful reads are cached.
     */
    method BatchFetchUserProfiles(uids: seq<string>, now: int, store: string -> Lookup)
      returns (results: map<string, string>, fetched: seq<string>)
      modifies this
      ensures results.Keys == set u | u in uids
      ensures forall u :: u in uids && IsFresh(old(entries), u, now) ==>
        results[u] == old(entries)[u].displayName
      ensures forall u :: u in uids && !IsFresh(old(entries), u, now) ==>
        results[u] == BatchName(store(u))
      ensures fetched == Uncached(Unique(uids), old(entries), now)
      ensures entries == old(entries) + BatchWrites(fetched, now, store)
    {
      var uniqueUids := Unique(uids);
      var served;
      served, fetched := ServeFromCache(uniqueUids, now);
      if |fetched| > 0 {
        results := FetchUncached(fetched, now, store, served);
      } else {
        results := served;
        assert FetchedNames(fetched, store) == map[] && BatchWrites(fetched, now, store) == map[];
        assert served + map[] == served && entries + map[] == entries;
      }
      BatchResultSpec(uids, old(entries), now, store);
    }
  }

  /** `useUserProfileOptimized(user)`: the signed-in user's name, backed by the shared cache. */
  class ProfileHook {
    const cache: ProfileCache
    const user: Option<User>
    var displayName: string
    var loading: bool
    var lastFetch: int

    constructor (cache: ProfileCache, user: Option<User>)
      ensures this.cache == cache && this.user == user
      ensures displayName == "" && loading && lastFetch == 0
    {
      this.cache := cache;
      this.user := user;
      displayName, loading, lastFetch := "", true, 0;
    }

    /**
     * `loadDisplayName(forceRefresh)`. `lookup` is what the profile read would give; `looked`
     * says whether it was issued. A fresh entry is served unless `forceRefresh`; a second
     * attempt within a second returns without a read and changes nothing; a read caches
     * (name, now). As in the source, a successful read returns before `loading` is cleared.
     */
    method LoadDisplayName(forceRefresh: bool, now: int, lookup: Lookup)
      returns (r: Option<string>, looked: bool)
      modifies this, cache
      ensures user.None? ==>
        && r.None? && !looked && displayName == "" && !loading
        && cache.entries == old(cache.entries) && lastFetch == old(lastFetch)
      ensures user.Some? && !forceRefresh && IsFresh(old(cache.entries), user.value.uid, now) ==>
        && !looked && r == Some(old(cache.entries)[user.value.uid].displayName)
        && displayName == r.value && !loading
        && cache.entries == old(cache.entries) && lastFetch == old(lastFetch)
      ensures user.Some? && (forceRefresh || !IsFresh(old(cache.entries), user.value.uid, now))
              && now - old(lastFetch) < FetchGuardMs ==>
        && !looked && r.None?
        && displayName == old(displayName) && loading == old(loading)
        && cache.entries == old(cache.entries) && lastFetch == old(lastFetch)
      ensures user.Some? && (forceRefresh || !IsFresh(old(cache.entries), user.value.uid, now))
              && now - old(lastFetch) >= FetchGuardMs ==>
        && looked && lastFetch == now
        && (lookup.Found? ==>
              var name := ProfileName(lookup.profile, user.value.displayName);
              && r == Some(name) && displayName == name && loading
              && cache.entries == old(cache.entries)[user.value.uid := Entry(name, now)])
        && (lookup.LookupFailed? ==>
              && r.None? && displayName == user.value.displayName && !loading
              && cache.entries == old(cache.entries))
    {
      looked := false;
      if user.None? {
        displayName := "";
        loading := false;
        return None, false;
      }
      var cacheKey := user.value.uid;
      var cached := if cacheKey in cache.entries then Some(cache.entries[cacheKey]) else None;
      if !forceRefresh && cached.Some? && now - cached.value.timestamp < CacheDuration {
        displayName := cached.value.displayName;
        loading := false;
        return Some(cached.value.displayName), false;
      }
      if now - lastFetch < FetchGuardMs {
        return None, false;
      }
      lastFetch := now;
      loading := true;
      looked := true;
      if lookup.Found? {
        var name := ProfileName(lookup.profile, user.value.displayName);
        cache.entries := cache.entries[cacheKey := Entry(name, now)];
        displayName := name;
        return Some(name), true;
      }
      displayName := user.value.displayName;
      loading := false;
      r := None;
    }

    /** `if (cacheKey)`: a signed-in user with a non-empty uid. */
    predicate HasCacheKey()
    {
      user.Some? && user.value.uid != ""
    }

    /** `updateDisplayName`: shows the new name and overwrites only this uid's entry. */
    method UpdateDisplayName(newNickname: string, now: int)
      modifies this`displayName, cache
      ensures displayName == newNickname
      ensures HasCacheKey() ==>
        cache.entries == old(cache.entries)[user.value.uid := Entry(newNickname, now)]
      ensures !HasCacheKey() ==> cache.entries == old(cache.entries)
    {
      displayName := newNickname;
      if user.Some? && user.value.uid != "" {
        cache.entries := cache.entries[user.value.uid := Entry(newNickname, now)];
      }
    }

    /** `clearCache`: removes only this uid's entry. */
    method ClearCache()
      modifies cache
      ensures HasCacheKey() ==> cache.entries == old(cache.entries) - {user.value.uid}
      ensures !HasCacheKey() ==> cache.entries == old(cache.entries)
    {
      if user.Some? && user.value.uid != "" {
        cache.entries := cache.entries - {user.value.uid};
      }
    }
  }

  /** `useUserDisplayName(uid, fallbackName)`: an uploader's name on a card. */
  class DisplayNameHook {
    const cache: ProfileCache
    var displayName: string
    var loading: bool

    constructor (cache: ProfileCache, fallbackName: string)
      ensures this.cache == cache && displayName == fallbackName && loading
    {
      this.cache := cache;
      displayName, loading := fallbackName, true;
    }

    /**
     * The effect and `loadUserDisplayName`: no uid shows the fallback; a fresh entry is
     * served with no read; otherwise the read's nickname or the fallback is shown and cached,
     * and a failed read shows the fallback without caching.
     */
    method Load(uid: Option<string>, fallbackName: string, now: int, lookup: Lookup)
      returns (looked: bool)
      modifies this, cache
      ensures !loading
      ensures !Truthy(uid) ==>
        !looked && displayName == fallbackName && cache.entries == old(cache.entries)
      ensures Truthy(uid) && IsFresh(old(cache.entries), uid.value, now) ==>
        && !looked && displayName == old(cache.entries)[uid.value].displayName
        && cache.entries == old(cache.entries)
      ensures Truthy(uid) && !IsFresh(old(cache.entries), uid.value, now) ==>
        && looked
        && (lookup.Found? ==>
              var name := ProfileName(lookup.profile, fallbackName);
              displayName == name && cache.entries == old(cache.entries)[uid.value := Entry(name, now)])
        && (lookup.LookupFailed? ==>
              displayName == fallbackName && cache.entries == old(cache.entries))
    {
      if !Truthy(uid) {
        displayName := fallbackName;
        loading := false;
        return false;
      }
      var id := uid.value;
      var cached := if id in cache.entries then Some(cache.entries[id]) else None;
      if cached.Some? && now - cached.value.timestamp < CacheDuration {
        displayName := cached.value.displayName;
        loading := false;
        return false;
      }
      looked := true;
      if lookup.Found? {
        var name := ProfileName(lookup.profile, fallbackName);
        cache.entries := cache.entries[id := Entry(name, now)];
        displayName := name;
      } else {
        displayName := fallbackName;
      }
      loading := false;
    }
  }

  /**
   * A resolve right after `updateDisplayName` returns the new name with no read; a forced
   * refresh performs exactly one read once the duplicate guard has passed.
   */
  method ResolveAfterUpdate(user: User, name: string, now: int, lookup: Lookup)
    requires now >= 0 && user.uid != ""
  {
    var cache := new ProfileCache();
    var hook := new ProfileHook(cache, Some(user));
    hook.UpdateDisplayName(name, now);
    var r, looked := hook.LoadDisplayName(false, now, lookup);
    assert r == Some(name) && !looked;
    r, looked := hook.LoadDisplayName(true, now + FetchGuardMs, lookup);
    assert looked;
  }
}
