// The client's per-user cache of role names, keyed by telegram id, with a
// five-minute lifetime. `now` stands for Date.now() at the moment of each call.

module UserRoleCache {
  import opened Wrappers

  datatype RoleEntry = RoleEntry(role: string, timestamp: int, expiresAt: int)

  const CacheDuration: int := 5 * 60 * 1000

  /** What getRole returns: the role of a present entry that has not yet expired. */
  function Lookup(cache: map<string, RoleEntry>, id: string, now: int): (r: Option<string>)
    ensures r.Some? <==> id in cache && now <= cache[id].expiresAt
    ensures r.Some? ==> r.value == cache[id].role
  {
    if id !in cache || now > cache[id].expiresAt then None else Some(cache[id].role)
  }

  /** The cache after getRole: the looked-up entry is deleted if it has expired. */
  function AfterLookup(cache: map<string, RoleEntry>, id: string, now: int): (c: map<string, RoleEntry>)
    ensures c.Keys == if id in cache && now > cache[id].expiresAt then cache.Keys - {id} else cache.Keys
    ensures forall k :: k in c ==> c[k] == cache[k]
  {
    if id in cache && now > cache[id].expiresAt then cache - {id} else cache
  }

  /** The cache after setRole. */
  function WithRole(cache: map<string, RoleEntry>, id: string, role: string, now: int): (c: map<string, RoleEntry>)
    ensures c.Keys == cache.Keys + {id}
    ensures c[id] == RoleEntry(role, now, now + CacheDuration)
    ensures forall k :: k in cache && k != id ==> c[k] == cache[k]
  {
    cache[id := RoleEntry(role, now, now + CacheDuration)]
  }

  /** A role set at t is returned for 300000 ms, and not after. */
  lemma SetThenLookup(cache: map<string, RoleEntry>, id: string, role: string, t: int, now: int)
    ensures t <= now <= t + CacheDuration ==> Lookup(WithRole(cache, id, role, t), id, now) == Some(role)
    ensures now > t + CacheDuration ==> Lookup(WithRole(cache, id, role, t), id, now).None?
  {
  }

  /** setRole and clearRole touch only their own id. */
  lemma OtherIdsUnaffected(cache: map<string, RoleEntry>, id: string, other: string, role: string, t: int, now: int)
    requires other != id
    ensures Lookup(WithRole(cache, id, role, t), other, now) == Lookup(cache, other, now)
    ensures Lookup(cache - {id}, other, now) == Lookup(cache, other, now)
    ensures Lookup(AfterLookup(cache, id, now), other, now) == Lookup(cache, other, now)
  {
  }

  /** Dropping an expired entry on lookup changes no later answer for that id. */
  lemma ExpiryDeletionUnobservable(cache: map<string, RoleEntry>, id: string, now: int, later: int)
    requires now <= later
    ensures Lookup(AfterLookup(cache, id, now), id, later) == Lookup(cache, id, later)
  {
  }

  class UserRoleCacheManager {
    var cache: map<string, RoleEntry>

    constructor()
      ensures cache == map[]
    {
      cache := map[];
    }

    method GetRole(id: string, now: int) returns (r: Option<string>)
      modifies this
      ensures r == Lookup(old(cache), id, now)
      ensures cache == AfterLookup(old(cache), id, now)
    {
      if id !in cache {
        return None;
      }
      var cached := cache[id];
      if now > cached.expiresAt {
        cache := cache - {id};
        return None;
      }
      return Some(cached.role);
    }

    method SetRole(id: string, role: string, now: int)
      modifies this
      ensures cache == WithRole(old(cache), id, role, now)
    {
      cache := cache[id := RoleEntry(role, now, now + CacheDuration)];
    }

    method ClearRole(id: string)
      modifies this
      ensures cache == old(cache) - {id}
      ensures forall t :: Lookup(cache, id, t).None?
    {
      cache := cache - {id};
    }

    method ClearAll()
      modifies this
      ensures cache == map[]
      ensures forall id, t :: Lookup(cache, id, t).None?
    {
      cache := map[];
    }

    method HasRole(id: string, now: int) returns (b: bool)
      modifies this
      ensures b <==> Lookup(old(cache), id, now).Some?
      ensures cache == AfterLookup(old(cache), id, now)
    {
      var r := GetRole(id, now);
      b := r.Some?;
    }
  }
}
