// The client's in-memory cache of the admin users list, with a ten-minute
// lifetime. `now` stands for Date.now() at the moment of each call.

module UsersCache {
  import opened Wrappers
  import Lists

  /** The fields of a user record that the admin pages read or write. */
  datatype User = User(id: string, telegramId: int, firstName: string, username: string,
                       roleId: Option<string>, role: string, updatedAt: int)

  datatype Entry = Entry(users: seq<User>, timestamp: int, expiresAt: int)

  const CacheDuration: int := 10 * 60 * 1000

  /** What getUsers returns for a cache state: nothing once the entry is past its expiry. */
  function Fresh(c: Option<Entry>, now: int): (r: Option<seq<User>>)
    ensures r.Some? <==> c.Some? && now <= c.value.expiresAt
    ensures r.Some? ==> r.value == c.value.users
  {
    match c
    case None => None
    case Some(e) => if now > e.expiresAt then None else Some(e.users)
  }

  /** The cache state after getUsers: an expired entry is dropped, anything else is kept. */
  function AfterGet(c: Option<Entry>, now: int): (c': Option<Entry>)
    ensures c'.None? <==> c.None? || now > c.value.expiresAt
    ensures c'.Some? ==> c' == c
  {
    if c.Some? && now > c.value.expiresAt then None else c
  }

  /** The entry setUsers stores. */
  function Stored(users: seq<User>, now: int): (e: Entry)
    ensures e.users == users && e.timestamp == now && e.expiresAt == now + CacheDuration
  {
    Entry(users, now, now + CacheDuration)
  }

  /** updateUser: overwrite the first user with the same id, if there is a cache and such a user. */
  function WithUser(c: Option<Entry>, u: User): (c': Option<Entry>)
    ensures c.None? ==> c' == None
    ensures c.Some? ==> c'.Some? && c'.value.timestamp == c.value.timestamp
                        && c'.value.expiresAt == c.value.expiresAt
                        && |c'.value.users| == |c.value.users|
    ensures c.Some? && (forall i :: 0 <= i < |c.value.users| ==> c.value.users[i].id != u.id) ==> c' == c
    ensures c.Some? && (exists i :: 0 <= i < |c.value.users| && c.value.users[i].id == u.id) ==>
      exists k :: 0 <= k < |c.value.users|
        && c.value.users[k].id == u.id
        && (forall j :: 0 <= j < k ==> c.value.users[j].id != u.id)
        && c'.value.users == c.value.users[k := u]
  {
    match c
    case None => None
    case Some(e) =>
      match Lists.FirstIndex(e.users, (x: User) => x.id == u.id)
      case None => c
      case Some(k) => Some(e.(users := e.users[k := u]))
  }

  /** getTimeToExpire: the whole seconds left, never negative. */
  function SecondsLeft(c: Option<Entry>, now: int): (s: nat)
    ensures c.None? || now >= c.value.expiresAt ==> s == 0
    ensures c.Some? && now < c.value.expiresAt ==> s * 1000 <= c.value.expiresAt - now < (s + 1) * 1000
  {
    match c
    case None => 0
    case Some(e) =>
      var remaining := if e.expiresAt - now > 0 then e.expiresAt - now else 0;
      remaining / 1000
  }

  /** getLastUpdateTime: `timestamp || null`, so a zero timestamp also reads as null. */
  function LastUpdate(c: Option<Entry>): (t: Option<int>)
    ensures t.Some? <==> c.Some? && c.value.timestamp != 0
    ensures t.Some? ==> t.value == c.value.timestamp
  {
    if c.Some? && c.value.timestamp != 0 then Some(c.value.timestamp) else None
  }

  /** Stored users are returned up to and including the expiry instant, and not after it. */
  lemma StoredLifetime(users: seq<User>, t: int, now: int)
    ensures t <= now <= t + CacheDuration ==> Fresh(Some(Stored(users, t)), now) == Some(users)
    ensures now > t + CacheDuration ==> Fresh(Some(Stored(users, t)), now).None?
                                        && AfterGet(Some(Stored(users, t)), now).None?
  {
  }

  /** Right after setUsers at most 600 seconds remain, and the count only goes down. */
  lemma {:induction false} SecondsLeftOfStored(users: seq<User>, t: int, now: int, later: int)
    requires t <= now <= later
    ensures SecondsLeft(Some(Stored(users, t)), now) <= CacheDuration / 1000
    ensures SecondsLeft(Some(Stored(users, t)), later) <= SecondsLeft(Some(Stored(users, t)), now)
  {
    var e := Stored(users, t);
    var a := if e.expiresAt - now > 0 then e.expiresAt - now else 0;
    var b := if e.expiresAt - later > 0 then e.expiresAt - later else 0;
    assert b <= a <= CacheDuration;
    DivMonotone(b, a);
    DivMonotone(a, CacheDuration);
  }

  lemma DivMonotone(x: int, y: int)
    requires 0 <= x <= y
    ensures x / 1000 <= y / 1000
  {
    var qx, qy := x / 1000, y / 1000;
    assert x == 1000 * qx + x % 1000;
    assert y == 1000 * qy + y % 1000;
  }

  /** A getUsers that finds nothing leaves no cache behind, so hasUsers then stays false. */
  lemma MissIsSticky(c: Option<Entry>, now: int, later: int)
    requires Fresh(c, now).None? && now <= later
    ensures Fresh(AfterGet(c, now), later).None? && AfterGet(c, now).None?
  {
  }

  class UsersCacheManager {
    var cache: Option<Entry>

    constructor()
      ensures cache.None?
    {
      cache := None;
    }

    method GetUsers(now: int) returns (r: Option<seq<User>>)
      modifies this
      ensures r == Fresh(old(cache), now)
      ensures cache == AfterGet(old(cache), now)
    {
      if cache.None? {
        return None;
      }
      if now > cache.value.expiresAt {
        cache := None;
        return None;
      }
      return Some(cache.value.users);
    }

    method SetUsers(users: seq<User>, now: int)
      modifies this
      ensures cache == Some(Stored(users, now))
    {
      cache := Some(Entry(users, now, now + CacheDuration));
    }

    method Clear()
      modifies this
      ensures cache.None?
    {
      cache := None;
    }

    method HasUsers(now: int) returns (b: bool)
      modifies this
      ensures b <==> Fresh(old(cache), now).Some?
      ensures cache == AfterGet(old(cache), now)
    {
      var users := GetUsers(now);
      b := users.Some?;
    }

    method UpdateUser(u: User)
      modifies this
      ensures cache == WithUser(old(cache), u)
    {
      if cache.None? {
        return;
      }
      var index := Lists.FirstIndex(cache.value.users, (x: User) => x.id == u.id);
      if index.Some? {
        cache := Some(cache.value.(users := cache.value.users[index.value := u]));
      }
    }

    function GetLastUpdateTime(): (t: Option<int>)
      reads this
      ensures t.Some? <==> cache.Some? && cache.value.timestamp != 0
      ensures t.Some? ==> t.value == cache.value.timestamp
    {
      LastUpdate(cache)
    }

    function GetTimeToExpire(now: int): (s: nat)
      reads this
      ensures cache.None? || now >= cache.value.expiresAt ==> s == 0
      ensures cache.Some? && now < cache.value.expiresAt ==> s * 1000 <= cache.value.expiresAt - now < (s + 1) * 1000
    {
      SecondsLeft(cache, now)
    }
  }
}
