// useAdminUsers: the admin users list with pagination, the ten-minute users
// cache, and the local update after a role change.

module AdminUsers {
  import opened Wrappers
  import opened Api
  import opened UsersCache
  import Lists

  const PageSize: int := 10

  /** The body of GET /admin/users, with `users || []` and `total || 0` applied. */
  datatype UsersPage = UsersPage(users: seq<User>, total: int)

  /** The offset sent with a request: 0 on reset, the current offset otherwise. */
  function RequestOffset(reset: bool, currentOffset: int): (o: int)
    ensures reset ==> o == 0
    ensures !reset ==> o == currentOffset
  {
    if reset then 0 else currentOffset
  }

  /** The first page served from a non-empty cache. */
  function CachedPage(cached: seq<User>): (page: seq<User>)
    requires |cached| > 0
    ensures |page| == if |cached| < PageSize then |cached| else PageSize
    ensures page == cached[..|page|]
  {
    if |cached| < PageSize then cached else cached[..PageSize]
  }

  /** Whether more users remain after a page of n users requested at `offset` out of `total`. */
  predicate MoreAfter(offset: int, n: int, total: int)
  {
    offset + n < total
  }

  /**
   * A cache filled by a first page load holds at most one page, so serving
   * from it reports that page's length as the total and no further pages,
   * while the same page fetched from the server reports the server's total.
   */
  lemma CacheHitReportsOnePage(page: seq<User>, total: int, stored: int, later: int)
    requires 0 < |page| <= PageSize && |page| < total
    requires stored <= later <= stored + CacheDuration
    ensures MoreAfter(0, |page|, total)
    ensures var cached := Fresh(Some(Stored(page, stored)), later);
      && cached == Some(page) && CachedPage(cached.value) == page
      && |cached.value| == |page| && !(|cached.value| > PageSize)
  {
  }

  function RoleName(response: Response<Option<string>>): (name: string)
    ensures response.Data? && response.value.Some? ==> name == response.value.value
    ensures !(response.Data? && response.value.Some?) ==> name == ""
  {
    if response.Data? && response.value.Some? then response.value.value else ""
  }

  /** The user record after a role change: role id, role name and time replaced. */
  function WithRole(u: User, roleId: string, roleName: string, now: int): (u': User)
    ensures u'.id == u.id && u'.telegramId == u.telegramId && u'.firstName == u.firstName
    ensures u'.username == u.username
    ensures u'.roleId == Some(roleId) && u'.role == roleName && u'.updatedAt == now
  {
    u.(roleId := Some(roleId), role := roleName, updatedAt := now)
  }

  /** The local list after a role change: users with the id become the updated record. */
  function ReplaceById(users: seq<User>, id: string, updated: User): (r: seq<User>)
    ensures |r| == |users|
    ensures forall i :: 0 <= i < |users| ==> r[i] == if users[i].id == id then updated else users[i]
  {
    Lists.MapWhere(users, (u: User) => u.id == id, (u: User) => updated)
  }

  /** Replacing a user by id keeps the list of ids as it was when the new record has that id. */
  lemma ReplaceKeepsIds(users: seq<User>, id: string, updated: User)
    requires updated.id == id
    ensures forall i :: 0 <= i < |users| ==> ReplaceById(users, id, updated)[i].id == users[i].id
  {
  }

  class AdminUsersState {
    var users: seq<User>
    var initialLoading: bool
    var loadingMore: bool
    var error: Option<string>
    var accessDenied: bool
    var successMessage: Option<string>
    var hasMore: bool
    var totalUsers: int
    var currentOffset: int

    constructor()
      ensures users == [] && initialLoading && !loadingMore && error.None? && !accessDenied
      ensures successMessage.None? && hasMore && totalUsers == 0 && currentOffset == 0
    {
      users := [];
      initialLoading := true;
      loadingMore := false;
      error := None;
      accessDenied := false;
      successMessage := None;
      hasMore := true;
      totalUsers := 0;
      currentOffset := 0;
    }

    /**
     * What fetchUsers leaves behind, between the state before the call and
     * the state after it; the cases follow the branches of the hook.
     */
    twostate predicate Fetched(reset: bool, forceRefresh: bool, hasTelegramId: bool, cache: UsersCacheManager,
                               response: Response<UsersPage>, now: int)
      reads this, cache
    {
      && !initialLoading && !loadingMore
      && successMessage.None?
      // no Telegram user: stop with an error, after the initial reset
      && (!hasTelegramId ==> (
          && error == Some("Telegram user ID не найден") && !accessDenied
          && totalUsers == old(totalUsers)
          && cache.cache == old(cache.cache)
          && (reset || |old(users)| == 0 ==> users == [] && currentOffset == 0 && hasMore)
          && (!(reset || |old(users)| == 0) ==> users == old(users) && currentOffset == old(currentOffset) && hasMore == old(hasMore))))
      // a cache hit on an initial, unforced load
      && (hasTelegramId && !forceRefresh && (reset || |old(users)| == 0)
          && Fresh(old(cache.cache), now).Some? && |Fresh(old(cache.cache), now).value| > 0 ==>
          var cached := Fresh(old(cache.cache), now).value;
          && users == CachedPage(cached) && totalUsers == |cached| && currentOffset == PageSize
          && hasMore == (|cached| > PageSize) && cache.cache == old(cache.cache)
          && error.None? && !accessDenied)
      // a request was made
      && (hasTelegramId && !(!forceRefresh && (reset || |old(users)| == 0)
          && Fresh(old(cache.cache), now).Some? && |Fresh(old(cache.cache), now).value| > 0) ==>
          var initial := reset || |old(users)| == 0;
          var offset := RequestOffset(reset, old(currentOffset));
          var cacheAfterGet := if !forceRefresh && initial then AfterGet(old(cache.cache), now) else old(cache.cache);
          match response
          case Failed(m) =>
            && accessDenied == IsAccessDenied(m) && error == (if IsAccessDenied(m) then None else Some(m))
            && users == (if initial then [] else old(users))
            && currentOffset == (if initial then 0 else old(currentOffset))
            && hasMore == (if initial then true else old(hasMore))
            && totalUsers == old(totalUsers) && cache.cache == cacheAfterGet
          case NoData =>
            && error.None? && !accessDenied
            && users == (if initial then [] else old(users))
            && currentOffset == (if initial then 0 else old(currentOffset))
            && hasMore == (if initial then true else old(hasMore))
            && totalUsers == old(totalUsers) && cache.cache == cacheAfterGet
          case Data(page) =>
            && error.None? && !accessDenied && totalUsers == page.total
            && users == (if initial then page.users else old(users) + page.users)
            && currentOffset == (if initial then |page.users| else old(currentOffset) + |page.users|)
            && hasMore == MoreAfter(offset, |page.users|, page.total)
            && cache.cache == (if initial && !forceRefresh then Some(Stored(page.users, now)) else cacheAfterGet))
    }

    /**
     * fetchUsers(reset, forceRefresh). `hasTelegramId` says whether the
     * Telegram user is known; `response` is what GET /admin/users?limit=10
     * &offset=... returns if the request is made; `now` is the clock.
     */
    method FetchUsers(reset: bool, forceRefresh: bool, hasTelegramId: bool, cache: UsersCacheManager,
                      response: Response<UsersPage>, now: int)
      modifies this, cache
      ensures Fetched(reset, forceRefresh, hasTelegramId, cache, response, now)
    {
      var isInitial := reset || |users| == 0;
      var offset := RequestOffset(reset, currentOffset);
      if isInitial {
        initialLoading := true;
        users := [];
        currentOffset := 0;
        hasMore := true;
      } else {
        loadingMore := true;
      }
      error := None;
      accessDenied := false;
      successMessage := None;

      if !hasTelegramId {
        error := Some("Telegram user ID не найден");
        initialLoading := false;
        loadingMore := false;
        return;
      }

      if !forceRefresh && isInitial {
        var cachedUsers := cache.GetUsers(now);
        if cachedUsers.Some? && |cachedUsers.value| > 0 {
          users := CachedPage(cachedUsers.value);
          totalUsers := |cachedUsers.value|;
          currentOffset := PageSize;
          hasMore := |cachedUsers.value| > PageSize;
          initialLoading := false;
          loadingMore := false;
          return;
        }
      }

      match response {
        case Failed(m) =>
          if IsAccessDenied(m) {
            accessDenied := true;
          } else {
            error := Some(m);
          }
          successMessage := None;
        case NoData =>
        case Data(page) =>
          totalUsers := page.total;
          if reset || isInitial {
            users := page.users;
            currentOffset := |page.users|;
          } else {
            users := users + page.users;
            currentOffset := currentOffset + |page.users|;
          }
          hasMore := MoreAfter(offset, |page.users|, page.total);
          if isInitial && !forceRefresh {
            cache.SetUsers(page.users, now);
          }
      }
      initialLoading := false;
      loadingMore := false;
    }

    /** loadMoreUsers: a non-reset, unforced fetch, only when idle and more remain. */
    method LoadMoreUsers(hasTelegramId: bool, cache: UsersCacheManager, response: Response<UsersPage>, now: int)
      modifies this, cache
      ensures old(loadingMore) || !old(hasMore) ==> unchanged(this) && unchanged(cache)
      ensures !old(loadingMore) && old(hasMore) ==> Fetched(false, false, hasTelegramId, cache, response, now)
      ensures !old(loadingMore) && old(hasMore) && hasTelegramId && |old(users)| > 0 && response.Data? ==>
        && users == old(users) + response.value.users
        && currentOffset == old(currentOffset) + |response.value.users|
        && hasMore == MoreAfter(old(currentOffset), |response.value.users|, response.value.total)
    {
      if !loadingMore && hasMore {
        FetchUsers(false, false, hasTelegramId, cache, response, now);
      }
    }

    /**
     * updateUserRole(userId, newRoleId). `response` is the PATCH result,
     * carrying the new role's name when the server returns one. The
     * delayed refetch and the delayed clearing of the message are timers
     * left to the caller.
     */
    method UpdateUserRole(userId: string, newRoleId: string, cache: UsersCacheManager,
                          response: Response<Option<string>>, now: int)
      modifies this, cache
      ensures response.Failed? ==> (
        && error == Some(response.message) && successMessage.None?
        && users == old(users) && unchanged(cache))
      ensures !response.Failed? ==> error.None? && successMessage == Some("✅ Роль пользователя успешно обновлена!")
      ensures !response.Failed? ==>
        match Lists.Find(old(users), (u: User) => u.id == userId)
        case None => users == old(users) && cache.cache == old(cache.cache)
        case Some(u) =>
          var updated := WithRole(u, newRoleId, RoleName(response), now);
          users == ReplaceById(old(users), userId, updated) && cache.cache == WithUser(old(cache.cache), updated)
      ensures |users| == |old(users)|
      ensures currentOffset == old(currentOffset) && hasMore == old(hasMore) && totalUsers == old(totalUsers)
    {
      error := None;
      successMessage := None;
      if response.Failed? {
        error := Some(response.message);
        successMessage := None;
        return;
      }
      successMessage := Some("✅ Роль пользователя успешно обновлена!");
      var found := Lists.Find(users, (u: User) => u.id == userId);
      if found.Some? {
        var updated := WithRole(found.value, newRoleId, RoleName(response), now);
        users := ReplaceById(users, userId, updated);
        cache.UpdateUser(updated);
      }
    }
  }
}
