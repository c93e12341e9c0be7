// Who may see what: useAdminCheck, useUserRole, the buttons of the main
// screen (Main.tsx) and the route guard (ProtectedRoute.tsx).

module AdminAccess {
  import opened Wrappers
  import opened Text
  import opened Api
  import opened UserRoleCache

  /** The Telegram ids that are admins whatever their role. */
  const AdminTelegramIds: seq<int> := [748516935, 1750233627]

  /** `telegramUser?.id` is truthy: present and not 0. */
  predicate HasId(id: Option<int>)
  {
    id.Some? && id.value != 0
  }

  /** The two spellings of the admin role the client accepts. */
  predicate IsAdminRole(role: string)
  {
    role == "ADMIN" || role == "admin"
  }

  function DigitChar(d: int): (c: char)
    requires 0 <= d <= 9
    ensures IsDigit(c) && DigitValue(c) == d
  {
    ('0' as int + d) as char
  }

  function DigitValue(c: char): int
  {
    c as int - '0' as int
  }

  /** The number a string of decimal digits denotes, most significant digit first. */
  function DecimalValue(s: string): int
  {
    if |s| == 0 then 0 else DecimalValue(s[..|s| - 1]) * 10 + DigitValue(s[|s| - 1])
  }

  /** The decimal digits of n, without leading zeros; reading them back gives n. */
  function NatString(n: nat): (s: string)
    ensures |s| > 0 && forall i :: 0 <= i < |s| ==> IsDigit(s[i])
    ensures DecimalValue(s) == n
    ensures s[0] == '0' ==> n == 0
  {
    if n < 10 then [DigitChar(n)]
    else
      var prefix := NatString(n / 10);
      var s := prefix + [DigitChar(n % 10)];
      assert s[..|s| - 1] == prefix;
      s
  }

  /** `String(telegramUser.id)`, the key of the role cache. */
  function IdKey(id: int): (s: string)
    ensures |s| > 0
    ensures id >= 0 ==> forall i :: 0 <= i < |s| ==> IsDigit(s[i])
    ensures id < 0 <==> s[0] == '-'
  {
    if id < 0 then "-" + NatString(-id) else NatString(id)
  }

  /** Different Telegram ids never share a role cache entry. */
  lemma IdKeyInjective(a: int, b: int)
    requires IdKey(a) == IdKey(b)
    ensures a == b
  {
    if a < 0 {
      assert IdKey(a)[1..] == NatString(-a);
      assert IdKey(b)[1..] == NatString(-b);
    }
  }

  /** isAdmin: an admin id, or a role spelled 'ADMIN' or 'admin'. */
  predicate IsAdminFor(id: Option<int>, dbRole: string)
  {
    HasId(id) && (id.value in AdminTelegramIds || IsAdminRole(dbRole))
  }

  /** hasContentAccess: any non-blank role, or the admin role. */
  predicate ContentAccessFor(id: Option<int>, dbRole: string)
  {
    HasId(id) && ((Truthy(dbRole) && Trim(dbRole) != []) || IsAdminRole(dbRole))
  }

  lemma NoIdNoAccess(id: Option<int>, dbRole: string)
    requires !HasId(id)
    ensures !IsAdminFor(id, dbRole) && !ContentAccessFor(id, dbRole)
  {
  }

  lemma AdminIdIsAdmin(id: int, dbRole: string)
    requires id in AdminTelegramIds
    ensures IsAdminFor(Some(id), dbRole)
  {
  }

  /** For any other id, only the two exact spellings of the role make an admin. */
  lemma OnlyExactAdminRole(id: int, dbRole: string)
    requires id != 0 && id !in AdminTelegramIds
    ensures IsAdminFor(Some(id), dbRole) <==> dbRole == "ADMIN" || dbRole == "admin"
    ensures !IsAdminFor(Some(id), "Admin")
  {
  }

  lemma AdminRoleNotBlank(role: string)
    requires IsAdminRole(role)
    ensures !IsBlank(role)
  {
    assert !IsSpace(role[0]);
  }

  /** The admin clause of hasContentAccess adds nothing: access is a non-blank role. */
  lemma ContentAccessIsNonBlankRole(id: Option<int>, dbRole: string)
    ensures ContentAccessFor(id, dbRole) <==> HasId(id) && !IsBlank(dbRole)
  {
    if IsAdminRole(dbRole) {
      AdminRoleNotBlank(dbRole);
    }
  }

  /**
   * The user record GET /users/check/:id returns: role_id ("" for null) and
   * the name of the joined role, None when the join is null (a missing
   * name is "").
   */
  datatype CheckedUser = CheckedUser(roleId: string, roleName: Option<string>)

  /** What a check response does to the role: nothing, a named role, or no role. */
  datatype RoleCheck = Unchanged | Named(name: string) | Unassigned

  function Classify(response: Response<CheckedUser>): (c: RoleCheck)
    ensures !response.Data? <==> c.Unchanged?
    ensures c.Named? <==> response.Data? && response.value.roleId != "" && response.value.roleName.Some?
    ensures c.Named? ==> c.name == response.value.roleName.value
  {
    match response
    case Data(user) => if user.roleId != "" && user.roleName.Some? then Named(user.roleName.value) else Unassigned
    case _ => Unchanged
  }

  /** The role after a check response. */
  function RoleAfter(c: RoleCheck, role: string): (r: string)
    ensures c.Unchanged? ==> r == role
    ensures c.Named? ==> r == c.name
    ensures c.Unassigned? ==> r == ""
  {
    match c
    case Unchanged => role
    case Named(n) => n
    case Unassigned => ""
  }

  /** The role cache after a check response: only a named role is stored. */
  function CacheAfter(c: RoleCheck, cache: map<string, RoleEntry>, key: string, now: int): (m: map<string, RoleEntry>)
    ensures c.Named? ==> m == WithRole(cache, key, c.name, now)
    ensures !c.Named? ==> m == cache
  {
    if c.Named? then WithRole(cache, key, c.name, now) else cache
  }

  /**
   * useAdminCheck. The loading flag is released by timers (one second after
   * a cache hit, two seconds after the request); `pendingTimers` counts the
   * scheduled ones and FireLoadingTimer is one of them firing.
   */
  class AdminCheck {
    const telegramId: Option<int>
    var dbRole: string
    var loading: bool
    var pendingTimers: nat

    constructor(telegramId: Option<int>)
      ensures this.telegramId == telegramId && dbRole == "" && loading && pendingTimers == 0
    {
      this.telegramId := telegramId;
      dbRole := "";
      loading := true;
      pendingTimers := 0;
    }

    function IsAdmin(): bool
      reads this
    {
      IsAdminFor(telegramId, dbRole)
    }

    function HasContentAccess(): bool
      reads this
    {
      ContentAccessFor(telegramId, dbRole)
    }

    /** The mount effect fetchUserRole: cache first, then GET /users/check/:id. */
    method FetchUserRole(cache: UserRoleCacheManager, response: Response<CheckedUser>, now: int)
      modifies this, cache
      ensures !HasId(telegramId) ==> (
        && !loading && dbRole == old(dbRole) && cache.cache == old(cache.cache)
        && pendingTimers == old(pendingTimers) + 1)
      ensures HasId(telegramId) ==>
        var key := IdKey(telegramId.value);
        var cached := Lookup(old(cache.cache), key, now);
        && loading == old(loading)
        && (cached.Some? ==> (
             && dbRole == cached.value && cache.cache == AfterLookup(old(cache.cache), key, now)
             && pendingTimers == old(pendingTimers) + 2))
        && (cached.None? ==> (
             && dbRole == RoleAfter(Classify(response), old(dbRole))
             && cache.cache == CacheAfter(Classify(response), AfterLookup(old(cache.cache), key, now), key, now)
             && pendingTimers == old(pendingTimers) + 1))
    {
      if !HasId(telegramId) {
        loading := false;
        pendingTimers := pendingTimers + 1;
        return;
      }
      var key := IdKey(telegramId.value);
      var cached := cache.GetRole(key, now);
      if cached.Some? {
        dbRole := cached.value;
        // the one-second timer, and the two-second one of the finally block
        pendingTimers := pendingTimers + 2;
        return;
      }
      var c := Classify(response);
      if c.Named? {
        cache.SetRole(key, c.name, now);
      }
      dbRole := RoleAfter(c, dbRole);
      pendingTimers := pendingTimers + 1;
    }

    /** refreshRole: drop the cached role, then ask the server again. */
    method RefreshRole(cache: UserRoleCacheManager, response: Response<CheckedUser>, now: int)
      modifies this, cache
      ensures !HasId(telegramId) ==> unchanged(this) && unchanged(cache)
      ensures HasId(telegramId) ==>
        var key := IdKey(telegramId.value);
        && loading
        && dbRole == RoleAfter(Classify(response), old(dbRole))
        && cache.cache == CacheAfter(Classify(response), old(cache.cache) - {key}, key, now)
        && pendingTimers == old(pendingTimers) + 1
      ensures HasId(telegramId) && !Classify(response).Named? ==> Lookup(cache.cache, IdKey(telegramId.value), now).None?
    {
      if !HasId(telegramId) {
        return;
      }
      var key := IdKey(telegramId.value);
      cache.ClearRole(key);
      loading := true;
      var c := Classify(response);
      if c.Named? {
        cache.SetRole(key, c.name, now);
      }
      dbRole := RoleAfter(c, dbRole);
      pendingTimers := pendingTimers + 1;
    }

    method FireLoadingTimer()
      requires pendingTimers > 0
      modifies this`loading, this`pendingTimers
      ensures !loading && pendingTimers == old(pendingTimers) - 1
    {
      loading := false;
      pendingTimers := pendingTimers - 1;
    }
  }
}

module UserRoleHook {
  import opened Wrappers
  import opened Text
  import opened Api
  import opened UserRoleCache
  import opened AdminAccess

  /** hasRole: `!loading && (non-blank role) || (admin role)`, as JavaScript groups it. */
  predicate HasRoleFor(loading: bool, role: string)
  {
    (!loading && Truthy(role) && Trim(role) != []) || IsAdminRole(role)
  }

  /** The admin role counts even while loading. */
  lemma AdminRoleWhileLoading(role: string)
    requires IsAdminRole(role)
    ensures HasRoleFor(true, role) && HasRoleFor(false, role)
  {
  }

  /** Any other role counts only once loaded and only when non-blank. */
  lemma OtherRoleNeedsLoading(loading: bool, role: string)
    requires !IsAdminRole(role)
    ensures HasRoleFor(loading, role) <==> !loading && !IsBlank(role)
  {
  }

  class UserRole {
    const telegramId: Option<int>
    var userRole: string
    var loading: bool
    var error: Option<string>

    constructor(telegramId: Option<int>)
      ensures this.telegramId == telegramId && userRole == "" && loading && error.None?
    {
      this.telegramId := telegramId;
      userRole := "";
      loading := true;
      error := None;
    }

    function HasRole(): bool
      reads this
    {
      HasRoleFor(loading, userRole)
    }

    /** fetchUserRole: cache first, then GET /users/check/:id; an error leaves the role as it was. */
    method FetchUserRole(cache: UserRoleCacheManager, response: Response<CheckedUser>, now: int)
      modifies this, cache
      ensures !loading
      ensures !HasId(telegramId) ==> userRole == old(userRole) && error.None? && cache.cache == old(cache.cache)
      ensures HasId(telegramId) ==>
        var key := IdKey(telegramId.value);
        var cached := Lookup(old(cache.cache), key, now);
        && (cached.Some? ==> (
             && userRole == cached.value && error.None? && cache.cache == AfterLookup(old(cache.cache), key, now)))
        && (cached.None? && response.Failed? ==> (
             && userRole == old(userRole) && error == Some(response.message)
             && cache.cache == AfterLookup(old(cache.cache), key, now)))
        && (cached.None? && !response.Failed? ==> (
             && userRole == RoleAfter(Classify(response), old(userRole)) && error.None?
             && cache.cache == CacheAfter(Classify(response), AfterLookup(old(cache.cache), key, now), key, now)))
    {
      loading := true;
      error := None;
      if !HasId(telegramId) {
        loading := false;
        return;
      }
      var key := IdKey(telegramId.value);
      var cached := cache.GetRole(key, now);
      if cached.Some? {
        userRole := cached.value;
        loading := false;
        return;
      }
      if response.Failed? {
        error := Some(response.message);
      } else {
        var c := Classify(response);
        if c.Named? {
          cache.SetRole(key, c.name, now);
        }
        userRole := RoleAfter(c, userRole);
      }
      loading := false;
    }

    /** refreshRole: drop the cached role, then fetch again, which then always asks the server. */
    method RefreshRole(cache: UserRoleCacheManager, response: Response<CheckedUser>, now: int)
      modifies this, cache
      ensures !HasId(telegramId) ==> unchanged(this) && unchanged(cache)
      ensures HasId(telegramId) ==>
        var key := IdKey(telegramId.value);
        && !loading
        && (response.Failed? ==> userRole == old(userRole) && error == Some(response.message)
                                 && cache.cache == old(cache.cache) - {key})
        && (!response.Failed? ==> userRole == RoleAfter(Classify(response), old(userRole)) && error.None?
                                  && cache.cache == CacheAfter(Classify(response), old(cache.cache) - {key}, key, now))
    {
      if !HasId(telegramId) {
        return;
      }
      var key := IdKey(telegramId.value);
      cache.ClearRole(key);
      assert AfterLookup(cache.cache, key, now) == cache.cache;
      FetchUserRole(cache, response, now);
    }
  }
}

module MainButtons {
  import opened Wrappers
  import opened Text
  import opened AdminAccess

  datatype Flags = Flags(showAdmin: bool, showEducation: bool)

  /** The flags from the cached role alone, shown before the role check finishes. */
  function CachedFlags(id: int, cachedRole: Option<string>): (f: Flags)
    ensures f.showAdmin <==> id in AdminTelegramIds || (cachedRole.Some? && IsAdminRole(cachedRole.value))
    ensures f.showEducation <==> cachedRole.Some? && !IsBlank(cachedRole.value)
  {
    var hasAdminRole := cachedRole.Some? && IsAdminRole(cachedRole.value);
    assert hasAdminRole ==> !IsBlank(cachedRole.value) by {
      if hasAdminRole {
        AdminRoleNotBlank(cachedRole.value);
      }
    }
    Flags(id in AdminTelegramIds || hasAdminRole,
          (cachedRole.Some? && Truthy(cachedRole.value) && Trim(cachedRole.value) != []) || hasAdminRole)
  }

  /**
   * The effect of the main screen. None leaves both flags as they were (no
   * Telegram user); once loading is over the hook's answers override the
   * cache-based ones.
   */
  function Effect(id: Option<int>, cachedRole: Option<string>, isAdmin: bool, hasContentAccess: bool,
                  loading: bool): (r: Option<Flags>)
    ensures !HasId(id) <==> r.None?
    ensures HasId(id) && loading ==> r == Some(CachedFlags(id.value, cachedRole))
    ensures HasId(id) && !loading ==> r == Some(Flags(isAdmin, hasContentAccess))
  {
    if !HasId(id) then None
    else
      var early := CachedFlags(id.value, cachedRole);
      if !loading then Some(Flags(isAdmin, hasContentAccess)) else Some(early)
  }

  /**
   * When the hook has loaded the same role that is cached, the override does
   * not change what the buttons show.
   */
  lemma OverrideAgreesWithCache(id: int, role: string)
    requires id != 0
    ensures Effect(Some(id), Some(role), IsAdminFor(Some(id), role), ContentAccessFor(Some(id), role), false)
         == Effect(Some(id), Some(role), IsAdminFor(Some(id), role), ContentAccessFor(Some(id), role), true)
  {
    ContentAccessIsNonBlankRole(Some(id), role);
  }
}

module RouteGuard {
  import opened Wrappers
  import opened AdminAccess

  /** What ProtectedRoute renders; the denial screen shows the id panel or not. */
  datatype View = Children | Nothing | Denied(idPanel: bool)

  function Guard(isAdmin: bool, loading: bool, adminOnly: bool, currentUserId: Option<int>): (v: View)
    ensures v.Children? <==> isAdmin || (!loading && !adminOnly)
    ensures v.Nothing? <==> !isAdmin && loading
    ensures v.Denied? <==> !isAdmin && !loading && adminOnly
    ensures v.Denied? ==> (v.idPanel <==> HasId(currentUserId))
  {
    if isAdmin then Children
    else if loading then Nothing
    else if adminOnly && !isAdmin then Denied(HasId(currentUserId))
    else Children
  }

  /** An id in the admin list passes the guard whatever its role and loading state. */
  lemma AdminIdNeverDenied(id: int, dbRole: string, loading: bool, adminOnly: bool)
    requires id in AdminTelegramIds
    ensures Guard(IsAdminFor(Some(id), dbRole), loading, adminOnly, Some(id)) == Children
  {
  }
}
