// The admin endpoints' guards: the admin gate in front of every admin route,
// the users page range, role creation, deletion and assignment, and the
// tariff price update.

module AdminApi {
  import opened Wrappers
  import opened Text

  datatype HttpError = HttpError(code: int, message: string)

  // ---------------------------------------------------------------------
  // Admin gate

  /** What the users lookup by telegram id with `roles(name)` returns. */
  datatype AdminLookup = LookupError | NoUser | UserRow(roleName: Option<string>)

  /** checkIfUserIsAdmin: only a user whose role is exactly 'admin'. */
  function IsAdminInStore(lookup: AdminLookup): (b: bool)
    ensures b <==> lookup == UserRow(Some("admin"))
  {
    match lookup
    case UserRow(Some(name)) => name == "admin"
    case _ => false
  }

  datatype Gate = Unauthorized | Forbidden | Proceed

  /**
   * checkAdminAccess. The id comes from the x-telegram-id header, or from
   * the telegram_id query parameter when the header is missing or empty;
   * `lookup` is what checkIfUserIsAdmin finds for parseInt of that id.
   */
  function AdminGate(header: string, query: string, lookup: AdminLookup): (g: Gate)
    ensures g == Unauthorized <==> header == "" && query == ""
    ensures g == Proceed <==> (header != "" || query != "") && lookup == UserRow(Some("admin"))
  {
    var telegramId := if header != "" then header else query;
    if telegramId == "" then Unauthorized
    else if !IsAdminInStore(lookup) then Forbidden
    else Proceed
  }

  // ---------------------------------------------------------------------
  // Users page

  /** `parseInt(q) || d`: NaN and 0 fall back to the default. */
  function OrDefault(q: Option<int>, d: int): (v: int)
    ensures v != 0 || d == 0
    ensures q.Some? && q.value != 0 ==> v == q.value
    ensures q.None? || q.value == 0 ==> v == d
  {
    match q
    case Some(n) => if n == 0 then d else n
    case None => d
  }

  /** The inclusive row range `range(offset, offset + limit - 1)` of one users page. */
  function PageRange(limit: Option<int>, offset: Option<int>): (r: (int, int))
    ensures r.0 == OrDefault(offset, 0)
    ensures r.1 - r.0 + 1 == OrDefault(limit, 10)
  {
    var l := OrDefault(limit, 10);
    var o := OrDefault(offset, 0);
    (o, o + l - 1)
  }

  /** Without parameters the first ten rows are served. */
  lemma DefaultPage()
    ensures PageRange(None, None) == (0, 9)
    ensures PageRange(Some(0), Some(0)) == (0, 9)
  {
  }

  /** Pages requested at offset o and o + limit are adjacent: nothing is skipped or served twice. */
  lemma PagesTile(limit: int, offset: int)
    requires limit > 0 && offset >= 0
    ensures PageRange(Some(limit), Some(offset)).1 + 1 == PageRange(Some(limit), Some(offset + limit)).0
  {
  }

  // ---------------------------------------------------------------------
  // Roles

  datatype RoleRow = RoleRow(name: string, description: Option<string>, color: string)

  const DefaultRoleColor: string := "#28a745"

  /** The stored form of a role name: trimmed and lower-cased. */
  function NormalizeRoleName(name: string): (n: string)
    ensures |n| <= |name|
    ensures n == [] <==> IsBlank(name)
    ensures |n| == |Trim(name)| && forall i :: 0 <= i < |n| ==> n[i] == LowerChar(Trim(name)[i])
    ensures n != [] ==> !IsSpace(n[0]) && !IsSpace(n[|n| - 1])
    ensures forall i :: 0 <= i < |n| ==> LowerChar(n[i]) == n[i]
  {
    var t := Trim(name);
    if t == [] then [] else
      LowerKeepsSpace(t[0]);
      LowerKeepsSpace(t[|t| - 1]);
      ToLowerIsLower(t);
      ToLower(t)
  }

  /** The role-creation endpoint's validation and the row it inserts. A missing field is "". */
  function NewRole(name: string, description: string, color: string): (r: Result<RoleRow, HttpError>)
    ensures r.Err? <==> IsBlank(name)
    ensures r.Err? ==> r.error.code == 400
    ensures r.Ok? ==> r.value.name == NormalizeRoleName(name) && r.value.name != []
    ensures r.Ok? ==> r.value.description == (if description == "" then None else Some(description))
    ensures r.Ok? ==> r.value.color == (if color == "" then DefaultRoleColor else color)
  {
    if name == "" || Trim(name) == [] then
      Err(HttpError(400, "Role name is required and must be a non-empty string"))
    else
      Ok(RoleRow(NormalizeRoleName(name), if description == "" then None else Some(description),
                 if color == "" then DefaultRoleColor else color))
  }

  /** The response to a failed role insert: a unique violation is the client's fault. */
  function InsertRoleError(code: string): (e: HttpError)
    ensures e.code == 400 <==> code == "23505"
    ensures e.code == 400 || e.code == 500
  {
    if code == "23505" then HttpError(400, "Роль с таким названием уже существует")
    else HttpError(500, "Failed to create role")
  }

  lemma LowerKeepsSpace(c: char)
    ensures IsSpace(LowerChar(c)) <==> IsSpace(c)
  {
  }

  lemma LowerIdempotent(c: char)
    ensures LowerChar(LowerChar(c)) == LowerChar(c)
  {
  }

  /** A lower-cased string is its own lower case. */
  lemma ToLowerIsLower(s: string)
    ensures forall i :: 0 <= i < |s| ==> LowerChar(ToLower(s)[i]) == ToLower(s)[i]
  {
    forall i | 0 <= i < |s| ensures LowerChar(ToLower(s)[i]) == ToLower(s)[i] {
      LowerIdempotent(s[i]);
    }
  }

  lemma {:induction false} TrimOfTrimmed(s: string)
    requires s == [] || (!IsSpace(s[0]) && !IsSpace(s[|s| - 1]))
    ensures Trim(s) == s
  {
    if s != [] {
      assert LeadingSpaces(s) == 0;
      assert ContentEnd(s) == |s|;
    }
  }

  /** Normalising twice gives the same name, so a stored name is its own normal form. */
  lemma {:induction false} NormalizeIdempotent(name: string)
    ensures NormalizeRoleName(NormalizeRoleName(name)) == NormalizeRoleName(name)
  {
    var t := Trim(name);
    var n := ToLower(t);
    if n != [] {
      LowerKeepsSpace(t[0]);
      LowerKeepsSpace(t[|t| - 1]);
    }
    TrimOfTrimmed(n);
    assert Trim(n) == n;
    forall i | 0 <= i < |n| ensures LowerChar(n[i]) == n[i] {
      assert n[i] == LowerChar(t[i]);
    }
    assert ToLower(n) == n;
  }

  /** Names that differ only in surrounding spaces or letter case are stored as the same role. */
  lemma CaseAndSpacesCollide()
    ensures NormalizeRoleName(" Admin ") == NormalizeRoleName("admin") == "admin"
  {
    assert LeadingSpaces(" Admin ") == 1;
    assert ContentEnd(" Admin ") == 6;
    assert Trim(" Admin ") == "Admin";
    assert LeadingSpaces("admin") == 0;
    assert ContentEnd("admin") == 5;
    assert Trim("admin") == "admin";
    LowersToAdmin("Admin");
    LowersToAdmin("admin");
  }

  /** One character at a time: both spellings lower-case to "admin". */
  lemma LowersToAdmin(s: string)
    requires s == "Admin" || s == "admin"
    ensures ToLower(s) == "admin"
  {
    assert LowerChar(s[0]) == 'a';
    assert LowerChar(s[1]) == 'd' && LowerChar(s[2]) == 'm' && LowerChar(s[3]) == 'i' && LowerChar(s[4]) == 'n';
  }

  /**
   * The delete-role endpoint. `usage` is the users query with limit 1 (None
   * when it fails); `deleteFails` stands for a store error on the delete.
   */
  function DeleteRoleDecision(roleId: string, usage: Option<seq<string>>, deleteFails: bool): (r: Result<(), HttpError>)
    ensures r.Ok? <==> roleId != "" && usage == Some([]) && !deleteFails
    ensures roleId != "" && usage.Some? && usage.value != [] ==> r == Err(HttpError(400, "Нельзя удалить роль, которая назначена пользователям"))
    ensures roleId == "" ==> r.Err? && r.error.code == 400
    ensures roleId != "" && usage.None? ==> r.Err? && r.error.code == 500
  {
    if roleId == "" then Err(HttpError(400, "Role ID is required"))
    else match usage
      case None => Err(HttpError(500, "Failed to check role usage"))
      case Some(users) =>
        if |users| > 0 then Err(HttpError(400, "Нельзя удалить роль, которая назначена пользователям"))
        else if deleteFails then Err(HttpError(500, "Failed to delete role"))
        else Ok(())
  }

  /**
   * The update-user-role endpoint's choice of role_id. A missing roleId is
   * None; a non-blank one must name an existing role (`roleExists`), and a
   * blank one clears the user's role.
   */
  function RoleAssignment(roleId: Option<string>, roleExists: bool): (r: Result<Option<string>, HttpError>)
    ensures roleId.None? || IsBlank(roleId.value) ==> r == Ok(None)
    ensures roleId.Some? && !IsBlank(roleId.value) && !roleExists ==> r.Err? && r.error.code == 400
    ensures roleId.Some? && !IsBlank(roleId.value) && roleExists ==> r == Ok(roleId)
  {
    match roleId
    case None => Ok(None)
    case Some(id) =>
      if id != "" && Trim(id) != [] then
        if roleExists then Ok(Some(id)) else Err(HttpError(400, "Указанная роль не существует"))
      else Ok(None)
  }

  // ---------------------------------------------------------------------
  // Tariff prices

  /**
   * One element of the prices array. Missing strings are "", and
   * tariffIndex is None when it is not a number.
   */
  datatype PriceInput = PriceInput(tariffKey: string, title: string, price: string, originalPrice: string,
                                   description: string, tariffIndex: Option<int>)

  predicate PriceValid(p: PriceInput)
  {
    p.tariffKey != "" && p.title != "" && p.price != "" && p.originalPrice != ""
    && p.tariffIndex.Some? && p.tariffIndex.value >= 0
  }

  /** The validation loop, which answers 400 at the first invalid entry. */
  function ValidatePrices(prices: seq<PriceInput>): (e: Option<HttpError>)
    ensures e.None? <==> forall i :: 0 <= i < |prices| ==> PriceValid(prices[i])
    ensures e.Some? ==> e.value.code == 400
  {
    if |prices| == 0 then None
    else
      var p := prices[0];
      if p.tariffKey == "" || p.title == "" || p.price == "" || p.originalPrice == "" then
        Some(HttpError(400, "Each price must have tariff_key, title, price, and original_price"))
      else if p.tariffIndex.None? || p.tariffIndex.value < 0 then
        Some(HttpError(400, "tariff_index must be a non-negative number"))
      else
        assert forall i :: 1 <= i < |prices| ==> prices[i] == prices[1..][i - 1];
        ValidatePrices(prices[1..])
  }

  datatype TariffRow = TariffRow(tariffKey: string, title: string, price: string, originalPrice: string,
                                 description: Option<string>, updatedAt: int)

  /** The columns one update writes into the row with the entry's tariff_key. */
  function Updated(row: TariffRow, p: PriceInput, now: int): TariffRow
  {
    row.(title := p.title, price := p.price, originalPrice := p.originalPrice,
         description := if p.description == "" then None else Some(p.description), updatedAt := now)
  }

  /** The outcome of the update loop: the table, the rows it pushed, and whether it stopped on an error. */
  datatype PriceRun = PriceRun(table: map<string, TariffRow>, updated: seq<TariffRow>, failed: bool)

  /**
   * The position of a store error relative to the next entry: the loop moves
   * one entry on, so an error n entries ahead becomes n - 1 entries ahead.
   */
  function Later(failAt: Option<nat>): (r: Option<nat>)
    ensures failAt.Some? && failAt.value > 0 ==> r == Some(failAt.value - 1)
    ensures failAt.None? || failAt == Some(0) ==> r.None?
  {
    match failAt
    case Some(n) => if n == 0 then None else Some(n - 1)
    case None => None
  }

  /**
   * The update loop: each entry updates the row with its key. An unknown key,
   * or a store error on the entry at position failAt, stops it with an error
   * and leaves that entry's row unwritten.
   */
  function RunUpdates(table: map<string, TariffRow>, prices: seq<PriceInput>, now: int, failAt: Option<nat>): PriceRun
  {
    if |prices| == 0 then PriceRun(table, [], false)
    else
      var k := prices[0].tariffKey;
      if k !in table || failAt == Some(0) then PriceRun(table, [], true)
      else
        var t := table[k := Updated(table[k], prices[0], now)];
        var rest := RunUpdates(t, prices[1..], now, Later(failAt));
        PriceRun(rest.table, [t[k]] + rest.updated, rest.failed)
  }

  /** One step of the loop on a known key that the store accepts. */
  lemma RunStep(table: map<string, TariffRow>, prices: seq<PriceInput>, now: int, failAt: Option<nat>)
    requires |prices| > 0 && prices[0].tariffKey in table && failAt != Some(0)
    ensures var k := prices[0].tariffKey;
      var t := table[k := Updated(table[k], prices[0], now)];
      var rest := RunUpdates(t, prices[1..], now, Later(failAt));
      RunUpdates(table, prices, now, failAt) == PriceRun(rest.table, [t[k]] + rest.updated, rest.failed)
  {
  }

  /** The loop writes rows but never adds or removes one. */
  lemma {:induction false} RunKeepsKeys(table: map<string, TariffRow>, prices: seq<PriceInput>, now: int, failAt: Option<nat>)
    ensures RunUpdates(table, prices, now, failAt).table.Keys == table.Keys
    decreases |prices|
  {
    if |prices| > 0 && prices[0].tariffKey in table && failAt != Some(0) {
      var k := prices[0].tariffKey;
      RunKeepsKeys(table[k := Updated(table[k], prices[0], now)], prices[1..], now, Later(failAt));
    }
  }

  /** The loop fails exactly when some entry names a key the table lacks, or the store errors on one of the entries. */
  lemma {:induction false} RunFailsIffUnknownKey(table: map<string, TariffRow>, prices: seq<PriceInput>, now: int, failAt: Option<nat>)
    ensures RunUpdates(table, prices, now, failAt).failed <==>
      (exists i :: 0 <= i < |prices| && prices[i].tariffKey !in table) || (failAt.Some? && failAt.value < |prices|)
    decreases |prices|
  {
    if |prices| > 0 {
      var k := prices[0].tariffKey;
      if k in table && failAt != Some(0) {
        var t := table[k := Updated(table[k], prices[0], now)];
        RunFailsIffUnknownKey(t, prices[1..], now, Later(failAt));
        assert t.Keys == table.Keys;
        forall i | 1 <= i < |prices| ensures prices[i] == prices[1..][i - 1] {}
        if RunUpdates(table, prices, now, failAt).failed && !(failAt.Some? && failAt.value < |prices|) {
          var j :| 0 <= j < |prices[1..]| && prices[1..][j].tariffKey !in t;
          assert prices[j + 1].tariffKey !in table;
        }
      }
    }
  }

  /** Each row is stored under its own tariff_key. */
  predicate Keyed(table: map<string, TariffRow>)
  {
    forall k :: k in table ==> table[k].tariffKey == k
  }

  /** A complete run returns one row per entry, carrying that entry's key and new values. */
  lemma {:induction false} RunReturnsEntries(table: map<string, TariffRow>, prices: seq<PriceInput>, now: int, failAt: Option<nat>)
    requires Keyed(table)
    requires !RunUpdates(table, prices, now, failAt).failed
    ensures |RunUpdates(table, prices, now, failAt).updated| == |prices|
    ensures forall i :: 0 <= i < |prices| ==>
      RunUpdates(table, prices, now, failAt).updated[i] == Updated(RunUpdates(table, prices, now, failAt).updated[i], prices[i], now)
      && RunUpdates(table, prices, now, failAt).updated[i].tariffKey == prices[i].tariffKey
    decreases |prices|
  {
    if |prices| > 0 {
      var k := prices[0].tariffKey;
      var t := table[k := Updated(table[k], prices[0], now)];
      RunReturnsEntries(t, prices[1..], now, Later(failAt));
      var rest := RunUpdates(t, prices[1..], now, Later(failAt));
      var run := RunUpdates(table, prices, now, failAt);
      assert run.updated == [t[k]] + rest.updated;
      forall i | 0 <= i < |prices|
        ensures run.updated[i] == Updated(run.updated[i], prices[i], now)
        ensures run.updated[i].tariffKey == prices[i].tariffKey
      {
        if i > 0 {
          assert prices[i] == prices[1..][i - 1];
          assert run.updated[i] == rest.updated[i - 1];
        }
      }
    }
  }

  class TariffPriceTable {
    var rows: map<string, TariffRow>

    constructor(rows: map<string, TariffRow>)
      ensures this.rows == rows
    {
      this.rows := rows;
    }

    /**
     * The tariff-prices endpoint: validate every entry, then update them one
     * at a time. The updates are not atomic: the rows written before an
     * unknown key or a store error stay written. failAt is the position of
     * the entry whose update the store answers with an error, if any.
     */
    method UpdatePrices(prices: seq<PriceInput>, now: int, failAt: Option<nat>) returns (r: Result<seq<TariffRow>, HttpError>)
      modifies this
      ensures ValidatePrices(prices).Some? ==> r == Err(ValidatePrices(prices).value) && rows == old(rows)
      ensures ValidatePrices(prices).None? ==>
        && rows == RunUpdates(old(rows), prices, now, failAt).table
        && (r.Ok? <==> !RunUpdates(old(rows), prices, now, failAt).failed)
        && (r.Ok? ==> r.value == RunUpdates(old(rows), prices, now, failAt).updated)
        && (r.Err? ==> r.error == HttpError(500, "Failed to update tariff price"))
    {
      var invalid := ValidatePrices(prices);
      if invalid.Some? {
        return Err(invalid.value);
      }
      var updated: seq<TariffRow> := [];
      var i := 0;
      ghost var pending := failAt;
      ghost var run := RunUpdates(rows, prices, now, failAt);
      assert prices[0..] == prices;
      while i < |prices|
        invariant 0 <= i <= |prices|
        invariant failAt.Some? && failAt.value >= i ==> pending == Some(failAt.value - i)
        invariant !(failAt.Some? && failAt.value >= i) ==> pending.None?
        invariant RunUpdates(rows, prices[i..], now, pending).table == run.table
        invariant RunUpdates(rows, prices[i..], now, pending).failed == run.failed
        invariant updated + RunUpdates(rows, prices[i..], now, pending).updated == run.updated
      {
        var k := prices[i].tariffKey;
        assert prices[i..][0] == prices[i] && prices[i..][1..] == prices[i + 1..];
        if k !in rows || failAt == Some(i) {
          assert RunUpdates(rows, prices[i..], now, pending) == PriceRun(rows, [], true);
          return Err(HttpError(500, "Failed to update tariff price"));
        }
        RunStep(rows, prices[i..], now, pending);
        ghost var rest := RunUpdates(rows[k := Updated(rows[k], prices[i], now)], prices[i + 1..], now, Later(pending));
        rows := rows[k := Updated(rows[k], prices[i], now)];
        assert updated + [rows[k]] + rest.updated == updated + ([rows[k]] + rest.updated);
        updated := updated + [rows[k]];
        i := i + 1;
        pending := Later(pending);
      }
      assert RunUpdates(rows, prices[i..], now, pending) == PriceRun(rows, [], false);
      return Ok(updated);
    }
  }
}
