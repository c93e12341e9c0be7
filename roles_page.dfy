// The roles page (Roles.tsx): loading every role, refreshing, and the
// local list update after a role is created.

module RolesPage {
  import opened Wrappers
  import opened Text
  import opened Api

  datatype Role = Role(id: string, name: string, description: Option<string>, color: string)

  /** The create form, with the colour it starts from. */
  datatype RoleForm = RoleForm(name: string, description: string, color: string)

  const EmptyRoleForm: RoleForm := RoleForm("", "", "#28a745")

  function Ids(roles: seq<Role>): set<string>
  {
    set i | 0 <= i < |roles| :: roles[i].id
  }

  predicate DistinctIds(roles: seq<Role>)
  {
    forall i, j :: 0 <= i < j < |roles| ==> roles[i].id != roles[j].id
  }

  /** The update of `prev` after a create: append unless a role with the id is already listed. */
  function DedupeAppend(prev: seq<Role>, created: Role): (r: seq<Role>)
    ensures (exists i :: 0 <= i < |prev| && prev[i].id == created.id) ==> r == prev
    ensures (forall i :: 0 <= i < |prev| ==> prev[i].id != created.id) ==> r == prev + [created]
  {
    var existingIds := Ids(prev);
    if created.id in existingIds then prev else prev + [created]
  }

  /** The id-uniqueness of the list survives the update. */
  lemma DedupeKeepsIdsDistinct(prev: seq<Role>, created: Role)
    requires DistinctIds(prev)
    ensures DistinctIds(DedupeAppend(prev, created))
  {
  }

  /** A second delivery of the same created role changes nothing. */
  lemma DedupeIdempotent(prev: seq<Role>, created: Role)
    ensures DedupeAppend(DedupeAppend(prev, created), created) == DedupeAppend(prev, created)
  {
    var once := DedupeAppend(prev, created);
    if forall i :: 0 <= i < |prev| ==> prev[i].id != created.id {
      assert once[|prev|] == created;
    }
  }

  /** After the update the created id is listed, and every id listed before still is. */
  lemma DedupeListsCreated(prev: seq<Role>, created: Role)
    ensures Ids(DedupeAppend(prev, created)) == Ids(prev) + {created.id}
  {
    var r := DedupeAppend(prev, created);
    if created.id in Ids(prev) {
      assert r == prev;
    } else {
      assert r == prev + [created];
      assert r[|prev|] == created;
      forall x | x in Ids(r) ensures x in Ids(prev) + {created.id} {
        var i :| 0 <= i < |r| && r[i].id == x;
        if i < |prev| {
          assert r[i] == prev[i];
        }
      }
      forall x | x in Ids(prev) ensures x in Ids(r) {
        var i :| 0 <= i < |prev| && prev[i].id == x;
        assert r[i] == prev[i];
      }
    }
  }

  class Roles {
    var roles: seq<Role>
    var error: Option<string>
    var accessDenied: bool
    var rolesLoading: bool
    var createLoading: bool
    var showCreateForm: bool
    var form: RoleForm

    constructor()
      ensures roles == [] && error.None? && !accessDenied && !rolesLoading && !createLoading
      ensures !showCreateForm && form == EmptyRoleForm
    {
      roles := [];
      error := None;
      accessDenied := false;
      rolesLoading := false;
      createLoading := false;
      showCreateForm := false;
      form := EmptyRoleForm;
    }

    /** fetchAllRoles; `response` is GET /admin/roles?limit=1000&offset=0 with `roles || []` applied. */
    method FetchAllRoles(isAdmin: bool, hasTelegramId: bool, response: Response<seq<Role>>)
      modifies this`roles, this`error, this`accessDenied, this`rolesLoading
      ensures !rolesLoading
      ensures !isAdmin ==> accessDenied && error.None? && roles == old(roles)
      ensures isAdmin && !hasTelegramId ==> !accessDenied && error == Some("Telegram user ID не найден") && roles == old(roles)
      ensures isAdmin && hasTelegramId ==>
        match response
        case Failed(m) => accessDenied == IsAccessDenied(m) && error == (if IsAccessDenied(m) then None else Some(m))
                          && roles == old(roles)
        case NoData => !accessDenied && error.None? && roles == old(roles)
        case Data(all) => !accessDenied && error.None? && roles == all
    {
      rolesLoading := true;
      error := None;
      accessDenied := false;
      if !isAdmin {
        accessDenied := true;
        rolesLoading := false;
        return;
      }
      if !hasTelegramId {
        error := Some("Telegram user ID не найден");
        rolesLoading := false;
        return;
      }
      match response {
        case Failed(m) =>
          if IsAccessDenied(m) {
            accessDenied := true;
          } else {
            error := Some(m);
          }
        case NoData =>
        case Data(all) =>
          roles := all;
      }
      rolesLoading := false;
    }

    /** refreshRoles: empty the list, then fetch again. */
    method RefreshRoles(isAdmin: bool, hasTelegramId: bool, response: Response<seq<Role>>)
      modifies this`roles, this`error, this`accessDenied, this`rolesLoading
      ensures !rolesLoading
      ensures roles == (if isAdmin && hasTelegramId && response.Data? then response.value else [])
      ensures !isAdmin ==> accessDenied && error.None?
      ensures isAdmin && !hasTelegramId ==> !accessDenied && error == Some("Telegram user ID не найден")
      ensures isAdmin && hasTelegramId ==>
        match response
        case Failed(m) => accessDenied == IsAccessDenied(m) && error == (if IsAccessDenied(m) then None else Some(m))
        case _ => !accessDenied && error.None?
    {
      roles := [];
      FetchAllRoles(isAdmin, hasTelegramId, response);
    }

    /**
     * handleCreateRole. `created` is what POST /admin/roles returns; after a
     * success the page fetches the whole list again, answered by `refetch`.
     */
    method HandleCreateRole(created: Response<Role>, isAdmin: bool, hasTelegramId: bool, refetch: Response<seq<Role>>)
      modifies this
      ensures IsBlank(old(form.name)) ==> (
        && error == Some("Название роли обязательно") && roles == old(roles) && form == old(form)
        && createLoading == old(createLoading))
      ensures !IsBlank(old(form.name)) ==> !createLoading
      ensures !IsBlank(old(form.name)) && created.Failed? ==> error == Some(created.message) && roles == old(roles) && form == old(form)
      ensures !IsBlank(old(form.name)) && created.NoData? ==> error.None? && roles == old(roles) && form == old(form)
      ensures !IsBlank(old(form.name)) && created.Data? ==> (
        && form == EmptyRoleForm && !showCreateForm
        && roles == (if isAdmin && hasTelegramId && refetch.Data? then refetch.value
                     else DedupeAppend(old(roles), created.value))
        && !rolesLoading
        && (!isAdmin ==> accessDenied && error.None?)
        && (isAdmin && !hasTelegramId ==> !accessDenied && error == Some("Telegram user ID не найден"))
        && (isAdmin && hasTelegramId ==>
              match refetch
              case Failed(m) => accessDenied == IsAccessDenied(m) && error == (if IsAccessDenied(m) then None else Some(m))
              case _ => !accessDenied && error.None?))
      ensures !(!IsBlank(old(form.name)) && created.Data?) ==>
        accessDenied == old(accessDenied) && rolesLoading == old(rolesLoading) && showCreateForm == old(showCreateForm)
    {
      if Trim(form.name) == [] {
        error := Some("Название роли обязательно");
        return;
      }
      createLoading := true;
      error := None;
      match created {
        case Failed(m) =>
          error := Some(m);
        case NoData =>
        case Data(role) =>
          roles := DedupeAppend(roles, role);
          form := EmptyRoleForm;
          showCreateForm := false;
          FetchAllRoles(isAdmin, hasTelegramId, refetch);
      }
      createLoading := false;
    }
  }
}
