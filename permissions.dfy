/** The role-based permission decision of the backend (`checkUserPermission`):
    may user U perform the action named P in organization O?

    The two tables it reads are given as values. A table the data layer could
    not read is `Unreachable`, carrying the message of the error it raised. */
module Permissions {
  import opened Rows

  /** A value of the `AppPermissionName` enumeration (names only). */
  type PermissionName = string

  /** Records that a user holds a role within an organization. */
  datatype UserOrganizationRole = UserOrganizationRole(userId: int, organizationId: int, roleId: int)

  datatype Permission = Permission(permissionName: PermissionName)

  /** A role-to-permission association row, joined to the permission it names
      (the shape the lookup selects). */
  datatype OrganizationRolePermission = OrganizationRolePermission(roleId: int, permission: Permission)

  /** What a lookup against a table sees: its rows, or the data-access error. */
  datatype TableAccess<T> = Reachable(rows: seq<T>) | Unreachable(message: string)

  datatype AppErrorName = PRISMA_ERROR

  /** The application's typed error: a kind, a message, an HTTP status and
      whether the error is an expected ("operational") one. */
  datatype AppError = AppError(name: AppErrorName, message: string, statusCode: int, isOperational: bool)

  const PrismaErrorPrefix: string := "Error saving file to database: "

  /** The wrapping applied to any failure of either lookup. */
  function PrismaError(cause: string): AppError {
    AppError(PRISMA_ERROR, PrismaErrorPrefix + cause, 500, true)
  }

  /** The `where` of the role lookup: rows of this user in this organization. */
  function RoleOf(userId: int, organizationId: int): UserOrganizationRole -> bool {
    (row: UserOrganizationRole) => row.userId == userId && row.organizationId == organizationId
  }

  /** The `where` of the permission lookup: rows attached to this role. */
  function GrantOf(roleId: int): OrganizationRolePermission -> bool {
    (row: OrganizationRolePermission) => row.roleId == roleId
  }

  /** Whether some row names the required permission (the `.some` test). */
  function AnyGrantNamed(grants: seq<OrganizationRolePermission>, requiredPermission: PermissionName): (r: bool)
    ensures r <==> exists k :: 0 <= k < |grants| && grants[k].permission.permissionName == requiredPermission
  {
    if |grants| == 0 then false
    else grants[0].permission.permissionName == requiredPermission
         || AnyGrantNamed(grants[1..], requiredPermission)
  }

  /** Some row of `grants` attaches the permission named `requiredPermission`
      to `roleId`: the reference meaning of "the role grants it". */
  ghost predicate RoleGrants(grants: seq<OrganizationRolePermission>, roleId: int, requiredPermission: PermissionName) {
    exists k :: 0 <= k < |grants| && grants[k].roleId == roleId
                && grants[k].permission.permissionName == requiredPermission
  }

  /** The decision. The first role row of the user in the organization is
      looked up; without one access is denied. Otherwise access is granted
      exactly when a permission attached to that role has the required name.
      A failing lookup yields the wrapped error instead of a decision. */
  function CheckUserPermission(
    roles: TableAccess<UserOrganizationRole>,
    rolePermissions: TableAccess<OrganizationRolePermission>,
    userId: int, organizationId: int, requiredPermission: PermissionName): (r: Result<bool, AppError>)
    ensures roles.Unreachable? ==> r == Failure(AppError(PRISMA_ERROR, PrismaErrorPrefix + roles.message, 500, true))
    ensures r.Failure? ==> r.error.name == PRISMA_ERROR && r.error.statusCode == 500 && r.error.isOperational
    ensures r.Failure? <==>
              roles.Unreachable?
              || (FindFirst(roles.rows, RoleOf(userId, organizationId)).Some? && rolePermissions.Unreachable?)
  {
    match roles
    case Unreachable(cause) => Failure(PrismaError(cause))
    case Reachable(roleRows) =>
      match FindFirst(roleRows, RoleOf(userId, organizationId))
      case None => Success(false)
      case Some(i) =>
        match rolePermissions
        case Unreachable(cause) => Failure(PrismaError(cause))
        case Reachable(grantRows) =>
          Success(AnyGrantNamed(Where(grantRows, GrantOf(roleRows[i].roleId)), requiredPermission))
  }

  /** Fail closed: without a role row for the pair, every permission is denied
      without error, whatever the permission table holds or whether it can be
      read at all (it is never consulted). */
  lemma NoRoleDeniesEverything(
    roleRows: seq<UserOrganizationRole>, rolePermissions: TableAccess<OrganizationRolePermission>,
    userId: int, organizationId: int, requiredPermission: PermissionName)
    requires forall j :: 0 <= j < |roleRows| ==> !(roleRows[j].userId == userId && roleRows[j].organizationId == organizationId)
    ensures CheckUserPermission(Reachable(roleRows), rolePermissions, userId, organizationId, requiredPermission) == Success(false)
  {
    assert FindFirst(roleRows, RoleOf(userId, organizationId)).None?;
  }

  /** With the first role row of the pair at `i`, the decision is `true`
      exactly when some permission row for that row's role has the required name. */
  lemma GrantedIffRoleHasPermission(
    roleRows: seq<UserOrganizationRole>, grantRows: seq<OrganizationRolePermission>,
    userId: int, organizationId: int, requiredPermission: PermissionName, i: nat)
    requires i < |roleRows| && roleRows[i].userId == userId && roleRows[i].organizationId == organizationId
    requires forall j :: 0 <= j < i ==> !(roleRows[j].userId == userId && roleRows[j].organizationId == organizationId)
    ensures CheckUserPermission(Reachable(roleRows), Reachable(grantRows), userId, organizationId, requiredPermission)
            == Success(RoleGrants(grantRows, roleRows[i].roleId, requiredPermission))
  {
    var roleId := roleRows[i].roleId;
    var attached := Where(grantRows, GrantOf(roleId));
    if AnyGrantNamed(attached, requiredPermission) {
      var k :| 0 <= k < |attached| && attached[k].permission.permissionName == requiredPermission;
      assert attached[k] in grantRows && attached[k].roleId == roleId;
      var m :| 0 <= m < |grantRows| && grantRows[m] == attached[k];
      assert RoleGrants(grantRows, roleId, requiredPermission);
    }
    if RoleGrants(grantRows, roleId, requiredPermission) {
      var m :| 0 <= m < |grantRows| && grantRows[m].roleId == roleId
               && grantRows[m].permission.permissionName == requiredPermission;
      assert GrantOf(roleId)(grantRows[m]);
      assert grantRows[m] in attached;
      var k :| 0 <= k < |attached| && attached[k] == grantRows[m];
      assert AnyGrantNamed(attached, requiredPermission);
    }
  }

  /** Only the first role row of the pair is consulted: the decision is the one
      a table holding that row alone would give, so other roles the same user
      holds in the same organization never affect it. */
  lemma OnlyFirstRoleConsulted(
    roleRows: seq<UserOrganizationRole>, rolePermissions: TableAccess<OrganizationRolePermission>,
    userId: int, organizationId: int, requiredPermission: PermissionName, i: nat)
    requires i < |roleRows| && roleRows[i].userId == userId && roleRows[i].organizationId == organizationId
    requires forall j :: 0 <= j < i ==> !(roleRows[j].userId == userId && roleRows[j].organizationId == organizationId)
    ensures CheckUserPermission(Reachable(roleRows), rolePermissions, userId, organizationId, requiredPermission)
            == CheckUserPermission(Reachable([roleRows[i]]), rolePermissions, userId, organizationId, requiredPermission)
  {
    assert FindFirst([roleRows[i]], RoleOf(userId, organizationId)) == Some(0);
  }

  /** A role row of another user or another organization, inserted anywhere,
      never changes the decision. */
  lemma OtherMembershipsIgnored(
    front: seq<UserOrganizationRole>, other: UserOrganizationRole, back: seq<UserOrganizationRole>,
    rolePermissions: TableAccess<OrganizationRolePermission>,
    userId: int, organizationId: int, requiredPermission: PermissionName)
    requires other.userId != userId || other.organizationId != organizationId
    ensures CheckUserPermission(Reachable(front + [other] + back), rolePermissions, userId, organizationId, requiredPermission)
            == CheckUserPermission(Reachable(front + back), rolePermissions, userId, organizationId, requiredPermission)
  {
    FindFirstSkipsNonMatching(front, other, back, RoleOf(userId, organizationId));
  }

  /** A permission row attached to a role other than the resolved one,
      inserted anywhere, never changes the decision. */
  lemma OtherRolesGrantsIgnored(
    roleRows: seq<UserOrganizationRole>,
    front: seq<OrganizationRolePermission>, other: OrganizationRolePermission, back: seq<OrganizationRolePermission>,
    userId: int, organizationId: int, requiredPermission: PermissionName, i: nat)
    requires i < |roleRows| && roleRows[i].userId == userId && roleRows[i].organizationId == organizationId
    requires forall j :: 0 <= j < i ==> !(roleRows[j].userId == userId && roleRows[j].organizationId == organizationId)
    requires other.roleId != roleRows[i].roleId
    ensures CheckUserPermission(Reachable(roleRows), Reachable(front + [other] + back), userId, organizationId, requiredPermission)
            == CheckUserPermission(Reachable(roleRows), Reachable(front + back), userId, organizationId, requiredPermission)
  {
    var roleId := roleRows[i].roleId;
    var withOther, without := front + [other] + back, front + back;
    GrantedIffRoleHasPermission(roleRows, withOther, userId, organizationId, requiredPermission, i);
    GrantedIffRoleHasPermission(roleRows, without, userId, organizationId, requiredPermission, i);
    if RoleGrants(withOther, roleId, requiredPermission) {
      var m :| 0 <= m < |withOther| && withOther[m].roleId == roleId
               && withOther[m].permission.permissionName == requiredPermission;
      var n := if m < |front| then m else m - 1;
      assert without[n] == withOther[m];
    }
    if RoleGrants(without, roleId, requiredPermission) {
      var n :| 0 <= n < |without| && without[n].roleId == roleId
               && without[n].permission.permissionName == requiredPermission;
      var m := if n < |front| then n else n + 1;
      assert withOther[m] == without[n];
    }
  }

  /** Monotonicity in the permission table: when every row of `fewer` is also a
      row of `more`, a grant under `fewer` stays a grant under `more`, and a
      denial under `more` stays a denial under `fewer`. So adding a permission
      row never turns `true` into `false`, and removing one never turns `false`
      into `true`. */
  lemma MorePermissionRowsNeverRevoke(
    roleRows: seq<UserOrganizationRole>, fewer: seq<OrganizationRolePermission>, more: seq<OrganizationRolePermission>,
    userId: int, organizationId: int, requiredPermission: PermissionName)
    requires forall k :: 0 <= k < |fewer| ==> fewer[k] in more
    ensures CheckUserPermission(Reachable(roleRows), Reachable(fewer), userId, organizationId, requiredPermission) == Success(true)
            ==> CheckUserPermission(Reachable(roleRows), Reachable(more), userId, organizationId, requiredPermission) == Success(true)
    ensures CheckUserPermission(Reachable(roleRows), Reachable(more), userId, organizationId, requiredPermission) == Success(false)
            ==> CheckUserPermission(Reachable(roleRows), Reachable(fewer), userId, organizationId, requiredPermission) == Success(false)
  {
    match FindFirst(roleRows, RoleOf(userId, organizationId))
    case None =>
    case Some(i) =>
      var roleId := roleRows[i].roleId;
      GrantedIffRoleHasPermission(roleRows, fewer, userId, organizationId, requiredPermission, i);
      GrantedIffRoleHasPermission(roleRows, more, userId, organizationId, requiredPermission, i);
      if RoleGrants(fewer, roleId, requiredPermission) {
        var k :| 0 <= k < |fewer| && fewer[k].roleId == roleId
                 && fewer[k].permission.permissionName == requiredPermission;
        var m :| 0 <= m < |more| && more[m] == fewer[k];
        assert RoleGrants(more, roleId, requiredPermission);
      }
  }

  /** A failure of either lookup surfaces as the wrapped error carrying the
      original message; a failure of the permission lookup matters only once
      a role row was found. */
  lemma LookupFailuresAreWrapped(
    roleRows: seq<UserOrganizationRole>, rolePermissions: TableAccess<OrganizationRolePermission>, cause: string,
    userId: int, organizationId: int, requiredPermission: PermissionName)
    ensures CheckUserPermission(Unreachable(cause), rolePermissions, userId, organizationId, requiredPermission)
            == Failure(AppError(PRISMA_ERROR, "Error saving file to database: " + cause, 500, true))
    ensures CheckUserPermission(Reachable(roleRows), Unreachable(cause), userId, organizationId, requiredPermission)
            == if exists j :: 0 <= j < |roleRows| && roleRows[j].userId == userId && roleRows[j].organizationId == organizationId
               then Failure(AppError(PRISMA_ERROR, "Error saving file to database: " + cause, 500, true))
               else Success(false)
  {
    var p := RoleOf(userId, organizationId);
    if exists j :: 0 <= j < |roleRows| && roleRows[j].userId == userId && roleRows[j].organizationId == organizationId {
      var j :| 0 <= j < |roleRows| && roleRows[j].userId == userId && roleRows[j].organizationId == organizationId;
      assert p(roleRows[j]);
    }
  }

  /** A user holding two roles in one organization: only the first row's role
      is consulted, so a permission attached only to the second role is denied
      (the union of the two roles' permissions is not what is computed). */
  lemma SecondRoleNotConsulted()
    ensures CheckUserPermission(
              Reachable([UserOrganizationRole(1, 7, 10), UserOrganizationRole(1, 7, 20)]),
              Reachable([OrganizationRolePermission(20, Permission("EDIT_EVENT"))]),
              1, 7, "EDIT_EVENT") == Success(false)
  {
    var grants := [OrganizationRolePermission(20, Permission("EDIT_EVENT"))];
    assert Where(grants, GrantOf(10)) == [];
  }
}
