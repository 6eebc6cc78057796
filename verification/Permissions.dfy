/**
 Roles carrying permissions, and the read-through cache of what each user may do.

 Rows of permissions and roles can be deleted, so the tables are maps and the
 counters give fresh ids.  The join rows of a role and of a user are kept with
 the role and the user.  `cache` holds the `perm:*` keys, and `fills` what lookups
 that missed have computed and not yet written back.
 */
module Permissions {
  import opened Base

  type PermissionId = nat
  type RoleId = nat
  type Code = string

  datatype Permission =
    Permission(code: Code, name: string, description: Option<string>, category: string, isSystem: bool)

  type Worker = nat

  datatype Fill = Fill(user: UserId, codes: set<Code>)

  datatype AccessRole = AccessRole(name: string, isSystem: bool, mirrors: Option<Role>, permissions: set<PermissionId>)

  datatype Account = Account(role: Role, deleted: bool)

  datatype Db = Db(
    permissions: map<PermissionId, Permission>, nextPermission: PermissionId,
    roles: map<RoleId, AccessRole>, nextRole: RoleId,
    accounts: map<UserId, Account>, granted: map<UserId, set<RoleId>>, cache: map<UserId, set<Code>>,
    fills: map<Worker, Fill>)

  datatype Error =
    | PERMISSION_CODE_TAKEN | PERMISSION_IS_SYSTEM | PERMISSION_NOT_FOUND | ROLE_NAME_TAKEN
    | ROLE_IS_SYSTEM | ROLE_IN_USE | ROLE_NOT_FOUND | NOT_FOUND | CONSTRAINT | UNAUTHORIZED

  datatype Outcome = Done | Codes(codes: set<Code>) | Refused(error: Error)

  datatype Event =
    | CreatePermission(code: Code, name: string, description: Option<string>, category: string)
    | UpdatePermission(
        permission: PermissionId, newText: Option<string>, newDescription: Option<string>, newCategory: Option<string>)
    | DeletePermission(permission: PermissionId)
    | CreateRole(name: string, ids: seq<PermissionId>)
    | UpdateRole(role: RoleId, newName: Option<string>, newIds: Option<seq<PermissionId>>)
    | DeleteRole(role: RoleId)
    | AssignUserRoles(user: UserId, roles: seq<RoleId>)
    | LookUp(worker: Worker, user: UserId)
    | WriteBack(worker: Worker)
    | ExpireKey(user: UserId)
    | AddUser(user: UserId, account: Role)
    | RemoveUser(user: UserId)
    | ChangeAccountType(user: UserId, account: Role)

  // -- what a user may do ----------------------------------------------------

  /** The explicit assignment rows of a user. */
  function RolesOf(db: Db, user: UserId): set<RoleId> {
    if user in db.granted then db.granted[user] else {}
  }

  function CodesOf(permissions: map<PermissionId, Permission>, roles: map<RoleId, AccessRole>, rs: set<RoleId>): set<Code> {
    set r, p | r in rs && r in roles && p in roles[r].permissions && p in permissions :: permissions[p].code
  }

  /** The role that mirrors an account type. */
  function Mirroring(roles: map<RoleId, AccessRole>, account: Role): set<RoleId> {
    set r | r in roles && roles[r].mirrors == Some(account)
  }

  /** The uncached computation: explicit roles, failing that the mirrored system role. */
  function Effective(db: Db, user: UserId, account: Role): set<Code> {
    var rs := if RolesOf(db, user) != {} then RolesOf(db, user) else Mirroring(db.roles, account);
    CodesOf(db.permissions, db.roles, rs)
  }

  // -- steps -----------------------------------------------------------------

  function InvalidateAll(db: Db): Db {
    db.(cache := map[])
  }

  function CreatePermissionStep(
    db: Db, code: Code, name: string, description: Option<string>, category: string): (Db, Outcome)
  {
    if exists p :: p in db.permissions && db.permissions[p].code == code then (db, Refused(PERMISSION_CODE_TAKEN))
    else
      (db.(permissions := db.permissions[db.nextPermission := Permission(code, name, description, category, false)],
           nextPermission := db.nextPermission + 1),
       Done)
  }

  function Or<T>(given: Option<T>, otherwise: T): T {
    if given.Some? then given.value else otherwise
  }

  /** What is given is replaced; the code is not among the fields that can be. */
  function UpdatePermissionStep(
    db: Db, p: PermissionId, name: Option<string>, description: Option<string>, category: Option<string>): (Db, Outcome)
  {
    if p !in db.permissions then (db, Refused(NOT_FOUND))
    else
      var row := db.permissions[p];
      var edited :=
        row.(name := Or(name, row.name), description := if description.Some? then description else row.description,
             category := Or(category, row.category));
      (db.(permissions := db.permissions[p := edited]), Done)
  }

  /** The join rows of a deleted permission go with it. */
  function WithoutPermission(roles: map<RoleId, AccessRole>, p: PermissionId): map<RoleId, AccessRole> {
    map r | r in roles :: roles[r].(permissions := roles[r].permissions - {p})
  }

  function DeletePermissionStep(db: Db, p: PermissionId): (Db, Outcome) {
    if p !in db.permissions then (db, Refused(NOT_FOUND))
    else if db.permissions[p].isSystem then (db, Refused(PERMISSION_IS_SYSTEM))
    else
      (InvalidateAll(db.(permissions := db.permissions - {p}, roles := WithoutPermission(db.roles, p))), Done)
  }

  function IdSet(ids: seq<nat>): set<nat> {
    set i | i in ids
  }

  predicate NameTaken(roles: map<RoleId, AccessRole>, name: string, but: Option<RoleId>) {
    exists r :: r in roles && Some(r) != but && roles[r].name == name
  }

  /** The ids of a new role are written one row each, so a repeated one breaks the key. */
  function CreateRoleStep(db: Db, name: string, ids: seq<PermissionId>): (Db, Outcome) {
    if NameTaken(db.roles, name, None) then (db, Refused(ROLE_NAME_TAKEN))
    else if !(IdSet(ids) <= db.permissions.Keys) then (db, Refused(PERMISSION_NOT_FOUND))
    else if |IdSet(ids)| != |ids| then (db, Refused(CONSTRAINT))
    else
      (db.(roles := db.roles[db.nextRole := AccessRole(name, false, None, IdSet(ids))], nextRole := db.nextRole + 1), Done)
  }

  /** Here a repeated id is skipped. */
  function UpdateRoleStep(
    db: Db, r: RoleId, newName: Option<string>, newIds: Option<seq<PermissionId>>): (Db, Outcome)
  {
    if r !in db.roles then (db, Refused(NOT_FOUND))
    else
      var before := db.roles[r];
      if before.isSystem && newName.Some? && newName.value != before.name then (db, Refused(ROLE_IS_SYSTEM))
      else if newIds.Some? && !(IdSet(newIds.value) <= db.permissions.Keys) then (db, Refused(PERMISSION_NOT_FOUND))
      else if newName.Some? && NameTaken(db.roles, newName.value, Some(r)) then (db, Refused(CONSTRAINT))
      else
        var permissions := if newIds.Some? then IdSet(newIds.value) else before.permissions;
        var name := if newName.Some? then newName.value else before.name;
        (InvalidateAll(db.(roles := db.roles[r := before.(name := name, permissions := permissions)])), Done)
  }

  predicate InUse(db: Db, r: RoleId) {
    exists u :: u in db.granted && r in db.granted[u]
  }

  /** A role row deleted together with its join rows, whoever holds it. */
  function WithoutRole(db: Db, r: RoleId): Db {
    db.(roles := db.roles - {r}, granted := map u | u in db.granted :: db.granted[u] - {r})
  }

  function DeleteRoleStep(db: Db, r: RoleId): (Db, Outcome) {
    if r !in db.roles then (db, Refused(NOT_FOUND))
    else if db.roles[r].isSystem then (db, Refused(ROLE_IS_SYSTEM))
    else if InUse(db, r) then (db, Refused(ROLE_IN_USE))
    else (InvalidateAll(WithoutRole(db, r)), Done)
  }

  function AssignUserRolesStep(db: Db, user: UserId, roles: seq<RoleId>): (Db, Outcome) {
    if user !in db.accounts || db.accounts[user].deleted then (db, Refused(NOT_FOUND))
    else if !(IdSet(roles) <= db.roles.Keys) then (db, Refused(ROLE_NOT_FOUND))
    else (db.(granted := db.granted[user := IdSet(roles)], cache := db.cache - {user}), Done)
  }

  /** Read-through: a hit is served as it is, a miss is computed; the caller names the account type. */
  function LookUpStep(db: Db, w: Worker, user: UserId, account: Role): (Db, Outcome) {
    if user in db.cache then (db, Codes(db.cache[user]))
    else
      var codes := Effective(db, user, account);
      (db.(fills := db.fills[w := Fill(user, codes)]), Codes(codes))
  }

  /** The write-back of a miss, which nothing waits for. */
  function WriteBackStep(db: Db, w: Worker): (Db, Outcome) {
    if w !in db.fills then (db, Refused(NOT_FOUND))
    else (db.(cache := db.cache[db.fills[w].user := db.fills[w].codes], fills := db.fills - {w}), Done)
  }

  /** Behind the sign-in check the account exists and the type named is the one stored. */
  function SignedInLookUpStep(db: Db, w: Worker, user: UserId): (Db, Outcome) {
    if user !in db.accounts || db.accounts[user].deleted then (db, Refused(UNAUTHORIZED))
    else LookUpStep(db, w, user, db.accounts[user].role)
  }

  function AddUserStep(db: Db, user: UserId, account: Role): (Db, Outcome) {
    if user in db.accounts then (db, Refused(CONSTRAINT))
    else (db.(accounts := db.accounts[user := Account(account, false)]), Done)
  }

  function RemoveUserStep(db: Db, user: UserId): (Db, Outcome) {
    if user !in db.accounts then (db, Refused(NOT_FOUND))
    else (db.(accounts := db.accounts[user := db.accounts[user].(deleted := true)]), Done)
  }

  /** `updateRole` of the user screen; it leaves the cached permissions alone. */
  function ChangeAccountTypeStep(db: Db, user: UserId, account: Role): (Db, Outcome) {
    if user !in db.accounts then (db, Refused(NOT_FOUND))
    else (db.(accounts := db.accounts[user := db.accounts[user].(role := account)]), Done)
  }

  function Step(db: Db, e: Event): (Db, Outcome) {
    match e
    case CreatePermission(code, name, description, category) =>
      CreatePermissionStep(db, code, name, description, category)
    case UpdatePermission(p, name, description, category) => UpdatePermissionStep(db, p, name, description, category)
    case DeletePermission(p) => DeletePermissionStep(db, p)
    case CreateRole(name, ids) => CreateRoleStep(db, name, ids)
    case UpdateRole(r, name, ids) => UpdateRoleStep(db, r, name, ids)
    case DeleteRole(r) => DeleteRoleStep(db, r)
    case AssignUserRoles(user, roles) => AssignUserRolesStep(db, user, roles)
    case LookUp(w, user) => SignedInLookUpStep(db, w, user)
    case WriteBack(w) => WriteBackStep(db, w)
    case ExpireKey(user) => (db.(cache := db.cache - {user}), Done)
    case AddUser(user, account) => AddUserStep(db, user, account)
    case RemoveUser(user) => RemoveUserStep(db, user)
    case ChangeAccountType(user, account) => ChangeAccountTypeStep(db, user, account)
  }

  function Run(db: Db, events: seq<Event>): Db {
    if events == [] then db else Step(Run(db, events[..|events| - 1]), events[|events| - 1]).0
  }
}
