/** The access screens and the permission lookup as they run: rows are replaced, then keys are dropped. */
module PermissionService {
  import opened Base
  import opened Permissions
  import opened PermissionChanges
  import opened PermissionRuns

  /** The tables are sound, and a step on a right cache leaves it right if and only if it was harmless. */
  ghost predicate Kept(before: Db, after: Db, e: Event) {
    Sound(after) && (Inv(before) ==> (Inv(after) <==> Harmless(before, e)))
  }

  lemma Keeps(db: Db, e: Event)
    requires Sound(db)
    ensures Kept(db, Step(db, e).0, e)
  {
    StepSound(db, e);
    if Inv(db) { StepExact(db, e); }
  }

  class Service {
    var permissions: map<PermissionId, Permission>
    var nextPermission: PermissionId
    var roles: map<RoleId, AccessRole>
    var nextRole: RoleId
    var accounts: map<UserId, Account>
    var granted: map<UserId, set<RoleId>>
    var cache: map<UserId, set<Code>>
    var fills: map<Worker, Fill>

    function View(): Db
      reads this
    {
      Db(permissions, nextPermission, roles, nextRole, accounts, granted, cache, fills)
    }

    /** The tables are sound whatever is done to them. */
    ghost predicate Valid()
      reads this
    {
      Sound(View())
    }

    constructor (seeded: Db)
      requires Sound(seeded)
      ensures View() == seeded && Valid()
    {
      permissions, nextPermission, roles, nextRole :=
        seeded.permissions, seeded.nextPermission, seeded.roles, seeded.nextRole;
      accounts, granted, cache, fills := seeded.accounts, seeded.granted, seeded.cache, seeded.fills;
    }

    /** The lookup, up to its answer; what a miss has computed is written back later. */
    method GetUserPermissionCodes(worker: Worker, user: UserId, account: Role) returns (out: Outcome)
      modifies this`fills
      ensures (View(), out) == LookUpStep(old(View()), worker, user, account)
    {
      if user in cache { return Codes(cache[user]); }
      var codes := Compute(user, account);
      fills := fills[worker := Fill(user, codes)];
      out := Codes(codes);
    }

    method WriteBackFill(worker: Worker) returns (out: Outcome)
      requires Valid()
      modifies this`cache, this`fills
      ensures (View(), out) == WriteBackStep(old(View()), worker)
      ensures Valid() && Kept(old(View()), View(), WriteBack(worker))
    {
      ghost var before := View();
      Keeps(before, WriteBack(worker));
      out := SetKey(worker);
      assert View() == Step(before, WriteBack(worker)).0;
    }

    /** The key set. */
    method SetKey(worker: Worker) returns (out: Outcome)
      modifies this`cache, this`fills
      ensures (View(), out) == WriteBackStep(old(View()), worker)
    {
      if worker !in fills { return Refused(NOT_FOUND); }
      cache := cache[fills[worker].user := fills[worker].codes];
      fills := fills - {worker};
      out := Done;
    }

    /** Explicit roles first; the mirrored role is looked up only when there are none. */
    method Compute(user: UserId, account: Role) returns (codes: set<Code>)
      ensures codes == Effective(View(), user, account)
    {
      var held := if user in granted then granted[user] else {};
      if held != {} {
        codes := CodesOf(permissions, roles, held);
      } else {
        codes := CodesOf(permissions, roles, Mirroring(roles, account));
      }
    }

    method InvalidateUser(user: UserId)
      modifies this`cache
      ensures cache == old(cache) - {user}
    {
      cache := cache - {user};
    }

    method InvalidateEveryone()
      modifies this`cache
      ensures cache == map[]
    {
      cache := cache - cache.Keys;
    }

    method AddPermission(code: Code, name: string, description: Option<string>, category: string)
      returns (out: Outcome)
      requires Valid()
      modifies this`permissions, this`nextPermission
      ensures (View(), out) == CreatePermissionStep(old(View()), code, name, description, category)
      ensures Valid() && Kept(old(View()), View(), CreatePermission(code, name, description, category))
    {
      Keeps(View(), CreatePermission(code, name, description, category));
      if exists p :: p in permissions && permissions[p].code == code { return Refused(PERMISSION_CODE_TAKEN); }
      permissions := permissions[nextPermission := Permission(code, name, description, category, false)];
      nextPermission := nextPermission + 1;
      out := Done;
    }

    method EditPermission(p: PermissionId, name: Option<string>, description: Option<string>, category: Option<string>)
      returns (out: Outcome)
      requires Valid()
      modifies this`permissions
      ensures (View(), out) == UpdatePermissionStep(old(View()), p, name, description, category)
      ensures Valid() && Kept(old(View()), View(), UpdatePermission(p, name, description, category))
    {
      Keeps(View(), UpdatePermission(p, name, description, category));
      if p !in permissions { return Refused(NOT_FOUND); }
      var row := permissions[p];
      if name.Some? { row := row.(name := name.value); }
      if description.Some? { row := row.(description := description); }
      if category.Some? { row := row.(category := category.value); }
      permissions := permissions[p := row];
      out := Done;
    }

    method RemovePermission(p: PermissionId) returns (out: Outcome)
      requires Valid()
      modifies this`permissions, this`roles, this`cache
      ensures (View(), out) == DeletePermissionStep(old(View()), p)
      ensures Valid() && Kept(old(View()), View(), DeletePermission(p))
    {
      ghost var before := View();
      Keeps(before, DeletePermission(p));
      out := DropPermission(p);
      assert View() == Step(before, DeletePermission(p)).0;
    }

    /** The guard, the rows and the keys. */
    method DropPermission(p: PermissionId) returns (out: Outcome)
      modifies this`permissions, this`roles, this`cache
      ensures (View(), out) == DeletePermissionStep(old(View()), p)
    {
      if p !in permissions { return Refused(NOT_FOUND); }
      if permissions[p].isSystem { return Refused(PERMISSION_IS_SYSTEM); }
      permissions := permissions - {p};
      roles := WithoutPermission(roles, p);
      InvalidateEveryone();
      out := Done;
    }

    method AddRole(name: string, ids: seq<PermissionId>) returns (out: Outcome)
      requires Valid()
      modifies this`roles, this`nextRole
      ensures (View(), out) == CreateRoleStep(old(View()), name, ids)
      ensures Valid() && Kept(old(View()), View(), CreateRole(name, ids))
    {
      Keeps(View(), CreateRole(name, ids));
      if NameTaken(roles, name, None) { return Refused(ROLE_NAME_TAKEN); }
      if !(IdSet(ids) <= permissions.Keys) { return Refused(PERMISSION_NOT_FOUND); }
      if |IdSet(ids)| != |ids| { return Refused(CONSTRAINT); }
      roles := roles[nextRole := AccessRole(name, false, None, IdSet(ids))];
      nextRole := nextRole + 1;
      out := Done;
    }

    method ChangeRole(r: RoleId, newName: Option<string>, newIds: Option<seq<PermissionId>>) returns (out: Outcome)
      requires Valid()
      modifies this`roles, this`cache
      ensures (View(), out) == UpdateRoleStep(old(View()), r, newName, newIds)
      ensures Valid() && Kept(old(View()), View(), UpdateRole(r, newName, newIds))
    {
      ghost var before := View();
      Keeps(before, UpdateRole(r, newName, newIds));
      out := ReplaceRole(r, newName, newIds);
      assert View() == Step(before, UpdateRole(r, newName, newIds)).0;
    }

    /** The guards, the row and the keys. */
    method ReplaceRole(r: RoleId, newName: Option<string>, newIds: Option<seq<PermissionId>>) returns (out: Outcome)
      modifies this`roles, this`cache
      ensures (View(), out) == UpdateRoleStep(old(View()), r, newName, newIds)
    {
      if r !in roles { return Refused(NOT_FOUND); }
      var row := roles[r];
      if row.isSystem && newName.Some? && newName.value != row.name { return Refused(ROLE_IS_SYSTEM); }
      if newIds.Some? && !(IdSet(newIds.value) <= permissions.Keys) { return Refused(PERMISSION_NOT_FOUND); }
      if newName.Some? && NameTaken(roles, newName.value, Some(r)) { return Refused(CONSTRAINT); }
      match newIds {
        case None =>
        case Some(ids) => row := row.(permissions := IdSet(ids));
      }
      match newName {
        case None =>
        case Some(name) => row := row.(name := name);
      }
      roles := roles[r := row];
      InvalidateEveryone();
      out := Done;
    }

    method RemoveRole(r: RoleId) returns (out: Outcome)
      requires Valid()
      modifies this`roles, this`granted, this`cache
      ensures (View(), out) == DeleteRoleStep(old(View()), r)
      ensures Valid() && Kept(old(View()), View(), DeleteRole(r))
    {
      ghost var before := View();
      Keeps(before, DeleteRole(r));
      out := DropRole(r);
      assert View() == Step(before, DeleteRole(r)).0;
    }

    /** The guards, the rows and the keys. */
    method DropRole(r: RoleId) returns (out: Outcome)
      modifies this`roles, this`granted, this`cache
      ensures (View(), out) == DeleteRoleStep(old(View()), r)
    {
      if r !in roles { return Refused(NOT_FOUND); }
      if roles[r].isSystem { return Refused(ROLE_IS_SYSTEM); }
      if InUse(View(), r) { return Refused(ROLE_IN_USE); }
      roles := roles - {r};
      granted := map u | u in granted :: granted[u] - {r};
      InvalidateEveryone();
      out := Done;
    }

    method AssignRoles(user: UserId, ids: seq<RoleId>) returns (out: Outcome)
      requires Valid()
      modifies this`granted, this`cache
      ensures (View(), out) == AssignUserRolesStep(old(View()), user, ids)
      ensures Valid() && Kept(old(View()), View(), AssignUserRoles(user, ids))
    {
      ghost var before := View();
      Keeps(before, AssignUserRoles(user, ids));
      out := ReplaceRoles(user, ids);
      assert View() == Step(before, AssignUserRoles(user, ids)).0;
    }

    /** The checks, the user's rows and the user's key. */
    method ReplaceRoles(user: UserId, ids: seq<RoleId>) returns (out: Outcome)
      modifies this`granted, this`cache
      ensures (View(), out) == AssignUserRolesStep(old(View()), user, ids)
    {
      if user !in accounts || accounts[user].deleted { return Refused(NOT_FOUND); }
      if !(IdSet(ids) <= roles.Keys) { return Refused(ROLE_NOT_FOUND); }
      granted := granted[user := IdSet(ids)];
      InvalidateUser(user);
      out := Done;
    }
  }
}
