/** What each write to the access tables changes, and for whom. */
module PermissionChanges {
  import opened Base
  import opened Permissions

  /** Foreign keys, fresh ids, unique codes, names and mirrors; only built-in roles mirror an account type. */
  ghost predicate Sound(db: Db) {
    && (forall p :: p in db.permissions ==> p < db.nextPermission)
    && (forall p, q :: p in db.permissions && q in db.permissions && p != q ==> db.permissions[p].code != db.permissions[q].code)
    && (forall r :: r in db.roles ==> r < db.nextRole && db.roles[r].permissions <= db.permissions.Keys)
    && (forall r, q :: r in db.roles && q in db.roles && r != q ==> db.roles[r].name != db.roles[q].name)
    && MirrorsOk(db.roles)
    && (forall u :: u in db.granted ==> u in db.accounts && db.granted[u] <= db.roles.Keys)
  }

  ghost predicate MirrorsOk(roles: map<RoleId, AccessRole>) {
    && (forall r :: r in roles && roles[r].mirrors.Some? ==> roles[r].isSystem)
    && (forall r, q :: r in roles && q in roles && roles[r].mirrors.Some? && roles[r].mirrors == roles[q].mirrors ==> r == q)
  }

  // -- soundness -------------------------------------------------------------

  lemma PermissionSound(db: Db, e: Event)
    requires Sound(db) && (e.CreatePermission? || e.UpdatePermission? || e.DeletePermission?)
    ensures Sound(Step(db, e).0)
  {
  }

  lemma NewRoleSound(db: Db, name: string, ids: seq<PermissionId>)
    requires Sound(db)
    ensures Sound(CreateRoleStep(db, name, ids).0)
  {
  }

  lemma UpdateRoleSound(db: Db, r: RoleId, name: Option<string>, ids: Option<seq<PermissionId>>)
    requires Sound(db)
    ensures Sound(UpdateRoleStep(db, r, name, ids).0)
  {
  }

  lemma UserSound(db: Db, e: Event)
    requires Sound(db)
    requires e.AssignUserRoles? || e.ExpireKey? || e.AddUser? || e.RemoveUser? || e.ChangeAccountType?
    ensures Sound(Step(db, e).0)
  {
  }

  lemma LookUpSound(db: Db, e: Event)
    requires Sound(db) && (e.LookUp? || e.WriteBack?)
    ensures Sound(Step(db, e).0)
  {
  }

  lemma DeleteRoleSound(db: Db, r: RoleId)
    requires Sound(db)
    ensures Sound(DeleteRoleStep(db, r).0)
  {
  }

  lemma StepSound(db: Db, e: Event)
    requires Sound(db)
    ensures Sound(Step(db, e).0)
  {
    match e
    case CreateRole(name, ids) => NewRoleSound(db, name, ids);
    case UpdateRole(r, name, ids) => UpdateRoleSound(db, r, name, ids);
    case DeleteRole(r) => DeleteRoleSound(db, r);
    case CreatePermission(_, _, _, _) => PermissionSound(db, e);
    case UpdatePermission(_, _, _, _) => PermissionSound(db, e);
    case DeletePermission(_) => PermissionSound(db, e);
    case AssignUserRoles(_, _) => UserSound(db, e);
    case LookUp(_, _) => LookUpSound(db, e);
    case WriteBack(_) => LookUpSound(db, e);
    case ExpireKey(_) => UserSound(db, e);
    case AddUser(_, _) => UserSound(db, e);
    case RemoveUser(_) => UserSound(db, e);
    case ChangeAccountType(_, _) => UserSound(db, e);
  }

  // -- what leaves the effective permissions alone ---------------------------

  /** Every user, under every account type, may do in `b` exactly what it may in `a`. */
  ghost predicate SameEffective(a: Db, b: Db) {
    forall u: UserId, t: Role :: Effective(a, u, t) == Effective(b, u, t)
  }

  lemma SameCodes(a: Db, b: Db, rs: set<RoleId>)
    requires forall r :: r in rs && r in a.roles ==> r in b.roles && b.roles[r].permissions == a.roles[r].permissions
    requires forall r :: r in rs && r in b.roles ==> r in a.roles
    requires forall r, p :: r in rs && r in a.roles && p in a.roles[r].permissions ==>
      (p in a.permissions <==> p in b.permissions)
    requires forall p :: p in a.permissions && p in b.permissions ==> a.permissions[p].code == b.permissions[p].code
    ensures CodesOf(a.permissions, a.roles, rs) == CodesOf(b.permissions, b.roles, rs)
  {
  }

  lemma {:induction false} CreatePermissionSame(
    db: Db, code: Code, name: string, description: Option<string>, category: string)
    requires Sound(db)
    ensures SameEffective(db, CreatePermissionStep(db, code, name, description, category).0)
  {
    var after := CreatePermissionStep(db, code, name, description, category).0;
    forall u: UserId, t: Role ensures Effective(db, u, t) == Effective(after, u, t) {
      SameCodes(db, after, RolesOf(db, u));
      SameCodes(db, after, Mirroring(db.roles, t));
    }
  }

  lemma {:induction false} UpdatePermissionSame(
    db: Db, p: PermissionId, name: Option<string>, description: Option<string>, category: Option<string>)
    ensures SameEffective(db, UpdatePermissionStep(db, p, name, description, category).0)
  {
    var after := UpdatePermissionStep(db, p, name, description, category).0;
    forall u: UserId, t: Role ensures Effective(db, u, t) == Effective(after, u, t) {
      SameCodes(db, after, RolesOf(db, u));
      SameCodes(db, after, Mirroring(db.roles, t));
    }
  }

  /** A new role is nobody's yet and mirrors nothing. */
  lemma {:induction false} CreateRoleSame(db: Db, name: string, ids: seq<PermissionId>)
    requires Sound(db)
    ensures SameEffective(db, CreateRoleStep(db, name, ids).0)
  {
    var after := CreateRoleStep(db, name, ids).0;
    if after != db {
      NewRoleSame(db, AccessRole(name, false, None, IdSet(ids)));
    }
  }

  lemma NewRoleSame(db: Db, role: AccessRole)
    requires Sound(db) && role.mirrors.None?
    ensures SameEffective(db, db.(roles := db.roles[db.nextRole := role], nextRole := db.nextRole + 1))
  {
    var after := db.(roles := db.roles[db.nextRole := role], nextRole := db.nextRole + 1);
    forall u: UserId, t: Role ensures Effective(db, u, t) == Effective(after, u, t) {
      assert Mirroring(after.roles, t) == Mirroring(db.roles, t);
      SameCodes(db, after, RolesOf(db, u));
      SameCodes(db, after, Mirroring(db.roles, t));
    }
  }

  /** Deleting a role row changes nothing for anyone when it is neither built in nor assigned. */
  lemma WithoutRoleSame(db: Db, r: RoleId)
    requires Sound(db) && r in db.roles && !db.roles[r].isSystem && !InUse(db, r)
    ensures SameEffective(db, WithoutRole(db, r))
  {
    var after := WithoutRole(db, r);
    forall u: UserId, t: Role ensures Effective(db, u, t) == Effective(after, u, t) {
      assert RolesOf(after, u) == RolesOf(db, u);
      assert Mirroring(after.roles, t) == Mirroring(db.roles, t);
      SameCodes(db, after, RolesOf(db, u));
      SameCodes(db, after, Mirroring(db.roles, t));
    }
  }

  lemma DeleteRoleSame(db: Db, r: RoleId)
    requires Sound(db)
    ensures SameEffective(db, DeleteRoleStep(db, r).0)
  {
    if DeleteRoleStep(db, r).1 == Done {
      WithoutRoleSame(db, r);
      forall u: UserId, t: Role ensures Effective(db, u, t) == Effective(DeleteRoleStep(db, r).0, u, t) {
        assert Effective(db, u, t) == Effective(WithoutRole(db, r), u, t);
      }
    }
  }

  // -- what a user draws on --------------------------------------------------

  /** The roles a user's permissions come from: its own, failing any the mirrored one. */
  function Draws(db: Db, user: UserId, account: Role): set<RoleId> {
    if RolesOf(db, user) != {} then RolesOf(db, user) else Mirroring(db.roles, account)
  }

  /** The ids on the join rows of some roles. */
  function Carried(roles: map<RoleId, AccessRole>, rs: set<RoleId>): set<PermissionId> {
    set r, p | r in rs && r in roles && p in roles[r].permissions :: p
  }

  function CodeSet(permissions: map<PermissionId, Permission>, ids: set<PermissionId>): set<Code> {
    set p | p in ids && p in permissions :: permissions[p].code
  }

  lemma EffectiveIsCarried(db: Db, user: UserId, account: Role)
    ensures Effective(db, user, account) == CodeSet(db.permissions, Carried(db.roles, Draws(db, user, account)))
  {
  }

  lemma CarriedIsKnown(db: Db, rs: set<RoleId>)
    requires Sound(db)
    ensures Carried(db.roles, rs) <= db.permissions.Keys
  {
  }

  /** Codes are unique, so different ids are different codes. */
  lemma CodesTellIds(permissions: map<PermissionId, Permission>, a: set<PermissionId>, b: set<PermissionId>)
    requires forall p, q :: p in permissions && q in permissions && p != q ==> permissions[p].code != permissions[q].code
    requires a <= permissions.Keys && b <= permissions.Keys
    ensures CodeSet(permissions, a) == CodeSet(permissions, b) <==> a == b
  {
    if CodeSet(permissions, a) == CodeSet(permissions, b) {
      CodesTellOne(permissions, a, b);
      CodesTellOne(permissions, b, a);
    }
  }

  lemma CodesTellOne(permissions: map<PermissionId, Permission>, a: set<PermissionId>, b: set<PermissionId>)
    requires forall p, q :: p in permissions && q in permissions && p != q ==> permissions[p].code != permissions[q].code
    requires a <= permissions.Keys && b <= permissions.Keys && CodeSet(permissions, a) <= CodeSet(permissions, b)
    ensures a <= b
  {
    forall p | p in a ensures p in b {
      assert permissions[p].code in CodeSet(permissions, a);
    }
  }

  // -- the exact condition, write by write -----------------------------------

  /** What can be read off the join rows before the write is made. */
  predicate Touches(db: Db, e: Event, user: UserId, account: Role) {
    var drawn := Draws(db, user, account);
    match e
    case DeletePermission(p) => p in Carried(db.roles, drawn)
    case UpdateRole(r, _, Some(ids)) =>
      r in drawn && Carried(db.roles, drawn - {r}) + IdSet(ids) != Carried(db.roles, drawn)
    case AssignUserRoles(u, rs) =>
      && u == user
      && Carried(db.roles, if IdSet(rs) != {} then IdSet(rs) else Mirroring(db.roles, account)) != Carried(db.roles, drawn)
    case _ => false
  }

  /** Whether the write goes through and makes a difference to the user. */
  predicate Changes(db: Db, e: Event, user: UserId, account: Role) {
    Step(db, e).1 == Done && Touches(db, e, user, account)
  }

  lemma CarriedBy(roles: map<RoleId, AccessRole>, rs: set<RoleId>, r: RoleId, p: PermissionId)
    requires r in rs && r in roles && p in roles[r].permissions
    ensures p in Carried(roles, rs)
  {
  }

  /** The join rows of one permission gone. */
  lemma WithoutCarried(roles: map<RoleId, AccessRole>, rs: set<RoleId>, p: PermissionId)
    ensures Carried(WithoutPermission(roles, p), rs) == Carried(roles, rs) - {p}
  {
    var after := WithoutPermission(roles, p);
    forall q | q in Carried(roles, rs) - {p} ensures q in Carried(after, rs) {
      var r :| r in rs && r in roles && q in roles[r].permissions;
      CarriedBy(after, rs, r, q);
    }
  }

  /** One role's join rows replaced. */
  lemma RoleReplaced(before: map<RoleId, AccessRole>, after: map<RoleId, AccessRole>, r: RoleId, rs: set<RoleId>)
    requires r in before && r in after && after == before[r := after[r]]
    ensures Carried(after, rs) == if r in rs then Carried(before, rs - {r}) + after[r].permissions else Carried(before, rs)
  {
    var others := Carried(before, rs - {r});
    forall p | p in others ensures p in Carried(after, rs) && p in Carried(before, rs) {
      var q :| q in rs - {r} && q in before && p in before[q].permissions;
      CarriedBy(after, rs, q, p);
      CarriedBy(before, rs, q, p);
    }
    forall p | p in Carried(after, rs) ensures p in others || (r in rs && p in after[r].permissions) {
      var q :| q in rs && q in after && p in after[q].permissions;
      if q != r { CarriedBy(before, rs - {r}, q, p); }
    }
    if r in rs {
      forall p | p in after[r].permissions ensures p in Carried(after, rs) { CarriedBy(after, rs, r, p); }
    } else {
      assert rs - {r} == rs;
    }
  }

  lemma RoleKept(roles: map<RoleId, AccessRole>, r: RoleId, rs: set<RoleId>)
    requires r in rs && r in roles
    ensures Carried(roles, rs - {r}) + roles[r].permissions == Carried(roles, rs)
  {
    RoleReplaced(roles, roles, r, rs);
  }

  lemma SameDraws(a: Db, b: Db, user: UserId, account: Role)
    requires b.granted == a.granted && b.roles.Keys == a.roles.Keys
    requires forall r :: r in a.roles ==> b.roles[r].mirrors == a.roles[r].mirrors
    ensures Draws(b, user, account) == Draws(a, user, account)
  {
    assert Mirroring(b.roles, account) == Mirroring(a.roles, account);
  }

  lemma DeletePermissionChanges(db: Db, p: PermissionId, user: UserId, account: Role)
    requires Sound(db)
    ensures Effective(DeletePermissionStep(db, p).0, user, account) != Effective(db, user, account)
      <==> Changes(db, DeletePermission(p), user, account)
  {
    var after, drawn := DeletePermissionStep(db, p).0, Draws(db, user, account);
    if DeletePermissionStep(db, p).1 == Done {
      SameDraws(db, after, user, account);
      EffectiveIsCarried(db, user, account);
      EffectiveIsCarried(after, user, account);
      WithoutCarried(db.roles, drawn, p);
      CarriedIsKnown(db, drawn);
      CodesWithout(db.permissions, Carried(db.roles, drawn), p);
    }
  }

  lemma CodesWithout(permissions: map<PermissionId, Permission>, ids: set<PermissionId>, p: PermissionId)
    requires forall p, q :: p in permissions && q in permissions && p != q ==> permissions[p].code != permissions[q].code
    requires ids <= permissions.Keys
    ensures CodeSet(permissions - {p}, ids - {p}) != CodeSet(permissions, ids) <==> p in ids
  {
    assert CodeSet(permissions - {p}, ids - {p}) == CodeSet(permissions, ids - {p});
    CodesTellIds(permissions, ids - {p}, ids);
  }

  lemma UpdateRoleChanges(
    db: Db, r: RoleId, name: Option<string>, ids: Option<seq<PermissionId>>, user: UserId, account: Role)
    requires Sound(db)
    ensures Effective(UpdateRoleStep(db, r, name, ids).0, user, account) != Effective(db, user, account)
      <==> Changes(db, UpdateRole(r, name, ids), user, account)
  {
    if UpdateRoleStep(db, r, name, ids).1 == Done {
      UpdatedRole(db, r, name, ids, user, account);
      if r in Draws(db, user, account) { RoleKept(db.roles, r, Draws(db, user, account)); }
    }
  }

  lemma UpdatedRole(
    db: Db, r: RoleId, name: Option<string>, ids: Option<seq<PermissionId>>, user: UserId, account: Role)
    requires Sound(db) && UpdateRoleStep(db, r, name, ids).1 == Done
    ensures var drawn, after := Draws(db, user, account), UpdateRoleStep(db, r, name, ids).0;
      var carries := if ids.Some? then IdSet(ids.value) else db.roles[r].permissions;
      Effective(after, user, account) != Effective(db, user, account) <==>
        r in drawn && Carried(db.roles, drawn - {r}) + carries != Carried(db.roles, drawn)
  {
    var drawn, after := Draws(db, user, account), UpdateRoleStep(db, r, name, ids).0;
    SameDraws(db, after, user, account);
    EffectiveIsCarried(db, user, account);
    EffectiveIsCarried(after, user, account);
    RoleReplaced(db.roles, after.roles, r, drawn);
    UpdateRoleSound(db, r, name, ids);
    CarriedIsKnown(db, drawn);
    CarriedIsKnown(after, drawn);
    CodesTellIds(db.permissions, Carried(after.roles, drawn), Carried(db.roles, drawn));
  }

  lemma AssignChanges(db: Db, u: UserId, rs: seq<RoleId>, user: UserId, account: Role)
    requires Sound(db)
    ensures Effective(AssignUserRolesStep(db, u, rs).0, user, account) != Effective(db, user, account)
      <==> Changes(db, AssignUserRoles(u, rs), user, account)
  {
    var after := AssignUserRolesStep(db, u, rs).0;
    EffectiveIsCarried(db, user, account);
    EffectiveIsCarried(after, user, account);
    CarriedIsKnown(db, Draws(db, user, account));
    CarriedIsKnown(db, Draws(after, user, account));
    CodesTellIds(db.permissions, Carried(db.roles, Draws(after, user, account)), Carried(db.roles, Draws(db, user, account)));
  }

  /** Steps that are no write to the access tables. */
  lemma AsideSame(db: Db, e: Event, user: UserId, account: Role)
    requires e.LookUp? || e.WriteBack? || e.ExpireKey? || e.AddUser? || e.RemoveUser? || e.ChangeAccountType?
    ensures Effective(Step(db, e).0, user, account) == Effective(db, user, account)
  {
  }

  /** A step changes what a user may do, under an account type, if and only if the join rows say so beforehand. */
  lemma {:induction false} WhatAWriteChanges(db: Db, e: Event, user: UserId, account: Role)
    requires Sound(db)
    ensures Effective(Step(db, e).0, user, account) != Effective(db, user, account) <==> Changes(db, e, user, account)
  {
    match e
    case CreatePermission(code, name, description, category) => CreatePermissionSame(db, code, name, description, category);
    case UpdatePermission(p, name, description, category) => UpdatePermissionSame(db, p, name, description, category);
    case CreateRole(name, ids) => CreateRoleSame(db, name, ids);
    case DeleteRole(r) => DeleteRoleSame(db, r);
    case DeletePermission(p) => DeletePermissionChanges(db, p, user, account);
    case UpdateRole(r, name, ids) => UpdateRoleChanges(db, r, name, ids, user, account);
    case AssignUserRoles(u, rs) => AssignChanges(db, u, rs, user, account);
    case LookUp(_, _) => AsideSame(db, e, user, account);
    case WriteBack(_) => AsideSame(db, e, user, account);
    case ExpireKey(_) => AsideSame(db, e, user, account);
    case AddUser(_, _) => AsideSame(db, e, user, account);
    case RemoveUser(_) => AsideSame(db, e, user, account);
    case ChangeAccountType(_, _) => AsideSame(db, e, user, account);
  }

  // -- what a write leaves ---------------------------------------------------

  /** The ids whose codes a user may use after a write that goes through, read off the join rows before it. */
  function Leaves(db: Db, e: Event, user: UserId, account: Role): set<PermissionId> {
    var drawn := Draws(db, user, account);
    match e
    case DeletePermission(p) => Carried(db.roles, drawn) - {p}
    case UpdateRole(r, _, Some(ids)) =>
      if r in drawn then Carried(db.roles, drawn - {r}) + IdSet(ids) else Carried(db.roles, drawn)
    case AssignUserRoles(u, rs) =>
      if u != user then Carried(db.roles, drawn)
      else Carried(db.roles, if IdSet(rs) != {} then IdSet(rs) else Mirroring(db.roles, account))
    case _ => Carried(db.roles, drawn)
  }

  lemma DeletePermissionLeaves(db: Db, p: PermissionId, user: UserId, account: Role)
    requires Sound(db) && DeletePermissionStep(db, p).1 == Done
    ensures Effective(DeletePermissionStep(db, p).0, user, account)
         == CodeSet(db.permissions, Carried(db.roles, Draws(db, user, account)) - {p})
  {
    var after, drawn := DeletePermissionStep(db, p).0, Draws(db, user, account);
    SameDraws(db, after, user, account);
    EffectiveIsCarried(after, user, account);
    WithoutCarried(db.roles, drawn, p);
    var left := Carried(db.roles, drawn) - {p};
    assert CodeSet(db.permissions - {p}, left) == CodeSet(db.permissions, left);
  }

  lemma RoleLeaves(
    db: Db, r: RoleId, name: Option<string>, ids: Option<seq<PermissionId>>, user: UserId, account: Role)
    requires Sound(db) && UpdateRoleStep(db, r, name, ids).1 == Done
    ensures var drawn := Draws(db, user, account);
      var carries := if ids.Some? then IdSet(ids.value) else db.roles[r].permissions;
      Effective(UpdateRoleStep(db, r, name, ids).0, user, account)
      == CodeSet(db.permissions, if r in drawn then Carried(db.roles, drawn - {r}) + carries else Carried(db.roles, drawn))
  {
    var drawn, after := Draws(db, user, account), UpdateRoleStep(db, r, name, ids).0;
    SameDraws(db, after, user, account);
    EffectiveIsCarried(after, user, account);
    RoleReplaced(db.roles, after.roles, r, drawn);
  }

  lemma UpdateRoleLeaves(
    db: Db, r: RoleId, name: Option<string>, ids: Option<seq<PermissionId>>, user: UserId, account: Role)
    requires Sound(db) && UpdateRoleStep(db, r, name, ids).1 == Done
    ensures Effective(UpdateRoleStep(db, r, name, ids).0, user, account)
         == CodeSet(db.permissions, Leaves(db, UpdateRole(r, name, ids), user, account))
  {
    RoleLeaves(db, r, name, ids, user, account);
    if r in Draws(db, user, account) { RoleKept(db.roles, r, Draws(db, user, account)); }
  }

  lemma AssignLeaves(db: Db, u: UserId, rs: seq<RoleId>, user: UserId, account: Role)
    requires Sound(db) && AssignUserRolesStep(db, u, rs).1 == Done
    ensures Effective(AssignUserRolesStep(db, u, rs).0, user, account)
         == CodeSet(db.permissions, Leaves(db, AssignUserRoles(u, rs), user, account))
  {
    EffectiveIsCarried(AssignUserRolesStep(db, u, rs).0, user, account);
  }

  /** After a write that goes through, every user may do exactly what the join rows and the write say. */
  lemma {:induction false} WhatAWriteLeaves(db: Db, e: Event, user: UserId, account: Role)
    requires Sound(db) && Step(db, e).1 == Done
    ensures Effective(Step(db, e).0, user, account) == CodeSet(db.permissions, Leaves(db, e, user, account))
  {
    match e
    case DeletePermission(p) => DeletePermissionLeaves(db, p, user, account);
    case UpdateRole(r, name, ids) => UpdateRoleLeaves(db, r, name, ids, user, account);
    case AssignUserRoles(u, rs) => AssignLeaves(db, u, rs, user, account);
    case _ =>
      WhatAWriteChanges(db, e, user, account);
      EffectiveIsCarried(db, user, account);
  }

  /** A new role gives those it is assigned to exactly the permissions it was made with. */
  lemma {:induction false} NewRoleGives(db: Db, name: string, ids: seq<PermissionId>, user: UserId, account: Role)
    requires Sound(db) && Step(db, CreateRole(name, ids)).1 == Done && user in db.accounts && !db.accounts[user].deleted
    ensures var (made, given) := (CreateRole(name, ids), AssignUserRoles(user, [db.nextRole]));
      && Step(Step(db, made).0, given).1 == Done
      && Effective(Step(Step(db, made).0, given).0, user, account) == CodeSet(db.permissions, IdSet(ids))
  {
    var after := CreateRoleStep(db, name, ids).0;
    var r := db.nextRole;
    NewRoleSound(db, name, ids);
    assert IdSet([r]) == {r} by { assert [r][0] == r; }
    AssignLeaves(after, user, [r], user, account);
    assert Carried(after.roles, {r}) == IdSet(ids) by {
      forall p | p in IdSet(ids) ensures p in Carried(after.roles, {r}) { CarriedBy(after.roles, {r}, r, p); }
    }
  }

  /** A new permission brings its own code to a role that carries it and nothing else. */
  lemma {:induction false} NewPermissionBrings(
    db: Db, code: Code, name: string, description: Option<string>, category: string, ids: set<PermissionId>)
    requires Sound(db) && Step(db, CreatePermission(code, name, description, category)).1 == Done
    requires ids <= db.permissions.Keys
    ensures var after := Step(db, CreatePermission(code, name, description, category)).0;
      && CodeSet(after.permissions, ids) == CodeSet(db.permissions, ids) && code !in CodeSet(db.permissions, ids)
      && CodeSet(after.permissions, ids + {db.nextPermission}) == CodeSet(db.permissions, ids) + {code}
  {
    var after := CreatePermissionStep(db, code, name, description, category).0;
    assert after.permissions[db.nextPermission].code == code;
    forall c | c in CodeSet(db.permissions, ids) ensures c in CodeSet(after.permissions, ids) {
      var p :| p in ids && p in db.permissions && db.permissions[p].code == c;
      assert after.permissions[p].code == c;
    }
    assert CodeSet(after.permissions, ids + {db.nextPermission}) == CodeSet(after.permissions, ids) + {code} by {
      forall c | c in CodeSet(after.permissions, ids) + {code} ensures c in CodeSet(after.permissions, ids + {db.nextPermission}) {
        if c != code {
          var p :| p in ids && p in after.permissions && after.permissions[p].code == c;
          assert p in ids + {db.nextPermission};
        }
      }
    }
  }

  // -- which writes go through -----------------------------------------------

  predicate Distinct(ids: seq<nat>) {
    forall i, j :: 0 <= i < j < |ids| ==> ids[i] != ids[j]
  }

  /** Ids are without repetition exactly when there are as many as in their set. */
  lemma {:induction false} DistinctIsCounted(ids: seq<nat>)
    ensures |IdSet(ids)| <= |ids| && (|IdSet(ids)| == |ids| <==> Distinct(ids))
  {
    if ids != [] {
      var n := |ids| - 1;
      DistinctIsCounted(ids[..n]);
      assert ids == ids[..n] + [ids[n]];
      assert IdSet(ids) == IdSet(ids[..n]) + {ids[n]};
      if ids[n] in ids[..n] {
        var i :| 0 <= i < n && ids[..n][i] == ids[n];
        assert IdSet(ids) == IdSet(ids[..n]) && ids[i] == ids[n];
      } else {
        assert Distinct(ids[..n]) ==> Distinct(ids);
        assert Distinct(ids) ==> Distinct(ids[..n]);
      }
    }
  }

  /** What each write asks of the tables. */
  ghost predicate MayWrite(db: Db, e: Event) {
    match e
    case CreatePermission(code, _, _, _) => forall p :: p in db.permissions ==> db.permissions[p].code != code
    case UpdatePermission(p, _, _, _) => p in db.permissions
    case DeletePermission(p) => p in db.permissions && !db.permissions[p].isSystem
    case CreateRole(name, ids) =>
      && (forall r :: r in db.roles ==> db.roles[r].name != name)
      && Distinct(ids) && forall p :: p in ids ==> p in db.permissions
    case UpdateRole(r, name, ids) =>
      && r in db.roles
      && (name.Some? ==> !(db.roles[r].isSystem && name.value != db.roles[r].name))
      && (name.Some? ==> forall q :: q in db.roles && q != r ==> db.roles[q].name != name.value)
      && (ids.Some? ==> forall p :: p in ids.value ==> p in db.permissions)
    case DeleteRole(r) =>
      r in db.roles && !db.roles[r].isSystem && forall u :: u in db.granted ==> r !in db.granted[u]
    case AssignUserRoles(user, roles) =>
      user in db.accounts && !db.accounts[user].deleted && forall r :: r in roles ==> r in db.roles
    case _ => true
  }

  /** A write goes through exactly when the tables meet what it asks, and otherwise changes nothing. */
  lemma {:induction false} WhoMayWrite(db: Db, e: Event)
    requires e.CreatePermission? || e.UpdatePermission? || e.DeletePermission? || e.CreateRole? || e.UpdateRole?
             || e.DeleteRole? || e.AssignUserRoles?
    ensures Step(db, e).1 == Done <==> MayWrite(db, e)
    ensures Step(db, e).1 != Done ==> Step(db, e).0 == db
  {
    match e
    case CreateRole(_, ids) =>
      DistinctIsCounted(ids);
      KnownIds(ids, db.permissions.Keys);
    case UpdateRole(_, _, Some(ids)) => KnownIds(ids, db.permissions.Keys);
    case AssignUserRoles(_, roles) => KnownIds(roles, db.roles.Keys);
    case _ =>
  }

  lemma KnownIds(ids: seq<nat>, known: set<nat>)
    ensures IdSet(ids) <= known <==> forall i :: i in ids ==> i in known
  {
    forall i | i in ids ensures i in IdSet(ids) {}
  }

  /** A role renamed takes its new name and frees the old one; a permission edited keeps its code. */
  lemma {:induction false} RenameMovesTheName(
    db: Db, r: RoleId, name: string, ids: Option<seq<PermissionId>>, more: seq<PermissionId>)
    requires Sound(db) && Step(db, UpdateRole(r, Some(name), ids)).1 == Done
    ensures var after := Step(db, UpdateRole(r, Some(name), ids)).0;
      && Step(after, CreateRole(name, more)).1 == Refused(ROLE_NAME_TAKEN)
      && r in db.roles
      && (name != db.roles[r].name ==> Step(after, CreateRole(db.roles[r].name, more)).1 != Refused(ROLE_NAME_TAKEN))
  {
    var after := UpdateRoleStep(db, r, Some(name), ids).0;
    assert r in after.roles && after.roles[r].name == name;
  }

  lemma {:induction false} EditKeepsTheRest(
    db: Db, p: PermissionId, name: Option<string>, description: Option<string>, category: Option<string>)
    requires p in db.permissions
    ensures var after := Step(db, UpdatePermission(p, name, description, category)).0;
      && after == db.(permissions := after.permissions) && after.permissions.Keys == db.permissions.Keys
      && (forall q :: q in db.permissions && q != p ==> after.permissions[q] == db.permissions[q])
      && var a, b := db.permissions[p], after.permissions[p];
      && b.code == a.code && b.isSystem == a.isSystem
      && b.name == (if name == None then a.name else name.value)
      && b.description == (if description == None then a.description else description)
      && b.category == (if category == None then a.category else category.value)
  {
  }
}
