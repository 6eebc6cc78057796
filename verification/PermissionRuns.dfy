/** When the cache agrees with the uncached computation, and when it does not. */
module PermissionRuns {
  import opened Base
  import opened PermissionChanges
  import opened Permissions

  /** The codes are those the uncached computation gives for the user now. */
  ghost predicate Agrees(db: Db, user: UserId, codes: set<Code>) {
    user in db.accounts && codes == Effective(db, user, db.accounts[user].role)
  }

  ghost predicate CacheOk(db: Db) {
    forall u :: u in db.cache ==> Agrees(db, u, db.cache[u])
  }

  /** A lookup in flight holds codes that are still right. */
  ghost predicate FillsOk(db: Db) {
    forall w :: w in db.fills ==> Agrees(db, db.fills[w].user, db.fills[w].codes)
  }

  ghost predicate Inv(db: Db) { Sound(db) && CacheOk(db) && FillsOk(db) }

  // -- step lemmas -----------------------------------------------------------

  lemma LookUpKeeps(db: Db, w: Worker, user: UserId)
    requires Inv(db)
    ensures var after := SignedInLookUpStep(db, w, user).0; CacheOk(after) && FillsOk(after)
  {
    var after := SignedInLookUpStep(db, w, user).0;
    if after != db {
      var codes := Effective(db, user, db.accounts[user].role);
      assert after == db.(fills := db.fills[w := Fill(user, codes)]);
      SideKeeps(db, after);
      assert Agrees(db, user, codes);
    }
  }

  lemma WriteBackKeeps(db: Db, w: Worker)
    requires Inv(db)
    ensures CacheOk(WriteBackStep(db, w).0) && FillsOk(WriteBackStep(db, w).0)
  {
    if w in db.fills {
      assert Agrees(db, db.fills[w].user, db.fills[w].codes);
      SideKeeps(db, WriteBackStep(db, w).0);
    }
  }

  /** Only cache and lookups differ, and only by codes that are right. */
  lemma SideKeeps(a: Db, b: Db)
    requires CacheOk(a) && FillsOk(a) && b == a.(cache := b.cache, fills := b.fills)
    requires forall u :: u in b.cache ==> (u in a.cache && b.cache[u] == a.cache[u]) || Agrees(a, u, b.cache[u])
    requires forall w :: w in b.fills ==>
      (w in a.fills && b.fills[w] == a.fills[w]) || Agrees(a, b.fills[w].user, b.fills[w].codes)
    ensures CacheOk(b) && FillsOk(b)
  {
    forall u | u in b.cache ensures Agrees(b, u, b.cache[u]) { assert Agrees(a, u, b.cache[u]); }
    forall w | w in b.fills ensures Agrees(b, b.fills[w].user, b.fills[w].codes) {
      assert Agrees(a, b.fills[w].user, b.fills[w].codes);
    }
  }

  /** Accounts come and are marked deleted; the type of one that is there stays. */
  lemma AccountsKeep(a: Db, b: Db)
    requires CacheOk(a) && FillsOk(a) && b == a.(accounts := b.accounts)
    requires forall u :: u in a.accounts ==> u in b.accounts && b.accounts[u].role == a.accounts[u].role
    ensures CacheOk(b) && FillsOk(b)
  {
    forall u | u in b.cache ensures Agrees(b, u, b.cache[u]) { assert Agrees(a, u, a.cache[u]); }
    forall w | w in b.fills ensures Agrees(b, b.fills[w].user, b.fills[w].codes) {
      assert Agrees(a, a.fills[w].user, a.fills[w].codes);
    }
  }

  lemma AddUserKeeps(db: Db, user: UserId, account: Role)
    requires Inv(db)
    ensures CacheOk(AddUserStep(db, user, account).0) && FillsOk(AddUserStep(db, user, account).0)
  {
    AccountsKeep(db, AddUserStep(db, user, account).0);
  }

  lemma RemoveUserKeeps(db: Db, user: UserId)
    requires Inv(db)
    ensures CacheOk(RemoveUserStep(db, user).0) && FillsOk(RemoveUserStep(db, user).0)
  {
    AccountsKeep(db, RemoveUserStep(db, user).0);
  }

  lemma ExpireKeeps(db: Db, user: UserId)
    requires Inv(db)
    ensures CacheOk(Step(db, ExpireKey(user)).0) && FillsOk(Step(db, ExpireKey(user)).0)
  {
    SideKeeps(db, Step(db, ExpireKey(user)).0);
  }

  /** The writes to the access tables. */
  predicate IsWrite(e: Event) {
    || e.CreatePermission? || e.UpdatePermission? || e.DeletePermission?
    || e.CreateRole? || e.UpdateRole? || e.DeleteRole? || e.AssignUserRoles?
  }

  /** The lookups in flight that a write would leave with the wrong codes. */
  ghost predicate Spares(db: Db, e: Event) {
    forall w :: w in db.fills && db.fills[w].user in db.accounts ==>
      !Changes(db, e, db.fills[w].user, db.accounts[db.fills[w].user].role)
  }

  lemma WriteCache(db: Db, e: Event)
    requires IsWrite(e)
    ensures Step(db, e).1 == Done && (e.DeletePermission? || e.UpdateRole? || e.DeleteRole?) ==> Step(db, e).0.cache == map[]
    ensures Step(db, e).1 == Done && e.AssignUserRoles? ==> Step(db, e).0.cache == db.cache - {e.user}
    ensures Step(db, e).1 != Done || e.CreatePermission? || e.UpdatePermission? || e.CreateRole? ==>
      Step(db, e).0.cache == db.cache
  {
  }

  /** A write drops every key it may have made wrong: what is still cached was not touched. */
  lemma WriteDropsKeys(db: Db, e: Event, u: UserId)
    requires Inv(db) && IsWrite(e) && u in Step(db, e).0.cache
    ensures u in db.cache && Step(db, e).0.cache[u] == db.cache[u]
    ensures u in db.accounts && !Changes(db, e, u, db.accounts[u].role)
  {
    WriteCache(db, e);
    assert Agrees(db, u, db.cache[u]);
    if e.AssignUserRoles? && Step(db, e).1 == Done { assert u != e.user; }
  }

  lemma WriteFrame(db: Db, e: Event)
    requires IsWrite(e)
    ensures Step(db, e).0.fills == db.fills && Step(db, e).0.accounts == db.accounts
  {
  }

  lemma WriteAgrees(db: Db, e: Event, u: UserId, codes: set<Code>)
    requires Sound(db) && IsWrite(e) && Agrees(db, u, codes)
    ensures Agrees(Step(db, e).0, u, codes) <==> !Changes(db, e, u, db.accounts[u].role)
  {
    WriteFrame(db, e);
    WhatAWriteChanges(db, e, u, db.accounts[u].role);
  }

  lemma WriteKeepsCache(db: Db, e: Event)
    requires Inv(db) && IsWrite(e)
    ensures CacheOk(Step(db, e).0)
  {
    var after := Step(db, e).0;
    forall u | u in after.cache ensures Agrees(after, u, after.cache[u]) {
      WriteDropsKeys(db, e, u);
      assert Agrees(db, u, db.cache[u]);
      WriteAgrees(db, e, u, db.cache[u]);
    }
  }

  lemma WriteExact(db: Db, e: Event)
    requires Inv(db) && IsWrite(e)
    ensures FillsOk(Step(db, e).0) <==> Spares(db, e)
  {
    var after := Step(db, e).0;
    WriteFrame(db, e);
    forall w | w in db.fills
      ensures db.fills[w].user in db.accounts
      ensures Agrees(after, db.fills[w].user, db.fills[w].codes) <==>
              !Changes(db, e, db.fills[w].user, db.accounts[db.fills[w].user].role)
    {
      assert Agrees(db, db.fills[w].user, db.fills[w].codes);
      WriteAgrees(db, e, db.fills[w].user, db.fills[w].codes);
    }
  }

  // -- a change of account type ----------------------------------------------

  /** Something is cached for the user, or a lookup of it is in flight. */
  ghost predicate Remembered(db: Db, user: UserId) {
    user in db.cache || exists w :: w in db.fills && db.fills[w].user == user
  }

  /** Whether the account type makes no difference to the user, by the join rows. */
  predicate SameFallback(db: Db, user: UserId, account: Role)
    requires user in db.accounts
  {
    || RolesOf(db, user) != {}
    || Carried(db.roles, Mirroring(db.roles, account)) == Carried(db.roles, Mirroring(db.roles, db.accounts[user].role))
  }

  lemma FallbackExact(db: Db, user: UserId, account: Role)
    requires Sound(db) && user in db.accounts
    ensures Effective(db, user, account) == Effective(db, user, db.accounts[user].role) <==> SameFallback(db, user, account)
  {
    var a, b := Draws(db, user, account), Draws(db, user, db.accounts[user].role);
    EffectiveIsCarried(db, user, account);
    EffectiveIsCarried(db, user, db.accounts[user].role);
    CarriedIsKnown(db, a);
    CarriedIsKnown(db, b);
    CodesTellIds(db.permissions, Carried(db.roles, a), Carried(db.roles, b));
  }

  /**
   Changing an account type leaves the key behind.  Cache and lookups still agree
   if and only if nothing is remembered of the user, or the user has roles of its
   own, or the two mirrored roles carry the same permissions.
   */
  lemma {:induction false} AccountTypeChangeStaleness(db: Db, user: UserId, account: Role)
    requires Inv(db) && user in db.accounts
    ensures Inv(Step(db, ChangeAccountType(user, account)).0) <==>
      !Remembered(db, user) || SameFallback(db, user, account)
  {
    var after := ChangeAccountTypeStep(db, user, account).0;
    UserSound(db, ChangeAccountType(user, account));
    OthersAgree(db, user, account);
    FallbackExact(db, user, account);
    OwnAgree(db, user, account);
  }

  /** What is remembered of the user itself is right afterwards if and only if the change makes no difference. */
  lemma OwnAgree(db: Db, user: UserId, account: Role)
    requires CacheOk(db) && FillsOk(db) && user in db.accounts
    ensures var changed := ChangeAccountTypeStep(db, user, account).0;
      var same := Effective(db, user, account) == Effective(db, user, db.accounts[user].role);
      && (user in db.cache ==> (Agrees(changed, user, db.cache[user]) <==> same))
      && (forall w :: w in db.fills && db.fills[w].user == user ==> (Agrees(changed, user, db.fills[w].codes) <==> same))
  {
    var changed := ChangeAccountTypeStep(db, user, account).0;
    assert Effective(changed, user, account) == Effective(db, user, account);
    if user in db.cache { assert Agrees(db, user, db.cache[user]); }
    forall w | w in db.fills && db.fills[w].user == user
      ensures Agrees(changed, user, db.fills[w].codes) <==>
              Effective(db, user, account) == Effective(db, user, db.accounts[user].role)
    {
      assert Agrees(db, user, db.fills[w].codes);
    }
  }

  /** Nothing that is remembered of anybody else is touched by the change. */
  lemma OthersAgree(db: Db, user: UserId, account: Role)
    requires CacheOk(db) && FillsOk(db)
    ensures var changed := ChangeAccountTypeStep(db, user, account).0;
      && changed.cache == db.cache && changed.fills == db.fills
      && (forall u :: u in changed.cache && u != user ==> Agrees(changed, u, changed.cache[u]))
      && (forall w :: w in changed.fills && changed.fills[w].user != user ==>
            Agrees(changed, changed.fills[w].user, changed.fills[w].codes))
  {
    var changed := ChangeAccountTypeStep(db, user, account).0;
    forall u | u in changed.cache && u != user ensures Agrees(changed, u, changed.cache[u]) {
      assert Agrees(db, u, db.cache[u]);
    }
    forall w | w in changed.fills && changed.fills[w].user != user
      ensures Agrees(changed, changed.fills[w].user, changed.fills[w].codes)
    {
      assert Agrees(db, db.fills[w].user, db.fills[w].codes);
    }
  }

  /** With no lookup in flight, the key expiring, or the user being given roles, puts it right. */
  lemma {:induction false} StalenessEnds(db: Db, user: UserId, account: Role, e: Event)
    requires Inv(db) && db.fills == map[]
    requires e == ExpireKey(user) || (e.AssignUserRoles? && e.user == user)
    requires Step(ChangeAccountTypeStep(db, user, account).0, e).1 == Done
    ensures Inv(Step(ChangeAccountTypeStep(db, user, account).0, e).0)
  {
    var changed := ChangeAccountTypeStep(db, user, account).0;
    OthersAgree(db, user, account);
    UserSound(db, ChangeAccountType(user, account));
    UserSound(changed, e);
    DroppedKeeps(changed, user, e);
  }

  /** A step that drops the one key that may be wrong, and changes nobody else's permissions. */
  lemma DroppedKeeps(db: Db, user: UserId, e: Event)
    requires db.fills == map[] && forall u :: u in db.cache && u != user ==> Agrees(db, u, db.cache[u])
    requires e == ExpireKey(user) || (e.AssignUserRoles? && e.user == user)
    requires Step(db, e).1 == Done
    ensures CacheOk(Step(db, e).0) && FillsOk(Step(db, e).0)
  {
    var after := Step(db, e).0;
    assert after.cache == db.cache - {user} && after.fills == map[];
    forall u | u in after.cache ensures Agrees(after, u, after.cache[u]) { assert Agrees(db, u, db.cache[u]); }
  }

  // -- the exact condition, step by step -------------------------------------

  /** What can be read off the tables and the lookups in flight before the step. */
  ghost predicate Harmless(db: Db, e: Event) {
    if IsWrite(e) then Spares(db, e)
    else if e.ChangeAccountType? then
      e.user in db.accounts ==> !Remembered(db, e.user) || SameFallback(db, e.user, e.account)
    else true
  }

  /** A step keeps cache and lookups right if and only if it is harmless. */
  lemma {:induction false} StepExact(db: Db, e: Event)
    requires Inv(db)
    ensures Inv(Step(db, e).0) <==> Harmless(db, e)
  {
    StepSound(db, e);
    if IsWrite(e) {
      WriteKeepsCache(db, e);
      WriteExact(db, e);
    } else if e.ChangeAccountType? {
      if e.user in db.accounts { AccountTypeChangeStaleness(db, e.user, e.account); }
    } else {
      AsideKeeps(db, e);
    }
  }

  lemma AsideKeeps(db: Db, e: Event)
    requires Inv(db) && (e.LookUp? || e.WriteBack? || e.ExpireKey? || e.AddUser? || e.RemoveUser?)
    ensures CacheOk(Step(db, e).0) && FillsOk(Step(db, e).0)
  {
    match e
    case LookUp(w, user) => LookUpKeeps(db, w, user);
    case WriteBack(w) => WriteBackKeeps(db, w);
    case ExpireKey(user) => ExpireKeeps(db, user);
    case AddUser(user, account) => AddUserKeeps(db, user, account);
    case RemoveUser(user) => RemoveUserKeeps(db, user);
  }

  /** A run of harmless steps. */
  ghost predicate Calm(db: Db, es: seq<Event>) {
    es == [] || (Calm(db, es[..|es| - 1]) && Harmless(Run(db, es[..|es| - 1]), es[|es| - 1]))
  }

  ghost predicate Cold(db: Db) { Sound(db) && db.cache == map[] && db.fills == map[] }

  // -- the theorems ----------------------------------------------------------

  /** Cache and lookups are right at the end, and were after every earlier step. */
  ghost predicate AlwaysRight(start: Db, es: seq<Event>) {
    Inv(Run(start, es)) && (es == [] || AlwaysRight(start, es[..|es| - 1]))
  }

  /** All along a run cache and lookups are right if and only if every step of it is harmless. */
  lemma {:induction false} CalmIsExact(start: Db, es: seq<Event>)
    requires Inv(start)
    ensures Calm(start, es) <==> AlwaysRight(start, es)
  {
    if es != [] {
      var n := |es| - 1;
      CalmIsExact(start, es[..n]);
      if AlwaysRight(start, es[..n]) { StepExact(Run(start, es[..n]), es[n]); }
    }
  }

  /**
   Start from any sound tables and a cold cache and make any RBAC writes, lookups,
   write-backs, key expiries and changes of account type, each harmless when it is
   made: every cached set is the uncached computation, and so is every answer,
   whether it was a hit or a miss.
   */
  lemma {:induction false} CacheAgrees(start: Db, es: seq<Event>, user: UserId, w: Worker)
    requires Cold(start) && Calm(start, es)
    ensures var db := Run(start, es);
      && (user in db.cache ==> Agrees(db, user, db.cache[user]))
      && (user in db.accounts && !db.accounts[user].deleted ==>
            Step(db, LookUp(w, user)).1 == Codes(Effective(db, user, db.accounts[user].role)))
  {
    CalmKeeps(start, es);
    AnswersAgree(Run(start, es), user, w);
  }

  lemma CalmKeeps(start: Db, es: seq<Event>)
    requires Inv(start) && Calm(start, es)
    ensures Inv(Run(start, es))
  {
    CalmIsExact(start, es);
  }

  lemma AnswersAgree(db: Db, user: UserId, w: Worker)
    requires Inv(db)
    ensures user in db.cache ==> Agrees(db, user, db.cache[user])
    ensures user in db.accounts && !db.accounts[user].deleted ==>
      Step(db, LookUp(w, user)).1 == Codes(Effective(db, user, db.accounts[user].role))
  {
    if user in db.cache { assert Agrees(db, user, db.cache[user]); }
  }

  /**
   With no lookup in flight and account types fixed, every step is harmless: a lookup
   finished at once never goes wrong.
   */
  lemma {:induction false} QuietIsHarmless(db: Db, e: Event)
    requires db.fills == map[] && !e.ChangeAccountType?
    ensures Harmless(db, e)
  {
  }

  /** `deleteRole` never changes what anybody may do, in any run whatever. */
  lemma {:induction false} DeletingARoleTakesNothing(start: Db, es: seq<Event>, r: RoleId, user: UserId, account: Role)
    requires Sound(start)
    ensures var db := Run(start, es);
      Effective(Step(db, DeleteRole(r)).0, user, account) == Effective(db, user, account)
  {
    RunSound(start, es);
    DeleteRoleSame(Run(start, es), r);
  }

  lemma {:induction false} RunSound(db: Db, es: seq<Event>)
    requires Sound(db)
    ensures Sound(Run(db, es))
  {
    if es != [] {
      var n := |es| - 1;
      RunSound(db, es[..n]);
      StepSound(Run(db, es[..n]), es[n]);
    }
  }

  /** Without the guards it would: the built-in role's users would be left with nothing. */
  lemma {:induction false} DeletingABuiltInStrands(db: Db, r: RoleId, user: UserId)
    requires Sound(db) && r in db.roles && user in db.accounts
    requires db.roles[r].mirrors == Some(db.accounts[user].role) && RolesOf(db, user) == {}
    ensures Effective(WithoutRole(db, r), user, db.accounts[user].role) == {}
  {
    assert Mirroring(WithoutRole(db, r).roles, db.accounts[user].role) == {};
  }

  /** And a user whose only role is deleted would come to hold the fallback's permissions. */
  lemma {:induction false} DeletingAnAssignedRoleFallsBack(db: Db, r: RoleId, user: UserId)
    requires Sound(db) && r in db.roles && user in db.accounts
    requires db.roles[r].mirrors.None? && RolesOf(db, user) == {r}
    ensures Effective(WithoutRole(db, r), user, db.accounts[user].role)
         == CodesOf(db.permissions, db.roles, Mirroring(db.roles, db.accounts[user].role))
  {
    var after, t := WithoutRole(db, r), db.accounts[user].role;
    assert RolesOf(after, user) == {};
    assert Mirroring(after.roles, t) == Mirroring(db.roles, t);
    SameCodes(db, after, Mirroring(db.roles, t));
  }

  // -- a write inside a lookup -----------------------------------------------

  /**
   A write that lands between a miss and its write-back drops the key too early.
   What is written back is right if and only if the join rows said, before the
   write, that it would make no difference to that user.
   */
  lemma {:induction false} LateWriteBack(db: Db, w: Worker, e: Event)
    requires Inv(db) && w in db.fills && IsWrite(e)
    ensures var user, written := db.fills[w].user, Step(Step(db, e).0, WriteBack(w)).0;
      && user in written.cache && user in db.accounts
      && (Agrees(written, user, written.cache[user]) <==> !Changes(db, e, user, db.accounts[user].role))
  {
    var user, codes := db.fills[w].user, db.fills[w].codes;
    assert Agrees(db, user, codes);
    WriteFrame(db, e);
    WriteAgrees(db, e, user, codes);
    WriteBackFrame(Step(db, e).0, w);
  }

  lemma WriteBackFrame(db: Db, w: Worker)
    requires w in db.fills
    ensures var written := WriteBackStep(db, w).0;
      && db.fills[w].user in written.cache && written.cache[db.fills[w].user] == db.fills[w].codes
      && forall u: UserId, codes: set<Code> :: Agrees(written, u, codes) <==> Agrees(db, u, codes)
  {
  }

  // -- runs that show what can happen ----------------------------------------

  lemma RunPush(db: Db, es: seq<Event>, e: Event)
    ensures Run(db, es + [e]) == Step(Run(db, es), e).0
  {
    assert (es + [e])[..|es|] == es;
  }

  /** One officer on the fallback role, which grants one code. */
  const SEEDED :=
    Db(map[0 := Permission("assign", "", None, "", true)], 1,
       map[0 := AccessRole("Officer", true, Some(OFFICER), {0})], 1,
       map[0 := Account(OFFICER, false)], map[], map[], map[])

  lemma SeededCodes(db: Db)
    requires db.permissions == SEEDED.permissions && db.roles == SEEDED.roles && db.granted == map[]
    ensures Effective(db, 0, OFFICER) == {"assign"} && Effective(db, 0, CITIZEN) == {}
  {
    assert Mirroring(db.roles, OFFICER) == {0};
    assert Mirroring(db.roles, CITIZEN) == {};
    assert 0 in db.roles[0].permissions && 0 in db.permissions;
    assert "assign" in Effective(db, 0, OFFICER);
  }

  lemma SeededIsCold()
    ensures Cold(SEEDED)
  {
  }

  lemma CalmPush(db: Db, es: seq<Event>, e: Event)
    ensures Calm(db, es + [e]) <==> Calm(db, es) && Harmless(Run(db, es), e)
  {
    assert (es + [e])[..|es|] == es;
  }

  /** The officer looked up and cached. */
  lemma CachedRun() returns (es: seq<Event>)
    ensures Run(SEEDED, es) == SEEDED.(cache := map[0 := {"assign"}]) && Calm(SEEDED, es)
  {
    var read, write := LookUp(0, 0), WriteBack(0);
    SeededCodes(SEEDED);
    RunPush(SEEDED, [], read);
    CalmPush(SEEDED, [], read);
    assert Run(SEEDED, [] + [read]) == SEEDED.(fills := map[0 := Fill(0, {"assign"})]);
    RunPush(SEEDED, [] + [read], write);
    CalmPush(SEEDED, [] + [read], write);
    es := [] + [read] + [write];
  }

  /** What the changed officer is answered, and what it should be. */
  ghost predicate AnsweredAsOfficer(es: seq<Event>) {
    var db := Run(SEEDED, es);
    && 0 in db.accounts && db.accounts[0] == Account(CITIZEN, false) && Effective(db, 0, CITIZEN) == {}
    && Step(db, LookUp(0, 0)).1 == Codes({"assign"})
  }

  lemma StaleAnswerRun() returns (es: seq<Event>)
    ensures Calm(SEEDED, es) && AnsweredAsOfficer(es + [ChangeAccountType(0, CITIZEN)])
  {
    es := CachedRun();
    RunPush(SEEDED, es, ChangeAccountType(0, CITIZEN));
    SeededCodes(Run(SEEDED, es + [ChangeAccountType(0, CITIZEN)]));
  }

  /** After harmless steps an officer is made a citizen, and is still answered as an officer, who may assign. */
  lemma {:induction false} StaleAnswerReached()
    ensures Cold(SEEDED)
    ensures exists es :: Calm(SEEDED, es) && AnsweredAsOfficer(es + [ChangeAccountType(0, CITIZEN)])
  {
    SeededIsCold();
    var es := StaleAnswerRun();
  }

  /** The officer's old codes are cached, which are not those of its type. */
  ghost predicate CachedTooLate(es: seq<Event>) {
    var db := Run(SEEDED, es);
    && 0 in db.accounts && db.accounts[0] == Account(OFFICER, false) && Effective(db, 0, OFFICER) == {}
    && 0 in db.cache && db.cache[0] == {"assign"}
  }

  ghost predicate TypesFixed(es: seq<Event>) {
    forall i :: 0 <= i < |es| ==> !es[i].ChangeAccountType?
  }

  lemma LateWriteBackRun() returns (es: seq<Event>)
    ensures CachedTooLate(es) && TypesFixed(es)
  {
    var read, edit, write := LookUp(0, 0), UpdateRole(0, None, Some([])), WriteBack(0);
    SeededCodes(SEEDED);
    RunPush(SEEDED, [], read);
    var found := SEEDED.(fills := map[0 := Fill(0, {"assign"})]);
    assert Run(SEEDED, [] + [read]) == found;
    RunPush(SEEDED, [] + [read], edit);
    var emptied := found.(roles := map[0 := AccessRole("Officer", true, Some(OFFICER), {})]);
    assert IdSet([]) == {};
    assert UpdateRoleStep(found, 0, None, Some([])).0 == emptied;
    RunPush(SEEDED, [] + [read] + [edit], write);
    es := [] + [read] + [edit] + [write];
    var db := Run(SEEDED, es);
    assert db == emptied.(cache := map[0 := {"assign"}], fills := map[]);
    assert Effective(db, 0, OFFICER) == {};
  }

  /**
   The fallback role emptied between a miss and its write-back, and nobody's account type
   changed: the old codes are cached.
   */
  lemma {:induction false} LateWriteBackReached()
    ensures Cold(SEEDED)
    ensures exists es :: CachedTooLate(es) && TypesFixed(es)
  {
    SeededIsCold();
    var es := LateWriteBackRun();
  }
}
