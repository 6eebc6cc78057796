/** How many wrong passwords the counters let through, with sign-ins in flight at once. */
module LoginLockout {
  import opened Base
  import opened LoginChallenge
  import opened Sets

  /** What wrong passwords are counted by: the address, and the network. */
  datatype Key = OfUser(user: UserId) | OfNetwork(ip: Ip)

  function Counted(db: Db, key: Key): nat {
    match key
    case OfUser(user) => Fails(db.userFails, user)
    case OfNetwork(ip) => Fails(db.ipFails, ip)
  }

  /** Where a sign-in is locked out without a look at its password. */
  function Lock(key: Key): nat {
    match key
    case OfUser(_) => FAILS_BEFORE_LOCK
    case OfNetwork(_) => FAILS_PER_IP
  }

  predicate Concerns(a: Attempt, key: Key) {
    match key
    case OfUser(user) => a.user == user
    case OfNetwork(ip) => a.ip == ip
  }

  /** The sign-ins counted by a key that have passed the counters. */
  function InFlight(db: Db, key: Key): set<Worker> {
    set w | w in db.logins && Concerns(db.logins[w], key)
  }

  /** At no moment of the run are more than n of them in flight. */
  ghost predicate AtMost(es: seq<Event>, key: Key, n: nat) {
    |InFlight(Run(EMPTY, es), key)| <= n && (es == [] || AtMost(es[..|es| - 1], key, n))
  }

  /** What n sign-ins at once can bring the counter to. */
  function Bound(key: Key, n: nat): nat {
    if n == 0 then 0 else Lock(key) - 1 + n
  }

  ghost predicate Within(db: Db, key: Key, n: nat) {
    Counted(db, key) + |InFlight(db, key)| <= Bound(key, n)
  }

  // -- steps that are no sign-in ---------------------------------------------

  predicate SamePasswords(a: Db, b: Db) {
    b.userFails == a.userFails && b.ipFails == a.ipFails && b.logins == a.logins
  }

  lemma EndSame(db: Db, c: ChallengeId, ch: Challenge, user: UserId)
    ensures SamePasswords(db, EndChallenge(db, c, ch)) && SamePasswords(db, Enter(EndChallenge(db, c, ch), c, user).0)
  {
  }

  lemma VerifySame(db: Db, c: ChallengeId, code: Code, device: Device)
    ensures SamePasswords(db, VerifyCodeStep(db, c, code, device).0)
  {
    if c in db.otp {
      var ch := db.otp[c];
      EndSame(db, c, ch, ch.user);
      EndSame(db, c, ch.(attempts := ch.attempts + 1), ch.user);
    }
  }

  lemma LinkSame(db: Db, l: Link)
    ensures SamePasswords(db, OpenLinkStep(db, l).0)
  {
    if l in db.magic && db.magic[l] in db.otp {
      var c := db.magic[l];
      EndSame(db.(magic := db.magic - {l}), c, db.otp[c], db.otp[c].user);
    }
  }

  lemma ResendSame(db: Db, c: ChallengeId, code: Code)
    ensures SamePasswords(db, ResendStep(db, c, code).0)
  {
  }

  predicate IsSignIn(e: Event) {
    e.StartLogin? || e.FinishLogin?
  }

  lemma OtherSteps(db: Db, e: Event, key: Key)
    requires !IsSignIn(e)
    ensures Step(db, e).0.logins == db.logins && Counted(Step(db, e).0, key) <= Counted(db, key)
  {
    match e
    case VerifyCode(c, code, device) => VerifySame(db, c, code, device);
    case OpenLink(l) => LinkSame(db, l);
    case Resend(c, code) => ResendSame(db, c, code);
    case GoogleLogin(user, device, code) => IssueSame(db, user, device, code);
    case BeginToggle(user, _, device, code) => IssueSame(db, user, device, code);
    case FinishToggle(user, ok, c, code, enabled) => ToggleSame(db, user, ok, c, code, enabled);
    case ExpireUserFails(_) =>
    case ExpireIpFails(_) =>
    case _ => ExpirySame(db, e);
  }

  lemma IssueSame(db: Db, user: UserId, device: Device, code: Code)
    ensures SamePasswords(db, Issue(db, user, device, code))
    ensures SamePasswords(db, GoogleLoginStep(db, user, device, code).0)
  {
  }

  lemma ToggleSame(db: Db, user: UserId, ok: bool, c: ChallengeId, code: Code, enabled: bool)
    ensures SamePasswords(db, FinishToggleStep(db, user, ok, c, code, enabled).0)
  {
  }

  lemma ExpirySame(db: Db, e: Event)
    requires e.PutUser? || e.ExpireChallenge? || e.ExpireLink? || e.ExpireCooldown?
    ensures SamePasswords(db, Step(db, e).0)
  {
  }

  // -- the bound -------------------------------------------------------------

  /** A sign-in that passes found the counter below the lock. */
  lemma StartWithin(db: Db, w: Worker, u: UserId, ip: Ip, key: Key, n: nat)
    requires Within(db, key, n) && |InFlight(StartLoginStep(db, w, u, ip).0, key)| <= n
    ensures Within(StartLoginStep(db, w, u, ip).0, key, n)
  {
    var after := StartLoginStep(db, w, u, ip).0;
    if after == db || !Concerns(Attempt(u, ip), key) {
      assert InFlight(after, key) <= InFlight(db, key);
      Fewer(InFlight(after, key), InFlight(db, key));
    } else {
      assert w in InFlight(after, key);
      assert Counted(db, key) < Lock(key);
    }
  }

  lemma AdmitFrame(db: Db, user: UserId, trusted: bool, device: Device, code: Code)
    requires user in db.users
    ensures SamePasswords(db, Admit(db, user, trusted, device, code).0)
  {
  }

  lemma FinishFrame(db: Db, w: Worker, ok: bool, trusted: bool, device: Device, code: Code, key: Key)
    requires w in db.logins
    ensures var after := FinishLoginStep(db, w, ok, trusted, device, code).0;
      && after.logins == db.logins - {w}
      && Counted(after, key) <= Counted(db, key) + (if Concerns(db.logins[w], key) then 1 else 0)
  {
    var user := db.logins[w].user;
    if user in db.users && ok && !db.users[user].blocked {
      AdmitFrame(db.(logins := db.logins - {w}, userFails := db.userFails - {user}), user, trusted, device, code);
    }
  }

  /** One that finishes is counted at most once, and is no longer in flight. */
  lemma FinishWithin(db: Db, w: Worker, ok: bool, trusted: bool, device: Device, code: Code, key: Key, n: nat)
    requires Within(db, key, n)
    ensures Within(FinishLoginStep(db, w, ok, trusted, device, code).0, key, n)
  {
    if w in db.logins {
      FinishFrame(db, w, ok, trusted, device, code, key);
      assert InFlight(FinishLoginStep(db, w, ok, trusted, device, code).0, key) == InFlight(db, key) - {w};
    }
  }

  lemma StepWithin(db: Db, e: Event, key: Key, n: nat)
    requires Within(db, key, n) && |InFlight(Step(db, e).0, key)| <= n
    ensures Within(Step(db, e).0, key, n)
  {
    if e.StartLogin? {
      StartWithin(db, e.worker, e.user, e.ip, key, n);
    } else if e.FinishLogin? {
      FinishWithin(db, e.worker, e.passwordOk, e.trusted, e.device, e.code, key, n);
    } else {
      OtherSteps(db, e, key);
      assert InFlight(Step(db, e).0, key) == InFlight(db, key);
    }
  }

  lemma {:induction false} RunWithin(es: seq<Event>, key: Key, n: nat)
    requires AtMost(es, key, n)
    ensures Within(Run(EMPTY, es), key, n)
  {
    if es != [] {
      var m := |es| - 1;
      RunWithin(es[..m], key, n);
      StepWithin(Run(EMPTY, es[..m]), es[m], key, n);
    }
  }

  /**
   The counters are read before the password is compared and written after.  With
   at most n sign-ins of an address in flight at once its count never passes 4 + n
   between two resets, and with n of a network 29 + n: the locks themselves, five
   and thirty, when they come one at a time.
   */
  lemma {:induction false} WrongPasswordsBounded(es: seq<Event>, key: Key, n: nat)
    requires AtMost(es, key, n)
    ensures Counted(Run(EMPTY, es), key) <= Bound(key, n)
  {
    RunWithin(es, key, n);
  }

  // -- the bound is met ------------------------------------------------------

  lemma RunPush(db: Db, es: seq<Event>, e: Event)
    ensures Run(db, es + [e]) == Step(Run(db, es), e).0
  {
    assert (es + [e])[..|es|] == es;
  }

  /** Sign-ins of user 0 from network 0 by the first n workers, all with a wrong password. */
  ghost predicate Guesses(es: seq<Event>, n: nat) {
    forall i :: 0 <= i < |es| ==>
      && (es[i].StartLogin? || es[i].FinishLogin?)
      && (es[i].StartLogin? ==> es[i].worker < n && es[i].user == 0 && es[i].ip == 0)
      && (es[i].FinishLogin? ==> !es[i].passwordOk)
  }

  lemma {:induction false} GuessesAtMost(es: seq<Event>, n: nat)
    requires Guesses(es, n)
    ensures Run(EMPTY, es).logins.Keys <= Below(n) && AtMost(es, OfUser(0), n)
  {
    if es != [] {
      var m := |es| - 1;
      GuessesAtMost(es[..m], n);
      var db := Run(EMPTY, es[..m]);
      if es[m].FinishLogin? && es[m].worker in db.logins {
        FinishFrame(db, es[m].worker, false, es[m].trusted, es[m].device, es[m].code, OfUser(0));
      }
    }
    Fewer(InFlight(Run(EMPTY, es), OfUser(0)), Below(n));
  }

  /** What n workers have in flight for user 0, and what was counted. */
  ghost predicate Waiting(db: Db, fails: nat, a: nat, b: nat) {
    && Fails(db.userFails, 0) == fails && Fails(db.ipFails, 0) == fails
    && forall w :: a <= w < b ==> w in db.logins && db.logins[w] == Attempt(0, 0)
  }

  lemma Start(es: seq<Event>, fails: nat, w: nat, n: nat) returns (longer: seq<Event>)
    requires Guesses(es, n) && w < n && fails < FAILS_BEFORE_LOCK && Waiting(Run(EMPTY, es), fails, 0, w)
    ensures Guesses(longer, n) && Waiting(Run(EMPTY, longer), fails, 0, w + 1)
  {
    RunPush(EMPTY, es, StartLogin(w, 0, 0));
    longer := es + [StartLogin(w, 0, 0)];
  }

  lemma Fail(es: seq<Event>, fails: nat, w: nat, b: nat, n: nat) returns (longer: seq<Event>)
    requires Guesses(es, n) && w < b && Waiting(Run(EMPTY, es), fails, w, b)
    ensures Guesses(longer, n) && Waiting(Run(EMPTY, longer), fails + 1, w + 1, b)
  {
    RunPush(EMPTY, es, FinishLogin(w, false, false, 0, 0));
    longer := es + [FinishLogin(w, false, false, 0, 0)];
  }

  /** Wrong passwords one after the other. */
  lemma {:induction false} Serial(fails: nat, n: nat) returns (es: seq<Event>)
    requires fails < FAILS_BEFORE_LOCK && n > 0
    ensures Guesses(es, n) && Waiting(Run(EMPTY, es), fails, 0, 0)
  {
    if fails == 0 {
      es := [];
    } else {
      var before := Serial(fails - 1, n);
      var started := Start(before, fails - 1, 0, n);
      es := Fail(started, fails - 1, 0, 1, n);
    }
  }

  lemma {:induction false} StartAll(m: nat, n: nat) returns (es: seq<Event>)
    requires m <= n && n > 0
    ensures Guesses(es, n) && Waiting(Run(EMPTY, es), FAILS_BEFORE_LOCK - 1, 0, m)
  {
    if m == 0 {
      es := Serial(FAILS_BEFORE_LOCK - 1, n);
    } else {
      var before := StartAll(m - 1, n);
      es := Start(before, FAILS_BEFORE_LOCK - 1, m - 1, n);
    }
  }

  lemma {:induction false} FailAll(m: nat, n: nat) returns (es: seq<Event>)
    requires m <= n && n > 0
    ensures Guesses(es, n) && Waiting(Run(EMPTY, es), FAILS_BEFORE_LOCK - 1 + m, m, n)
  {
    if m == 0 {
      es := StartAll(n, n);
    } else {
      var before := FailAll(m - 1, n);
      es := Fail(before, FAILS_BEFORE_LOCK - 1 + (m - 1), m - 1, n, n);
    }
  }

  /** The bound is met by n workers for every n. */
  lemma {:induction false} BoundIsMet(n: nat)
    ensures exists es :: AtMost(es, OfUser(0), n) && Counted(Run(EMPTY, es), OfUser(0)) == Bound(OfUser(0), n)
  {
    if n == 0 {
      assert AtMost([], OfUser(0), 0) by { assert InFlight(Run(EMPTY, []), OfUser(0)) == {}; }
    } else {
      var es := FailAll(n, n);
      GuessesAtMost(es, n);
    }
  }

  // -- the message of the hour -----------------------------------------------

  /** Some sign-in after the run is told to come back in an hour. */
  ghost predicate HourAnnounced(es: seq<Event>, user: UserId) {
    exists w, ip :: Step(Run(EMPTY, es), StartLogin(w, user, ip)).1 == Refused(LOCKED_AN_HOUR)
  }

  lemma HourIsTen(es: seq<Event>, user: UserId)
    ensures HourAnnounced(es, user) ==> Fails(Run(EMPTY, es).userFails, user) >= FAILS_BEFORE_LONG_LOCK
  {
  }

  lemma TenIsHour(db: Db, w: Worker, user: UserId, ip: Ip)
    requires Fails(db.userFails, user) >= FAILS_BEFORE_LONG_LOCK && Fails(db.ipFails, ip) < FAILS_PER_IP
    ensures Step(db, StartLogin(w, user, ip)).1 == Refused(LOCKED_AN_HOUR)
  {
  }

  /**
   At five the password is not looked at any more, so one sign-in after the other
   never gets to ten.  The lock of an hour can be announced if and only if six
   sign-ins of a user can be in flight at once.
   */
  lemma {:induction false} HourNeedsSix(n: nat)
    ensures (exists es :: AtMost(es, OfUser(0), n) && HourAnnounced(es, 0)) <==> n >= 6
  {
    if es :| AtMost(es, OfUser(0), n) && HourAnnounced(es, 0) {
      WrongPasswordsBounded(es, OfUser(0), n);
      HourIsTen(es, 0);
    }
    if n >= 6 {
      var es := FailAll(6, 6);
      GuessesAtMost(es, 6);
      Weaker(es, 6, n);
      TenIsHour(Run(EMPTY, es), 0, 0, 0);
      assert HourAnnounced(es, 0);
    }
  }

  lemma {:induction false} Weaker(es: seq<Event>, m: nat, n: nat)
    requires AtMost(es, OfUser(0), m) && m <= n
    ensures AtMost(es, OfUser(0), n)
  {
    if es != [] { Weaker(es[..|es| - 1], m, n); }
  }
}
