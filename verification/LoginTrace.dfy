/** What sign-in lets through and counts, read off the events of the run. */
module LoginTrace {
  import opened Base
  import opened LoginChallenge
  import opened ChallengeRuns
  import opened LoginLockout

  // -- who is signing in -----------------------------------------------------

  /** The address and the network a worker's unfinished sign-in was begun with. */
  function Typed(es: seq<Event>, w: Worker): Option<Attempt> {
    if es == [] then None
    else
      var n := |es| - 1;
      var e := es[n];
      if e.StartLogin? && e.worker == w && Step(Run(EMPTY, es[..n]), e).1 == Done then Some(Attempt(e.user, e.ip))
      else if e.FinishLogin? && e.worker == w then None
      else Typed(es[..n], w)
  }

  lemma OtherPasswords(db: Db, e: Event)
    requires !IsSignIn(e) && !e.ExpireUserFails? && !e.ExpireIpFails?
    ensures SamePasswords(db, Step(db, e).0)
  {
    match e
    case VerifyCode(c, code, device) => VerifySame(db, c, code, device);
    case OpenLink(l) => LinkSame(db, l);
    case Resend(c, code) => ResendSame(db, c, code);
    case GoogleLogin(user, device, code) => IssueSame(db, user, device, code);
    case BeginToggle(user, _, device, code) => IssueSame(db, user, device, code);
    case FinishToggle(user, ok, c, code, enabled) => ToggleSame(db, user, ok, c, code, enabled);
    case _ => ExpirySame(db, e);
  }

  lemma {:induction false} AttemptsAreTyped(es: seq<Event>, w: Worker)
    ensures var logins := Run(EMPTY, es).logins; Typed(es, w) == if w in logins then Some(logins[w]) else None
  {
    if es != [] {
      var n := |es| - 1;
      var db := Run(EMPTY, es[..n]);
      AttemptsAreTyped(es[..n], w);
      match es[n]
      case StartLogin(_, _, _) =>
      case FinishLogin(v, ok, trusted, device, code) =>
        if v in db.logins { FinishFrame(db, v, ok, trusted, device, code, OfUser(0)); }
      case ExpireUserFails(_) =>
      case ExpireIpFails(_) =>
      case _ => OtherPasswords(db, es[n]);
    }
  }

  // -- the password ----------------------------------------------------------

  /** What a failed sign-in leaves alone: everything but the counters and itself. */
  predicate NothingOpened(a: Db, b: Db) {
    b == a.(userFails := b.userFails, ipFails := b.ipFails, logins := b.logins)
  }

  /**
   A wrong password, or any for an unknown user, opens nothing and counts one for the
   address and one for the network.
   */
  lemma {:induction false} WrongPasswordIsCounted(
    db: Db, w: Worker, passwordOk: bool, trusted: bool, device: Device, code: Code)
    requires w in db.logins && (!passwordOk || db.logins[w].user !in db.users)
    ensures var (after, out) := Step(db, FinishLogin(w, passwordOk, trusted, device, code));
      && out == Refused(INVALID_CREDENTIALS) && NothingOpened(db, after) && after.logins == db.logins - {w}
      && forall key :: Counted(after, key) == Counted(db, key) + (if Concerns(db.logins[w], key) then 1 else 0)
  {
  }

  /**
   With the right one a blocked user is refused, and any other gets a session or, if a
   second factor is due, a challenge.
   */
  lemma {:induction false} RightPasswordGetsIn(db: Db, w: Worker, trusted: bool, device: Device, code: Code)
    requires w in db.logins && db.logins[w].user in db.users
    ensures var out := Step(db, FinishLogin(w, true, trusted, device, code)).1;
      var user, account := db.logins[w].user, db.users[db.logins[w].user];
      && (out == Refused(ACCOUNT_BLOCKED) <==> account.blocked)
      && (out == SignedIn(user) <==> !account.blocked && (!account.twoFactor || (account.citizen && trusted)))
      && (out == Challenged(|db.issued|) <==> !account.blocked && account.twoFactor && !(account.citizen && trusted))
  {
  }

  /** It counts nothing, and unless the user is blocked the counter of the address starts again. */
  lemma {:induction false} RightPasswordCounts(db: Db, w: Worker, trusted: bool, device: Device, code: Code, key: Key)
    requires w in db.logins && db.logins[w].user in db.users
    ensures var user := db.logins[w].user;
      Counted(Step(db, FinishLogin(w, true, trusted, device, code)).0, key)
      == if key == OfUser(user) && !db.users[user].blocked then 0 else Counted(db, key)
  {
    var user := db.logins[w].user;
    if !db.users[user].blocked {
      AdmitFrame(db.(logins := db.logins - {w}, userFails := db.userFails - {user}), user, trusted, device, code);
    }
  }

  // -- what the counters count -----------------------------------------------

  /** The event finishes a sign-in that fails: its password is wrong, or its user unknown. */
  predicate GuessesWrong(es: seq<Event>, e: Event, key: Key) {
    && e.FinishLogin? && Typed(es, e.worker).Some? && Concerns(Typed(es, e.worker).value, key)
    && (!e.passwordOk || Typed(es, e.worker).value.user !in Run(EMPTY, es).users)
  }

  /** The counter of an address also starts again when its user signs in with the right password. */
  predicate Resets(es: seq<Event>, e: Event, key: Key) {
    match key
    case OfNetwork(ip) => e == ExpireIpFails(ip)
    case OfUser(user) => e == ExpireUserFails(user) || ProvesPassword(es, e, user)
  }

  /** The event finishes a sign-in of a user, not blocked, with the right password. */
  predicate ProvesPassword(es: seq<Event>, e: Event, user: UserId) {
    var users := Run(EMPTY, es).users;
    && e.FinishLogin? && e.passwordOk && Typed(es, e.worker).Some? && Typed(es, e.worker).value.user == user
    && user in users && !users[user].blocked
  }

  /** The failed sign-ins of the run since the last reset. */
  function FailedSince(es: seq<Event>, key: Key): nat {
    if es == [] then 0
    else
      var n := |es| - 1;
      if Resets(es[..n], es[n], key) then 0
      else FailedSince(es[..n], key) + (if GuessesWrong(es[..n], es[n], key) then 1 else 0)
  }

  /** What the counter of a key is after an event, told by what the event is. */
  ghost predicate CountsOn(es: seq<Event>, e: Event, key: Key) {
    Counted(Step(Run(EMPTY, es), e).0, key)
    == if Resets(es, e, key) then 0 else Counted(Run(EMPTY, es), key) + (if GuessesWrong(es, e, key) then 1 else 0)
  }

  lemma StepCounts(es: seq<Event>, e: Event, key: Key)
    ensures CountsOn(es, e, key)
  {
    if e.FinishLogin? {
      FinishCounts(es, e, key);
    } else if e.StartLogin? || e.ExpireUserFails? || e.ExpireIpFails? {
      CounterCounts(es, e, key);
    } else {
      OtherPasswords(Run(EMPTY, es), e);
    }
  }

  lemma CounterCounts(es: seq<Event>, e: Event, key: Key)
    requires e.StartLogin? || e.ExpireUserFails? || e.ExpireIpFails?
    ensures CountsOn(es, e, key)
  {
  }

  lemma FinishCounts(es: seq<Event>, e: Event, key: Key)
    requires e.FinishLogin?
    ensures CountsOn(es, e, key)
  {
    var db := Run(EMPTY, es);
    AttemptsAreTyped(es, e.worker);
    if e.worker in db.logins {
      if !e.passwordOk || db.logins[e.worker].user !in db.users {
        WrongPasswordIsCounted(db, e.worker, e.passwordOk, e.trusted, e.device, e.code);
      } else {
        RightPasswordCounts(db, e.worker, e.trusted, e.device, e.code, key);
      }
    }
  }

  /** The counter is the number of failed sign-ins there have been since its last reset, in every run. */
  lemma {:induction false} CountersCount(es: seq<Event>, key: Key)
    ensures Counted(Run(EMPTY, es), key) == FailedSince(es, key)
  {
    if es != [] {
      var n := |es| - 1;
      CountersCount(es[..n], key);
      StepCounts(es[..n], es[n], key);
    }
  }

  /**
   So with at most n in flight there are at most 4 + n of an address, and 29 + n of a
   network, between two resets.
   */
  lemma {:induction false} FailuresBounded(es: seq<Event>, key: Key, n: nat)
    requires AtMost(es, key, n)
    ensures FailedSince(es, key) <= (if n == 0 then 0 else n + match key case OfUser(_) => 4 case OfNetwork(_) => 29)
  {
    CountersCount(es, key);
    WrongPasswordsBounded(es, key, n);
  }

  /** The locks: thirty failures from a network, five of an address, and another message from ten on. */
  lemma {:induction false} Locks(es: seq<Event>, w: Worker, user: UserId, ip: Ip)
    ensures var out := Step(Run(EMPTY, es), StartLogin(w, user, ip)).1;
      var ofUser, ofNetwork := FailedSince(es, OfUser(user)), FailedSince(es, OfNetwork(ip));
      && (out == Done <==> ofNetwork < 30 && ofUser < 5)
      && (out == Refused(RATE_LIMITED) <==> ofNetwork >= 30)
      && (out == Refused(LOCKED_15_MINUTES) <==> ofNetwork < 30 && 5 <= ofUser < 10)
      && (out == Refused(LOCKED_AN_HOUR) <==> ofNetwork < 30 && ofUser >= 10)
  {
    CountersCount(es, OfUser(user));
    CountersCount(es, OfNetwork(ip));
  }

  // -- what a session rests on -----------------------------------------------

  /**
   The event shows a first factor of the user and is let through: a password, a Google
   profile, or the password again at the switch.
   */
  predicate Proves(es: seq<Event>, e: Event, user: UserId) {
    var users := Run(EMPTY, es).users;
    || ProvesPassword(es, e, user)
    || (e.GoogleLogin? && e.user == user && user in users && !users[user].blocked)
    || (e.BeginToggle? && e.user == user && e.passwordOk && user in users && users[user].citizen)
  }

  function Proofs(es: seq<Event>, user: UserId): nat {
    if es == [] then 0
    else var n := |es| - 1; Proofs(es[..n], user) + (if Proves(es[..n], es[n], user) then 1 else 0)
  }

  function IssuedTo(issued: seq<UserId>, user: UserId): nat {
    if issued == [] then 0
    else IssuedTo(issued[..|issued| - 1], user) + (if issued[|issued| - 1] == user then 1 else 0)
  }

  lemma IssuedPush(issued: seq<UserId>, u: UserId, user: UserId)
    ensures IssuedTo(issued + [u], user) == IssuedTo(issued, user) + (if u == user then 1 else 0)
  {
    assert (issued + [u])[..|issued|] == issued;
  }

  /** The sessions a user was given without a challenge, and the challenges it was given. */
  function Openings(db: Db, user: UserId): nat {
    db.sessions[SignIn(user, None)] + IssuedTo(db.issued, user)
  }

  lemma RelinkOpensNone(db: Db, c: ChallengeId, ch: Challenge, user: UserId)
    ensures Openings(Relinked(db, c, ch), user) == Openings(db, user)
  {
  }

  lemma DirectOpens(db: Db, u: UserId, user: UserId)
    ensures Openings(db.(sessions := db.sessions + multiset{SignIn(u, None)}), user)
         == Openings(db, user) + (if u == user then 1 else 0)
  {
  }

  lemma AdmitOpens(db: Db, u: UserId, trusted: bool, device: Device, code: Code, user: UserId)
    requires u in db.users
    ensures Openings(Admit(db, u, trusted, device, code).0, user) == Openings(db, user) + (if u == user then 1 else 0)
  {
    DirectOpens(db, u, user);
    IssuedPush(db.issued, u, user);
    RelinkOpensNone(db.(issued := db.issued + [u]), |db.issued|, Challenge(u, code, 0, 0, device, None), user);
  }

  /** A sign-in finished opens what it opens for the user who began it. */
  lemma FinishRaises(db: Db, e: Event, user: UserId)
    requires e.FinishLogin? && e.worker in db.logins
    ensures var u := db.logins[e.worker].user;
      Openings(Step(db, e).0, user)
      == Openings(db, user) + (if u == user && e.passwordOk && u in db.users && !db.users[u].blocked then 1 else 0)
  {
    var u := db.logins[e.worker].user;
    if !e.passwordOk || u !in db.users {
      WrongPasswordIsCounted(db, e.worker, e.passwordOk, e.trusted, e.device, e.code);
    } else if !db.users[u].blocked {
      var reset := db.(logins := db.logins - {e.worker}, userFails := db.userFails - {u});
      AdmitOpens(reset, u, e.trusted, e.device, e.code, user);
    }
  }

  lemma FinishOpens(es: seq<Event>, e: Event, user: UserId)
    requires e.FinishLogin?
    ensures Openings(Step(Run(EMPTY, es), e).0, user)
         == Openings(Run(EMPTY, es), user) + (if Proves(es, e, user) then 1 else 0)
  {
    AttemptsAreTyped(es, e.worker);
    if e.worker in Run(EMPTY, es).logins { FinishRaises(Run(EMPTY, es), e, user); }
  }

  lemma IssueRaises(db: Db, u: UserId, device: Device, code: Code, user: UserId)
    ensures Openings(Issue(db, u, device, code), user) == Openings(db, user) + (if u == user then 1 else 0)
  {
    IssuedPush(db.issued, u, user);
  }

  lemma GoogleOpens(db: Db, u: UserId, device: Device, code: Code, user: UserId)
    ensures Openings(GoogleLoginStep(db, u, device, code).0, user)
         == Openings(db, user) + (if u == user && u in db.users && !db.users[u].blocked then 1 else 0)
  {
    IssueRaises(db, u, device, code, user);
  }

  lemma ToggleOpens(db: Db, u: UserId, ok: bool, device: Device, code: Code, user: UserId)
    ensures Openings(BeginToggleStep(db, u, ok, device, code).0, user)
         == Openings(db, user) + (if u == user && ok && u in db.users && db.users[u].citizen then 1 else 0)
  {
    IssueRaises(db, u, device, code, user);
  }

  lemma EnterOpensNone(db: Db, c: ChallengeId, ch: Challenge, user: UserId)
    ensures Openings(Enter(EndChallenge(db, c, ch), c, ch.user).0, user) == Openings(db, user)
  {
  }

  lemma VerifyOpensNone(db: Db, c: ChallengeId, code: Code, device: Device, user: UserId)
    ensures Openings(VerifyCodeStep(db, c, code, device).0, user) == Openings(db, user)
  {
    if c in db.otp {
      if db.otp[c].device == device {
        EnterOpensNone(db, c, db.otp[c], user);
      }
    }
  }

  lemma RestOpensNone(db: Db, e: Event, user: UserId)
    requires !e.FinishLogin? && !e.GoogleLogin? && !e.BeginToggle?
    ensures Openings(Step(db, e).0, user) == Openings(db, user)
  {
    if e.VerifyCode? { VerifyOpensNone(db, e.challenge, e.code, e.device, user); }
  }

  /**
   Every session without a challenge and every challenge of a user was let through on one
   showing of a first factor.
   */
  lemma {:induction false} EverySignInWasProved(es: seq<Event>, user: UserId)
    ensures Openings(Run(EMPTY, es), user) == Proofs(es, user)
  {
    if es != [] {
      var n := |es| - 1;
      EverySignInWasProved(es[..n], user);
      if es[n].FinishLogin? {
        FinishOpens(es[..n], es[n], user);
      } else if es[n].GoogleLogin? {
        GoogleOpens(Run(EMPTY, es[..n]), es[n].user, es[n].device, es[n].code, user);
      } else if es[n].BeginToggle? {
        ToggleOpens(Run(EMPTY, es[..n]), es[n].user, es[n].passwordOk, es[n].device, es[n].code, user);
      } else {
        RestOpensNone(Run(EMPTY, es[..n]), es[n], user);
      }
    }
  }

  /**
   A Google profile gets its user a session or, with the second factor on, a challenge; a
   blocked one is refused, an unknown one signs up.
   */
  lemma {:induction false} GoogleGetsIn(db: Db, user: UserId, device: Device, code: Code)
    ensures var out := Step(db, GoogleLogin(user, device, code)).1;
      && (out == SignupStarted <==> user !in db.users)
      && (out == Refused(ACCOUNT_BLOCKED) <==> user in db.users && db.users[user].blocked)
      && (out == SignedIn(user) <==> user in db.users && !db.users[user].blocked && !db.users[user].twoFactor)
      && (out == Challenged(|db.issued|) <==> user in db.users && !db.users[user].blocked && db.users[user].twoFactor)
  {
  }

  /**
   The event shows the user's first factor where no second is due: it is off, or a
   citizen signs in on a trusted device.
   */
  predicate NeedsNoSecond(es: seq<Event>, e: Event, user: UserId) {
    && Proves(es, e, user) && user in Run(EMPTY, es).users
    && var account := Run(EMPTY, es).users[user];
    || (e.GoogleLogin? && !account.twoFactor)
    || (e.FinishLogin? && (!account.twoFactor || (account.citizen && e.trusted)))
  }

  function DirectSignIns(es: seq<Event>, user: UserId): nat {
    if es == [] then 0
    else var n := |es| - 1; DirectSignIns(es[..n], user) + (if NeedsNoSecond(es[..n], es[n], user) then 1 else 0)
  }

  lemma FinishDirect(es: seq<Event>, e: Event, user: UserId)
    requires e.FinishLogin?
    ensures Step(Run(EMPTY, es), e).0.sessions[SignIn(user, None)]
         == Run(EMPTY, es).sessions[SignIn(user, None)] + (if NeedsNoSecond(es, e, user) then 1 else 0)
  {
    AttemptsAreTyped(es, e.worker);
  }

  lemma RestDirect(db: Db, e: Event, user: UserId)
    requires !e.FinishLogin? && !e.GoogleLogin?
    ensures Step(db, e).0.sessions[SignIn(user, None)] == db.sessions[SignIn(user, None)]
  {
    match e
    case VerifyCode(c, code, device) => VerifyDirect(db, c, code, device, user);
    case OpenLink(_) =>
    case Resend(_, _) =>
    case _ =>
  }

  lemma VerifyDirect(db: Db, c: ChallengeId, code: Code, device: Device, user: UserId)
    ensures VerifyCodeStep(db, c, code, device).0.sessions[SignIn(user, None)] == db.sessions[SignIn(user, None)]
  {
  }

  /** The sessions without a challenge are exactly the sign-ins for which no second factor was due. */
  lemma {:induction false} EveryDirectSession(es: seq<Event>, user: UserId)
    ensures Run(EMPTY, es).sessions[SignIn(user, None)] == DirectSignIns(es, user)
  {
    if es != [] {
      var n := |es| - 1;
      EveryDirectSession(es[..n], user);
      if es[n].FinishLogin? {
        FinishDirect(es[..n], es[n], user);
      } else if !es[n].GoogleLogin? {
        RestDirect(Run(EMPTY, es[..n]), es[n], user);
      }
    }
  }

  /** The sessions of a user that came by one of the first n challenges. */
  function Through(sessions: multiset<SignIn>, user: UserId, n: nat): nat {
    if n == 0 then 0 else Through(sessions, user, n - 1) + sessions[SignIn(user, Some(n - 1))]
  }

  lemma {:induction false} OneEach(db: Db, user: UserId, n: nat)
    requires Inv(db) && n <= |db.issued|
    ensures Through(db.sessions, user, n) <= IssuedTo(db.issued[..n], user)
  {
    if n > 0 {
      OneEach(db, user, n - 1);
      assert db.issued[..n][..n - 1] == db.issued[..n - 1];
      assert UseOk(db, n - 1);
    }
  }

  /**
   A user never has more sessions than first factors shown: each challenge is good for
   one, and no other counts.
   */
  lemma {:induction false} SessionsBounded(es: seq<Event>, user: UserId)
    ensures var db := Run(EMPTY, es);
      && db.sessions[SignIn(user, None)] + Through(db.sessions, user, |db.issued|) <= Proofs(es, user)
      && forall c :: c >= |db.issued| ==> db.sessions[SignIn(user, Some(c))] == 0
  {
    var db := Run(EMPTY, es);
    RunKeeps(EMPTY, es);
    EverySignInWasProved(es, user);
    OneEach(db, user, |db.issued|);
    assert db.issued[..|db.issued|] == db.issued;
    forall c: ChallengeId | c >= |db.issued| ensures db.sessions[SignIn(user, Some(c))] == 0 { assert UseOk(db, c); }
  }
}
