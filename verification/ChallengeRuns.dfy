/** What every run of the login challenges keeps, whichever door is tried. */
module ChallengeRuns {
  import opened Base
  import opened LoginChallenge

  // -- the invariant ---------------------------------------------------------

  /** The last message sent for a challenge. */
  ghost predicate Newest(mails: seq<Mail>, c: ChallengeId, m: nat) {
    m < |mails| && mails[m].challenge == c && forall k :: m < k < |mails| ==> mails[k].challenge != c
  }

  /** The challenge waits for what a message said. */
  predicate InForce(ch: Challenge, mail: Mail, m: nat) {
    ch.code == mail.code && ch.link == if mail.linked then Some(m) else None
  }

  ghost predicate LiveOk(db: Db, c: ChallengeId)
    requires c in db.otp
  {
    var ch := db.otp[c];
    && c < |db.issued| && ch.user == db.issued[c]
    && ch.attempts < LOGIN_OTP_ATTEMPTS && ch.resends <= LOGIN_OTP_RESENDS
    && (exists m: nat :: Newest(db.mails, c, m))
    && (forall m: nat :: Newest(db.mails, c, m) ==> InForce(ch, db.mails[m], m))
    && db.failed[c] <= ch.resends * (LOGIN_OTP_ATTEMPTS - 1) + ch.attempts
  }

  /**
   A link key left in Redis names its own challenge, and is that challenge's newest link
   if the challenge lives.
   */
  ghost predicate LinkOk(db: Db, l: Link)
    requires l in db.magic
  {
    && l < |db.mails| && db.mails[l].challenge == db.magic[l]
    && (db.magic[l] in db.otp ==> db.otp[db.magic[l]].link == Some(l))
  }

  /** What a challenge has been used for: sessions opened through it and 2FA changes it confirmed. */
  function Uses(db: Db, c: ChallengeId): nat {
    db.toggled[c] + if c < |db.issued| then db.sessions[SignIn(db.issued[c], Some(c))] else 0
  }

  const MAX_FAILED := LOGIN_OTP_RESENDS * (LOGIN_OTP_ATTEMPTS - 1) + LOGIN_OTP_ATTEMPTS

  ghost predicate UseOk(db: Db, c: ChallengeId) {
    && Uses(db, c) <= (if c in db.otp || c >= |db.issued| then 0 else 1)
    && db.failed[c] <= (if c < |db.issued| then MAX_FAILED else 0)
    && (forall u :: SignIn(u, Some(c)) in db.sessions ==> c < |db.issued| && u == db.issued[c])
  }

  ghost predicate Inv(db: Db) {
    && (forall c :: c in db.otp ==> LiveOk(db, c))
    && (forall l :: l in db.magic ==> LinkOk(db, l))
    && (forall m :: 0 <= m < |db.mails| ==> db.mails[m].challenge < |db.issued|)
    && (forall c: ChallengeId :: UseOk(db, c))
  }

  /** Issued once and gone since. */
  predicate Gone(db: Db, c: ChallengeId) {
    c < |db.issued| && c !in db.otp
  }

  // -- step lemmas -----------------------------------------------------------

  lemma MailPushed(mails: seq<Mail>, mail: Mail)
    ensures forall c: ChallengeId, m: nat :: Newest(mails + [mail], c, m) <==>
              if c == mail.challenge then m == |mails| else Newest(mails, c, m)
  {
    var after := mails + [mail];
    assert after[|mails|] == mail;
    forall c: ChallengeId, m: nat
      ensures Newest(after, c, m) <==> if c == mail.challenge then m == |mails| else Newest(mails, c, m)
    {
      assert m < |mails| && c == mail.challenge ==> !Newest(after, c, m);
      if Newest(after, c, m) {
        forall k | m < k < |mails| ensures mails[k].challenge != c { assert after[k] == mails[k]; }
      }
      if Newest(mails, c, m) {
        forall k | m < k < |mails| ensures after[k].challenge != c { assert after[k] == mails[k]; }
      }
    }
  }

  lemma IssueKeeps(db: Db, user: UserId, device: Device, code: Code)
    requires Inv(db)
    ensures Inv(Issue(db, user, device, code))
  {
    var after := Issue(db, user, device, code);
    MailPushed(db.mails, Mail(|db.issued|, code, false));
    forall c | c in after.otp ensures LiveOk(after, c) {
      if c < |db.issued| { assert LiveOk(db, c); } else {
        assert UseOk(db, c) && Newest(after.mails, c, |db.mails|);
      }
    }
    forall l | l in after.magic ensures LinkOk(after, l) { assert LinkOk(db, l); }
    forall c: ChallengeId ensures UseOk(after, c) { assert UseOk(db, c); }
  }

  /** A fresh link for a challenge that lives or is about to. */
  lemma RelinkKeeps(db: Db, c: ChallengeId, ch: Challenge)
    requires Inv(db) && c < |db.issued| && ch.user == db.issued[c]
    requires ch.attempts < LOGIN_OTP_ATTEMPTS && ch.resends <= LOGIN_OTP_RESENDS
    requires db.failed[c] <= ch.resends * (LOGIN_OTP_ATTEMPTS - 1) + ch.attempts
    requires Uses(db, c) == 0
    requires forall l :: l in db.magic && db.magic[l] == c ==> ch.link == Some(l)
    ensures Inv(Relinked(db, c, ch))
  {
    var after := Relinked(db, c, ch);
    var n := |db.mails|;
    MailPushed(db.mails, Mail(c, ch.code, true));
    assert Newest(after.mails, c, n);
    forall k | k in after.otp ensures LiveOk(after, k) {
      if k != c { assert LiveOk(db, k); }
    }
    forall l | l in after.magic ensures LinkOk(after, l) {
      if l != n { assert LinkOk(db, l); }
    }
    forall k: ChallengeId ensures UseOk(after, k) { assert UseOk(db, k); }
  }

  /** Keys gone, whichever. */
  lemma DropKeeps(db: Db, challenges: set<ChallengeId>, links: set<Link>)
    requires Inv(db)
    ensures Inv(db.(otp := db.otp - challenges, magic := db.magic - links))
  {
    var after := db.(otp := db.otp - challenges, magic := db.magic - links);
    forall k | k in after.otp ensures LiveOk(after, k) { assert LiveOk(db, k); }
    forall l | l in after.magic ensures LinkOk(after, l) { assert LinkOk(db, l); }
    forall k: ChallengeId ensures UseOk(after, k) { assert UseOk(db, k); }
  }

  lemma EndKeeps(db: Db, c: ChallengeId, ch: Challenge)
    requires Inv(db)
    ensures Inv(EndChallenge(db, c, ch))
  {
    DropKeeps(db, {c}, if ch.link.Some? then {ch.link.value} else {});
    assert ch.link.None? ==> db.magic - {} == db.magic;
  }

  lemma EnterKeeps(db: Db, c: ChallengeId, user: UserId)
    requires Inv(db) && Gone(db, c) && Uses(db, c) == 0 && user == db.issued[c]
    ensures Inv(Enter(db, c, user).0)
  {
    var after := Enter(db, c, user).0;
    forall k | k in after.otp ensures LiveOk(after, k) { assert LiveOk(db, k); }
    forall l | l in after.magic ensures LinkOk(after, l) { assert LinkOk(db, l); }
    forall k: ChallengeId ensures UseOk(after, k) { assert UseOk(db, k); }
  }

  lemma FinishLoginKeeps(db: Db, w: Worker, ok: bool, trusted: bool, device: Device, code: Code)
    requires Inv(db)
    ensures Inv(FinishLoginStep(db, w, ok, trusted, device, code).0)
  {
    if w in db.logins {
      var user, ip := db.logins[w].user, db.logins[w].ip;
      var done := db.(logins := db.logins - {w});
      if user !in db.users || !ok {
        AsideKeeps(db, WrongPassword(done, user, ip));
      } else if db.users[user].blocked {
        AsideKeeps(db, done);
      } else {
        var reset := done.(userFails := db.userFails - {user});
        AsideKeeps(db, reset);
        AdmitKeeps(reset, user, trusted, device, code);
      }
    }
  }

  lemma AdmitKeeps(db: Db, user: UserId, trusted: bool, device: Device, code: Code)
    requires Inv(db) && user in db.users
    ensures Inv(Admit(db, user, trusted, device, code).0)
  {
    if Admit(db, user, trusted, device, code).1.Challenged? {
      var started := db.(issued := db.issued + [user]);
      IssuedKeeps(db, user);
      RelinkKeeps(started, |db.issued|, Challenge(user, code, 0, 0, device, None));
    } else {
      DirectKeeps(db, user);
    }
  }

  lemma IssuedKeeps(db: Db, user: UserId)
    requires Inv(db)
    ensures Inv(db.(issued := db.issued + [user])) && |db.issued| !in db.otp
    ensures Uses(db.(issued := db.issued + [user]), |db.issued|) == 0 && db.failed[|db.issued|] == 0
    ensures forall l :: l in db.magic ==> db.magic[l] != |db.issued|
  {
    var after := db.(issued := db.issued + [user]);
    assert UseOk(db, |db.issued|);
    forall k | k in after.otp ensures LiveOk(after, k) { assert LiveOk(db, k); }
    forall l | l in after.magic ensures LinkOk(after, l) { assert LinkOk(db, l); }
    forall k: ChallengeId ensures UseOk(after, k) { assert UseOk(db, k); }
  }

  /** A session without a challenge. */
  lemma DirectKeeps(db: Db, user: UserId)
    requires Inv(db)
    ensures Inv(db.(sessions := db.sessions + multiset{SignIn(user, None)}))
  {
    var after := db.(sessions := db.sessions + multiset{SignIn(user, None)});
    forall k | k in after.otp ensures LiveOk(after, k) { assert LiveOk(db, k); }
    forall l | l in after.magic ensures LinkOk(after, l) { assert LinkOk(db, l); }
    forall k: ChallengeId ensures UseOk(after, k) { assert UseOk(db, k); }
  }

  lemma GoogleKeeps(db: Db, user: UserId, device: Device, code: Code)
    requires Inv(db)
    ensures Inv(GoogleLoginStep(db, user, device, code).0)
  {
    IssueKeeps(db, user, device, code);
    DirectKeeps(db, user);
  }

  lemma WrongCodeKeeps(db: Db, c: ChallengeId)
    requires Inv(db) && c in db.otp
    ensures Inv(WrongCode(db, c, db.otp[c]))
  {
    var tried := db.otp[c].(attempts := db.otp[c].attempts + 1);
    FailedRoom(db, c);
    if tried.attempts >= LOGIN_OTP_ATTEMPTS {
      EndKeeps(db, c, tried);
      var ended := EndChallenge(db, c, tried);
      assert WrongCode(db, c, db.otp[c]) == ended.(failed := ended.failed + multiset{c});
      FailedKeeps(ended, c);
    } else {
      assert WrongCode(db, c, db.otp[c]) == db.(otp := db.otp[c := tried], failed := db.failed + multiset{c});
      TriedKeeps(db, c, tried);
    }
  }

  /** A live challenge has not used up its failures. */
  lemma FailedRoom(db: Db, c: ChallengeId)
    requires Inv(db) && c in db.otp
    ensures c < |db.issued| && db.failed[c] < MAX_FAILED
  {
    assert LiveOk(db, c);
  }

  /** The check that ends a challenge is counted too. */
  lemma FailedKeeps(db: Db, c: ChallengeId)
    requires Inv(db) && Gone(db, c) && db.failed[c] < MAX_FAILED
    ensures Inv(db.(failed := db.failed + multiset{c}))
  {
    var after := db.(failed := db.failed + multiset{c});
    forall k | k in after.otp ensures LiveOk(after, k) { assert LiveOk(db, k); }
    forall l | l in after.magic ensures LinkOk(after, l) { assert LinkOk(db, l); }
    forall k: ChallengeId ensures UseOk(after, k) { assert UseOk(db, k); }
  }

  lemma TriedKeeps(db: Db, c: ChallengeId, tried: Challenge)
    requires Inv(db) && c in db.otp && tried == db.otp[c].(attempts := db.otp[c].attempts + 1)
    requires tried.attempts < LOGIN_OTP_ATTEMPTS
    ensures Inv(db.(otp := db.otp[c := tried], failed := db.failed + multiset{c}))
  {
    var after := db.(otp := db.otp[c := tried], failed := db.failed + multiset{c});
    assert LiveOk(db, c);
    forall k | k in after.otp ensures LiveOk(after, k) { assert LiveOk(db, k); }
    forall l | l in after.magic ensures LinkOk(after, l) { assert LinkOk(db, l); }
    forall k: ChallengeId ensures UseOk(after, k) { assert UseOk(db, k); }
  }

  lemma VerifyKeeps(db: Db, c: ChallengeId, code: Code, device: Device)
    requires Inv(db)
    ensures Inv(VerifyCodeStep(db, c, code, device).0)
  {
    if c in db.otp {
      var ch := db.otp[c];
      assert LiveOk(db, c) && UseOk(db, c);
      if ch.device != device {
        DropKeeps(db, {c}, {});
        assert db.magic - {} == db.magic;
      } else if code != ch.code {
        WrongCodeKeeps(db, c);
      } else {
        EndKeeps(db, c, ch);
        EnterKeeps(EndChallenge(db, c, ch), c, ch.user);
      }
    }
  }

  lemma OpenLinkKeeps(db: Db, link: Link)
    requires Inv(db)
    ensures Inv(OpenLinkStep(db, link).0)
  {
    if link in db.magic && db.magic[link] in db.otp {
      var c := db.magic[link];
      var ch := db.otp[c];
      var clicked := db.(magic := db.magic - {link});
      assert LiveOk(db, c) && UseOk(db, c) && LinkOk(db, link);
      DropKeeps(db, {c}, {link});
      assert (db.magic - {link}) - {link} == db.magic - {link};
      assert EndChallenge(clicked, c, ch) == db.(otp := db.otp - {c}, magic := db.magic - {link});
      EnterKeeps(EndChallenge(clicked, c, ch), c, ch.user);
    }
  }

  lemma AgainOk(db: Db, c: ChallengeId, again: Challenge)
    requires Inv(db) && c in db.otp
    requires again.resends == db.otp[c].resends + 1 && again.link == db.otp[c].link
    ensures c < |db.issued| && db.otp[c].user == db.issued[c] && Uses(db, c) == 0
    ensures db.failed[c] <= again.resends * (LOGIN_OTP_ATTEMPTS - 1)
    ensures forall l :: l in db.magic && db.magic[l] == c ==> again.link == Some(l)
  {
    assert LiveOk(db, c) && UseOk(db, c);
    forall l | l in db.magic && db.magic[l] == c ensures again.link == Some(l) { assert LinkOk(db, l); }
  }

  lemma ResendKeeps(db: Db, c: ChallengeId, code: Code)
    requires Inv(db)
    ensures Inv(ResendStep(db, c, code).0)
  {
    if ResendStep(db, c, code).1.Challenged? {
      var ch := db.otp[c];
      var again := ch.(code := code, attempts := 0, resends := ch.resends + 1);
      AgainOk(db, c, again);
      assert ResendStep(db, c, code).0 == Relinked(db, c, again).(cooldown := db.cooldown + {c});
      RelinkKeeps(db, c, again);
      AsideKeeps(Relinked(db, c, again), Relinked(db, c, again).(cooldown := db.cooldown + {c}));
    }
  }

  /** The invariant reads neither the users nor the cooldowns, nor anything kept about passwords. */
  ghost predicate SameChallenges(a: Db, b: Db) {
    b == a.(users := b.users, cooldown := b.cooldown, userFails := b.userFails, ipFails := b.ipFails, logins := b.logins)
  }

  lemma AsideKeeps(db: Db, after: Db)
    requires Inv(db) && SameChallenges(db, after)
    ensures Inv(after)
  {
    forall k | k in after.otp ensures LiveOk(after, k) { assert LiveOk(db, k); }
    forall l | l in after.magic ensures LinkOk(after, l) { assert LinkOk(db, l); }
    forall k: ChallengeId ensures UseOk(after, k) { assert UseOk(db, k); }
  }

  lemma ToggleKeeps(db: Db, user: UserId, ok: bool, c: ChallengeId, code: Code, enabled: bool)
    requires Inv(db)
    ensures Inv(FinishToggleStep(db, user, ok, c, code, enabled).0)
  {
    var (after, out) := FinishToggleStep(db, user, ok, c, code, enabled);
    if out == Done {
      assert LiveOk(db, c) && UseOk(db, c);
      forall k | k in after.otp ensures LiveOk(after, k) { assert LiveOk(db, k); }
      forall l | l in after.magic ensures LinkOk(after, l) { assert LinkOk(db, l); }
      forall k: ChallengeId ensures UseOk(after, k) { assert UseOk(db, k); }
    }
  }

  lemma ExpiryKeeps(db: Db, e: Event)
    requires Inv(db) && (e.ExpireChallenge? || e.ExpireLink? || e.ExpireCooldown?)
    ensures Inv(Step(db, e).0)
  {
    match e
    case ExpireChallenge(c) =>
      DropKeeps(db, {c}, {});
      assert db.magic - {} == db.magic;
    case ExpireLink(l) =>
      DropKeeps(db, {}, {l});
      assert db.otp - {} == db.otp;
    case ExpireCooldown(c) => AsideKeeps(db, Step(db, e).0);
  }

  lemma StepKeeps(db: Db, e: Event)
    requires Inv(db)
    ensures Inv(Step(db, e).0)
  {
    match e
    case PutUser(user, account) => AsideKeeps(db, Step(db, e).0);
    case StartLogin(_, _, _) => AsideKeeps(db, Step(db, e).0);
    case FinishLogin(w, ok, trusted, device, code) => FinishLoginKeeps(db, w, ok, trusted, device, code);
    case GoogleLogin(user, device, code) => GoogleKeeps(db, user, device, code);
    case VerifyCode(c, code, device) => VerifyKeeps(db, c, code, device);
    case OpenLink(l) => OpenLinkKeeps(db, l);
    case Resend(c, code) => ResendKeeps(db, c, code);
    case BeginToggle(user, ok, device, code) => IssueKeeps(db, user, device, code);
    case FinishToggle(user, ok, c, code, enabled) => ToggleKeeps(db, user, ok, c, code, enabled);
    case ExpireChallenge(_) => ExpiryKeeps(db, e);
    case ExpireLink(_) => ExpiryKeeps(db, e);
    case ExpireCooldown(_) => ExpiryKeeps(db, e);
    case ExpireUserFails(_) => AsideKeeps(db, Step(db, e).0);
    case ExpireIpFails(_) => AsideKeeps(db, Step(db, e).0);
  }

  lemma {:induction false} RunKeeps(db: Db, es: seq<Event>)
    requires Inv(db)
    ensures Inv(Run(db, es))
  {
    if es != [] {
      var n := |es| - 1;
      RunKeeps(db, es[..n]);
      StepKeeps(Run(db, es[..n]), es[n]);
    }
  }

  // -- what no step takes back -----------------------------------------------

  ghost predicate Continues(a: Db, b: Db) {
    && a.issued <= b.issued && a.mails <= b.mails
    && (forall c: ChallengeId :: Gone(a, c) ==> Gone(b, c) && b.toggled[c] == a.toggled[c] && b.failed[c] == a.failed[c])
    && (forall c: ChallengeId, u: UserId :: Gone(a, c) ==>
          b.sessions[SignIn(u, Some(c))] == a.sessions[SignIn(u, Some(c))])
  }

  /** A step about one challenge that is in Redis or new, and counted for no other. */
  ghost predicate About(a: Db, b: Db, c: ChallengeId) {
    && !Gone(a, c) && a.issued <= b.issued && a.mails <= b.mails && b.otp.Keys <= a.otp.Keys + {c}
    && (forall k: ChallengeId :: k != c ==> b.toggled[k] == a.toggled[k] && b.failed[k] == a.failed[k])
    && (forall k: ChallengeId, u: UserId :: k != c ==> b.sessions[SignIn(u, Some(k))] == a.sessions[SignIn(u, Some(k))])
  }

  lemma AboutContinues(a: Db, b: Db, c: ChallengeId)
    requires About(a, b, c)
    ensures Continues(a, b)
  {
  }

  lemma VerifyContinues(db: Db, c: ChallengeId, code: Code, device: Device)
    ensures Continues(db, VerifyCodeStep(db, c, code, device).0)
  {
    if c in db.otp {
      var ch := db.otp[c];
      if ch.device != device {
        AboutContinues(db, VerifyCodeStep(db, c, code, device).0, c);
      } else if code != ch.code {
        WrongCodeContinues(db, c);
      } else {
        EnterContinues(db, c, ch);
      }
    }
  }

  lemma WrongCodeContinues(db: Db, c: ChallengeId)
    requires c in db.otp
    ensures Continues(db, WrongCode(db, c, db.otp[c]))
  {
    AboutContinues(db, WrongCode(db, c, db.otp[c]), c);
  }

  lemma EnterContinues(db: Db, c: ChallengeId, ch: Challenge)
    requires c in db.otp
    ensures Continues(db, Enter(EndChallenge(db, c, ch), c, ch.user).0)
  {
    AboutContinues(db, Enter(EndChallenge(db, c, ch), c, ch.user).0, c);
  }

  lemma OpenLinkContinues(db: Db, l: Link)
    ensures Continues(db, OpenLinkStep(db, l).0)
  {
    if l in db.magic && db.magic[l] in db.otp { AboutContinues(db, OpenLinkStep(db, l).0, db.magic[l]); }
  }

  /** A resend writes back only a challenge it has found. */
  lemma ResendContinues(db: Db, c: ChallengeId, code: Code)
    ensures Continues(db, ResendStep(db, c, code).0)
  {
    if c in db.otp { AboutContinues(db, ResendStep(db, c, code).0, c); }
  }

  lemma LoginContinues(db: Db, w: Worker, ok: bool, trusted: bool, device: Device, code: Code)
    ensures Continues(db, FinishLoginStep(db, w, ok, trusted, device, code).0)
  {
    if w in db.logins && db.logins[w].user in db.users && ok && !db.users[db.logins[w].user].blocked {
      var user := db.logins[w].user;
      var reset := db.(logins := db.logins - {w}, userFails := db.userFails - {user});
      AdmitContinues(reset, user, trusted, device, code);
      assert Continues(reset, FinishLoginStep(db, w, ok, trusted, device, code).0);
    }
  }

  lemma AdmitContinues(db: Db, user: UserId, trusted: bool, device: Device, code: Code)
    requires user in db.users
    ensures Continues(db, Admit(db, user, trusted, device, code).0)
  {
    AboutContinues(db, Admit(db, user, trusted, device, code).0, |db.issued|);
  }

  /** The routes without a link. */
  lemma IssueContinues(db: Db, e: Event)
    requires e.GoogleLogin? || e.BeginToggle?
    ensures Continues(db, Step(db, e).0)
  {
    AboutContinues(db, Step(db, e).0, |db.issued|);
  }

  lemma ToggleContinues(db: Db, user: UserId, ok: bool, c: ChallengeId, code: Code, enabled: bool)
    ensures Continues(db, FinishToggleStep(db, user, ok, c, code, enabled).0)
  {
    if c in db.otp { AboutContinues(db, FinishToggleStep(db, user, ok, c, code, enabled).0, c); }
  }

  lemma {:induction false} StepContinues(db: Db, e: Event)
    ensures Continues(db, Step(db, e).0)
  {
    match e
    case FinishLogin(w, ok, trusted, device, code) => LoginContinues(db, w, ok, trusted, device, code);
    case StartLogin(_, _, _) =>
    case GoogleLogin(_, _, _) => IssueContinues(db, e);
    case BeginToggle(_, _, _, _) => IssueContinues(db, e);
    case VerifyCode(c, code, device) => VerifyContinues(db, c, code, device);
    case OpenLink(l) => OpenLinkContinues(db, l);
    case Resend(c, code) => ResendContinues(db, c, code);
    case FinishToggle(user, ok, c, code, enabled) => ToggleContinues(db, user, ok, c, code, enabled);
    case PutUser(_, _) =>
    case ExpireChallenge(_) =>
    case ExpireLink(_) =>
    case ExpireCooldown(_) =>
    case ExpireUserFails(_) =>
    case ExpireIpFails(_) =>
  }

  lemma {:induction false} RunContinues(db: Db, es: seq<Event>)
    ensures Continues(db, Run(db, es))
  {
    if es != [] {
      var n := |es| - 1;
      RunContinues(db, es[..n]);
      StepContinues(Run(db, es[..n]), es[n]);
    }
  }

  // -- the theorems ----------------------------------------------------------

  /**
   In any run a challenge opens at most one session, for the user it was issued
   to, or confirms one 2FA change, never both; once it has, it is gone.
   */
  lemma {:induction false} UsedAtMostOnce(es: seq<Event>, c: ChallengeId)
    ensures var db := Run(EMPTY, es);
      && (forall u :: SignIn(u, Some(c)) in db.sessions ==> c < |db.issued| && u == db.issued[c])
      && (c < |db.issued| ==>
            && db.toggled[c] + db.sessions[SignIn(db.issued[c], Some(c))] <= 1
            && (db.toggled[c] + db.sessions[SignIn(db.issued[c], Some(c))] == 1 ==> Gone(db, c)))
  {
    RunKeeps(EMPTY, es);
    assert UseOk(Run(EMPTY, es), c);
  }

  /** Nothing that names a gone challenge does anything: not a code, not a resend, not any link ever made for it. */
  lemma {:induction false} GoneForever(es: seq<Event>, c: ChallengeId, rest: seq<Event>, e: Event)
    requires Gone(Run(EMPTY, es), c)
    requires var db := Run(Run(EMPTY, es), rest);
      || (e.VerifyCode? && e.challenge == c) || (e.Resend? && e.challenge == c)
      || (e.FinishToggle? && e.challenge == c)
      || (e.OpenLink? && e.link < |db.mails| && db.mails[e.link].challenge == c)
    ensures var db := Run(Run(EMPTY, es), rest);
      && Gone(db, c) && Step(db, e).0 == db && Step(db, e).1.Refused?
  {
    RunKeeps(EMPTY, es);
    RunContinues(Run(EMPTY, es), rest);
    RunKeeps(Run(EMPTY, es), rest);
    var db := Run(Run(EMPTY, es), rest);
    if e.OpenLink? && e.link in db.magic { assert LinkOk(db, e.link); }
  }

  /**
   A link opens a session exactly while its key, its challenge and the user are
   there; then the message that carried it is the newest of its challenge.
   */
  lemma {:induction false} OnlyTheNewestLink(es: seq<Event>, l: Link)
    ensures var db := Run(EMPTY, es);
      Step(db, OpenLink(l)).1.SignedIn? <==>
      && l in db.magic && l < |db.mails| && Newest(db.mails, db.mails[l].challenge, l) && db.mails[l].linked
      && db.mails[l].challenge in db.otp && Owner(db, db.mails[l].challenge) in db.users
    ensures var db := Run(EMPTY, es);
      Step(db, OpenLink(l)).1.SignedIn? ==>
      && Step(db, OpenLink(l)).1.user == Owner(db, db.mails[l].challenge)
      && Gone(Step(db, OpenLink(l)).0, db.mails[l].challenge)
  {
    var db := Run(EMPTY, es);
    RunKeeps(EMPTY, es);
    if l in db.magic {
      assert LinkOk(db, l);
      if db.magic[l] in db.otp { var m := NewestInForce(db, db.magic[l]); }
    }
  }

  function Owner(db: Db, c: ChallengeId): UserId {
    if c < |db.issued| then db.issued[c] else 0
  }

  lemma NewestInForce(db: Db, c: ChallengeId) returns (m: nat)
    requires Inv(db) && c in db.otp
    ensures Newest(db.mails, c, m) && InForce(db.otp[c], db.mails[m], m)
    ensures c < |db.issued| && db.otp[c].user == db.issued[c]
    ensures forall k: nat :: Newest(db.mails, c, k) ==> k == m
  {
    assert LiveOk(db, c);
    m :| Newest(db.mails, c, m);
  }

  /**
   A code opens a session exactly when the newest message of a live challenge said it, in
   the browser that began.
   */
  lemma {:induction false} OnlyTheNewestCode(es: seq<Event>, c: ChallengeId, code: Code, device: Device)
    ensures var db := Run(EMPTY, es);
      Step(db, VerifyCode(c, code, device)).1.SignedIn? <==>
      && c in db.otp && db.otp[c].device == device && Owner(db, c) in db.users
      && exists m: nat :: Newest(db.mails, c, m) && db.mails[m].code == code
    ensures var db := Run(EMPTY, es);
      Step(db, VerifyCode(c, code, device)).1.SignedIn? ==>
      && Step(db, VerifyCode(c, code, device)).1.user == Owner(db, c)
      && Gone(Step(db, VerifyCode(c, code, device)).0, c)
  {
    var db := Run(EMPTY, es);
    RunKeeps(EMPTY, es);
    if c in db.otp { var m := NewestInForce(db, c); }
  }

  /** Each resend resets the attempts, yet all wrong codes a challenge ever takes are bounded. */
  lemma FailedChecksBounded(es: seq<Event>, c: ChallengeId)
    ensures Run(EMPTY, es).failed[c] <= LOGIN_OTP_RESENDS * (LOGIN_OTP_ATTEMPTS - 1) + LOGIN_OTP_ATTEMPTS == 17
  {
    RunKeeps(EMPTY, es);
    assert UseOk(Run(EMPTY, es), c);
  }

  ghost predicate Tried(db: Db, resends: nat, attempts: nat) {
    && 0 in db.otp && db.otp[0].resends == resends && db.otp[0].attempts == attempts
    && db.failed[0] == resends * (LOGIN_OTP_ATTEMPTS - 1) + attempts
    && db.otp[0].device == 0 && db.otp[0].code == 0 && db.otp[0].user in db.users
  }

  lemma RunPush(db: Db, es: seq<Event>, e: Event)
    ensures Run(db, es + [e]) == Step(Run(db, es), e).0
  {
    assert (es + [e])[..|es|] == es;
  }

  /** A run that has spent so many resends and so many attempts since. */
  lemma {:induction false} Spend(resends: nat, attempts: nat) returns (es: seq<Event>)
    requires resends <= LOGIN_OTP_RESENDS && attempts < LOGIN_OTP_ATTEMPTS
    ensures Tried(Run(EMPTY, es), resends, attempts)
    decreases resends, attempts
  {
    if attempts > 0 {
      var before := Spend(resends, attempts - 1);
      es := before + [VerifyCode(0, 1, 0)];
      RunPush(EMPTY, before, VerifyCode(0, 1, 0));
    } else if resends > 0 {
      var before := Spend(resends - 1, LOGIN_OTP_ATTEMPTS - 1);
      es := (before + [ExpireCooldown(0)]) + [Resend(0, 0)];
      RunPush(EMPTY, before, ExpireCooldown(0));
      RunPush(EMPTY, before + [ExpireCooldown(0)], Resend(0, 0));
    } else {
      var put, start, finish :=
        PutUser(0, Some(Account(true, false, true))), StartLogin(0, 0, 0), FinishLogin(0, true, false, 0, 0);
      es := [] + [put] + [start] + [finish];
      RunPush(EMPTY, [], put);
      RunPush(EMPTY, [] + [put], start);
      RunPush(EMPTY, [] + [put] + [start], finish);
    }
  }

  /** The bound is met: no smaller one holds. */
  lemma BoundIsReached()
    ensures exists es :: Run(EMPTY, es).failed[0] == LOGIN_OTP_RESENDS * (LOGIN_OTP_ATTEMPTS - 1) + LOGIN_OTP_ATTEMPTS
  {
    var before := Spend(LOGIN_OTP_RESENDS, LOGIN_OTP_ATTEMPTS - 1);
    RunPush(EMPTY, before, VerifyCode(0, 1, 0));
    assert Run(EMPTY, before + [VerifyCode(0, 1, 0)]).failed[0] == MAX_FAILED;
  }
}
