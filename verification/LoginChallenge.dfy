/**
 The second factor: a login challenge in Redis, entered by code or by emailed link.

 Five kinds of key: `otp` holds a challenge under its id, `magic` a challenge id
 under the hash of a link, `cooldown` marks a challenge that was just resent, and
 `userFails` and `ipFails` count wrong passwords by address and by network.  Any
 key may expire at any moment.  Ids, links and codes are random; ids and links are
 fresh.  A challenge is numbered by its place in `issued`, which remembers its
 user; a link by the place in `mails` of the message that carries it.  `sessions`,
 `toggled` and `failed` count what each challenge was used for.
 */
module LoginChallenge {
  import opened Base

  type ChallengeId = nat
  type Link = nat
  type Code = nat
  type Device = nat
  type Ip = nat
  type Worker = nat

  datatype Challenge = Challenge(
    user: UserId, code: Code, attempts: nat, resends: nat, device: Device, link: Option<Link>)

  datatype Account = Account(citizen: bool, blocked: bool, twoFactor: bool)

  /** A message sent for a challenge: its code, and a link unless the route has none. */
  datatype Mail = Mail(challenge: ChallengeId, code: Code, linked: bool)

  /** A sign-in that has passed the counters and has its password still to be compared. */
  datatype Attempt = Attempt(user: UserId, ip: Ip)

  /** A session, and the challenge that let it in unless none was asked for. */
  datatype SignIn = SignIn(user: UserId, challenge: Option<ChallengeId>)

  datatype Db = Db(
    otp: map<ChallengeId, Challenge>, magic: map<Link, ChallengeId>, cooldown: set<ChallengeId>,
    users: map<UserId, Account>, issued: seq<UserId>, mails: seq<Mail>,
    sessions: multiset<SignIn>, toggled: multiset<ChallengeId>, failed: multiset<ChallengeId>,
    userFails: map<UserId, nat>, ipFails: map<Ip, nat>, logins: map<Worker, Attempt>)

  const EMPTY := Db(map[], map[], {}, map[], [], [], multiset{}, multiset{}, multiset{}, map[], map[], map[])

  datatype Error =
    | OTP_EXPIRED | OTP_INVALID | OTP_COOLDOWN | RATE_LIMITED | INVALID_CREDENTIALS
    | ACCOUNT_BLOCKED | USER_GONE | FORBIDDEN_ROLE | NOT_FOUND | LOCKED_15_MINUTES | LOCKED_AN_HOUR

  datatype Outcome =
    SignedIn(user: UserId) | Challenged(challenge: ChallengeId) | SignupStarted | Done | Refused(error: Error)

  const LOGIN_OTP_ATTEMPTS := 5
  const LOGIN_OTP_RESENDS := 3
  const FAILS_BEFORE_LOCK := 5
  const FAILS_BEFORE_LONG_LOCK := 10
  const FAILS_PER_IP := 30

  /** One endpoint call, or a key running out of time. */
  datatype Event =
    | PutUser(user: UserId, account: Option<Account>)
    | StartLogin(worker: Worker, user: UserId, ip: Ip)
    | FinishLogin(worker: Worker, passwordOk: bool, trusted: bool, device: Device, code: Code)
    | GoogleLogin(user: UserId, device: Device, code: Code)
    | VerifyCode(challenge: ChallengeId, code: Code, device: Device)
    | OpenLink(link: Link)
    | Resend(challenge: ChallengeId, code: Code)
    | BeginToggle(user: UserId, passwordOk: bool, device: Device, code: Code)
    | FinishToggle(user: UserId, passwordOk: bool, challenge: ChallengeId, code: Code, enabled: bool)
    | ExpireChallenge(challenge: ChallengeId)
    | ExpireLink(link: Link)
    | ExpireCooldown(challenge: ChallengeId)
    | ExpireUserFails(user: UserId)
    | ExpireIpFails(ip: Ip)

  /** A challenge without a link, as the Google and the 2FA routes make it. */
  function Issue(db: Db, user: UserId, device: Device, code: Code): Db {
    var c := |db.issued|;
    db.(otp := db.otp[c := Challenge(user, code, 0, 0, device, None)], issued := db.issued + [user],
        mails := db.mails + [Mail(c, code, false)])
  }

  function WithoutLink(magic: map<Link, ChallengeId>, link: Option<Link>): map<Link, ChallengeId> {
    if link.Some? then magic - {link.value} else magic
  }

  /** `issueMagicLink`, and the challenge written back and mailed: the new link takes the place of the old. */
  function Relinked(db: Db, c: ChallengeId, challenge: Challenge): Db {
    var l := |db.mails|;
    db.(otp := db.otp[c := challenge.(link := Some(l))],
        magic := WithoutLink(db.magic, challenge.link)[l := c],
        mails := db.mails + [Mail(c, challenge.code, true)])
  }

  function EndChallenge(db: Db, c: ChallengeId, challenge: Challenge): Db {
    db.(otp := db.otp - {c}, magic := WithoutLink(db.magic, challenge.link))
  }

  /** The session a challenge leads to, if its user is still there. */
  function Enter(db: Db, c: ChallengeId, user: UserId): (Db, Outcome) {
    if user !in db.users then (db, Refused(USER_GONE))
    else (db.(sessions := db.sessions + multiset{SignIn(user, Some(c))}), SignedIn(user))
  }

  function PutUserStep(db: Db, user: UserId, account: Option<Account>): (Db, Outcome) {
    (db.(users := if account.Some? then db.users[user := account.value] else db.users - {user}), Done)
  }

  function Fails(fails: map<nat, nat>, key: nat): nat {
    if key in fails then fails[key] else 0
  }

  /** What the counters say before the password is looked at. */
  function LockedOut(db: Db, user: UserId, ip: Ip): Option<Error> {
    if Fails(db.ipFails, ip) >= FAILS_PER_IP then Some(RATE_LIMITED)
    else if Fails(db.userFails, user) >= FAILS_BEFORE_LONG_LOCK then Some(LOCKED_AN_HOUR)
    else if Fails(db.userFails, user) >= FAILS_BEFORE_LOCK then Some(LOCKED_15_MINUTES)
    else None
  }

  /** An unknown user is an address without an account; it is counted like a wrong password. */
  function WrongPassword(db: Db, user: UserId, ip: Ip): Db {
    db.(userFails := db.userFails[user := Fails(db.userFails, user) + 1],
        ipFails := db.ipFails[ip := Fails(db.ipFails, ip) + 1])
  }

  /** The counters are read before the password is compared, */
  function StartLoginStep(db: Db, w: Worker, user: UserId, ip: Ip): (Db, Outcome) {
    match LockedOut(db, user, ip)
    case Some(err) => (db, Refused(err))
    case None => (db.(logins := db.logins[w := Attempt(user, ip)]), Done)
  }

  /** and written after it was, whatever they are by then. */
  function FinishLoginStep(db: Db, w: Worker, passwordOk: bool, trusted: bool, device: Device, code: Code): (Db, Outcome) {
    if w !in db.logins then (db, Refused(NOT_FOUND))
    else
      var user, ip := db.logins[w].user, db.logins[w].ip;
      var done := db.(logins := db.logins - {w});
      if user !in db.users || !passwordOk then (WrongPassword(done, user, ip), Refused(INVALID_CREDENTIALS))
      else if db.users[user].blocked then (done, Refused(ACCOUNT_BLOCKED))
      else Admit(done.(userFails := db.userFails - {user}), user, trusted, device, code)
  }

  /** Past the password: a session, or a challenge with a link. */
  function Admit(db: Db, user: UserId, trusted: bool, device: Device, code: Code): (Db, Outcome)
    requires user in db.users
  {
    var account := db.users[user];
    if !account.twoFactor || (account.citizen && trusted) then
      (db.(sessions := db.sessions + multiset{SignIn(user, None)}), SignedIn(user))
    else
      var c := |db.issued|;
      (Relinked(db.(issued := db.issued + [user]), c, Challenge(user, code, 0, 0, device, None)), Challenged(c))
  }

  /** A profile without an account starts a signup; the counters are not consulted. */
  function GoogleLoginStep(db: Db, user: UserId, device: Device, code: Code): (Db, Outcome) {
    if user !in db.users then (db, SignupStarted)
    else if db.users[user].blocked then (db, Refused(ACCOUNT_BLOCKED))
    else if !db.users[user].twoFactor then
      (db.(sessions := db.sessions + multiset{SignIn(user, None)}), SignedIn(user))
    else (Issue(db, user, device, code), Challenged(|db.issued|))
  }

  function WrongCode(db: Db, c: ChallengeId, challenge: Challenge): Db {
    var tried := challenge.(attempts := challenge.attempts + 1);
    var next := if tried.attempts >= LOGIN_OTP_ATTEMPTS then EndChallenge(db, c, tried) else db.(otp := db.otp[c := tried]);
    next.(failed := db.failed + multiset{c})
  }

  /** Another browser costs the challenge its own key only; the link key is left behind. */
  function VerifyCodeStep(db: Db, c: ChallengeId, code: Code, device: Device): (Db, Outcome) {
    if c !in db.otp then (db, Refused(OTP_EXPIRED))
    else
      var challenge := db.otp[c];
      if challenge.device != device then (db.(otp := db.otp - {c}), Refused(INVALID_CREDENTIALS))
      else if code != challenge.code then (WrongCode(db, c, challenge), Refused(OTP_INVALID))
      else Enter(EndChallenge(db, c, challenge), c, challenge.user)
  }

  function OpenLinkStep(db: Db, link: Link): (Db, Outcome) {
    if link !in db.magic || db.magic[link] !in db.otp then (db, Refused(OTP_EXPIRED))
    else
      var c := db.magic[link];
      Enter(EndChallenge(db.(magic := db.magic - {link}), c, db.otp[c]), c, db.otp[c].user)
  }

  function ResendStep(db: Db, c: ChallengeId, code: Code): (Db, Outcome) {
    if c !in db.otp then (db, Refused(OTP_EXPIRED))
    else
      var challenge := db.otp[c];
      if challenge.resends >= LOGIN_OTP_RESENDS then (db, Refused(RATE_LIMITED))
      else if c in db.cooldown then (db, Refused(OTP_COOLDOWN))
      else if challenge.user !in db.users then (db, Refused(USER_GONE))
      else
        var again := challenge.(code := code, attempts := 0, resends := challenge.resends + 1);
        (Relinked(db, c, again).(cooldown := db.cooldown + {c}), Challenged(c))
  }

  function MayToggle(db: Db, user: UserId, passwordOk: bool): Outcome {
    if user !in db.users then Refused(NOT_FOUND)
    else if !db.users[user].citizen then Refused(FORBIDDEN_ROLE)
    else if !passwordOk then Refused(INVALID_CREDENTIALS)
    else Done
  }

  function BeginToggleStep(db: Db, user: UserId, passwordOk: bool, device: Device, code: Code): (Db, Outcome) {
    if MayToggle(db, user, passwordOk) != Done then (db, MayToggle(db, user, passwordOk))
    else (Issue(db, user, device, code), Challenged(|db.issued|))
  }

  function FinishToggleStep(
    db: Db, user: UserId, passwordOk: bool, c: ChallengeId, code: Code, enabled: bool): (Db, Outcome)
  {
    if MayToggle(db, user, passwordOk) != Done then (db, MayToggle(db, user, passwordOk))
    else if c !in db.otp then (db, Refused(OTP_EXPIRED))
    else if db.otp[c].user != user || db.otp[c].code != code then (db, Refused(OTP_INVALID))
    else
      (db.(otp := db.otp - {c}, users := db.users[user := db.users[user].(twoFactor := enabled)],
           toggled := db.toggled + multiset{c}),
       Done)
  }

  function Step(db: Db, e: Event): (Db, Outcome) {
    match e
    case PutUser(user, account) => PutUserStep(db, user, account)
    case StartLogin(w, user, ip) => StartLoginStep(db, w, user, ip)
    case FinishLogin(w, ok, trusted, device, code) => FinishLoginStep(db, w, ok, trusted, device, code)
    case GoogleLogin(user, device, code) => GoogleLoginStep(db, user, device, code)
    case VerifyCode(c, code, device) => VerifyCodeStep(db, c, code, device)
    case OpenLink(link) => OpenLinkStep(db, link)
    case Resend(c, code) => ResendStep(db, c, code)
    case BeginToggle(user, ok, device, code) => BeginToggleStep(db, user, ok, device, code)
    case FinishToggle(user, ok, c, code, enabled) => FinishToggleStep(db, user, ok, c, code, enabled)
    case ExpireChallenge(c) => (db.(otp := db.otp - {c}), Done)
    case ExpireLink(link) => (db.(magic := db.magic - {link}), Done)
    case ExpireCooldown(c) => (db.(cooldown := db.cooldown - {c}), Done)
    case ExpireUserFails(user) => (db.(userFails := db.userFails - {user}), Done)
    case ExpireIpFails(ip) => (db.(ipFails := db.ipFails - {ip}), Done)
  }

  function Run(db: Db, events: seq<Event>): Db {
    if events == [] then db else Step(Run(db, events[..|events| - 1]), events[|events| - 1]).0
  }
}
