/**
 Sessions and rotated refresh tokens.

 Both tables are append-only and a row's id is its position.  A refresh token is
 a fresh secret stored by an injective hash, so presenting one is presenting its
 position, and a position past the end is an unknown token.  An access token is
 signed, so the pair of user and session that `logout` is given is one of those
 in `signed`.
 */
module Sessions {
  import opened Base

  type SessionId = nat
  type TokenId = nat

  datatype Reason = LOGOUT | PASSWORD_CHANGED | TOKEN_REUSE | BY_ADMIN | ROLE_CHANGED

  datatype Revocation = Revocation(at: Time, reason: Reason)

  datatype Session = Session(user: UserId, expiresAt: Time, lastUsed: Time, revoked: Option<Revocation>)

  datatype Token = Token(
    user: UserId, session: SessionId, expiresAt: Time, revokedAt: Option<Time>, replacedBy: Option<TokenId>)

  datatype Account = Account(blocked: bool, superAdmin: bool)

  datatype Claims = Claims(user: UserId, session: SessionId)

  datatype Db = Db(
    sessions: seq<Session>, tokens: seq<Token>, users: map<UserId, Account>, signed: set<Claims>)

  const EMPTY := Db([], [], map[], {})

  datatype Error =
    | TOKEN_INVALID | TOKEN_REVOKED | TOKEN_EXPIRED | USER_GONE | ACCOUNT_BLOCKED
    | UNAUTHORIZED | NOT_FOUND

  datatype Outcome = Issued(session: SessionId, token: TokenId) | Revoked(count: nat) | Done | Refused(error: Error)

  const SUPER_ADMIN_SESSION := 8 * HOUR_MS
  const REFRESH := 7 * DAY_MS

  /** One endpoint call.  `PutUser` stands for everything else that writes the user row. */
  datatype Event =
    | PutUser(user: UserId, account: Option<Account>)
    | OpenSession(user: UserId, now: Time, later: Time)
    | Refresh(token: TokenId, now: Time)
    | Logout(claims: Claims, now: Time)
    | LogoutByToken(token: TokenId, now: Time)
    | RevokeSession(user: UserId, session: SessionId, now: Time)
    | RevokeAll(user: UserId, reason: Reason, now: Time)

  function LiveSessionsOf(sessions: seq<Session>, user: UserId): set<SessionId> {
    set s: nat | s < |sessions| && sessions[s].user == user && sessions[s].revoked.None?
  }

  /** `updateMany` on the unrevoked sessions of a user. */
  function RevokeSessionsOf(sessions: seq<Session>, user: UserId, why: Revocation): (r: seq<Session>)
    ensures |r| == |sessions|
  {
    seq(|sessions|, i requires 0 <= i < |sessions| =>
      if sessions[i].user == user && sessions[i].revoked.None? then sessions[i].(revoked := Some(why))
      else sessions[i])
  }

  function RevokeTokensOf(tokens: seq<Token>, user: UserId, now: Time): (r: seq<Token>)
    ensures |r| == |tokens|
  {
    seq(|tokens|, i requires 0 <= i < |tokens| =>
      if tokens[i].user == user && tokens[i].revokedAt.None? then tokens[i].(revokedAt := Some(now))
      else tokens[i])
  }

  function RevokeTokensIn(tokens: seq<Token>, session: SessionId, now: Time): (r: seq<Token>)
    ensures |r| == |tokens|
  {
    seq(|tokens|, i requires 0 <= i < |tokens| =>
      if tokens[i].session == session && tokens[i].revokedAt.None? then tokens[i].(revokedAt := Some(now))
      else tokens[i])
  }

  function PutUserStep(db: Db, user: UserId, account: Option<Account>): (Db, Outcome) {
    (db.(users := if account.Some? then db.users[user := account.value] else db.users - {user}), Done)
  }

  /** The two rows are stamped by two readings of the clock. */
  function OpenSessionStep(db: Db, user: UserId, now: Time, later: Time): (Db, Outcome) {
    if user !in db.users then (db, Refused(USER_GONE))
    else
      var lifetime := if db.users[user].superAdmin then SUPER_ADMIN_SESSION else REFRESH;
      var sid, tid := |db.sessions|, |db.tokens|;
      (Db(db.sessions + [Session(user, now + lifetime, now, None)],
          db.tokens + [Token(user, sid, later + lifetime, None, None)],
          db.users, db.signed + {Claims(user, sid)}),
       Issued(sid, tid))
  }

  function RevokeAllStep(db: Db, user: UserId, reason: Reason, now: Time): (Db, Outcome) {
    (db.(sessions := RevokeSessionsOf(db.sessions, user, Revocation(now, reason)),
         tokens := RevokeTokensOf(db.tokens, user, now)),
     Revoked(|LiveSessionsOf(db.sessions, user)|))
  }

  function Rotated(db: Db, t: TokenId, now: Time): Db
    requires t < |db.tokens| && db.tokens[t].session < |db.sessions|
  {
    var row := db.tokens[t];
    var session := db.sessions[row.session];
    Db(db.sessions[row.session := session.(lastUsed := now)],
       db.tokens[t := row.(revokedAt := Some(now), replacedBy := Some(|db.tokens|))]
         + [Token(row.user, row.session, session.expiresAt, None, None)],
       db.users, db.signed + {Claims(row.user, row.session)})
  }

  /** A token is read together with its session; the foreign key says there is one. */
  function RefreshStep(db: Db, t: TokenId, now: Time): (Db, Outcome) {
    if t >= |db.tokens| || db.tokens[t].session >= |db.sessions| then (db, Refused(TOKEN_INVALID))
    else
      var row := db.tokens[t];
      var session := db.sessions[row.session];
      if row.revokedAt.Some? then (RevokeAllStep(db, row.user, TOKEN_REUSE, now).0, Refused(TOKEN_REVOKED))
      else if row.expiresAt < now || session.revoked.Some? || session.expiresAt < now then
        (db, Refused(TOKEN_EXPIRED))
      else if row.user !in db.users then (db, Refused(USER_GONE))
      else if db.users[row.user].blocked then (db, Refused(ACCOUNT_BLOCKED))
      else (Rotated(db, t, now), Issued(row.session, |db.tokens|))
  }

  /** The session row is matched by id and owner, the token rows by session alone. */
  function SignedOut(db: Db, user: UserId, sid: SessionId, now: Time): Db {
    var matches := sid < |db.sessions| && db.sessions[sid].user == user && db.sessions[sid].revoked.None?;
    db.(sessions :=
          if matches then db.sessions[sid := db.sessions[sid].(revoked := Some(Revocation(now, LOGOUT)))]
          else db.sessions,
        tokens := RevokeTokensIn(db.tokens, sid, now))
  }

  function LogoutStep(db: Db, claims: Claims, now: Time): (Db, Outcome) {
    if claims !in db.signed then (db, Refused(UNAUTHORIZED))
    else (SignedOut(db, claims.user, claims.session, now), Done)
  }

  function LogoutByTokenStep(db: Db, t: TokenId, now: Time): (Db, Outcome) {
    if t >= |db.tokens| then (db, Done)
    else (SignedOut(db, db.tokens[t].user, db.tokens[t].session, now), Done)
  }

  /** Revoking one's own session; a second revocation overwrites the first. */
  function RevokeSessionStep(db: Db, user: UserId, sid: SessionId, now: Time): (Db, Outcome) {
    if sid >= |db.sessions| || db.sessions[sid].user != user then (db, Refused(NOT_FOUND))
    else
      (db.(sessions := db.sessions[sid := db.sessions[sid].(revoked := Some(Revocation(now, LOGOUT)))],
           tokens := RevokeTokensIn(db.tokens, sid, now)),
       Done)
  }

  function Step(db: Db, e: Event): (Db, Outcome) {
    match e
    case PutUser(user, account) => PutUserStep(db, user, account)
    case OpenSession(user, now, later) => OpenSessionStep(db, user, now, later)
    case Refresh(t, now) => RefreshStep(db, t, now)
    case Logout(claims, now) => LogoutStep(db, claims, now)
    case LogoutByToken(t, now) => LogoutByTokenStep(db, t, now)
    case RevokeSession(user, sid, now) => RevokeSessionStep(db, user, sid, now)
    case RevokeAll(user, reason, now) => RevokeAllStep(db, user, reason, now)
  }

  function Run(db: Db, events: seq<Event>): Db {
    if events == [] then db else Step(Run(db, events[..|events| - 1]), events[|events| - 1]).0
  }
}
