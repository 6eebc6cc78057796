/** The session endpoints as they run: rows are revoked in place, new ones are added. */
module SessionService {
  import opened Base
  import opened Sessions
  import opened SessionRuns

  class Service {
    var sessions: seq<Session>
    var tokens: seq<Token>
    var users: map<UserId, Account>
    var signed: set<Claims>

    function View(): Db
      reads this
    {
      Db(sessions, tokens, users, signed)
    }

    /** What every run of the tables keeps. */
    ghost predicate Valid()
      reads this
    {
      Inv(View())
    }

    constructor ()
      ensures View() == EMPTY && Valid()
    {
      sessions, tokens, users, signed := [], [], map[], {};
    }

    method CreateSessionAndTokens(user: UserId, now: Time, later: Time) returns (out: Outcome)
      requires Valid()
      modifies this`sessions, this`tokens, this`signed
      ensures (View(), out) == OpenSessionStep(old(View()), user, now, later)
      ensures Valid()
    {
      StepKeeps(View(), OpenSession(user, now, later));
      if user !in users { return Refused(USER_GONE); }
      var lifetime := REFRESH;
      if users[user].superAdmin { lifetime := SUPER_ADMIN_SESSION; }
      var sid := |sessions|;
      sessions := sessions + [Session(user, now + lifetime, now, None)];
      signed := signed + {Claims(user, sid)};
      out := Issued(sid, |tokens|);
      tokens := tokens + [Token(user, sid, later + lifetime, None, None)];
    }

    method RevokeAllSessions(user: UserId, reason: Reason, now: Time) returns (out: Outcome)
      requires Valid()
      modifies this`sessions, this`tokens
      ensures (View(), out) == RevokeAllStep(old(View()), user, reason, now)
      ensures Valid()
    {
      StepKeeps(View(), RevokeAll(user, reason, now));
      out := Revoked(|LiveSessionsOf(sessions, user)|);
      sessions := RevokeSessionsOf(sessions, user, Revocation(now, reason));
      tokens := RevokeTokensOf(tokens, user, now);
    }

    method RefreshToken(t: TokenId, now: Time) returns (out: Outcome)
      requires Valid()
      modifies this`sessions, this`tokens, this`signed
      ensures (View(), out) == RefreshStep(old(View()), t, now)
      ensures Valid()
    {
      StepKeeps(View(), Refresh(t, now));
      if t >= |tokens| || tokens[t].session >= |sessions| { return Refused(TOKEN_INVALID); }
      var row := tokens[t];
      var session := sessions[row.session];
      if row.revokedAt.Some? {
        var _ := RevokeAllSessions(row.user, TOKEN_REUSE, now);
        return Refused(TOKEN_REVOKED);
      }
      if row.expiresAt < now || session.revoked.Some? || session.expiresAt < now {
        return Refused(TOKEN_EXPIRED);
      }
      if row.user !in users { return Refused(USER_GONE); }
      if users[row.user].blocked { return Refused(ACCOUNT_BLOCKED); }
      Rotate(t, now);
      out := Issued(row.session, |tokens| - 1);
    }

    /** The new token first, then the old one is revoked and pointed at it. */
    method Rotate(t: TokenId, now: Time)
      requires t < |tokens| && tokens[t].session < |sessions|
      modifies this`sessions, this`tokens, this`signed
      ensures View() == Rotated(old(View()), t, now)
    {
      var row := tokens[t];
      var next := |tokens|;
      signed := signed + {Claims(row.user, row.session)};
      tokens := tokens + [Token(row.user, row.session, sessions[row.session].expiresAt, None, None)];
      tokens := tokens[t := row.(revokedAt := Some(now), replacedBy := Some(next))];
      sessions := sessions[row.session := sessions[row.session].(lastUsed := now)];
    }

    method SignOut(claims: Claims, now: Time) returns (out: Outcome)
      requires Valid()
      modifies this`sessions, this`tokens
      ensures (View(), out) == LogoutStep(old(View()), claims, now)
      ensures Valid()
    {
      StepKeeps(View(), Logout(claims, now));
      if claims !in signed { return Refused(UNAUTHORIZED); }
      RevokePair(claims.user, claims.session, now);
      out := Done;
    }

    method SignOutByToken(t: TokenId, now: Time) returns (out: Outcome)
      requires Valid()
      modifies this`sessions, this`tokens
      ensures (View(), out) == LogoutByTokenStep(old(View()), t, now)
      ensures Valid()
    {
      StepKeeps(View(), LogoutByToken(t, now));
      if t < |tokens| { RevokePair(tokens[t].user, tokens[t].session, now); }
      out := Done;
    }

    method RevokePair(user: UserId, sid: SessionId, now: Time)
      modifies this`sessions, this`tokens
      ensures View() == SignedOut(old(View()), user, sid, now)
    {
      if sid < |sessions| && sessions[sid].user == user && sessions[sid].revoked.None? {
        sessions := sessions[sid := sessions[sid].(revoked := Some(Revocation(now, LOGOUT)))];
      }
      tokens := RevokeTokensIn(tokens, sid, now);
    }

    method RevokeOwnSession(user: UserId, sid: SessionId, now: Time) returns (out: Outcome)
      requires Valid()
      modifies this`sessions, this`tokens
      ensures (View(), out) == RevokeSessionStep(old(View()), user, sid, now)
      ensures Valid()
    {
      StepKeeps(View(), RevokeSession(user, sid, now));
      if sid >= |sessions| || sessions[sid].user != user { return Refused(NOT_FOUND); }
      sessions := sessions[sid := sessions[sid].(revoked := Some(Revocation(now, LOGOUT)))];
      tokens := RevokeTokensIn(tokens, sid, now);
      out := Done;
    }
  }
}
