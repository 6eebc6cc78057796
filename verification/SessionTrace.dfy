/** Where each session, its end, and the end of each token came from: which request of the run. */
module SessionTrace {
  import opened Base
  import opened Sessions
  import opened SessionRuns

  /** Eight hours for a super admin, a week for anyone else. */
  function Lifetime(account: Account): int {
    if account.superAdmin then 8 * HOUR_MS else 7 * 24 * HOUR_MS
  }

  ghost predicate Opens(db: Db, e: Event, s: SessionId, c: Session) {
    && e.OpenSession? && s == |db.sessions| && e.user in db.users
    && c.user == e.user && c.expiresAt == e.now + Lifetime(db.users[e.user])
  }

  ghost predicate OpenedAt(es: seq<Event>, k: nat, s: SessionId, c: Session) {
    k < |es| && Opens(Run(EMPTY, es[..k]), es[k], s, c)
  }

  /** Every session was opened for its user and ends when its lifetime, by the account of that moment, is over. */
  lemma {:induction false} EverySessionWasOpened(es: seq<Event>, s: SessionId) returns (k: nat)
    requires s < |Run(EMPTY, es).sessions|
    ensures OpenedAt(es, k, s, Run(EMPTY, es).sessions[s])
  {
    var n := |es| - 1;
    var before := Run(EMPTY, es[..n]);
    if s < |before.sessions| {
      k := EverySessionWasOpened(es[..n], s);
      StepContinues(before, es[n]);
      assert SessionContinues(before.sessions[s], Run(EMPTY, es).sessions[s]);
      assert es[..n][..k] == es[..k];
    } else {
      k := n;
    }
  }

  /** A token made in a rotation expires with its session, the first one by the second reading of the clock. */
  lemma {:induction false} EveryTokenExpires(es: seq<Event>, t: TokenId) returns (k: nat)
    requires t < |Run(EMPTY, es).tokens|
    ensures k < |es| && |Run(EMPTY, es[..k]).tokens| == t
    ensures Run(EMPTY, es).tokens[t].session < |Run(EMPTY, es).sessions|
    ensures var db, token := Run(EMPTY, es), Run(EMPTY, es).tokens[t];
      || (es[k].Refresh? && token.expiresAt == db.sessions[token.session].expiresAt)
      || (OpenedAt(es, k, token.session, db.sessions[token.session])
          && token.expiresAt == es[k].later + Lifetime(Run(EMPTY, es[..k]).users[es[k].user]))
  {
    var n := |es| - 1;
    var before, after := Run(EMPTY, es[..n]), Run(EMPTY, es);
    RunKeeps(EMPTY, es);
    StepContinues(before, es[n]);
    if t < |before.tokens| {
      k := EveryTokenExpires(es[..n], t);
      assert TokenContinues(before.tokens[t], after.tokens[t]);
      assert SessionContinues(before.sessions[before.tokens[t].session], after.sessions[before.tokens[t].session]);
      assert es[..n][..k] == es[..k];
    } else {
      k := n;
    }
  }

  // -- how a session ends ----------------------------------------------------

  /**
   The requests that end a session, each with the stamp it leaves; a reuse is the
   presenting of a revoked token.
   */
  ghost predicate Ends(db: Db, e: Event, s: SessionId, why: Revocation) {
    s < |db.sessions| &&
    match e
    case Logout(claims, now) => claims in db.signed && claims.session == s && why == Revocation(now, LOGOUT)
    case LogoutByToken(t, now) => t < |db.tokens| && db.tokens[t].session == s && why == Revocation(now, LOGOUT)
    case RevokeSession(user, sid, now) => sid == s && db.sessions[s].user == user && why == Revocation(now, LOGOUT)
    case RevokeAll(user, reason, now) => db.sessions[s].user == user && why == Revocation(now, reason)
    case Refresh(t, now) =>
      t < |db.tokens| && db.tokens[t].revokedAt.Some? && db.tokens[t].user == db.sessions[s].user
      && why == Revocation(now, TOKEN_REUSE)
    case _ => false
  }

  ghost predicate EndedAt(es: seq<Event>, k: nat, s: SessionId, why: Revocation) {
    k < |es| && Ends(Run(EMPTY, es[..k]), es[k], s, why)
  }

  lemma StepEnds(db: Db, e: Event, s: SessionId)
    requires Inv(db) && s < |db.sessions|
    ensures s < |Step(db, e).0.sessions|
    ensures var c, d := db.sessions[s], Step(db, e).0.sessions[s];
      && (d.revoked != c.revoked ==> d.revoked.Some? && Ends(db, e, s, d.revoked.value))
      && (forall why :: Ends(db, e, s, why) ==> d.revoked.Some?)
  {
    StepContinues(db, e);
  }

  /** A revoked session carries the stamp of a request that ended it. */
  lemma {:induction false} StampHasACause(es: seq<Event>, s: SessionId) returns (k: nat)
    requires s < |Run(EMPTY, es).sessions| && Run(EMPTY, es).sessions[s].revoked.Some?
    ensures EndedAt(es, k, s, Run(EMPTY, es).sessions[s].revoked.value)
  {
    var n := |es| - 1;
    var before, after := Run(EMPTY, es[..n]), Run(EMPTY, es);
    RunKeeps(EMPTY, es[..n]);
    if s < |before.sessions| { StepEnds(before, es[n], s); }
    if s < |before.sessions| && before.sessions[s].revoked == after.sessions[s].revoked {
      k := StampHasACause(es[..n], s);
      assert es[..n][..k] == es[..k];
    } else {
      k := n;
    }
  }

  /** What has ended a session has ended it for the rest of the run. */
  lemma CauseEnds(es: seq<Event>, k: nat, s: SessionId, why: Revocation)
    requires EndedAt(es, k, s, why)
    ensures s < |Run(EMPTY, es).sessions| && Run(EMPTY, es).sessions[s].revoked.Some?
  {
    var upTo, rest := es[..k + 1], es[k + 1..];
    assert upTo[..k] == es[..k] && upTo + rest == es;
    RunKeeps(EMPTY, es[..k]);
    StepEnds(Run(EMPTY, es[..k]), es[k], s);
    RunSplit(EMPTY, upTo, rest);
    RunContinues(Run(EMPTY, upTo), rest);
  }

  /** A session is over if and only if the run holds a request that ended it. */
  lemma {:induction false} EndedByARequest(es: seq<Event>, s: SessionId)
    requires s < |Run(EMPTY, es).sessions|
    ensures Run(EMPTY, es).sessions[s].revoked.Some? <==> exists k: nat, why :: EndedAt(es, k, s, why)
  {
    if Run(EMPTY, es).sessions[s].revoked.Some? { var k := StampHasACause(es, s); }
    if k: nat, why :| EndedAt(es, k, s, why) { CauseEnds(es, k, s, why); }
  }

  lemma {:induction false} RunSplit(db: Db, es: seq<Event>, rest: seq<Event>)
    ensures Run(db, es + rest) == Run(Run(db, es), rest)
  {
    if rest == [] {
      assert es + rest == es;
    } else {
      var n := |rest| - 1;
      RunSplit(db, es, rest[..n]);
      assert (es + rest)[..|es| + n] == es + rest[..n];
    }
  }

  // -- how a token ends ------------------------------------------------------

  /** The exchange of a token, which leaves it replaced. */
  ghost predicate Exchanges(db: Db, e: Event, t: TokenId, token: Token) {
    && e.Refresh? && e.token == t && Step(db, e).1.Issued?
    && token.replacedBy == Some(|db.tokens|) && token.revokedAt == Some(e.now)
  }

  ghost predicate EndsToken(db: Db, e: Event, t: TokenId, token: Token) {
    Exchanges(db, e, t, token) || exists why :: Ends(db, e, token.session, why) && token.revokedAt == Some(why.at)
  }

  lemma TokenStep(db: Db, e: Event, t: TokenId)
    requires Inv(db) && t < |db.tokens| && Live(db.tokens[t])
    ensures t < |Step(db, e).0.tokens|
    ensures var b := Step(db, e).0.tokens[t]; !Live(b) ==> EndsToken(db, e, t, b)
  {
    var why := match e
      case Logout(_, now) => Revocation(now, LOGOUT)
      case LogoutByToken(_, now) => Revocation(now, LOGOUT)
      case RevokeSession(_, _, now) => Revocation(now, LOGOUT)
      case RevokeAll(_, reason, now) => Revocation(now, reason)
      case Refresh(_, now) => Revocation(now, TOKEN_REUSE)
      case _ => Revocation(0, LOGOUT);
    var b := Step(db, e).0.tokens[t];
    assert !Live(b) ==> Exchanges(db, e, t, b) || (Ends(db, e, b.session, why) && b.revokedAt == Some(why.at));
  }

  /** A token dies only in its own exchange, or in a request that ended its session, and at that moment. */
  lemma {:induction false} EveryTokenEnd(es: seq<Event>, t: TokenId) returns (k: nat)
    requires t < |Run(EMPTY, es).tokens| && !Live(Run(EMPTY, es).tokens[t])
    ensures k < |es| && EndsToken(Run(EMPTY, es[..k]), es[k], t, Run(EMPTY, es).tokens[t])
  {
    var n := |es| - 1;
    var before := Run(EMPTY, es[..n]);
    RunKeeps(EMPTY, es[..n]);
    StepContinues(before, es[n]);
    if t < |before.tokens| && !Live(before.tokens[t]) {
      k := EveryTokenEnd(es[..n], t);
      assert TokenContinues(before.tokens[t], Run(EMPTY, es).tokens[t]);
      StillEnds(Run(EMPTY, es[..n][..k]), es[k], t, before.tokens[t], Run(EMPTY, es).tokens[t]);
      assert es[..n][..k] == es[..k];
    } else {
      k := n;
      if t < |before.tokens| { TokenStep(before, es[n], t); }
    }
  }

  lemma StillEnds(db: Db, e: Event, t: TokenId, a: Token, b: Token)
    requires EndsToken(db, e, t, a) && TokenContinues(a, b) && !Live(a)
    ensures EndsToken(db, e, t, b)
  {
    if !Exchanges(db, e, t, a) {
      var why :| Ends(db, e, a.session, why) && a.revokedAt == Some(why.at);
      assert Ends(db, e, b.session, why) && b.revokedAt == Some(why.at);
    }
  }
}
