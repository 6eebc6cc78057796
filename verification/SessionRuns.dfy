/** What every run of the session and token tables keeps. */
module SessionRuns {
  import opened Base
  import opened Sessions

  // -- the invariant ---------------------------------------------------------

  predicate Live(t: Token) { t.revokedAt.None? }

  /** Every token belongs to a session of its own user. */
  ghost predicate OwnedOk(db: Db) {
    forall t :: 0 <= t < |db.tokens| ==>
      db.tokens[t].session < |db.sessions| && db.sessions[db.tokens[t].session].user == db.tokens[t].user
  }

  ghost predicate ReplacedOk(tokens: seq<Token>, t: TokenId)
    requires t < |tokens|
  {
    tokens[t].replacedBy.Some? ==>
      var n := tokens[t].replacedBy.value;
      t < n < |tokens| && tokens[n].session == tokens[t].session && !Live(tokens[t])
  }

  ghost predicate InOrder(tokens: seq<Token>, t: TokenId, u: TokenId)
    requires t < u < |tokens|
  {
    tokens[t].session == tokens[u].session ==> tokens[t].replacedBy.Some? && tokens[t].replacedBy.value <= u
  }

  /** A token's link leads to the next token of the same session. */
  ghost predicate LinksOk(tokens: seq<Token>) {
    && (forall t :: 0 <= t < |tokens| ==> ReplacedOk(tokens, t))
    && (forall t, u :: 0 <= t < u < |tokens| ==> InOrder(tokens, t, u))
  }

  /** A token that was not replaced is revoked exactly when its session is. */
  ghost predicate TipsOk(db: Db)
    requires OwnedOk(db)
  {
    forall t :: 0 <= t < |db.tokens| && db.tokens[t].replacedBy.None? ==>
      (Live(db.tokens[t]) <==> db.sessions[db.tokens[t].session].revoked.None?)
  }

  ghost predicate HasToken(tokens: seq<Token>, s: SessionId) {
    exists t :: 0 <= t < |tokens| && tokens[t].session == s
  }

  ghost predicate SignedOk(db: Db) {
    forall c :: c in db.signed ==> c.session < |db.sessions| && db.sessions[c.session].user == c.user
  }

  ghost predicate Inv(db: Db) {
    && OwnedOk(db) && LinksOk(db.tokens) && TipsOk(db) && SignedOk(db)
    && (forall s :: 0 <= s < |db.sessions| ==> HasToken(db.tokens, s))
  }

  // -- what no step takes back -----------------------------------------------

  ghost predicate SessionContinues(a: Session, b: Session) {
    b.user == a.user && b.expiresAt == a.expiresAt && (a.revoked.Some? ==> b.revoked.Some?)
  }

  ghost predicate TokenContinues(a: Token, b: Token) {
    && b.user == a.user && b.session == a.session && b.expiresAt == a.expiresAt
    && (a.revokedAt.Some? ==> b.revokedAt == a.revokedAt && b.replacedBy == a.replacedBy)
  }

  ghost predicate Continues(a: Db, b: Db) {
    && |a.sessions| <= |b.sessions| && |a.tokens| <= |b.tokens|
    && (forall s :: 0 <= s < |a.sessions| ==> SessionContinues(a.sessions[s], b.sessions[s]))
    && (forall t :: 0 <= t < |a.tokens| ==> TokenContinues(a.tokens[t], b.tokens[t]))
  }

  lemma StepContinues(db: Db, e: Event)
    ensures Continues(db, Step(db, e).0)
  {
  }

  lemma {:induction false} RunContinues(db: Db, es: seq<Event>)
    ensures Continues(db, Run(db, es))
  {
    if es != [] {
      var n := |es| - 1;
      RunContinues(db, es[..n]);
      StepContinues(Run(db, es[..n]), es[n]);
    }
  }

  // -- step lemmas -----------------------------------------------------------

  lemma OpenKeeps(db: Db, user: UserId, now: Time, later: Time)
    requires Inv(db)
    ensures Inv(OpenSessionStep(db, user, now, later).0)
  {
    var after := OpenSessionStep(db, user, now, later).0;
    if user in db.users {
      forall s | 0 <= s < |after.sessions| ensures HasToken(after.tokens, s) {
        if s < |db.sessions| {
          assert HasToken(db.tokens, s);
          var t :| 0 <= t < |db.tokens| && db.tokens[t].session == s;
          assert after.tokens[t] == db.tokens[t];
        } else {
          assert after.tokens[|db.tokens|].session == s;
        }
      }
      forall t, u | 0 <= t < u < |after.tokens| ensures InOrder(after.tokens, t, u) {
        if u < |db.tokens| { assert InOrder(db.tokens, t, u); }
      }
      forall t | 0 <= t < |after.tokens| ensures ReplacedOk(after.tokens, t) {
        if t < |db.tokens| { assert ReplacedOk(db.tokens, t); }
      }
    }
  }

  lemma RotateKeeps(db: Db, t: TokenId, now: Time)
    requires Inv(db) && t < |db.tokens| && Live(db.tokens[t])
    requires db.sessions[db.tokens[t].session].revoked.None?
    ensures Inv(Rotated(db, t, now))
  {
    var after := Rotated(db, t, now);
    var n := |db.tokens|;
    forall s | 0 <= s < |after.sessions| ensures HasToken(after.tokens, s) {
      assert HasToken(db.tokens, s);
      var u :| 0 <= u < n && db.tokens[u].session == s;
      assert after.tokens[u].session == s;
    }
    forall u, v | 0 <= u < v <= n ensures InOrder(after.tokens, u, v) {
      if v < n {
        assert InOrder(db.tokens, u, v);
        assert ReplacedOk(db.tokens, u);
      } else if u < t {
        assert InOrder(db.tokens, u, t);
      } else if t < u {
        assert InOrder(db.tokens, t, u);
        assert ReplacedOk(db.tokens, t);
      }
    }
    forall u | 0 <= u <= n ensures ReplacedOk(after.tokens, u) {
      if u < n { assert ReplacedOk(db.tokens, u); }
    }
  }

  /** Tokens revoked in place, none added: the links stand. */
  lemma RevokedLinks(before: seq<Token>, after: seq<Token>)
    requires LinksOk(before) && |after| == |before|
    requires forall t :: 0 <= t < |before| ==> after[t].session == before[t].session
    requires forall t :: 0 <= t < |before| ==> after[t].replacedBy == before[t].replacedBy
    requires forall t :: 0 <= t < |before| && Live(after[t]) ==> Live(before[t])
    ensures LinksOk(after)
    ensures forall s: nat :: HasToken(before, s) ==> HasToken(after, s)
  {
    forall t, u | 0 <= t < u < |after| ensures InOrder(after, t, u) { assert InOrder(before, t, u); }
    forall t | 0 <= t < |after| ensures ReplacedOk(after, t) { assert ReplacedOk(before, t); }
    forall s: nat | HasToken(before, s) ensures HasToken(after, s) {
      var t :| 0 <= t < |before| && before[t].session == s;
      assert after[t].session == s;
    }
  }

  lemma RevokeAllKeeps(db: Db, user: UserId, reason: Reason, now: Time)
    requires Inv(db)
    ensures Inv(RevokeAllStep(db, user, reason, now).0)
  {
    RevokedLinks(db.tokens, RevokeTokensOf(db.tokens, user, now));
  }

  lemma SignedOutKeeps(db: Db, user: UserId, sid: SessionId, now: Time)
    requires Inv(db) && sid < |db.sessions| && db.sessions[sid].user == user
    ensures Inv(SignedOut(db, user, sid, now))
  {
    RevokedLinks(db.tokens, RevokeTokensIn(db.tokens, sid, now));
  }

  lemma RevokeSessionKeeps(db: Db, user: UserId, sid: SessionId, now: Time)
    requires Inv(db)
    ensures Inv(RevokeSessionStep(db, user, sid, now).0)
  {
    RevokedLinks(db.tokens, RevokeTokensIn(db.tokens, sid, now));
  }

  lemma StepKeeps(db: Db, e: Event)
    requires Inv(db)
    ensures Inv(Step(db, e).0)
  {
    match e
    case PutUser(_, _) =>
    case OpenSession(user, now, later) => OpenKeeps(db, user, now, later);
    case Refresh(t, now) => RefreshKeeps(db, t, now);
    case Logout(c, now) => if c in db.signed { SignedOutKeeps(db, c.user, c.session, now); }
    case LogoutByToken(t, now) =>
      if t < |db.tokens| { SignedOutKeeps(db, db.tokens[t].user, db.tokens[t].session, now); }
    case RevokeSession(user, sid, now) => RevokeSessionKeeps(db, user, sid, now);
    case RevokeAll(user, reason, now) => RevokeAllKeeps(db, user, reason, now);
  }

  lemma RefreshKeeps(db: Db, t: TokenId, now: Time)
    requires Inv(db)
    ensures Inv(RefreshStep(db, t, now).0)
  {
    if t < |db.tokens| {
      if !Live(db.tokens[t]) {
        RevokeAllKeeps(db, db.tokens[t].user, TOKEN_REUSE, now);
      } else if RefreshStep(db, t, now).1.Issued? {
        RotateKeeps(db, t, now);
      }
    }
  }

  lemma {:induction false} RunKeeps(db: Db, es: seq<Event>)
    requires Inv(db)
    ensures Inv(Run(db, es))
  {
    if es != [] {
      var n := |es| - 1;
      RunKeeps(db, es[..n]);
      StepKeeps(Run(db, es[..n]), es[n]);
    }
  }

  // -- the chain of a session ------------------------------------------------

  /** The tokens of a session in the order they were issued. */
  function Chain(tokens: seq<Token>, s: SessionId): seq<TokenId> {
    if tokens == [] then []
    else
      var n := |tokens| - 1;
      if tokens[n].session == s then Chain(tokens[..n], s) + [n] else Chain(tokens[..n], s)
  }

  ghost predicate Ascending(c: seq<TokenId>) {
    forall i, j :: 0 <= i < j < |c| ==> c[i] < c[j]
  }

  lemma {:induction false} ChainHolds(tokens: seq<Token>, s: SessionId)
    ensures forall t: TokenId :: t in Chain(tokens, s) <==> t < |tokens| && tokens[t].session == s
    ensures Ascending(Chain(tokens, s))
  {
    if tokens != [] {
      var n := |tokens| - 1;
      ChainHolds(tokens[..n], s);
      var front := Chain(tokens[..n], s);
      assert forall i :: 0 <= i < |front| ==> front[i] in front;
      forall t: TokenId ensures t in Chain(tokens, s) <==> t < |tokens| && tokens[t].session == s {
        assert t in front <==> t < n && tokens[..n][t].session == s;
        if t < n { assert tokens[..n][t] == tokens[t]; }
        if tokens[n].session == s { assert t in front + [n] <==> t in front || t == n; }
      }
    }
  }

  /** No member of an ascending sequence falls between two neighbours. */
  lemma Gap(c: seq<TokenId>, i: nat, n: TokenId)
    requires Ascending(c) && i + 1 < |c| && n in c && c[i] < n <= c[i + 1]
    ensures n == c[i + 1]
  {
    var k :| 0 <= k < |c| && c[k] == n;
  }

  ghost predicate LinkedAt(tokens: seq<Token>, c: seq<TokenId>, i: nat)
    requires i + 1 < |c| && c[i] < |tokens|
  {
    tokens[c[i]].replacedBy == Some(c[i + 1]) && !Live(tokens[c[i]])
  }

  lemma ChainLinked(tokens: seq<Token>, s: SessionId, i: nat)
    requires LinksOk(tokens) && i + 1 < |Chain(tokens, s)|
    ensures Chain(tokens, s)[i] < |tokens| && LinkedAt(tokens, Chain(tokens, s), i)
  {
    var c := Chain(tokens, s);
    ChainHolds(tokens, s);
    assert c[i] in c && c[i + 1] in c;
    var t, u := c[i], c[i + 1];
    assert InOrder(tokens, t, u) && ReplacedOk(tokens, t);
    Gap(c, i, tokens[t].replacedBy.value);
  }

  function LiveIn(tokens: seq<Token>, s: SessionId): set<TokenId> {
    set t: nat | t < |tokens| && tokens[t].session == s && Live(tokens[t])
  }

  /**
   The tokens of a session are one chain of `replacedBy` links in issue order,
   all but its end revoked; the unrevoked ones are the end alone while the session
   is unrevoked, and none after.
   */
  ghost predicate OneChain(db: Db, s: SessionId)
    requires s < |db.sessions|
  {
    var c := Chain(db.tokens, s);
    && c != []
    && (forall i :: 0 <= i < |c| ==> c[i] < |db.tokens|)
    && (forall i :: 0 <= i < |c| - 1 ==> LinkedAt(db.tokens, c, i))
    && db.tokens[c[|c| - 1]].replacedBy == None
    && LiveIn(db.tokens, s) == (if db.sessions[s].revoked.None? then {c[|c| - 1]} else {})
    && |LiveIn(db.tokens, s)| == (if db.sessions[s].revoked.None? then 1 else 0)
  }

  /** Nothing replaces the last token of a session. */
  lemma LastIsFree(tokens: seq<Token>, s: SessionId)
    requires LinksOk(tokens) && HasToken(tokens, s)
    ensures Chain(tokens, s) != []
    ensures var tip := Chain(tokens, s)[|Chain(tokens, s)| - 1];
      tip < |tokens| && tokens[tip].session == s && tokens[tip].replacedBy.None?
  {
    var c := Chain(tokens, s);
    ChainHolds(tokens, s);
    var t :| 0 <= t < |tokens| && tokens[t].session == s;
    assert t in c;
    var tip := c[|c| - 1];
    assert tip in c;
    assert ReplacedOk(tokens, tip);
  }

  lemma ChainTip(db: Db, s: SessionId)
    requires Inv(db) && s < |db.sessions|
    ensures OneChain(db, s)
  {
    var c := Chain(db.tokens, s);
    ChainHolds(db.tokens, s);
    LastIsFree(db.tokens, s);
    var tip := c[|c| - 1];
    forall i | 0 <= i < |c| ensures c[i] < |db.tokens| { assert c[i] in c; }
    forall i | 0 <= i < |c| - 1 ensures LinkedAt(db.tokens, c, i) && c[i] !in LiveIn(db.tokens, s) {
      ChainLinked(db.tokens, s, i);
    }
    forall u ensures u in LiveIn(db.tokens, s) <==> u == tip && db.sessions[s].revoked.None? {
      if u in LiveIn(db.tokens, s) { assert u in c; }
    }
  }

  lemma EveryRun(es: seq<Event>, s: SessionId)
    requires s < |Run(EMPTY, es).sessions|
    ensures OneChain(Run(EMPTY, es), s)
  {
    RunKeeps(EMPTY, es);
    ChainTip(Run(EMPTY, es), s);
  }

  // -- rotation --------------------------------------------------------------

  /**
   A token is exchanged exactly when it is the one unrevoked token of its session,
   neither it nor the session has expired, and its user may sign in.
   */
  lemma WhoMayRefresh(es: seq<Event>, t: TokenId, now: Time)
    ensures var db := Run(EMPTY, es);
      Step(db, Refresh(t, now)).1.Issued? <==>
      && t < |db.tokens| && db.tokens[t].session < |db.sessions|
      && LiveIn(db.tokens, db.tokens[t].session) == {t}
      && now <= db.tokens[t].expiresAt && now <= db.sessions[db.tokens[t].session].expiresAt
      && db.tokens[t].user in db.users && !db.users[db.tokens[t].user].blocked
  {
    var db := Run(EMPTY, es);
    RunKeeps(EMPTY, es);
    if t < |db.tokens| {
      ChainTip(db, db.tokens[t].session);
      assert t in LiveIn(db.tokens, db.tokens[t].session) <==> Live(db.tokens[t]);
    }
  }

  /** The end of the chain moves on to a new token that lives no longer than the session. */
  lemma RefreshMovesTheEnd(es: seq<Event>, t: TokenId, now: Time)
    requires Step(Run(EMPTY, es), Refresh(t, now)).1.Issued?
    ensures var db, out := Run(EMPTY, es), Step(Run(EMPTY, es), Refresh(t, now));
      && t < |db.tokens| && db.tokens[t].session == out.1.session < |db.sessions|
      && Chain(out.0.tokens, out.1.session) == Chain(db.tokens, out.1.session) + [out.1.token]
      && LiveIn(out.0.tokens, out.1.session) == {out.1.token}
      && out.0.tokens[out.1.token].user == db.tokens[t].user
      && out.0.tokens[out.1.token].expiresAt == db.sessions[out.1.session].expiresAt
      && out.0.sessions == db.sessions[out.1.session := db.sessions[out.1.session].(lastUsed := now)]
  {
    var db := Run(EMPTY, es);
    RunKeeps(EMPTY, es);
    RefreshKeeps(db, t, now);
    var after, s := Rotated(db, t, now), db.tokens[t].session;
    ChainTip(after, s);
    RotatedChain(db.tokens, t, after.tokens[t], after.tokens[|db.tokens|]);
  }

  lemma ChainPush(tokens: seq<Token>, next: Token)
    ensures Chain(tokens + [next], next.session) == Chain(tokens, next.session) + [|tokens|]
  {
    assert (tokens + [next])[..|tokens|] == tokens;
  }

  lemma RotatedChain(tokens: seq<Token>, t: TokenId, row: Token, next: Token)
    requires t < |tokens| && row.session == tokens[t].session == next.session
    ensures Chain(tokens[t := row] + [next], row.session) == Chain(tokens, row.session) + [|tokens|]
  {
    ChainUpdate(tokens, t, row, row.session);
    ChainPush(tokens[t := row], next);
  }

  lemma {:induction false} ChainUpdate(tokens: seq<Token>, t: TokenId, row: Token, s: SessionId)
    requires t < |tokens| && row.session == tokens[t].session
    ensures Chain(tokens[t := row], s) == Chain(tokens, s)
  {
    var n := |tokens| - 1;
    if t < n {
      assert tokens[t := row][..n] == tokens[..n][t := row];
      ChainUpdate(tokens[..n], t, row, s);
    } else {
      assert tokens[t := row][..n] == tokens[..n];
    }
  }

  ghost predicate ShutOut(db: Db, user: UserId) {
    && (forall s :: 0 <= s < |db.sessions| && db.sessions[s].user == user ==> db.sessions[s].revoked.Some?)
    && (forall t :: 0 <= t < |db.tokens| && db.tokens[t].user == user ==> !Live(db.tokens[t]))
  }

  ghost predicate OthersUntouched(a: Db, b: Db, user: UserId) {
    && |b.sessions| == |a.sessions| && |b.tokens| == |a.tokens|
    && (forall s :: 0 <= s < |a.sessions| && a.sessions[s].user != user ==> b.sessions[s] == a.sessions[s])
    && (forall t :: 0 <= t < |a.tokens| && a.tokens[t].user != user ==> b.tokens[t] == a.tokens[t])
  }

  /** A revoked token never refreshes again; presenting it shuts its owner out and nobody else. */
  lemma ReuseShutsOut(es: seq<Event>, t: TokenId, now: Time)
    requires t < |Run(EMPTY, es).tokens| && !Live(Run(EMPTY, es).tokens[t])
    ensures var db, out := Run(EMPTY, es), Step(Run(EMPTY, es), Refresh(t, now));
      && out.1 == Refused(TOKEN_REVOKED)
      && ShutOut(out.0, db.tokens[t].user) && OthersUntouched(db, out.0, db.tokens[t].user)
  {
    RunKeeps(EMPTY, es);
  }

  /**
   After a reuse was detected, whatever is done next, every token the user had is
   a reuse too: none of them is ever exchanged for another.
   */
  lemma ReuseIsFinal(es: seq<Event>, t: TokenId, now: Time, rest: seq<Event>, earlier: TokenId, at: Time)
    requires t < |Run(EMPTY, es).tokens| && !Live(Run(EMPTY, es).tokens[t])
    requires earlier < |Run(EMPTY, es).tokens|
    requires Run(EMPTY, es).tokens[earlier].user == Run(EMPTY, es).tokens[t].user
    ensures Step(Run(Step(Run(EMPTY, es), Refresh(t, now)).0, rest), Refresh(earlier, at)).1 == Refused(TOKEN_REVOKED)
  {
    var after := Step(Run(EMPTY, es), Refresh(t, now)).0;
    ReuseShutsOut(es, t, now);
    StepKeepsRun(es, Refresh(t, now));
    RunContinues(after, rest);
    RunKeeps(after, rest);
  }

  lemma StepKeepsRun(es: seq<Event>, e: Event)
    ensures Inv(Step(Run(EMPTY, es), e).0)
  {
    RunKeeps(EMPTY, es);
    StepKeeps(Run(EMPTY, es), e);
  }

  /** A token is exchanged at most once, in any run. */
  lemma ExchangedOnce(es: seq<Event>, t: TokenId, now: Time, rest: seq<Event>, at: Time)
    requires Step(Run(EMPTY, es), Refresh(t, now)).1.Issued?
    ensures Step(Run(Step(Run(EMPTY, es), Refresh(t, now)).0, rest), Refresh(t, at)).1 == Refused(TOKEN_REVOKED)
  {
    var after := Step(Run(EMPTY, es), Refresh(t, now)).0;
    StepKeepsRun(es, Refresh(t, now));
    RunContinues(after, rest);
    RunKeeps(after, rest);
  }

  /** However often it is rotated, a session ends when the expiry it was opened with has passed. */
  lemma RotationNeverExtends(es: seq<Event>, s: SessionId, rest: seq<Event>, t: TokenId, now: Time)
    requires s < |Run(EMPTY, es).sessions|
    requires Step(Run(Run(EMPTY, es), rest), Refresh(t, now)).1.Issued?
    requires Step(Run(Run(EMPTY, es), rest), Refresh(t, now)).1.session == s
    ensures now <= Run(EMPTY, es).sessions[s].expiresAt
  {
    RunContinues(Run(EMPTY, es), rest);
  }

  // -- revoking everything ---------------------------------------------------

  function LiveTokensOf(tokens: seq<Token>, user: UserId): set<TokenId> {
    set t: nat | t < |tokens| && tokens[t].user == user && Live(tokens[t])
  }

  /** Two sets paired off by the session of a token have the same size. */
  lemma {:induction false} PairUp(tokens: seq<Token>, ts: set<TokenId>, ss: set<SessionId>)
    requires forall t :: t in ts ==> t < |tokens| && tokens[t].session in ss
    requires forall t, u :: t in ts && u in ts && tokens[t].session == tokens[u].session ==> t == u
    requires forall s :: s in ss ==> exists t :: t in ts && tokens[t].session == s
    ensures |ts| == |ss|
  {
    if ts == {} {
      assert ss == {};
    } else {
      var t :| t in ts;
      PairUp(tokens, ts - {t}, ss - {tokens[t].session});
    }
  }

  /** A user has as many unrevoked tokens as unrevoked sessions. */
  lemma LiveTokensMatch(db: Db, user: UserId)
    requires Inv(db)
    ensures |LiveTokensOf(db.tokens, user)| == |LiveSessionsOf(db.sessions, user)|
  {
    var ts, ss := LiveTokensOf(db.tokens, user), LiveSessionsOf(db.sessions, user);
    forall t | t in ts ensures LiveIn(db.tokens, db.tokens[t].session) == {t} && db.tokens[t].session in ss {
      ChainTip(db, db.tokens[t].session);
      assert t in LiveIn(db.tokens, db.tokens[t].session);
    }
    forall s | s in ss ensures exists t :: t in ts && db.tokens[t].session == s {
      ChainTip(db, s);
      var t :| t in LiveIn(db.tokens, s);
      assert t in ts;
    }
    PairUp(db.tokens, ts, ss);
  }

  /** `revokeAllSessions` answers with the number of sessions, which is also the number of tokens it revoked. */
  lemma RevokedCountsTokens(es: seq<Event>, user: UserId, reason: Reason, now: Time)
    ensures var db, out := Run(EMPTY, es), Step(Run(EMPTY, es), RevokeAll(user, reason, now));
      && out.1 == Revoked(|LiveTokensOf(db.tokens, user)|)
      && ShutOut(out.0, user) && OthersUntouched(db, out.0, user)
  {
    var db := Run(EMPTY, es);
    RunKeeps(EMPTY, es);
    LiveTokensMatch(db, user);
  }

  // -- signing out -----------------------------------------------------------

  /**
   `logout` looks for the session under the given user but for tokens under the
   session alone.  It keeps tokens and session in step if and only if the user is
   the session's owner or there is no unrevoked session to miss.
   */
  lemma LogoutNeedsTheOwner(db: Db, user: UserId, sid: SessionId, now: Time)
    requires Inv(db)
    ensures Inv(SignedOut(db, user, sid, now)) <==>
      (sid >= |db.sessions| || db.sessions[sid].user == user || db.sessions[sid].revoked.Some?)
  {
    var after := SignedOut(db, user, sid, now);
    RevokedLinks(db.tokens, after.tokens);
    if sid < |db.sessions| {
      ChainTip(db, sid);
      var c := Chain(db.tokens, sid);
      var tip := c[|c| - 1];
      if db.sessions[sid].user == user {
        SignedOutKeeps(db, user, sid, now);
      } else if db.sessions[sid].revoked.Some? {
        assert forall t :: 0 <= t < |db.tokens| && db.tokens[t].session == sid ==> t !in LiveIn(db.tokens, sid);
        assert after.tokens == db.tokens;
      } else {
        assert tip in LiveIn(db.tokens, sid);
        assert !Live(after.tokens[tip]) && after.tokens[tip].replacedBy.None?;
      }
    }
  }

  /** The calls that sign one session out. */
  ghost predicate SignsOut(db: Db, e: Event, s: SessionId) {
    || (e.Logout? && e.claims in db.signed && e.claims.session == s)
    || (e.LogoutByToken? && e.token < |db.tokens| && db.tokens[e.token].session == s)
    || (e.RevokeSession? && e.session == s < |db.sessions| && db.sessions[s].user == e.user)
  }

  /** Each of them ends the session for good: no token it has, or is ever given, refreshes afterwards. */
  lemma {:induction false} SignOutEnds(es: seq<Event>, e: Event, s: SessionId, rest: seq<Event>, t: TokenId, now: Time)
    requires SignsOut(Run(EMPTY, es), e, s)
    ensures var db := Run(Step(Run(EMPTY, es), e).0, rest);
      && s < |db.sessions| && db.sessions[s].revoked.Some? && LiveIn(db.tokens, s) == {}
      && (t < |db.tokens| && db.tokens[t].session == s ==> Step(db, Refresh(t, now)).1 == Refused(TOKEN_REVOKED))
  {
    var after := Step(Run(EMPTY, es), e).0;
    RunKeeps(EMPTY, es);
    StepKeepsRun(es, e);
    assert s < |after.sessions| && after.sessions[s].revoked.Some?;
    RunContinues(after, rest);
    RunKeeps(after, rest);
    var db := Run(after, rest);
    ChainTip(db, s);
    if t < |db.tokens| && db.tokens[t].session == s { assert t !in LiveIn(db.tokens, s); }
  }
}
