/** What a login challenge stands for, read off the events of the run and the answers they got. */
module ChallengeTrace {
  import opened Base
  import opened LoginChallenge
  import opened ChallengeRuns

  function Answer(es: seq<Event>, e: Event): Outcome {
    Step(Run(EMPTY, es), e).1
  }

  // -- the story of a challenge ----------------------------------------------

  function CodeIn(e: Event): Option<Code> {
    match e
    case FinishLogin(_, _, _, _, code) => Some(code)
    case GoogleLogin(_, _, code) => Some(code)
    case BeginToggle(_, _, _, code) => Some(code)
    case Resend(_, code) => Some(code)
    case _ => None
  }

  /** The browser of a request that begins a challenge. */
  function DeviceIn(e: Event): Option<Device> {
    match e
    case FinishLogin(_, _, _, device, _) => Some(device)
    case GoogleLogin(_, device, _) => Some(device)
    case BeginToggle(_, _, device, _) => Some(device)
    case _ => None
  }

  /** The code of the last request answered with the challenge. */
  function Said(es: seq<Event>, c: ChallengeId): Option<Code> {
    if es == [] then None
    else
      var n := |es| - 1;
      if Answer(es[..n], es[n]) == Challenged(c) then CodeIn(es[n]) else Said(es[..n], c)
  }

  /** The browser it was begun in. */
  function BegunIn(es: seq<Event>, c: ChallengeId): Option<Device> {
    if es == [] then None
    else
      var n := |es| - 1;
      if Answer(es[..n], es[n]) == Challenged(c) && !es[n].Resend? then DeviceIn(es[n]) else BegunIn(es[..n], c)
  }

  predicate Misses(es: seq<Event>, e: Event, c: ChallengeId) {
    e.VerifyCode? && e.challenge == c && Answer(es, e) == Refused(OTP_INVALID)
  }

  /** The wrong codes since the last message. */
  function WrongSince(es: seq<Event>, c: ChallengeId): nat {
    if es == [] then 0
    else
      var n := |es| - 1;
      if Answer(es[..n], es[n]) == Challenged(c) then 0
      else WrongSince(es[..n], c) + (if Misses(es[..n], es[n], c) then 1 else 0)
  }

  /** And all of them. */
  function WrongCodes(es: seq<Event>, c: ChallengeId): nat {
    if es == [] then 0
    else var n := |es| - 1; WrongCodes(es[..n], c) + (if Misses(es[..n], es[n], c) then 1 else 0)
  }

  function Resends(es: seq<Event>, c: ChallengeId): nat {
    if es == [] then 0
    else
      var n := |es| - 1;
      Resends(es[..n], c) + (if es[n].Resend? && Answer(es[..n], es[n]) == Challenged(c) then 1 else 0)
  }

  /** The message behind a link is one of the challenge. */
  predicate LinkOf(es: seq<Event>, l: Link, c: ChallengeId) {
    var mails := Run(EMPTY, es).mails; l < |mails| && mails[l].challenge == c
  }

  /**
   What puts an end to it: time, another browser, the right code, the fifth wrong one,
   its link, or the switch.
   */
  predicate Ends(es: seq<Event>, e: Event, c: ChallengeId) {
    match e
    case ExpireChallenge(k) => k == c
    case VerifyCode(k, code, device) =>
      k == c && (BegunIn(es, c) != Some(device) || Said(es, c) == Some(code) || WrongSince(es, c) == 4)
    case OpenLink(l) => LinkOf(es, l, c) && Answer(es, e) != Refused(OTP_EXPIRED)
    case FinishToggle(_, _, k, _, _) => k == c && Answer(es, e) == Done
    case _ => false
  }

  predicate Lives(es: seq<Event>, c: ChallengeId) {
    if es == [] then false
    else
      var n := |es| - 1;
      Answer(es[..n], es[n]) == Challenged(c) || (!Ends(es[..n], es[n], c) && Lives(es[..n], c))
  }

  // -- the tables tell the same story ----------------------------------------

  ghost predicate Told(es: seq<Event>, c: ChallengeId) {
    var db := Run(EMPTY, es);
    && (c in db.otp <==> Lives(es, c))
    && (c in db.otp ==>
          && BegunIn(es, c) == Some(db.otp[c].device) && Said(es, c) == Some(db.otp[c].code)
          && WrongSince(es, c) == db.otp[c].attempts && Resends(es, c) == db.otp[c].resends)
    && db.failed[c] == WrongCodes(es, c)
    && (c >= |db.issued| ==> Resends(es, c) == 0)
  }

  /** The step leaves the keys of the challenge alone. */
  predicate Aside(a: Db, b: Db, c: ChallengeId) {
    && (c in a.otp <==> c in b.otp) && (c in a.otp ==> b.otp[c] == a.otp[c])
    && b.failed[c] == a.failed[c] && |a.issued| <= |b.issued|
  }

  /** An event that neither is answered with the challenge, nor ends it, nor misses it. */
  lemma AsideTold(es: seq<Event>, e: Event, c: ChallengeId)
    requires Told(es, c) && Aside(Run(EMPTY, es), Step(Run(EMPTY, es), e).0, c)
    requires Answer(es, e) != Challenged(c) && !Misses(es, e, c) && (Lives(es, c) ==> !Ends(es, e, c))
    ensures Told(es + [e], c)
  {
  }

  /** An event that ends it. */
  lemma EndTold(es: seq<Event>, e: Event, c: ChallengeId)
    requires Told(es, c) && Ends(es, e, c) && Answer(es, e) != Challenged(c) && !Misses(es, e, c)
    requires var db, after := Run(EMPTY, es), Step(Run(EMPTY, es), e).0;
      c !in after.otp && after.failed[c] == db.failed[c] && |db.issued| <= |after.issued|
    ensures Told(es + [e], c)
  {
  }

  lemma EnterFrame(db: Db, c: ChallengeId, ch: Challenge, user: UserId)
    ensures var after := Enter(EndChallenge(db, c, ch), c, user).0;
      && after.otp == db.otp - {c} && after.failed == db.failed && after.issued == db.issued
  {
  }

  lemma VerifyTold(es: seq<Event>, c: ChallengeId, code: Code, device: Device)
    requires Told(es, c) && Inv(Run(EMPTY, es))
    ensures Told(es + [VerifyCode(c, code, device)], c)
  {
    var e, db := VerifyCode(c, code, device), Run(EMPTY, es);
    if c in db.otp && db.otp[c].device == device && db.otp[c].code != code {
      MissTold(es, e, c);
    } else {
      HitTold(es, e, c);
    }
  }

  /** Too late, from another browser, or right. */
  lemma HitTold(es: seq<Event>, e: Event, c: ChallengeId)
    requires Told(es, c) && e.VerifyCode? && e.challenge == c
    requires var db := Run(EMPTY, es); c in db.otp && db.otp[c].device == e.device ==> db.otp[c].code == e.code
    ensures Told(es + [e], c)
  {
    var db := Run(EMPTY, es);
    if c in db.otp {
      EnterFrame(db, c, db.otp[c], db.otp[c].user);
      EndTold(es, e, c);
    } else {
      AsideTold(es, e, c);
    }
  }

  lemma WrongCodeFrame(db: Db, c: ChallengeId)
    requires c in db.otp && db.otp[c].attempts < LOGIN_OTP_ATTEMPTS
    ensures var after, ch := WrongCode(db, c, db.otp[c]), db.otp[c];
      && (c in after.otp <==> ch.attempts < 4) && (c in after.otp ==> after.otp[c] == ch.(attempts := ch.attempts + 1))
      && after.failed[c] == db.failed[c] + 1 && after.issued == db.issued
  {
  }

  lemma MissTold(es: seq<Event>, e: Event, c: ChallengeId)
    requires Told(es, c) && Inv(Run(EMPTY, es)) && c in Run(EMPTY, es).otp && e.VerifyCode? && e.challenge == c
    requires Run(EMPTY, es).otp[c].device == e.device && Run(EMPTY, es).otp[c].code != e.code
    ensures Told(es + [e], c)
  {
    var db := Run(EMPTY, es);
    assert LiveOk(db, c);
    WrongCodeFrame(db, c);
    assert Step(db, e) == (WrongCode(db, c, db.otp[c]), Refused(OTP_INVALID));
  }

  lemma ResendFrame(db: Db, c: ChallengeId, code: Code)
    ensures var (after, out) := ResendStep(db, c, code);
      && after.failed == db.failed && after.issued == db.issued
      && (out == Challenged(c) ==>
            && c in db.otp && c in after.otp && after.otp[c].device == db.otp[c].device && after.otp[c].code == code
            && after.otp[c].attempts == 0 && after.otp[c].resends == db.otp[c].resends + 1)
      && (out != Challenged(c) ==> out.Refused? && after == db)
  {
  }

  lemma ResendTold(es: seq<Event>, c: ChallengeId, code: Code)
    requires Told(es, c) && Inv(Run(EMPTY, es))
    ensures Told(es + [Resend(c, code)], c)
  {
    var db := Run(EMPTY, es);
    ResendFrame(db, c, code);
    if Answer(es, Resend(c, code)) == Challenged(c) {
      assert LiveOk(db, c);
    } else {
      AsideTold(es, Resend(c, code), c);
    }
  }

  lemma LinkTold(es: seq<Event>, l: Link, c: ChallengeId)
    requires Told(es, c) && Inv(Run(EMPTY, es))
    ensures Told(es + [OpenLink(l)], c)
  {
    var db := Run(EMPTY, es);
    if l in db.magic && db.magic[l] in db.otp {
      assert LinkOk(db, l);
      LinkFrame(db, l);
      if db.magic[l] == c { EndTold(es, OpenLink(l), c); } else { AsideTold(es, OpenLink(l), c); }
    } else {
      AsideTold(es, OpenLink(l), c);
    }
  }

  lemma LinkFrame(db: Db, l: Link)
    requires l in db.magic && db.magic[l] in db.otp
    ensures var (after, out) := OpenLinkStep(db, l);
      && after.otp == db.otp - {db.magic[l]} && after.failed == db.failed && after.issued == db.issued
      && out != Refused(OTP_EXPIRED) && !out.Challenged?
  {
    var k := db.magic[l];
    EnterFrame(db.(magic := db.magic - {l}), k, db.otp[k], db.otp[k].user);
  }

  lemma ToggleTold(es: seq<Event>, e: Event, c: ChallengeId)
    requires Told(es, c) && e.FinishToggle?
    ensures Told(es + [e], c)
  {
    if Answer(es, e) == Done && e.challenge == c { EndTold(es, e, c); } else { AsideTold(es, e, c); }
  }

  /** The requests that may begin a challenge. */
  predicate Begins(e: Event) {
    e.FinishLogin? || e.GoogleLogin? || e.BeginToggle?
  }

  lemma BeginTold(es: seq<Event>, e: Event, c: ChallengeId)
    requires Told(es, c) && Inv(Run(EMPTY, es)) && Begins(e)
    ensures Told(es + [e], c)
  {
    var db := Run(EMPTY, es);
    assert UseOk(db, c);
    if c in db.otp { assert LiveOk(db, c); }
    BeginFrame(db, e);
  }

  /**
   A challenge begun: the next number, in the browser and with the code given, nothing
   tried, no other touched.
   */
  ghost predicate Begun(db: Db, after: Db, device: Option<Device>, code: Option<Code>) {
    var c := |db.issued|;
    && c in after.otp && |after.issued| == c + 1 && after.failed == db.failed
    && Some(after.otp[c].device) == device && Some(after.otp[c].code) == code
    && after.otp[c].attempts == 0 && after.otp[c].resends == 0
    && forall k :: k != c ==> (k in after.otp <==> k in db.otp) && (k in db.otp ==> after.otp[k] == db.otp[k])
  }

  predicate SameTables(a: Db, b: Db) {
    b.otp == a.otp && b.failed == a.failed && b.issued == a.issued
  }

  /** What a request that may begin a challenge does: it begins one, or leaves them all alone. */
  lemma BeginFrame(db: Db, e: Event)
    requires Begins(e)
    ensures var (after, out) := Step(db, e);
      if out.Challenged? then out == Challenged(|db.issued|) && Begun(db, after, DeviceIn(e), CodeIn(e))
      else SameTables(db, after)
  {
    match e
    case GoogleLogin(user, device, code) =>
    case BeginToggle(user, _, device, code) =>
    case FinishLogin(w, ok, trusted, device, code) => FinishFrame(db, e);
  }

  lemma FinishFrame(db: Db, e: Event)
    requires e.FinishLogin?
    ensures var (after, out) := Step(db, e);
      if out.Challenged? then out == Challenged(|db.issued|) && Begun(db, after, DeviceIn(e), CodeIn(e))
      else SameTables(db, after)
  {
    if e.worker in db.logins && db.logins[e.worker].user in db.users && e.passwordOk {
      var user := db.logins[e.worker].user;
      var reset := db.(logins := db.logins - {e.worker}, userFails := db.userFails - {user});
    }
  }

  /** Another challenge's code, or its resend. */
  lemma OtherTold(es: seq<Event>, e: Event, c: ChallengeId)
    requires Told(es, c) && (e.VerifyCode? || e.Resend?) && e.challenge != c
    ensures Told(es + [e], c)
  {
    if e.VerifyCode? { VerifyAside(Run(EMPTY, es), e.challenge, e.code, e.device, c); }
    AsideTold(es, e, c);
  }

  lemma VerifyAside(db: Db, k: ChallengeId, code: Code, device: Device, c: ChallengeId)
    requires k != c
    ensures Aside(db, VerifyCodeStep(db, k, code, device).0, c) && VerifyCodeStep(db, k, code, device).1 != Challenged(c)
  {
    if k in db.otp {
      EnterFrame(db, k, db.otp[k], db.otp[k].user);
    }
  }

  /** Keys that run out, users, and sign-ins begun. */
  lemma QuietTold(es: seq<Event>, e: Event, c: ChallengeId)
    requires Told(es, c)
    requires e.PutUser? || e.StartLogin? || e.ExpireChallenge? || e.ExpireLink? || e.ExpireCooldown?
             || e.ExpireUserFails? || e.ExpireIpFails?
    ensures Told(es + [e], c)
  {
    if e == ExpireChallenge(c) { EndTold(es, e, c); } else { AsideTold(es, e, c); }
  }

  lemma StepTold(es: seq<Event>, e: Event, c: ChallengeId)
    requires Told(es, c) && Inv(Run(EMPTY, es))
    ensures Told(es + [e], c)
  {
    if Begins(e) {
      BeginTold(es, e, c);
    } else if e.FinishToggle? {
      ToggleTold(es, e, c);
    } else if e.OpenLink? {
      LinkTold(es, e.link, c);
    } else if (e.VerifyCode? || e.Resend?) && e.challenge != c {
      OtherTold(es, e, c);
    } else if e.VerifyCode? {
      VerifyTold(es, c, e.code, e.device);
    } else if e.Resend? {
      ResendTold(es, c, e.code);
    } else {
      QuietTold(es, e, c);
    }
  }

  lemma {:induction false} EveryChallengeIsTold(es: seq<Event>, c: ChallengeId)
    ensures Told(es, c)
  {
    if es != [] {
      var n := |es| - 1;
      EveryChallengeIsTold(es[..n], c);
      RunKeeps(EMPTY, es[..n]);
      StepTold(es[..n], es[n], c);
      assert es[..n] + [es[n]] == es;
    }
  }

  // -- the theorems ----------------------------------------------------------

  /**
   What a code is answered, in every run: it opens a session exactly when the
   challenge lives, the browser is the one it was begun in, and the code is the
   one said last.
   */
  lemma {:induction false} CodeAnswers(es: seq<Event>, c: ChallengeId, code: Code, device: Device)
    ensures var out, users := Answer(es, VerifyCode(c, code, device)), Run(EMPTY, es).users;
      var owner := Owner(Run(EMPTY, es), c);
      && (out == Refused(OTP_EXPIRED) <==> !Lives(es, c))
      && (out == Refused(INVALID_CREDENTIALS) <==> Lives(es, c) && BegunIn(es, c) != Some(device))
      && (out == Refused(OTP_INVALID) <==> Lives(es, c) && BegunIn(es, c) == Some(device) && Said(es, c) != Some(code))
      && (out == Refused(USER_GONE) || out == SignedIn(owner) <==>
            Lives(es, c) && BegunIn(es, c) == Some(device) && Said(es, c) == Some(code))
      && (out == SignedIn(owner) ==> owner in users) && (out == Refused(USER_GONE) ==> owner !in users)
  {
    var db := Run(EMPTY, es);
    RunKeeps(EMPTY, es);
    EveryChallengeIsTold(es, c);
    if c in db.otp { assert LiveOk(db, c); }
  }

  /** A challenge that lives has had at most four wrong codes since its last message, and at most three resends. */
  lemma {:induction false} RoomLeft(es: seq<Event>, c: ChallengeId)
    requires Lives(es, c)
    ensures WrongSince(es, c) <= 4 && Resends(es, c) <= 3
  {
    RunKeeps(EMPTY, es);
    EveryChallengeIsTold(es, c);
    assert LiveOk(Run(EMPTY, es), c);
  }

  /** Over its whole life at most 17 wrong codes are looked at. */
  lemma {:induction false} WrongCodesBounded(es: seq<Event>, c: ChallengeId)
    ensures WrongCodes(es, c) <= 17
  {
    EveryChallengeIsTold(es, c);
    FailedChecksBounded(es, c);
  }

  /** It was resent, and the mark of that has not run out. */
  predicate Cooling(es: seq<Event>, c: ChallengeId) {
    es != [] &&
    var n := |es| - 1;
    es[n] != ExpireCooldown(c) && (Cooling(es[..n], c) || (es[n].Resend? && Answer(es[..n], es[n]) == Challenged(c)))
  }

  lemma CooldownFrame(db: Db, e: Event)
    requires !e.Resend? && !e.ExpireCooldown?
    ensures Step(db, e).0.cooldown == db.cooldown
  {
    match e
    case VerifyCode(c, code, device) =>
      if c in db.otp { WrongCodeCooldown(db, c, db.otp[c]); EnterCooldown(db, c, db.otp[c]); }
    case OpenLink(l) =>
      if l in db.magic && db.magic[l] in db.otp {
        EnterCooldown(db.(magic := db.magic - {l}), db.magic[l], db.otp[db.magic[l]]);
      }
    case FinishLogin(_, _, _, _, _) => FinishCooldown(db, e);
    case _ =>
  }

  lemma WrongCodeCooldown(db: Db, c: ChallengeId, ch: Challenge)
    ensures WrongCode(db, c, ch).cooldown == db.cooldown
  {
  }

  lemma EnterCooldown(db: Db, c: ChallengeId, ch: Challenge)
    ensures Enter(EndChallenge(db, c, ch), c, ch.user).0.cooldown == db.cooldown
  {
  }

  lemma FinishCooldown(db: Db, e: Event)
    requires e.FinishLogin?
    ensures Step(db, e).0.cooldown == db.cooldown
  {
  }

  lemma {:induction false} CooldownStands(es: seq<Event>, c: ChallengeId)
    ensures c in Run(EMPTY, es).cooldown <==> Cooling(es, c)
  {
    if es != [] {
      var n := |es| - 1;
      CooldownStands(es[..n], c);
      if es[n].Resend? {
        ResendFrame(Run(EMPTY, es[..n]), es[n].challenge, es[n].code);
      } else if !es[n].ExpireCooldown? {
        CooldownFrame(Run(EMPTY, es[..n]), es[n]);
      }
    }
  }

  /** A resend goes out exactly while fewer than three have, none just did, and the user is there. */
  lemma {:induction false} ResendAnswers(es: seq<Event>, c: ChallengeId, code: Code)
    ensures var db := Run(EMPTY, es);
      Answer(es, Resend(c, code)) == Challenged(c) <==>
        Lives(es, c) && Resends(es, c) < 3 && !Cooling(es, c) && Owner(db, c) in db.users
  {
    var db := Run(EMPTY, es);
    RunKeeps(EMPTY, es);
    EveryChallengeIsTold(es, c);
    CooldownStands(es, c);
    if c in db.otp { assert LiveOk(db, c); }
  }

  lemma LiveOwner(es: seq<Event>, c: ChallengeId)
    requires c in Run(EMPTY, es).otp
    ensures c < |Run(EMPTY, es).issued| && Run(EMPTY, es).otp[c].user == Run(EMPTY, es).issued[c]
  {
    RunKeeps(EMPTY, es);
    assert LiveOk(Run(EMPTY, es), c);
  }

  /** The link of a password sign-in or a resend opens the session at once; the other routes send none. */
  lemma {:induction false} LinkSent(es: seq<Event>, e: Event, c: ChallengeId)
    requires Answer(es, e) == Challenged(c)
    ensures var db, after := Run(EMPTY, es), Step(Run(EMPTY, es), e).0;
      if e.FinishLogin? || e.Resend? then Step(after, OpenLink(|db.mails|)).1 == SignedIn(Owner(after, c))
      else after.magic == db.magic
  {
    if e.FinishLogin? {
      LinkOfLogin(Run(EMPTY, es), e);
    } else if e.Resend? {
      LiveOwner(es, e.challenge);
      ResendFrame(Run(EMPTY, es), e.challenge, e.code);
    } else {
      NoLink(Run(EMPTY, es), e);
    }
  }

  lemma NoLink(db: Db, e: Event)
    requires Step(db, e).1.Challenged? && !e.FinishLogin? && !e.Resend?
    ensures Step(db, e).0.magic == db.magic
  {
    match e
    case GoogleLogin(_, _, _) =>
    case BeginToggle(_, _, _, _) =>
    case _ =>
  }

  lemma LinkOfLogin(db: Db, e: Event)
    requires e.FinishLogin? && Step(db, e).1.Challenged?
    ensures var (after, out) := Step(db, e); Step(after, OpenLink(|db.mails|)).1 == SignedIn(Owner(after, out.challenge))
  {
    var user := db.logins[e.worker].user;
  }

  // -- one use ---------------------------------------------------------------

  /** The event opens a session through the challenge, or turns the second factor on or off by it. */
  predicate UsedBy(es: seq<Event>, e: Event, c: ChallengeId) {
    || (e.VerifyCode? && e.challenge == c && Answer(es, e).SignedIn?)
    || (e.OpenLink? && LinkOf(es, e.link, c) && Answer(es, e).SignedIn?)
    || (e.FinishToggle? && e.challenge == c && Answer(es, e) == Done)
  }

  function UsesOf(es: seq<Event>, c: ChallengeId): nat {
    if es == [] then 0
    else var n := |es| - 1; UsesOf(es[..n], c) + (if UsedBy(es[..n], es[n], c) then 1 else 0)
  }

  /** Using a challenge takes one that lives, and ends it. */
  lemma UseEnds(es: seq<Event>, e: Event, c: ChallengeId)
    requires UsedBy(es, e, c)
    ensures Lives(es, c) && Ends(es, e, c) && Answer(es, e) != Challenged(c)
  {
    RunKeeps(EMPTY, es);
    EveryChallengeIsTold(es, c);
    if e.VerifyCode? {
      CodeAnswers(es, c, e.code, e.device);
    } else if e.OpenLink? && e.link in Run(EMPTY, es).magic {
      assert LinkOk(Run(EMPTY, es), e.link);
    }
  }

  /** A challenge that has been issued stays issued, and only a new one is begun. */
  lemma {:induction false} Unissued(es: seq<Event>, c: ChallengeId)
    requires c >= |Run(EMPTY, es).issued|
    ensures UsesOf(es, c) == 0 && !Lives(es, c)
  {
    RunKeeps(EMPTY, es);
    EveryChallengeIsTold(es, c);
    if c in Run(EMPTY, es).otp { assert LiveOk(Run(EMPTY, es), c); }
    if es != [] {
      var n := |es| - 1;
      RunKeeps(EMPTY, es[..n]);
      StepContinues(Run(EMPTY, es[..n]), es[n]);
      Unissued(es[..n], c);
      if UsedBy(es[..n], es[n], c) { UseEnds(es[..n], es[n], c); }
    }
  }

  /** In every run a challenge is used at most once, and not at all while it lives. */
  lemma {:induction false} OneUse(es: seq<Event>, c: ChallengeId)
    ensures UsesOf(es, c) <= if Lives(es, c) then 0 else 1
  {
    if es != [] {
      var n := |es| - 1;
      OneUse(es[..n], c);
      if UsedBy(es[..n], es[n], c) { UseEnds(es[..n], es[n], c); }
      if Answer(es[..n], es[n]) == Challenged(c) { NewOrLiving(es[..n], es[n], c); }
    }
  }

  lemma NewOrLiving(es: seq<Event>, e: Event, c: ChallengeId)
    requires Answer(es, e) == Challenged(c)
    ensures Lives(es, c) || UsesOf(es, c) == 0
  {
    EveryChallengeIsTold(es, c);
    if Begins(e) {
      BeginFrame(Run(EMPTY, es), e);
      Unissued(es, c);
    } else if e.Resend? && e.challenge == c {
      ResendFrame(Run(EMPTY, es), c, e.code);
    }
  }

  // -- the switch ------------------------------------------------------------

  /** What the second factor of a user was last set to. */
  function TwoFactor(es: seq<Event>, user: UserId): Option<bool> {
    if es == [] then None
    else
      var n := |es| - 1;
      match es[n]
      case PutUser(u, account) =>
        if u != user then TwoFactor(es[..n], user) else if account.Some? then Some(account.value.twoFactor) else None
      case FinishToggle(u, _, _, _, enabled) =>
        if u == user && Answer(es[..n], es[n]) == Done then Some(enabled) else TwoFactor(es[..n], user)
      case _ => TwoFactor(es[..n], user)
  }

  lemma UsersFrame(db: Db, e: Event)
    requires !e.PutUser? && !e.FinishToggle?
    ensures Step(db, e).0.users == db.users
  {
    match e
    case VerifyCode(c, code, device) => VerifyUsers(db, c, code, device);
    case OpenLink(l) =>
      if l in db.magic && db.magic[l] in db.otp {
        EnterUsers(db.(magic := db.magic - {l}), db.magic[l], db.otp[db.magic[l]]);
      }
    case Resend(c, code) =>
    case FinishLogin(_, _, _, _, _) => FinishUsers(db, e);
    case _ =>
  }

  lemma VerifyUsers(db: Db, c: ChallengeId, code: Code, device: Device)
    ensures VerifyCodeStep(db, c, code, device).0.users == db.users
  {
    if c in db.otp { EnterUsers(db, c, db.otp[c]); }
  }

  lemma EnterUsers(db: Db, c: ChallengeId, ch: Challenge)
    ensures Enter(EndChallenge(db, c, ch), c, ch.user).0.users == db.users
  {
  }

  lemma FinishUsers(db: Db, e: Event)
    requires e.FinishLogin?
    ensures Step(db, e).0.users == db.users
  {
  }

  /** The switch stands where it was last set, by an administrator or by the user with a code. */
  lemma {:induction false} SwitchStands(es: seq<Event>, user: UserId)
    ensures var users := Run(EMPTY, es).users;
      TwoFactor(es, user) == if user in users then Some(users[user].twoFactor) else None
  {
    if es != [] {
      var n := |es| - 1;
      SwitchStands(es[..n], user);
      if !es[n].PutUser? && !es[n].FinishToggle? { UsersFrame(Run(EMPTY, es[..n]), es[n]); }
    }
  }

  /**
   It is moved exactly by a citizen with the right password and the code last said of a
   living challenge of its own.
   */
  lemma {:induction false} ToggleAnswers(
    es: seq<Event>, user: UserId, passwordOk: bool, c: ChallengeId, code: Code, enabled: bool)
    ensures var db := Run(EMPTY, es);
      Answer(es, FinishToggle(user, passwordOk, c, code, enabled)) == Done <==>
        && user in db.users && db.users[user].citizen && passwordOk
        && Lives(es, c) && Owner(db, c) == user && Said(es, c) == Some(code)
  {
    var db := Run(EMPTY, es);
    RunKeeps(EMPTY, es);
    EveryChallengeIsTold(es, c);
    if c in db.otp { assert LiveOk(db, c); }
  }
}
