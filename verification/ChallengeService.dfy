/** The challenge endpoints as they run: a challenge is read, changed and written back, keys are set and deleted. */
module ChallengeService {
  import opened Base
  import opened LoginChallenge
  import opened ChallengeRuns
  import opened LoginTrace

  /** With a code given the call finishes a change, without one it begins one. */
  function ToggleEvent(
    user: UserId, passwordOk: bool, given: Option<(ChallengeId, Code)>, enabled: bool, device: Device, code: Code): Event
  {
    match given
    case None => BeginToggle(user, passwordOk, device, code)
    case Some(pair) => FinishToggle(user, passwordOk, pair.0, pair.1, enabled)
  }

  class Service {
    var otp: map<ChallengeId, Challenge>
    var magic: map<Link, ChallengeId>
    var cooldown: set<ChallengeId>
    var users: map<UserId, Account>
    var issued: seq<UserId>
    var mails: seq<Mail>
    var sessions: multiset<SignIn>
    var toggled: multiset<ChallengeId>
    var failed: multiset<ChallengeId>
    var userFails: map<UserId, nat>
    var ipFails: map<Ip, nat>
    var logins: map<Worker, Attempt>

    function View(): Db
      reads this
    {
      Db(otp, magic, cooldown, users, issued, mails, sessions, toggled, failed, userFails, ipFails, logins)
    }

    /** What every run of the tables keeps. */
    ghost predicate Valid()
      reads this
    {
      Inv(View())
    }

    constructor ()
      ensures View() == EMPTY && Valid()
    {
      otp, magic, cooldown, users, issued, mails := map[], map[], {}, map[], [], [];
      sessions, toggled, failed := multiset{}, multiset{}, multiset{};
      userFails, ipFails, logins := map[], map[], map[];
    }

    /** Deletes the link's key, if the challenge has a link. */
    method DropLink(link: Option<Link>)
      modifies this`magic
      ensures magic == WithoutLink(old(magic), link)
    {
      match link {
        case None =>
        case Some(l) => magic := magic - {l};
      }
    }

    /** Makes a new link and points the challenge at it; the caller writes the challenge back. */
    method IssueMagicLink(challenge: Challenge, c: ChallengeId) returns (linked: Challenge)
      modifies this`magic, this`mails
      ensures linked == challenge.(link := Some(|old(mails)|))
      ensures magic == WithoutLink(old(magic), challenge.link)[|old(mails)| := c]
      ensures mails == old(mails) + [Mail(c, challenge.code, true)]
    {
      DropLink(challenge.link);
      var l := |mails|;
      linked := challenge.(link := Some(l));
      magic := magic[l := c];
      mails := mails + [Mail(c, challenge.code, true)];
    }

    /** Both doors close; the answer is how many challenge keys were deleted. */
    method End(c: ChallengeId, challenge: Challenge) returns (deleted: nat)
      modifies this`otp, this`magic
      ensures View() == EndChallenge(old(View()), c, challenge)
      ensures deleted == if c in old(otp) then 1 else 0
    {
      DropLink(challenge.link);
      deleted := if c in otp then 1 else 0;
      otp := otp - {c};
    }

    method OpenSession(user: UserId, c: ChallengeId) returns (out: Outcome)
      modifies this`sessions
      ensures (View(), out) == Enter(old(View()), c, user)
    {
      if user !in users { return Refused(USER_GONE); }
      sessions := sessions + multiset{SignIn(user, Some(c))};
      out := SignedIn(user);
    }

    /** The counters, before the password is compared. */
    method BeginLogIn(worker: Worker, user: UserId, ip: Ip) returns (out: Outcome)
      requires Valid()
      modifies this`logins
      ensures (View(), out) == StartLoginStep(old(View()), worker, user, ip)
      ensures Valid()
    {
      StepKeeps(View(), StartLogin(worker, user, ip));
      if Fails(ipFails, ip) >= FAILS_PER_IP { return Refused(RATE_LIMITED); }
      var fails := Fails(userFails, user);
      if fails >= FAILS_BEFORE_LONG_LOCK { return Refused(LOCKED_AN_HOUR); }
      if fails >= FAILS_BEFORE_LOCK { return Refused(LOCKED_15_MINUTES); }
      logins := logins[worker := Attempt(user, ip)];
      out := Done;
    }

    method LogIn(worker: Worker, passwordOk: bool, trusted: bool, device: Device, code: Code) returns (out: Outcome)
      requires Valid()
      modifies this`otp, this`magic, this`issued, this`mails, this`sessions, this`userFails, this`ipFails, this`logins
      ensures (View(), out) == FinishLoginStep(old(View()), worker, passwordOk, trusted, device, code)
      ensures worker in old(logins) && !passwordOk ==>
        out == Refused(INVALID_CREDENTIALS) && NothingOpened(old(View()), View())
      ensures Valid()
    {
      ghost var before := View();
      StepKeeps(before, FinishLogin(worker, passwordOk, trusted, device, code));
      if worker in logins && !passwordOk { WrongPasswordIsCounted(before, worker, false, trusted, device, code); }
      out := CheckPassword(worker, passwordOk, trusted, device, code);
      assert View() == Step(before, FinishLogin(worker, passwordOk, trusted, device, code)).0;
    }

    /** The password, the counters it moves, and the account, in that order. */
    method CheckPassword(worker: Worker, passwordOk: bool, trusted: bool, device: Device, code: Code)
      returns (out: Outcome)
      modifies this`otp, this`magic, this`issued, this`mails, this`sessions, this`userFails, this`ipFails, this`logins
      ensures (View(), out) == FinishLoginStep(old(View()), worker, passwordOk, trusted, device, code)
    {
      if worker !in logins { return Refused(NOT_FOUND); }
      var user, ip := logins[worker].user, logins[worker].ip;
      logins := logins - {worker};
      if user !in users || !passwordOk {
        userFails := userFails[user := Fails(userFails, user) + 1];
        ipFails := ipFails[ip := Fails(ipFails, ip) + 1];
        return Refused(INVALID_CREDENTIALS);
      }
      if users[user].blocked { return Refused(ACCOUNT_BLOCKED); }
      userFails := userFails - {user};
      out := AdmitUser(user, trusted, device, code);
    }

    method AdmitUser(user: UserId, trusted: bool, device: Device, code: Code) returns (out: Outcome)
      requires user in users
      modifies this`otp, this`magic, this`issued, this`mails, this`sessions
      ensures (View(), out) == Admit(old(View()), user, trusted, device, code)
    {
      var account := users[user];
      if !account.twoFactor || (account.citizen && trusted) {
        sessions := sessions + multiset{SignIn(user, None)};
        return SignedIn(user);
      }
      var c := |issued|;
      issued := issued + [user];
      var challenge := IssueMagicLink(Challenge(user, code, 0, 0, device, None), c);
      otp := otp[c := challenge];
      out := Challenged(c);
    }

    method VerifyLoginOtp(c: ChallengeId, code: Code, device: Device) returns (out: Outcome)
      requires Valid()
      modifies this`otp, this`magic, this`sessions, this`failed
      ensures (View(), out) == VerifyCodeStep(old(View()), c, code, device)
      ensures Valid()
    {
      StepKeeps(View(), VerifyCode(c, code, device));
      out := CheckCode(c, code, device);
    }

    /** The browser, the code and the session, in that order. */
    method CheckCode(c: ChallengeId, code: Code, device: Device) returns (out: Outcome)
      modifies this`otp, this`magic, this`sessions, this`failed
      ensures (View(), out) == VerifyCodeStep(old(View()), c, code, device)
    {
      if c !in otp { return Refused(OTP_EXPIRED); }
      var challenge := otp[c];
      if challenge.device != device {
        otp := otp - {c};
        return Refused(INVALID_CREDENTIALS);
      }
      if code != challenge.code {
        challenge := challenge.(attempts := challenge.attempts + 1);
        failed := failed + multiset{c};
        if challenge.attempts >= LOGIN_OTP_ATTEMPTS {
          var _ := End(c, challenge);
        } else {
          otp := otp[c := challenge];
        }
        return Refused(OTP_INVALID);
      }
      var deleted := End(c, challenge);
      if deleted == 0 { assert false; }
      out := OpenSession(challenge.user, c);
    }

    method CompleteMagicLogin(link: Link) returns (out: Outcome)
      requires Valid()
      modifies this`otp, this`magic, this`sessions
      ensures (View(), out) == OpenLinkStep(old(View()), link)
      ensures Valid()
    {
      ghost var before := View();
      StepKeeps(before, OpenLink(link));
      out := FollowLink(link);
      assert View() == Step(before, OpenLink(link)).0;
    }

    /** Both keys, both deletions and the session. */
    method FollowLink(link: Link)
      returns (out: Outcome)
      modifies this`otp, this`magic, this`sessions
      ensures (View(), out) == OpenLinkStep(old(View()), link)
    {
      if link !in magic { return Refused(OTP_EXPIRED); }
      var c := magic[link];
      if c !in otp { return Refused(OTP_EXPIRED); }
      var challenge := otp[c];
      magic := magic - {link};
      var _ := End(c, challenge);
      out := OpenSession(challenge.user, c);
    }

    method ResendLoginOtp(c: ChallengeId, code: Code) returns (out: Outcome)
      requires Valid()
      modifies this`otp, this`magic, this`mails, this`cooldown
      ensures (View(), out) == ResendStep(old(View()), c, code)
      ensures Valid()
    {
      ghost var before := View();
      StepKeeps(before, Resend(c, code));
      out := SendAgain(c, code);
      assert View() == Step(before, Resend(c, code)).0;
    }

    /** The limit, the cooldown, the user and the new message. */
    method SendAgain(c: ChallengeId, code: Code)
      returns (out: Outcome)
      modifies this`otp, this`magic, this`mails, this`cooldown
      ensures (View(), out) == ResendStep(old(View()), c, code)
    {
      if c !in otp { return Refused(OTP_EXPIRED); }
      var challenge := otp[c];
      if challenge.resends >= LOGIN_OTP_RESENDS { return Refused(RATE_LIMITED); }
      if c in cooldown { return Refused(OTP_COOLDOWN); }
      if challenge.user !in users { return Refused(USER_GONE); }
      challenge := challenge.(code := code);
      challenge := challenge.(attempts := 0);
      challenge := challenge.(resends := challenge.resends + 1);
      challenge := IssueMagicLink(challenge, c);
      otp := otp[c := challenge];
      cooldown := cooldown + {c};
      out := Challenged(c);
    }

    /** The challenge of the Google and 2FA routes has no link. */
    method Start(user: UserId, device: Device, code: Code) returns (out: Outcome)
      modifies this`otp, this`issued, this`mails
      ensures (View(), out) == (Issue(old(View()), user, device, code), Challenged(|old(issued)|))
    {
      var c := |issued|;
      otp := otp[c := Challenge(user, code, 0, 0, device, None)];
      issued := issued + [user];
      mails := mails + [Mail(c, code, false)];
      out := Challenged(c);
    }

    method LogInWithGoogle(user: UserId, device: Device, code: Code) returns (out: Outcome)
      requires Valid()
      modifies this`otp, this`issued, this`mails, this`sessions
      ensures (View(), out) == GoogleLoginStep(old(View()), user, device, code)
      ensures Valid()
    {
      StepKeeps(View(), GoogleLogin(user, device, code));
      if user !in users { return SignupStarted; }
      if users[user].blocked { return Refused(ACCOUNT_BLOCKED); }
      if !users[user].twoFactor {
        sessions := sessions + multiset{SignIn(user, None)};
        return SignedIn(user);
      }
      out := Start(user, device, code);
    }

    /** `toggle2fa`: without a code it starts a challenge, with one it finishes it. */
    method Toggle2fa(
      user: UserId, passwordOk: bool, given: Option<(ChallengeId, Code)>, enabled: bool, device: Device, newCode: Code)
      returns (out: Outcome)
      requires Valid()
      modifies this`otp, this`issued, this`mails, this`users, this`toggled
      ensures (View(), out) == Step(old(View()), ToggleEvent(user, passwordOk, given, enabled, device, newCode))
      ensures Valid()
    {
      ghost var before := View();
      StepKeeps(before, ToggleEvent(user, passwordOk, given, enabled, device, newCode));
      out := Toggle(user, passwordOk, given, enabled, device, newCode);
      assert View() == Step(before, ToggleEvent(user, passwordOk, given, enabled, device, newCode)).0;
    }

    /** The checks, and one of the two halves. */
    method Toggle(
      user: UserId, passwordOk: bool, given: Option<(ChallengeId, Code)>, enabled: bool, device: Device, newCode: Code)
      returns (out: Outcome)
      modifies this`otp, this`issued, this`mails, this`users, this`toggled
      ensures (View(), out) == Step(old(View()), ToggleEvent(user, passwordOk, given, enabled, device, newCode))
    {
      if user !in users { return Refused(NOT_FOUND); }
      if !users[user].citizen { return Refused(FORBIDDEN_ROLE); }
      if !passwordOk { return Refused(INVALID_CREDENTIALS); }
      if given.None? {
        out := Start(user, device, newCode);
        return;
      }
      var c, code := given.value.0, given.value.1;
      if c !in otp { return Refused(OTP_EXPIRED); }
      if otp[c].user != user || otp[c].code != code { return Refused(OTP_INVALID); }
      otp := otp - {c};
      users := users[user := users[user].(twoFactor := enabled)];
      toggled := toggled + multiset{c};
      out := Done;
    }
  }
}
