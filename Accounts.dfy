/**
 * Accounts in the local store: the profile records, verification codes,
 * the login and signup decision, and the approval gate.
 */
module Accounts {
  import opened Wrappers
  import opened Decimal

  /** JavaScript's white space and line terminators, as `String.prototype.trim` removes them. */
  predicate IsSpace(c: char)
  {
    c == '\t' || c == '\n' || c == '\U{000B}' || c == '\U{000C}' || c == '\r' || c == ' ' ||
    c == '\U{00A0}' || c == '\U{1680}' || ('\U{2000}' <= c <= '\U{200A}') ||
    c == '\U{2028}' || c == '\U{2029}' || c == '\U{202F}' || c == '\U{205F}' ||
    c == '\U{3000}' || c == '\U{FEFF}'
  }

  /** Index of the first non-space character, or the length when there is none. */
  function Lead(s: string): (i: nat)
    ensures i <= |s|
    ensures forall k | 0 <= k < i :: IsSpace(s[k])
    ensures i < |s| ==> !IsSpace(s[i])
    decreases |s|
  {
    if s == [] || !IsSpace(s[0]) then 0 else 1 + Lead(s[1..])
  }

  /** One past the last non-space character, or zero when there is none. */
  function Trail(s: string): (j: nat)
    ensures j <= |s|
    ensures forall k | j <= k < |s| :: IsSpace(s[k])
    ensures j > 0 ==> !IsSpace(s[j - 1])
    decreases |s|
  {
    if s == [] || !IsSpace(s[|s| - 1]) then |s| else Trail(s[..|s| - 1])
  }

  /**
   * `s.trim()`: the part of `s` between its leading and its trailing
   * white space. It is empty exactly when `s` is all white space, and
   * otherwise starts and ends with a character that is not.
   */
  function Trim(s: string): (r: string)
    ensures Lead(s) + |r| <= |s| && r == s[Lead(s)..Lead(s) + |r|]
    ensures forall k | Lead(s) + |r| <= k < |s| :: IsSpace(s[k])
    ensures r == [] <==> forall k | 0 <= k < |s| :: IsSpace(s[k])
    ensures r != [] ==> !IsSpace(r[0]) && !IsSpace(r[|r| - 1])
  {
    var i := Lead(s);
    if i == |s| then []
    else
      var j := Trail(s);
      assert i < j;
      s[i..j]
  }

  /** Trimming twice is trimming once. */
  lemma TrimIdempotent(s: string)
    ensures Trim(Trim(s)) == Trim(s)
  {
    var r := Trim(s);
    if r != [] {
      assert Lead(r) == 0;
      assert Trail(r) == |r|;
    }
  }

  /** Trimming drops white space added around a word that has none at its ends. */
  lemma {:induction false} TrimPadded(pre: string, w: string, post: string)
    requires forall k | 0 <= k < |pre| :: IsSpace(pre[k])
    requires forall k | 0 <= k < |post| :: IsSpace(post[k])
    requires w != [] && !IsSpace(w[0]) && !IsSpace(w[|w| - 1])
    ensures Trim(pre + w + post) == w
  {
    var s := pre + w + post;
    LeadOfPadded(pre, w + post);
    assert s == pre + (w + post);
    TrailOfPadded(pre + w, post);
    assert s[|pre|..|pre| + |w|] == w;
  }

  lemma {:induction false} LeadOfPadded(pre: string, rest: string)
    requires forall k | 0 <= k < |pre| :: IsSpace(pre[k])
    requires rest != [] && !IsSpace(rest[0])
    ensures Lead(pre + rest) == |pre|
    decreases |pre|
  {
    if pre != [] {
      assert (pre + rest)[1..] == pre[1..] + rest;
      LeadOfPadded(pre[1..], rest);
    }
  }

  lemma {:induction false} TrailOfPadded(init: string, post: string)
    requires forall k | 0 <= k < |post| :: IsSpace(post[k])
    requires init != [] && !IsSpace(init[|init| - 1])
    ensures Trail(init + post) == |init|
    decreases |post|
  {
    if post != [] {
      assert (init + post)[..|init + post| - 1] == init + post[..|post| - 1];
      TrailOfPadded(init, post[..|post| - 1]);
    } else {
      assert init + post == init;
    }
  }

  function LowerChar(c: char): char
  {
    if 'A' <= c <= 'Z' then (c as int + 32) as char else c
  }

  /** `s.toLowerCase()` on the ASCII letters. */
  function ToLower(s: string): (r: string)
    ensures |r| == |s| && forall i | 0 <= i < |s| :: r[i] == LowerChar(s[i])
  {
    seq(|s|, i requires 0 <= i < |s| => LowerChar(s[i]))
  }

  /** Lowercasing is idempotent, so a normalized username normalizes to itself. */
  lemma ToLowerIdempotent(s: string)
    ensures ToLower(ToLower(s)) == ToLower(s)
  {
  }

  /**
   * A profile's verification record. Times are instants in milliseconds;
   * a field the record lacks is `None` or `false`, as reading a missing
   * property gives `undefined`.
   */
  datatype Verification = Verification(
    code: Option<string>,
    verified: bool,
    adminApproved: bool,
    sentAt: Option<int>,
    expiresAt: Option<int>,
    verifiedAt: Option<int>)

  /** A stored account. Merges can create records with only some fields, hence the options. */
  datatype Profile = Profile(
    fullName: Option<string>,
    email: Option<string>,
    password: Option<string>,
    verification: Option<Verification>)

  /** The empty object `{}` that the merges start from when nothing is stored. */
  const NO_VERIFICATION: Verification := Verification(None, false, false, None, None, None)
  const NO_PROFILE: Profile := Profile(None, None, None, None)

  /** The signed-in user as the app holds it: the username spread with the profile. */
  datatype User = User(username: string, profile: Profile)

  type Profiles = map<string, Profile>

  const ADMIN_USERNAME: string := "admin"
  const ADMIN_PASSWORD: string := "10203040"

  /** Codes stay valid for fifteen minutes. */
  const CODE_LIFETIME_MS: int := 15 * 60 * 1000

  /** `saveUserProfile` in local mode: an empty username is ignored, any other overwrites its record. */
  function SaveUserProfile(profiles: Profiles, username: string, data: Profile): (r: Profiles)
    ensures username == "" ==> r == profiles
    ensures username != "" ==> r == profiles[username := data]
  {
    if username == "" then profiles else profiles[username := data]
  }

  /**
   * The keys that the store, a plain `{}`, inherits from `Object.prototype`
   * and that a trimmed, lower-cased username can spell. Looking one up
   * that is not stored finds the inherited member, which is not `null`.
   */
  const INHERITED_KEYS: set<string> := {"constructor", "__proto__"}

  /** What `fetchUserProfile` returns in local mode: `null`, a stored record, or an inherited member. */
  datatype Fetched = Null | Found(profile: Profile) | InheritedMember

  /** `fetchUserProfile` in local mode: `localProfiles[username] ?? null`, and `null` for an empty username. */
  function FetchValue(profiles: Profiles, username: string): (r: Fetched)
    ensures r.Found? <==> username != "" && username in profiles
    ensures r.Found? ==> r.profile == profiles[username]
    ensures r.InheritedMember? <==> username !in profiles && username in INHERITED_KEYS
    ensures r.Null? <==> username == "" || (username !in profiles && username !in INHERITED_KEYS)
  {
    if username == "" then Null
    else if username in profiles then Found(profiles[username])
    else if username in INHERITED_KEYS then InheritedMember
    else Null
  }

  /** The profile record `fetchUserProfile` finds, if what it finds is one. */
  function FetchUserProfile(profiles: Profiles, username: string): (r: Option<Profile>)
    ensures r.Some? <==> username != "" && username in profiles
    ensures r.Some? ==> r.value == profiles[username]
  {
    match FetchValue(profiles, username)
    case Found(p) => Some(p)
    case _ => None
  }

  /** What was saved under a username is what is fetched back, and other usernames are untouched. */
  lemma SaveThenFetch(profiles: Profiles, username: string, data: Profile, other: string)
    requires username != ""
    ensures FetchUserProfile(SaveUserProfile(profiles, username, data), username) == Some(data)
    ensures other != username ==>
      FetchUserProfile(SaveUserProfile(profiles, username, data), other) == FetchUserProfile(profiles, other)
  {
  }

  /**
   * `Math.floor(100000 + random * 900000).toString()` for a `Math.random()`
   * value: always six digits, never starting with zero.
   */
  function GenerateVerificationCode(random: real): (code: string)
    requires 0.0 <= random < 1.0
    ensures |code| == 6 && AllDigits(code) && code[0] != '0'
    ensures 100000 <= ParseDigits(code) <= 999999
  {
    var x := 100000.0 + random * 900000.0;
    var n := x.Floor;
    assert 100000 <= n <= 999999;
    assert Pow10(5) == 100000 by {
      assert Pow10(2) == 100;
    }
    assert Pow10(6) == 1000000;
    NatToStringLength(n, 6);
    ParseNatToString(n);
    NatToString(n)
  }

  /** The record a fresh signup stores. */
  function NewAccount(fullName: string, email: string, password: string, code: string, now: int): (p: Profile)
    ensures p.verification.Some? && p.verification.value.code == Some(code)
    ensures !p.verification.value.verified && !p.verification.value.adminApproved
    ensures p.verification.value.sentAt == Some(now) && p.verification.value.verifiedAt.None?
    ensures p.verification.value.expiresAt == Some(now + CODE_LIFETIME_MS)
    ensures p.fullName == Some(fullName) && p.email == Some(email) && p.password == Some(password)
  {
    Profile(Some(fullName), Some(email), Some(password),
      Some(Verification(Some(code), false, false, Some(now), Some(now + CODE_LIFETIME_MS), None)))
  }

  datatype CodeCheck = CodeExpired | CodeInvalid | CodeAccepted(next: Verification)

  /** The stored code can still be used: there is one, and it has not passed its expiry. */
  predicate CodeLive(profile: Option<Profile>, now: int)
  {
    profile.Some? && profile.value.verification.Some? &&
    var v := profile.value.verification.value;
    v.code.Some? && v.code.value != "" && (v.expiresAt.None? || v.expiresAt.value > now)
  }

  /**
   * `verifyCodeForUser`'s checks: expired when no code is stored or its
   * expiry is not after `now` (a missing expiry never expires), invalid
   * when the code differs from the trimmed input, otherwise the record
   * marked verified at `now` with every other field kept.
   */
  function CheckCode(profile: Option<Profile>, input: string, now: int): (r: CodeCheck)
    ensures r.CodeExpired? <==> !CodeLive(profile, now)
    ensures r.CodeInvalid? <==> CodeLive(profile, now) && profile.value.verification.value.code != Some(Trim(input))
    ensures r.CodeAccepted? ==>
      var v := profile.value.verification.value;
      v.code == Some(Trim(input)) &&
      r.next == Verification(v.code, true, v.adminApproved, v.sentAt, v.expiresAt, Some(now))
  {
    if !CodeLive(profile, now) then CodeExpired
    else
      var stored := profile.value.verification.value;
      if stored.code.value != Trim(input) then CodeInvalid
      else CodeAccepted(stored.(verified := true, verifiedAt := Some(now)))
  }

  /** Once a code has expired it stays expired. */
  lemma ExpiredStaysExpired(profile: Option<Profile>, input: string, now: int, later: int)
    requires now <= later
    requires CheckCode(profile, input, now).CodeExpired?
    ensures CheckCode(profile, input, later).CodeExpired?
  {
  }

  /** A freshly issued code, typed with surrounding blanks before it expires, is accepted. */
  lemma FreshCodeAccepted(fullName: string, email: string, password: string, random: real, now: int, at: int, pre: string, post: string)
    requires 0.0 <= random < 1.0
    requires now <= at < now + CODE_LIFETIME_MS
    requires forall k | 0 <= k < |pre| :: IsSpace(pre[k])
    requires forall k | 0 <= k < |post| :: IsSpace(post[k])
    ensures CheckCode(Some(NewAccount(fullName, email, password, GenerateVerificationCode(random), now)),
                      pre + GenerateVerificationCode(random) + post, at).CodeAccepted?
  {
    var code := GenerateVerificationCode(random);
    assert IsDigit(code[0]) && IsDigit(code[5]);
    TrimPadded(pre, code, post);
  }

  /** The profile after a successful check: `{ ...(prev || {}), verification: next }`. */
  function WithVerification(prev: Option<Profile>, next: Verification): (r: Profile)
    ensures r.verification == Some(next)
    ensures prev.Some? ==> r.fullName == prev.value.fullName && r.email == prev.value.email && r.password == prev.value.password
    ensures prev.None? ==> r.fullName.None? && r.email.None? && r.password.None?
  {
    (if prev.Some? then prev.value else NO_PROFILE).(verification := Some(next))
  }

  /**
   * The local profile merge of `handleProfileUpdate`: name and email are
   * set, the password only when a non-empty one is given.
   */
  function WithProfileUpdate(prev: Option<Profile>, fullName: Option<string>, email: Option<string>, password: Option<string>): (r: Profile)
    ensures r.fullName == fullName && r.email == email
    ensures r.password == if password.Some? && password.value != "" then password else (if prev.Some? then prev.value.password else None)
    ensures r.verification == if prev.Some? then prev.value.verification else None
  {
    var base := if prev.Some? then prev.value else NO_PROFILE;
    var withPassword := if password.Some? && password.value != "" then base.(password := password) else base;
    withPassword.(fullName := fullName, email := email)
  }

  /**
   * Admin approval: sets `adminApproved` and nothing else, creating the
   * record and its verification when they are missing.
   */
  function WithApproval(prev: Option<Profile>): (r: Profile)
    ensures r.verification.Some? && r.verification.value.adminApproved
    ensures prev.Some? ==>
      r.fullName == prev.value.fullName && r.email == prev.value.email && r.password == prev.value.password
    ensures prev.Some? && prev.value.verification.Some? ==>
      var v := prev.value.verification.value;
      var w := r.verification.value;
      w.code == v.code && w.verified == v.verified && w.sentAt == v.sentAt &&
      w.expiresAt == v.expiresAt && w.verifiedAt == v.verifiedAt
    ensures prev.None? ==> r.fullName.None? && r.email.None? && r.password.None?
    ensures prev.None? || prev.value.verification.None? ==> r.verification.value == NO_VERIFICATION.(adminApproved := true)
  {
    var p := if prev.Some? then prev.value else NO_PROFILE;
    var v := if p.verification.Some? then p.verification.value else NO_VERIFICATION;
    p.(verification := Some(v.(adminApproved := true)))
  }

  /** Approving twice is approving once. */
  lemma ApprovalIdempotent(prev: Option<Profile>)
    ensures WithApproval(Some(WithApproval(prev))) == WithApproval(prev)
  {
  }

  /** `Boolean(currentUser?.verification?.adminApproved)`: the main screen's content gate. */
  predicate IsApproved(user: Option<User>)
    ensures user.None? || user.value.profile.verification.None? ==> !IsApproved(user)
  {
    user.Some? && user.value.profile.verification.Some? && user.value.profile.verification.value.adminApproved
  }

  predicate IsVerified(p: Profile)
  {
    p.verification.Some? && p.verification.value.verified
  }

  datatype Mode = Login | Signup

  datatype Form = Form(fullName: string, username: string, email: string, password: string)

  const EMPTY_FORM: Form := Form("", "", "", "")

  /** The username as it is looked up: trimmed, then lowercased. */
  function Normalize(username: string): string { ToLower(Trim(username)) }

  datatype SubmitOutcome =
    | MissingCredentials
    | MissingSignupDetails
    | AdminSession
    | ReservedUsername
    | LoginFailed
    | VerificationRequired(username: string)
    | SessionStarted(username: string, profile: Profile)
    | AccountExists
    | AccountCreated(username: string, profile: Profile)

  /**
   * `handleSubmit`'s decision over the form, the stored profiles, the
   * clock and a `Math.random()` value.
   */
  function DecideSubmit(mode: Mode, form: Form, profiles: Profiles, now: int, random: real): (r: SubmitOutcome)
    requires 0.0 <= random < 1.0
    ensures r == MissingCredentials <==> Trim(form.username) == "" || Trim(form.password) == ""
    ensures r == MissingSignupDetails <==>
      mode == Signup && Trim(form.username) != "" && Trim(form.password) != "" &&
      (Trim(form.fullName) == "" || Trim(form.email) == "")
    ensures r == AdminSession <==>
      mode == Login && Normalize(form.username) == ADMIN_USERNAME && Trim(form.password) == ADMIN_PASSWORD
    ensures r == ReservedUsername <==>
      mode == Signup && Normalize(form.username) == ADMIN_USERNAME &&
      Trim(form.password) != "" && Trim(form.fullName) != "" && Trim(form.email) != ""
    ensures r.VerificationRequired? || r.SessionStarted? || r.AccountCreated? ==> r.username != ""
    ensures mode == Login && Trim(form.username) != "" && Trim(form.password) != "" &&
            !(Normalize(form.username) == ADMIN_USERNAME && Trim(form.password) == ADMIN_PASSWORD) ==>
      |Normalize(form.username)| > 0 &&
      r == DecideLogin(Normalize(form.username), Trim(form.password), profiles)
    ensures mode == Signup && Trim(form.username) != "" && Trim(form.password) != "" &&
            Trim(form.fullName) != "" && Trim(form.email) != "" && Normalize(form.username) != ADMIN_USERNAME ==>
      |Normalize(form.username)| > 0 &&
      r == DecideSignup(Normalize(form.username), Trim(form.fullName), Trim(form.email), Trim(form.password), profiles, now, random)
  {
    var usernameInput := Trim(form.username);
    DecideTrimmed(mode, usernameInput, ToLower(usernameInput), Trim(form.password),
                  Trim(form.fullName), Trim(form.email), profiles, now, random)
  }

  /** The checks of `handleSubmit` in order, over the trimmed inputs and the lower-cased username. */
  function DecideTrimmed(mode: Mode, usernameInput: string, username: string, password: string,
                         fullName: string, email: string, profiles: Profiles, now: int, random: real): (r: SubmitOutcome)
    requires 0.0 <= random < 1.0 && |username| == |usernameInput|
    ensures r == MissingCredentials <==> usernameInput == "" || password == ""
    ensures r == MissingSignupDetails <==>
      mode == Signup && usernameInput != "" && password != "" && (fullName == "" || email == "")
    ensures r == AdminSession <==> mode == Login && username == ADMIN_USERNAME && password == ADMIN_PASSWORD
    ensures r == ReservedUsername <==>
      mode == Signup && username == ADMIN_USERNAME && password != "" && fullName != "" && email != ""
    ensures r.VerificationRequired? || r.SessionStarted? || r.AccountCreated? ==> r.username != ""
    ensures mode == Login && usernameInput != "" && password != "" &&
            !(username == ADMIN_USERNAME && password == ADMIN_PASSWORD) ==>
      |username| > 0 && r == DecideLogin(username, password, profiles)
    ensures mode == Signup && usernameInput != "" && password != "" &&
            fullName != "" && email != "" && username != ADMIN_USERNAME ==>
      |username| > 0 && r == DecideSignup(username, fullName, email, password, profiles, now, random)
  {
    if usernameInput == "" || password == "" then MissingCredentials
    else if mode == Signup && (fullName == "" || email == "") then MissingSignupDetails
    else if mode == Login && username == ADMIN_USERNAME && password == ADMIN_PASSWORD then AdminSession
    else if mode == Signup && username == ADMIN_USERNAME then ReservedUsername
    else if mode == Login then DecideLogin(username, password, profiles)
    else DecideSignup(username, fullName, email, password, profiles, now, random)
  }

  /** The login branch: the stored record must exist, match the password and be verified. */
  function DecideLogin(username: string, password: string, profiles: Profiles): (r: SubmitOutcome)
    requires username != ""
    ensures r.LoginFailed? || r.VerificationRequired? || r.SessionStarted?
    ensures r == LoginFailed <==> username !in profiles || profiles[username].password != Some(password)
    ensures r.VerificationRequired? ==>
      r.username == username && username in profiles &&
      profiles[username].password == Some(password) && !IsVerified(profiles[username])
    ensures r.SessionStarted? ==>
      r.username == username && username in profiles && r.profile == profiles[username] &&
      r.profile.password == Some(password) && IsVerified(r.profile)
  {
    match FetchValue(profiles, username)
    case Null => LoginFailed
    // An inherited member has no `password` field, so the comparison fails.
    case InheritedMember => LoginFailed
    case Found(profile) =>
      if profile.password != Some(password) then LoginFailed
      else if !IsVerified(profile) then VerificationRequired(username)
      else SessionStarted(username, profile)
  }

  /** The signup branch: a taken username is refused, otherwise a fresh unverified account is issued a code. */
  function DecideSignup(username: string, fullName: string, email: string, password: string,
                        profiles: Profiles, now: int, random: real): (r: SubmitOutcome)
    requires username != "" && 0.0 <= random < 1.0
    ensures r.AccountExists? || r.AccountCreated?
    ensures r == AccountExists <==> username in profiles || username in INHERITED_KEYS
    ensures r.AccountCreated? ==>
      r.username == username && r.profile == NewAccount(fullName, email, password, GenerateVerificationCode(random), now)
    ensures r.AccountCreated? ==>
      var v := r.profile.verification.value;
      v.code.Some? && |v.code.value| == 6 && AllDigits(v.code.value) && 100000 <= ParseDigits(v.code.value) <= 999999 &&
      !v.verified && !v.adminApproved && v.expiresAt == Some(now + CODE_LIFETIME_MS)
  {
    if !FetchValue(profiles, username).Null? then AccountExists
    else AccountCreated(username, NewAccount(fullName, email, password, GenerateVerificationCode(random), now))
  }

  /** The admin credentials open the admin session whatever the store holds. */
  lemma AdminBypass(form: Form, profiles: Profiles, now: int, random: real)
    requires 0.0 <= random < 1.0
    requires Normalize(form.username) == ADMIN_USERNAME && Trim(form.password) == ADMIN_PASSWORD
    ensures DecideSubmit(Login, form, profiles, now, random) == AdminSession
    ensures Trim(form.fullName) != "" && Trim(form.email) != "" ==> DecideSubmit(Signup, form, profiles, now, random) == ReservedUsername
  {
  }

  /**
   * Signing up, entering the mailed code before it expires, admin
   * approval, then logging in with the same credentials starts a session
   * whose user passes the content gate.
   */
  lemma SignupVerifyApproveLogin(form: Form, profiles: Profiles, now: int, random: real, at: int, later: int,
                                 u: string, p: Profile)
    requires 0.0 <= random < 1.0
    requires now <= at < now + CODE_LIFETIME_MS
    requires DecideSubmit(Signup, form, profiles, now, random) == AccountCreated(u, p)
    ensures CheckCode(Some(p), p.verification.value.code.value, at).CodeAccepted?
    ensures
      var stored := SaveUserProfile(profiles, u, p);
      var verified := stored[u := WithVerification(FetchUserProfile(stored, u), CheckCode(Some(p), p.verification.value.code.value, at).next)];
      var approved := verified[u := WithApproval(FetchUserProfile(verified, u))];
      DecideSubmit(Login, form, approved, later, random) == SessionStarted(u, approved[u]) &&
      IsApproved(Some(User(u, approved[u])))
  {
    SignupCreates(form, profiles, now, random, u, p);
    var code := p.verification.value.code.value;
    FreshCodeAccepted(Trim(form.fullName), Trim(form.email), Trim(form.password), random, now, at, "", "");
    assert "" + code + "" == code;
    var approved := AcceptThenApprove(profiles, u, p, code, at);
    LoginWithStoredAccount(form, approved, later, random, u);
  }

  /** Storing an account, accepting its code and approving it leaves it verified, approved and with its password. */
  lemma AcceptThenApprove(profiles: Profiles, u: string, p: Profile, code: string, at: int) returns (approved: Profiles)
    requires u != "" && CheckCode(Some(p), code, at).CodeAccepted?
    ensures
      var stored := SaveUserProfile(profiles, u, p);
      var verified := stored[u := WithVerification(FetchUserProfile(stored, u), CheckCode(Some(p), code, at).next)];
      approved == verified[u := WithApproval(FetchUserProfile(verified, u))]
    ensures u in approved && approved[u].password == p.password
    ensures IsVerified(approved[u]) && IsApproved(Some(User(u, approved[u])))
  {
    var stored := SaveUserProfile(profiles, u, p);
    var verified := stored[u := WithVerification(FetchUserProfile(stored, u), CheckCode(Some(p), code, at).next)];
    approved := verified[u := WithApproval(FetchUserProfile(verified, u))];
  }

  /**
   * A username that spells an inherited key cannot be signed up for, and
   * unless it is stored it cannot log in either.
   */
  lemma InheritedNameTaken(form: Form, profiles: Profiles, now: int, random: real)
    requires 0.0 <= random < 1.0
    requires Normalize(form.username) in INHERITED_KEYS
    requires Trim(form.password) != "" && Trim(form.fullName) != "" && Trim(form.email) != ""
    ensures DecideSubmit(Signup, form, profiles, now, random) == AccountExists
    ensures Normalize(form.username) !in profiles ==> DecideSubmit(Login, form, profiles, now, random) == LoginFailed
  {
    assert |Normalize(form.username)| == |Trim(form.username)|;
    assert Normalize(form.username) != ADMIN_USERNAME;
  }

  /** What a successful signup decides about the username and the record. */
  lemma SignupCreates(form: Form, profiles: Profiles, now: int, random: real, u: string, p: Profile)
    requires 0.0 <= random < 1.0
    requires DecideSubmit(Signup, form, profiles, now, random) == AccountCreated(u, p)
    ensures u == Normalize(form.username) && u != "" && u != ADMIN_USERNAME
    ensures p == NewAccount(Trim(form.fullName), Trim(form.email), Trim(form.password), GenerateVerificationCode(random), now)
    ensures Trim(form.password) != ""
  {
    assert |Normalize(form.username)| == |Trim(form.username)|;
  }

  /** Logging in with a stored, verified account's username and password starts its session. */
  lemma LoginWithStoredAccount(form: Form, profiles: Profiles, now: int, random: real, u: string)
    requires 0.0 <= random < 1.0
    requires u == Normalize(form.username) && u != "" && u != ADMIN_USERNAME
    requires Trim(form.password) != ""
    requires u in profiles && profiles[u].password == Some(Trim(form.password)) && IsVerified(profiles[u])
    ensures DecideSubmit(Login, form, profiles, now, random) == SessionStarted(u, profiles[u])
  {
    assert |Normalize(form.username)| == |Trim(form.username)|;
  }
}
