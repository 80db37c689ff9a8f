/** The request-body validators of the authentication routes. Each one runs a
    fixed sequence of checks and answers with the message of the first check
    that fails (sent with status 400), or with nothing when the body passes and
    the request goes on to the controller. The three regular expressions are
    given twice: as the pattern describes a match, and as a scan over the
    string, with a lemma that the two agree. */
module AuthValidator {
  import opened Wrappers
  import opened JsValues
  import opened Text

  const LoginRequired := "Email and password are required"
  const InvalidEmail := "Invalid email format"
  const RegisterRequired := "Username, email, and password are required"
  const InvalidUsername := "Username must be 3-30 characters and may contain only letters, numbers, and underscores"
  const WeakPassword := "Password must be at least 8 characters and include at least one uppercase letter, one lowercase letter, and one number"
  const InvalidRole := "Invalid role. Must be one of: collector, dealer, cutter, appraiser"
  const CutterProfileRequired := "Cutter profile is required for cutter role"
  const DealerProfileRequired := "Dealer profile is required for dealer role"
  const AppraiserProfileRequired := "Appraiser profile is required for appraiser role"
  const TokenRequired := "Verification token is required"
  const EmailRequired := "Email is required"
  const TokenAndPasswordRequired := "Token and password are required"

  /** The roles a visitor may choose when signing up. */
  const RegisterRoles := ["collector", "dealer", "cutter", "appraiser"]

  // ---- first failing check ----

  /** One `if (…) { res.status(400).json({ message }); return; }` block, by
      whether its test lets the body through. */
  datatype Check = Check(passes: bool, message: string)

  /** The message of the first check that fails, or `None` when all pass. */
  function FirstError(checks: seq<Check>): (r: Option<string>)
    ensures r.None? <==> forall k :: 0 <= k < |checks| ==> checks[k].passes
    ensures r.Some? ==> exists k :: 0 <= k < |checks| && checks[k].message == r.value
  {
    if checks == [] then None
    else if !checks[0].passes then Some(checks[0].message)
    else
      var r := FirstError(checks[1..]);
      assert r.Some? ==> exists k :: 1 <= k < |checks| && checks[k].message == r.value by {
        if r.Some? {
          var k :| 0 <= k < |checks[1..]| && checks[1..][k].message == r.value;
          assert checks[k + 1] == checks[1..][k];
        }
      }
      r
  }

  /** A failing check after passing ones decides the answer. */
  lemma {:induction false} FirstErrorAt(checks: seq<Check>, k: nat)
    requires k < |checks| && !checks[k].passes
    requires forall j :: 0 <= j < k ==> checks[j].passes
    ensures FirstError(checks) == Some(checks[k].message)
  {
    if k > 0 {
      assert checks[0].passes;
      FirstErrorAt(checks[1..], k - 1);
    }
  }

  /** Some check fails, so a first one does. */
  lemma {:induction false} FirstFailing(checks: seq<Check>, k: nat)
    requires k < |checks| && !checks[k].passes
    ensures exists m :: 0 <= m <= k && !checks[m].passes && forall j :: 0 <= j < m ==> checks[j].passes
    decreases k
  {
    if exists j :: 0 <= j < k && !checks[j].passes {
      var j :| 0 <= j < k && !checks[j].passes;
      FirstFailing(checks, j);
    } else {
      assert forall j :: 0 <= j < k ==> checks[j].passes;
    }
  }

  ghost predicate DistinctMessages(checks: seq<Check>) {
    forall i, j :: 0 <= i < j < |checks| ==> checks[i].message != checks[j].message
  }

  /** With distinct messages, a check's message is the answer exactly when that
      check fails and every earlier one passes: the checks run in list order. */
  lemma FirstErrorExact(checks: seq<Check>, k: nat)
    requires k < |checks| && DistinctMessages(checks)
    ensures FirstError(checks) == Some(checks[k].message)
        <==> !checks[k].passes && forall j :: 0 <= j < k ==> checks[j].passes
  {
    if FirstError(checks) == Some(checks[k].message) {
      var i :| 0 <= i < |checks| && !checks[i].passes by {
        assert exists i :: 0 <= i < |checks| && !checks[i].passes;
      }
      FirstFailing(checks, i);
      var m :| 0 <= m <= i && !checks[m].passes && forall j :: 0 <= j < m ==> checks[j].passes;
      FirstErrorAt(checks, m);
      assert m == k;
    }
    if !checks[k].passes && forall j :: 0 <= j < k ==> checks[j].passes {
      FirstErrorAt(checks, k);
    }
  }

  // ---- the e-mail pattern `/^[^\s@]+@[^\s@]+\.[^\s@]+$/` ----

  /** The class `[^\s@]`. */
  predicate IsEmailChar(c: char) { !IsJsWhitespace(c) && c != '@' }

  /** The pattern matches `s` with its `@` at `at` and its `\.` at `dot`: three
      non-empty runs of `[^\s@]` around them. `.` is itself in `[^\s@]`. */
  ghost predicate EmailMatchAt(s: string, at: int, dot: int) {
    0 < at && at + 1 < dot && dot + 1 < |s| && s[at] == '@' && s[dot] == '.'
    && forall k :: 0 <= k < |s| && k != at ==> IsEmailChar(s[k])
  }

  ghost predicate MatchesEmailPattern(s: string) {
    exists at, dot :: EmailMatchAt(s, at, dot)
  }

  predicate NoWhitespace(s: string) {
    forall k :: 0 <= k < |s| ==> !IsJsWhitespace(s[k])
  }

  /** `emailRegex.test(s)`, as a scan: one `@` with text before it, no white
      space, and a `.` in the domain with text on both sides. */
  predicate IsEmail(s: string) {
    '@' in s &&
    var at := IndexOf(s, '@');
    var domain := s[at + 1..];
    at > 0 && '@' !in domain && NoWhitespace(s) && |domain| >= 3 && '.' in domain[1..|domain| - 1]
  }

  /** The scan accepts exactly the strings the pattern matches. */
  lemma EmailPattern(s: string)
    ensures IsEmail(s) <==> MatchesEmailPattern(s)
  {
    if IsEmail(s) {
      var at := IndexOf(s, '@');
      var domain := s[at + 1..];
      var inner := domain[1..|domain| - 1];
      var d := IndexOf(inner, '.');
      var dot := at + 2 + d;
      assert s[dot] == inner[d];
      forall k | 0 <= k < |s| && k != at ensures IsEmailChar(s[k]) {
        if k < at {
          assert s[k] == s[..at][k];
        } else {
          assert s[k] == domain[k - at - 1];
        }
      }
      assert EmailMatchAt(s, at, dot);
    }
    if MatchesEmailPattern(s) {
      var at, dot :| EmailMatchAt(s, at, dot);
      var i := IndexOf(s, '@');
      assert i == at;
      var domain := s[at + 1..];
      assert forall k :: 0 <= k < |domain| ==> domain[k] == s[at + 1 + k];
      var inner := domain[1..|domain| - 1];
      assert inner[dot - at - 2] == s[dot];
    }
  }

  /** What a match means: the `@` is the only one, every other character is
      not white space, the local part is non-empty, and the domain has a `.`
      with text on both sides. */
  lemma EmailShape(s: string)
    requires IsEmail(s)
    ensures exists at :: 0 < at < |s| && s[at] == '@'
                      && (forall k :: 0 <= k < |s| && s[k] == '@' ==> k == at)
                      && NoWhitespace(s)
                      && exists dot :: at + 1 < dot < |s| - 1 && s[dot] == '.'
  {
    EmailPattern(s);
    var at, dot :| EmailMatchAt(s, at, dot);
    assert at + 1 < dot < |s| - 1 && s[dot] == '.';
  }

  // ---- the user-name pattern `/^[a-zA-Z0-9_]{3,30}$/` ----

  predicate IsUsername(s: string) {
    3 <= |s| <= 30 && forall k :: 0 <= k < |s| ==> IsWordChar(s[k])
  }

  // ---- the password pattern `/^(?=.*\d)(?=.*[a-z])(?=.*[A-Z])(?=.*[a-zA-Z]).{8,}$/` ----

  /** A look-ahead `(?=.*x)` at the start succeeds: a character of the class
      follows a run of characters that `.` matches. */
  ghost predicate LookaheadFinds(s: string, kind: char -> bool) {
    exists k :: 0 <= k < |s| && kind(s[k]) && forall j :: 0 <= j < k ==> !IsLineTerminator(s[j])
  }

  ghost predicate MatchesPasswordPattern(s: string) {
    LookaheadFinds(s, IsAsciiDigit) && LookaheadFinds(s, IsAsciiLower)
    && LookaheadFinds(s, IsAsciiUpper) && LookaheadFinds(s, IsAsciiLetter)
    && |s| >= 8 && forall k :: 0 <= k < |s| ==> !IsLineTerminator(s[k])
  }

  predicate Contains(s: string, kind: char -> bool) {
    exists k :: 0 <= k < |s| && kind(s[k])
  }

  /** `passwordRegex.test(s)`, as a scan. */
  predicate IsStrongPassword(s: string) {
    |s| >= 8 && (forall k :: 0 <= k < |s| ==> !IsLineTerminator(s[k]))
    && Contains(s, IsAsciiDigit) && Contains(s, IsAsciiLower) && Contains(s, IsAsciiUpper)
  }

  /** The scan accepts exactly the passwords the pattern matches: the letter
      look-ahead is implied by the lower-case one. */
  lemma PasswordPattern(s: string)
    ensures IsStrongPassword(s) <==> MatchesPasswordPattern(s)
  {
    if IsStrongPassword(s) {
      var k :| 0 <= k < |s| && IsAsciiLower(s[k]);
      assert IsAsciiLetter(s[k]);
    }
  }

  // ---- POST /login ----

  datatype LoginBody = LoginBody(email: JsValue<string>, password: JsValue<string>)

  function LoginChecks(b: LoginBody): seq<Check> {
    [ Check(TruthyString(b.email) && TruthyString(b.password), LoginRequired),
      Check(!TruthyString(b.email) || IsEmail(b.email.value), InvalidEmail) ]
  }

  /** `validateLogin`: both fields present, then the e-mail format. */
  function ValidateLogin(b: LoginBody): (r: Option<string>)
    ensures r.None? <==> TruthyString(b.email) && TruthyString(b.password) && IsEmail(b.email.value)
    ensures r == Some(LoginRequired) <==> !TruthyString(b.email) || !TruthyString(b.password)
    ensures r == Some(InvalidEmail) <==> TruthyString(b.email) && TruthyString(b.password) && !IsEmail(b.email.value)
  {
    var checks := LoginChecks(b);
    assert checks[0] == Check(TruthyString(b.email) && TruthyString(b.password), LoginRequired);
    assert checks[1] == Check(!TruthyString(b.email) || IsEmail(b.email.value), InvalidEmail);
    FirstError(checks)
  }

  // ---- POST /register ----

  /** An object the validator only tests for presence. */
  datatype Payload = Payload

  datatype RegisterBody = RegisterBody(
    username: JsValue<string>,
    email: JsValue<string>,
    password: JsValue<string>,
    role: JsValue<string>,
    cutterProfile: JsValue<Payload>,
    dealerProfile: JsValue<Payload>,
    appraiserProfile: JsValue<Payload>)

  predicate RegisterFieldsGiven(b: RegisterBody) {
    TruthyString(b.username) && TruthyString(b.email) && TruthyString(b.password)
  }

  /** `role && !['collector', 'dealer', 'cutter', 'appraiser'].includes(role)` fails. */
  predicate RoleAllowed(role: JsValue<string>) {
    !TruthyString(role) || role.value in RegisterRoles
  }

  /** `role === name && !profile` fails. */
  predicate ProfileGiven(role: JsValue<string>, name: string, profile: JsValue<Payload>) {
    role != Defined(name) || TruthyObject(profile)
  }

  function RegisterChecks(b: RegisterBody): seq<Check> {
    [ Check(RegisterFieldsGiven(b), RegisterRequired),
      Check(!TruthyString(b.email) || IsEmail(b.email.value), InvalidEmail),
      Check(!TruthyString(b.username) || IsUsername(b.username.value), InvalidUsername),
      Check(!TruthyString(b.password) || IsStrongPassword(b.password.value), WeakPassword),
      Check(RoleAllowed(b.role), InvalidRole),
      Check(ProfileGiven(b.role, "cutter", b.cutterProfile), CutterProfileRequired),
      Check(ProfileGiven(b.role, "dealer", b.dealerProfile), DealerProfileRequired),
      Check(ProfileGiven(b.role, "appraiser", b.appraiserProfile), AppraiserProfileRequired) ]
  }

  /** Everything `validateRegister` demands of a body it lets through. */
  predicate RegisterAccepted(b: RegisterBody) {
    RegisterFieldsGiven(b) && IsEmail(b.email.value) && IsUsername(b.username.value)
    && IsStrongPassword(b.password.value) && RoleAllowed(b.role)
    && ProfileGiven(b.role, "cutter", b.cutterProfile)
    && ProfileGiven(b.role, "dealer", b.dealerProfile)
    && ProfileGiven(b.role, "appraiser", b.appraiserProfile)
  }

  /** `validateRegister`. */
  function ValidateRegister(b: RegisterBody): (r: Option<string>)
    ensures r.None? <==> RegisterAccepted(b)
  {
    var checks := RegisterChecks(b);
    assert RegisterAccepted(b) <==>
      checks[0].passes && checks[1].passes && checks[2].passes && checks[3].passes
      && checks[4].passes && checks[5].passes && checks[6].passes && checks[7].passes;
    FirstError(checks)
  }

  /** The register checks report in their fixed order: required fields, e-mail,
      user name, password, role, then the profile the role needs. */
  lemma RegisterErrorOrder(b: RegisterBody, k: nat)
    requires k < |RegisterChecks(b)|
    ensures ValidateRegister(b) == Some(RegisterChecks(b)[k].message)
        <==> !RegisterChecks(b)[k].passes && forall j :: 0 <= j < k ==> RegisterChecks(b)[j].passes
  {
    var checks := RegisterChecks(b);
    assert DistinctMessages(checks) by {
      forall i, j | 0 <= i < j < |checks| ensures checks[i].message != checks[j].message {
        assert |checks[i].message| != |checks[j].message| || checks[i].message[0] != checks[j].message[0];
      }
    }
    FirstErrorExact(checks, k);
  }

  /** Neither of the privileged roles can be chosen at sign-up. */
  lemma PrivilegedRoleRejected(b: RegisterBody)
    requires b.role == Defined("admin") || b.role == Defined("user")
    ensures ValidateRegister(b).Some?
  {
    assert !RoleAllowed(b.role);
  }

  // ---- POST /verify-email, /forgot-password, /reset-password ----

  datatype VerifyEmailBody = VerifyEmailBody(token: JsValue<string>)

  /** `validateVerifyEmail`: a token must be given. */
  function ValidateVerifyEmail(b: VerifyEmailBody): (r: Option<string>)
    ensures r.None? <==> TruthyString(b.token)
    ensures r.Some? ==> r.value == TokenRequired
  {
    var checks := [Check(TruthyString(b.token), TokenRequired)];
    assert checks[0] == Check(TruthyString(b.token), TokenRequired);
    FirstError(checks)
  }

  datatype ForgotPasswordBody = ForgotPasswordBody(email: JsValue<string>)

  /** `validateForgotPassword`: an e-mail must be given, in the login format. */
  function ValidateForgotPassword(b: ForgotPasswordBody): (r: Option<string>)
    ensures r.None? <==> TruthyString(b.email) && IsEmail(b.email.value)
    ensures r == Some(EmailRequired) <==> !TruthyString(b.email)
    ensures r == Some(InvalidEmail) <==> TruthyString(b.email) && !IsEmail(b.email.value)
  {
    var checks := [ Check(TruthyString(b.email), EmailRequired),
                    Check(!TruthyString(b.email) || IsEmail(b.email.value), InvalidEmail) ];
    assert checks[0] == Check(TruthyString(b.email), EmailRequired);
    assert checks[1] == Check(!TruthyString(b.email) || IsEmail(b.email.value), InvalidEmail);
    FirstError(checks)
  }

  datatype ResetPasswordBody = ResetPasswordBody(token: JsValue<string>, password: JsValue<string>)

  /** `validateResetPassword`: both fields, then the sign-up strength rule. */
  function ValidateResetPassword(b: ResetPasswordBody): (r: Option<string>)
    ensures r.None? <==> TruthyString(b.token) && TruthyString(b.password) && IsStrongPassword(b.password.value)
    ensures r == Some(TokenAndPasswordRequired) <==> !TruthyString(b.token) || !TruthyString(b.password)
    ensures r == Some(WeakPassword)
        <==> TruthyString(b.token) && TruthyString(b.password) && !IsStrongPassword(b.password.value)
  {
    var checks := [ Check(TruthyString(b.token) && TruthyString(b.password), TokenAndPasswordRequired),
                    Check(!TruthyString(b.password) || IsStrongPassword(b.password.value), WeakPassword) ];
    assert checks[0] == Check(TruthyString(b.token) && TruthyString(b.password), TokenAndPasswordRequired);
    assert checks[1] == Check(!TruthyString(b.password) || IsStrongPassword(b.password.value), WeakPassword);
    FirstError(checks)
  }
}
