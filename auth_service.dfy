/** `AuthService`: login, registration, e-mail verification and the password
    reset flow, each a sequence of early-exit checks followed by one write
    through the account store. Random bytes, the clock and the JWT key are
    parameters; a thrown `Error(message)` is an `Err(Fail(message))`. */
module AuthService {
  import opened Wrappers
  import opened JsValues
  import opened Credentials
  import opened UserStore

  // ---------------------------------------------------------------- messages

  const BadCredentials := "Invalid email or password"
  const Unverified := "Please verify your email before logging in"
  const EmailTaken := "Email already in use"
  const UsernameTaken := "Username already in use"
  const RegisterSuccess := "User registered successfully. Please check your email to verify your account."
  const InvalidVerificationToken := "Invalid verification token"
  const EmailVerified := "Email verified successfully"
  const ResetLinkSent := "If the email exists, a password reset link has been sent."
  const InvalidResetToken := "Invalid or expired reset token"
  const ResetTokenExpired := "Reset token has expired"
  const PasswordReset := "Password has been reset successfully"
  const InvalidToken := "Invalid token"

  /** One hour, the lifetime of a reset token, in milliseconds. */
  const OneHour := 3_600_000

  /** A thrown error: one of the service's own messages, or a store error passed on. */
  datatype Failure = Fail(message: string) | StoreFailure(error: DbError)

  // ---------------------------------------------------------------- tokens

  /** `generateToken(userId, role)`. */
  function GenerateToken(jwt: Jwt, userId: int, role: string): string {
    jwt.sign(Claims(userId, role))
  }

  /** `verifyToken(token)`: the decoded claims, and one message for every failure. */
  function VerifyToken(jwt: Jwt, token: string): (r: Result<Claims, string>)
    ensures r.Ok? <==> jwt.decode(token).Some?
    ensures r.Ok? ==> r.value == jwt.decode(token).value
    ensures r.Err? ==> r.error == InvalidToken
  {
    match jwt.decode(token)
    case Some(claims) => Ok(claims)
    case None => Err(InvalidToken)
  }

  /** A token the service issued verifies to the claims it was issued for. */
  lemma TokenRoundTrip(jwt: Jwt, userId: int, role: string)
    requires SoundKey(jwt)
    ensures VerifyToken(jwt, GenerateToken(jwt, userId, role)) == Ok(Claims(userId, role))
  {
    assert jwt.decode(jwt.sign(Claims(userId, role))) == Some(Claims(userId, role));
  }

  // ---------------------------------------------------------------- login

  datatype RoleProfile = CutterDetails(cutter: CutterProfileRow) | DealerDetails(dealer: DealerProfileRow)

  /** The profile a login returns: only a cutter's or a dealer's, and only when it exists. */
  function LoginProfile(roleName: Option<string>, cutter: Option<CutterProfileRow>, dealer: Option<DealerProfileRow>): (p: Option<RoleProfile>)
    ensures p.Some? <==> (roleName == Some("cutter") && cutter.Some?) || (roleName == Some("dealer") && dealer.Some?)
    ensures p.Some? && p.value.CutterDetails? ==> roleName == Some("cutter") && p.value.cutter == cutter.value
    ensures p.Some? && p.value.DealerDetails? ==> roleName == Some("dealer") && p.value.dealer == dealer.value
  {
    if roleName == Some("cutter") then
      if cutter.Some? then Some(CutterDetails(cutter.value)) else None
    else if roleName == Some("dealer") then
      if dealer.Some? then Some(DealerDetails(dealer.value)) else None
    else None
  }

  datatype Session = Session(token: string, user: UserView, profile: Option<RoleProfile>)

  /** `login({email, password})`. The view carries the last login from before this one. */
  method Login(db: UserModel, jwt: Jwt, email: string, password: string, now: int) returns (r: Result<Session, Failure>)
    requires db.Valid()
    modifies db
    ensures db.Valid()
    ensures var found := old(db.FindByEmail(email));
            r.Ok? <==> found.Some? && CheckPassword(found.value.row, password) && found.value.row.isVerified
    ensures var found := old(db.FindByEmail(email));
            found.None? || !CheckPassword(found.value.row, password) ==> r == Err(Fail(BadCredentials))
    ensures var found := old(db.FindByEmail(email));
            found.Some? && CheckPassword(found.value.row, password) && !found.value.row.isVerified
            ==> r == Err(Fail(Unverified))
    ensures r.Err? ==> db.Tabled() == old(db.Tabled())
    ensures r.Ok? ==>
              var u := old(db.FindByEmail(email)).value;
              && r.value.token == GenerateToken(jwt, u.row.id, RoleOrUser(u.roleName))
              && r.value.user == PublicView(u)
              && r.value.profile == LoginProfile(u.roleName, old(db.GetCutterProfile(u.row.id)), old(db.GetDealerProfile(u.row.id)))
              && db.Tabled() == old(db.Tabled()).(users := old(db.users)[u.row.id := u.row.(lastLogin := Some(now))])
  {
    var found := db.FindByEmail(email);
    if found.None? {
      r := Err(Fail(BadCredentials));
      return;
    }
    var user := found.value;
    if !CheckPassword(user.row, password) {
      r := Err(Fail(BadCredentials));
      return;
    }
    if !user.row.isVerified {
      r := Err(Fail(Unverified));
      return;
    }
    db.UpdateLastLogin(user.row.id, now);
    var token := GenerateToken(jwt, user.row.id, RoleOrUser(user.roleName));
    var profile := LoginProfile(user.roleName, db.GetCutterProfile(user.row.id), db.GetDealerProfile(user.row.id));
    r := Ok(Session(token, PublicView(user), profile));
  }

  // ---------------------------------------------------------------- register

  /** `RegisterInput`; the appraiser payload it may carry is never stored, so it is not a field. */
  datatype RegisterInput = RegisterInput(
    username: string,
    email: string,
    password: string,
    firstName: Option<string>,
    lastName: Option<string>,
    role: Option<string>,
    cutterProfile: Option<CutterProfileInput>,
    dealerProfile: Option<DealerProfileInput>)

  /** An optional field as a JavaScript value: absent is `undefined`. */
  function Given<T>(o: Option<T>): (v: JsValue<T>)
    ensures v.Defined? <==> o.Some?
    ensures v.Defined? ==> v.value == o.value
  {
    if o.Some? then Defined(o.value) else Undefined
  }

  /** `userData.role || 'collector'`. */
  function RegisteredRole(role: Option<string>): (r: string)
    ensures r != ""
    ensures TruthyOptString(role) ==> r == role.value
    ensures !TruthyOptString(role) ==> r == "collector"
  {
    if TruthyOptString(role) then role.value else "collector"
  }

  /** The input `register` hands to `create`. */
  function Registration(input: RegisterInput, token: string): UserCreateInput {
    UserCreateInput(input.username, input.email, input.password, Given(input.firstName), Given(input.lastName),
                    Undefined, Some(RegisteredRole(input.role)), Some(false), Defined(token),
                    if input.role == Some("cutter") then Given(input.cutterProfile) else Undefined,
                    if input.role == Some("dealer") then Given(input.dealerProfile) else Undefined)
  }

  /** A registered user starts unverified, holds the token, stores only the
      password's digest, and gets exactly the profile its own role asks for. */
  lemma RegistrationRow(input: RegisterInput, token: string, id: int, roleId: Option<int>, now: int)
    requires token != ""
    ensures var c := Registration(input, token);
            var u := NewUserRow(c, id, roleId, now);
            && !u.isVerified && u.verificationToken == Some(token)
            && u.passwordHash == Hash(input.password)
            && (WritesCutterProfile(c.role, c.cutterProfile) <==> input.role == Some("cutter") && input.cutterProfile.Some?)
            && (WritesDealerProfile(c.role, c.dealerProfile) <==> input.role == Some("dealer") && input.dealerProfile.Some?)
            && !(WritesCutterProfile(c.role, c.cutterProfile) && WritesDealerProfile(c.role, c.dealerProfile))
  {
    var c := Registration(input, token);
    assert TruthyString(c.verificationToken);
  }

  datatype Registered = Registered(message: string, userId: int, verificationToken: string)

  /** `register(userData)`: the e-mail is checked before the username. */
  method Register(db: UserModel, input: RegisterInput, entropy: seq<byte>, now: int) returns (r: Result<Registered, Failure>)
    requires db.Valid() && |entropy| == 32
    modifies db
    ensures db.Valid()
    ensures old(db.RolesResolve()) ==> db.RolesResolve()
    ensures r.Err? ==> db.Tabled() == old(db.Tabled())
    ensures old(db.FindByEmail(input.email)).Some? ==> r == Err(Fail(EmailTaken))
    ensures old(db.FindByEmail(input.email)).None? && old(db.FindByUsername(input.username)).Some?
            ==> r == Err(Fail(UsernameTaken))
    ensures old(db.FindByEmail(input.email)).None? && old(db.FindByUsername(input.username)).None?
            ==> (r.Ok? <==> RoleIdByName(db.roles, RegisteredRole(input.role)).Some?)
    ensures r.Ok? ==>
              var id, token := old(db.next.user), RandomToken(entropy);
              && r.value == Registered(RegisterSuccess, id, token)
              && id !in old(db.users)
              && db.Tabled() == CreatedTables(old(db.Tabled()), old(db.next), Registration(input, token),
                                              RoleIdByName(db.roles, RegisteredRole(input.role)), now)
  {
    var byEmail := db.FindByEmail(input.email);
    if byEmail.Some? {
      r := Err(Fail(EmailTaken));
      return;
    }
    var byName := db.FindByUsername(input.username);
    if byName.Some? {
      r := Err(Fail(UsernameTaken));
      return;
    }
    var token := RandomToken(entropy);
    var created := db.Create(Registration(input, token), now);
    if created.Err? {
      r := Err(StoreFailure(created.error));
      return;
    }
    r := Ok(Registered(RegisterSuccess, created.value.row.id, token));
  }

  // ---------------------------------------------------------------- flag writes

  /** The holders of a verification token. */
  function VerificationHolders(users: map<int, UserRow>, token: string): set<int> {
    set k | k in users && users[k].verificationToken == Some(token)
  }

  function VerifiedInput(): UserUpdateInput {
    NoChanges.(isVerified := Some(true), verificationToken := Null)
  }

  /** `update(id, {isVerified: true, verificationToken: null})` sets the flag, clears the token and nothing else. */
  lemma VerifiedPatch(row: UserRow, now: int)
    ensures PatchUser(row, VerifiedInput(), None, now) == row.(isVerified := true, verificationToken := None, updatedAt := now)
  {
  }

  /** Verifying one holder removes exactly that holder, so a token held by one
      user verifies once. */
  lemma {:induction false} VerifyConsumesToken(users: map<int, UserRow>, id: int, token: string, now: int)
    requires id in VerificationHolders(users, token)
    ensures VerificationHolders(users[id := PatchUser(users[id], VerifiedInput(), None, now)], token)
            == VerificationHolders(users, token) - {id}
    ensures VerificationHolders(users, token) == {id}
            ==> VerificationHolders(users[id := PatchUser(users[id], VerifiedInput(), None, now)], token) == {}
  {
    VerifiedPatch(users[id], now);
  }

  datatype Verification = Verification(message: string, userId: int)

  /** `verifyEmail({token})`: the first matching row is verified. */
  method VerifyEmail(db: UserModel, token: string, now: int) returns (r: Result<Verification, Failure>)
    requires db.Valid() && db.RolesResolve()
    modifies db
    ensures db.Valid() && db.RolesResolve()
    ensures r.Err? <==> VerificationHolders(old(db.users), token) == {}
    ensures r.Err? ==> r.error == Fail(InvalidVerificationToken) && db.Tabled() == old(db.Tabled())
    ensures r.Ok? ==>
              var id := r.value.userId;
              && r.value.message == EmailVerified
              && id in VerificationHolders(old(db.users), token)
              && db.Tabled() == old(db.Tabled()).(users := old(db.users)[id := old(db.users)[id].(isVerified := true, verificationToken := None, updatedAt := now)])
  {
    var rows := db.FindByVerificationToken(token);
    if |rows| == 0 {
      assert forall k :: k !in VerificationHolders(db.users, token);
      r := Err(Fail(InvalidVerificationToken));
      return;
    }
    var id := rows[0].row.id;
    assert id in VerificationHolders(db.users, token);
    VerifiedPatch(db.users[id], now);
    db.UpdateFlags(id, VerifiedInput(), now);
    r := Ok(Verification(EmailVerified, id));
  }

  // ---------------------------------------------------------------- password reset

  function ResetRequestInput(token: string, expires: int): UserUpdateInput {
    NoChanges.(resetToken := Defined(token), resetTokenExpires := Defined(expires))
  }

  lemma ResetRequestPatch(row: UserRow, token: string, expires: int, now: int)
    ensures PatchUser(row, ResetRequestInput(token, expires), None, now)
            == row.(resetToken := Some(token), resetTokenExpires := Some(expires), updatedAt := now)
  {
  }

  datatype ResetRequest = ResetRequest(message: string, resetToken: Option<string>)

  /** `forgotPassword({email})`: the same message whether or not the e-mail is known. */
  method ForgotPassword(db: UserModel, email: string, entropy: seq<byte>, now: int) returns (r: ResetRequest)
    requires db.Valid() && db.RolesResolve() && |entropy| == 32
    modifies db
    ensures db.Valid() && db.RolesResolve()
    ensures r.message == ResetLinkSent
    ensures r.resetToken.Some? <==> old(db.FindByEmail(email)).Some?
    ensures old(db.FindByEmail(email)).None? ==> db.Tabled() == old(db.Tabled())
    ensures old(db.FindByEmail(email)).Some? ==>
              var id, token := old(db.FindByEmail(email)).value.row.id, RandomToken(entropy);
              && r.resetToken == Some(token)
              && db.Tabled() == old(db.Tabled()).(users := old(db.users)[id :=
                   old(db.users)[id].(resetToken := Some(token), resetTokenExpires := Some(now + OneHour), updatedAt := now)])
  {
    var found := db.FindByEmail(email);
    if found.None? {
      r := ResetRequest(ResetLinkSent, None);
      return;
    }
    var token := RandomToken(entropy);
    var expires := now + OneHour;
    var id := found.value.row.id;
    ResetRequestPatch(db.users[id], token, expires, now);
    db.UpdateFlags(id, ResetRequestInput(token, expires), now);
    r := ResetRequest(ResetLinkSent, Some(token));
  }

  /** The holders of a reset token. */
  function ResetHolders(users: map<int, UserRow>, token: string): set<int> {
    set k | k in users && users[k].resetToken == Some(token)
  }

  /** `user.reset_token_expires && now > user.reset_token_expires`: a missing expiry never expires. */
  predicate Expired(u: UserRow, now: int) {
    u.resetTokenExpires.Some? && now > u.resetTokenExpires.value
  }

  function ResetInput(password: string): UserUpdateInput {
    NoChanges.(password := Some(password), resetToken := Null, resetTokenExpires := Null)
  }

  /** The reset writes the new password's digest (unless it is empty, which
      `update` skips) and clears the token and its expiry. */
  lemma ResetPatch(row: UserRow, password: string, now: int)
    ensures var u := PatchUser(row, ResetInput(password), None, now);
            && u.resetToken.None? && u.resetTokenExpires.None?
            && (password != "" ==> Verify(password, u.passwordHash))
            && (password == "" ==> u.passwordHash == row.passwordHash)
            && u == row.(passwordHash := u.passwordHash, resetToken := None, resetTokenExpires := None, updatedAt := now)
  {
    VerifyHash(password, password);
  }

  /** `resetPassword({token, password})` for the user the token lookup returns first. */
  method ResetPassword(db: UserModel, token: string, password: string, now: int) returns (r: Result<string, Failure>)
    requires db.Valid() && db.RolesResolve()
    modifies db
    ensures db.Valid() && db.RolesResolve()
    ensures ResetHolders(old(db.users), token) == {} ==> r == Err(Fail(InvalidResetToken))
    ensures ResetHolders(old(db.users), token) != {}
            && (forall k :: k in ResetHolders(old(db.users), token) ==> Expired(old(db.users)[k], now))
            ==> r == Err(Fail(ResetTokenExpired))
    ensures ResetHolders(old(db.users), token) != {}
            && (forall k :: k in ResetHolders(old(db.users), token) ==> !Expired(old(db.users)[k], now))
            ==> r.Ok?
    ensures r.Err? ==> db.Tabled() == old(db.Tabled())
    ensures r.Ok? ==>
              && r.value == PasswordReset
              && exists id :: id in ResetHolders(old(db.users), token) && !Expired(old(db.users)[id], now)
                   && db.Tabled() == old(db.Tabled()).(users := old(db.users)[id := PatchUser(old(db.users)[id], ResetInput(password), None, now)])
  {
    var found := db.FindByResetToken(token);
    if found.None? {
      assert forall k :: k !in ResetHolders(db.users, token);
      r := Err(Fail(InvalidResetToken));
      return;
    }
    var user := found.value.row;
    assert user.id in ResetHolders(db.users, token);
    if user.resetTokenExpires.Some? && now > user.resetTokenExpires.value {
      r := Err(Fail(ResetTokenExpired));
      return;
    }
    db.UpdateFlags(user.id, ResetInput(password), now);
    r := Ok(PasswordReset);
  }
}
