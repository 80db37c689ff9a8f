/** The account store of the backend (`UserModel`): the `users`, `roles`,
    `cutter_profiles`, `dealer_profiles`, `appraiser_profiles`,
    `cutter_portfolio_items` and `cutter_skills` tables, held as finite maps and
    sequences of one object. `create`, `update` and `delete` run inside a
    transaction, modelled as a snapshot of the tables that is restored on any
    failure. Timestamps are integers (milliseconds) and `CURRENT_TIMESTAMP` is the
    `now` parameter of the operation that uses it. */
module UserStore {
  import opened Wrappers
  import opened JsValues
  import opened Credentials
  import opened SqlUpdate
  import Seqs

  // ---------------------------------------------------------------- rows

  /** A row of the seeded `roles` lookup table. */
  datatype Role = Role(id: int, name: string)

  datatype UserRow = UserRow(
    id: int,
    username: string,
    email: string,
    passwordHash: PasswordHash,
    firstName: Option<string>,
    lastName: Option<string>,
    profileImageUrl: Option<string>,
    roleId: Option<int>,
    isVerified: bool,
    verificationToken: Option<string>,
    resetToken: Option<string>,
    resetTokenExpires: Option<int>,
    createdAt: int,
    updatedAt: int,
    lastLogin: Option<int>)

  /** A row of `SELECT u.*, r.name AS role_name FROM users u LEFT JOIN roles r …`. */
  datatype UserRecord = UserRecord(row: UserRow, roleName: Option<string>)

  datatype CutterProfileRow = CutterProfileRow(
    id: int,
    userId: int,
    specialty: Option<string>,
    experienceYears: Option<int>,
    certification: Option<seq<string>>,
    bio: Option<string>,
    workshopLocation: Option<string>,
    expertiseLevel: Option<string>,
    availableForCustomWork: Option<bool>,
    toolsUsed: Option<string>,
    portfolioVerified: bool,
    createdAt: int,
    updatedAt: int)

  datatype DealerProfileRow = DealerProfileRow(
    id: int,
    userId: int,
    companyName: Option<string>,
    businessLicense: Option<string>,
    specialtyTypes: Option<seq<string>>,
    yearsInBusiness: Option<int>,
    createdAt: int,
    updatedAt: int)

  datatype AppraiserProfileRow = AppraiserProfileRow(
    id: int,
    userId: int,
    certificationAuthority: Option<string>,
    certificationNumber: Option<string>,
    specialization: Option<seq<string>>,
    yearsExperience: Option<int>,
    appraisalCount: int)

  datatype PortfolioItemRow = PortfolioItemRow(
    id: int,
    cutterProfileId: int,
    title: string,
    description: Option<string>,
    gemstoneType: string,
    cutType: string,
    imageUrls: seq<string>,
    createdAt: int,
    updatedAt: int)

  /** A row of `cutter_skills` joined with the skill's name and description. */
  datatype SkillRow = SkillRow(cutterProfileId: int, skillId: int, proficiencyLevel: int, name: string, description: Option<string>)

  /** A row of the cutter listing query: the user columns and the profile columns. */
  datatype CutterListingRow = CutterListingRow(
    id: int,
    username: string,
    email: string,
    firstName: Option<string>,
    lastName: Option<string>,
    profileImageUrl: Option<string>,
    profile: CutterProfileRow)

  // ---------------------------------------------------------------- inputs

  /** A cutter profile payload; every field may be missing, null or set. */
  datatype CutterProfileInput = CutterProfileInput(
    specialty: JsValue<string>,
    experienceYears: JsValue<int>,
    certification: JsValue<seq<string>>,
    bio: JsValue<string>,
    workshopLocation: JsValue<string>,
    expertiseLevel: JsValue<string>,
    availableForCustomWork: JsValue<bool>)

  datatype DealerProfileInput = DealerProfileInput(
    companyName: JsValue<string>,
    businessLicense: JsValue<string>,
    specialtyTypes: JsValue<seq<string>>,
    yearsInBusiness: JsValue<int>)

  /** `UserCreateInput`; the appraiser payload it may carry is never read, so it is not a field. */
  datatype UserCreateInput = UserCreateInput(
    username: string,
    email: string,
    password: string,
    firstName: JsValue<string>,
    lastName: JsValue<string>,
    profileImageUrl: JsValue<string>,
    role: Option<string>,
    isVerified: Option<bool>,
    verificationToken: JsValue<string>,
    cutterProfile: JsValue<CutterProfileInput>,
    dealerProfile: JsValue<DealerProfileInput>)

  /** `UserUpdateInput`; `undefined` fields are left alone. */
  datatype UserUpdateInput = UserUpdateInput(
    username: Option<string>,
    email: Option<string>,
    password: Option<string>,
    firstName: JsValue<string>,
    lastName: JsValue<string>,
    profileImageUrl: JsValue<string>,
    role: Option<string>,
    isVerified: Option<bool>,
    verificationToken: JsValue<string>,
    resetToken: JsValue<string>,
    resetTokenExpires: JsValue<int>,
    cutterProfile: JsValue<CutterProfileInput>,
    dealerProfile: JsValue<DealerProfileInput>)

  /** The update input `{}`. */
  const NoChanges := UserUpdateInput(None, None, None, Undefined, Undefined, Undefined, None, None,
                                     Undefined, Undefined, Undefined, Undefined, Undefined)

  /** Why a statement failed and its transaction was rolled back. */
  datatype DbError =
    | UniqueViolation(column: string)
    /** `rows[0].id` or `rows[0].name` of an empty role query: a TypeError. */
    | MissingRole
    /** A deleted cutter profile is still referenced by portfolio items or skills. */
    | ForeignKeyViolation

  // ---------------------------------------------------------------- roles

  /** `SELECT id FROM roles WHERE name = $1`, first row. */
  function RoleIdByName(roles: seq<Role>, name: string): (r: Option<int>)
    ensures r.Some? <==> exists k :: 0 <= k < |roles| && roles[k].name == name
    ensures r.Some? ==> exists k :: 0 <= k < |roles| && roles[k] == Role(r.value, name)
  {
    if roles == [] then None
    else if roles[0].name == name then Some(roles[0].id)
    else
      var r := RoleIdByName(roles[1..], name);
      assert forall k :: 1 <= k < |roles| ==> roles[k] == roles[1..][k - 1];
      r
  }

  /** `SELECT name FROM roles WHERE id = $1`, first row; a null id matches nothing. */
  function RoleNameById(roles: seq<Role>, id: Option<int>): (r: Option<string>)
    ensures r.Some? <==> id.Some? && exists k :: 0 <= k < |roles| && roles[k].id == id.value
    ensures r.Some? ==> exists k :: 0 <= k < |roles| && roles[k] == Role(id.value, r.value)
  {
    if id.None? || roles == [] then None
    else if roles[0].id == id.value then Some(roles[0].name)
    else
      var r := RoleNameById(roles[1..], id);
      assert forall k :: 1 <= k < |roles| ==> roles[k] == roles[1..][k - 1];
      r
  }

  /** With distinct role ids, a name's id leads back to that name. */
  lemma RoleLookupRoundTrip(roles: seq<Role>, name: string)
    requires forall i, j :: 0 <= i < j < |roles| ==> roles[i].id != roles[j].id
    requires RoleIdByName(roles, name).Some?
    ensures RoleNameById(roles, RoleIdByName(roles, name)) == Some(name)
  {
    var id := RoleIdByName(roles, name).value;
    var found := RoleNameById(roles, Some(id));
    var i :| 0 <= i < |roles| && roles[i] == Role(id, name);
    var j :| 0 <= j < |roles| && roles[j] == Role(id, found.value);
    assert i == j;
  }

  /** The role id an update writes: only a truthy role name that the table knows. */
  function UpdateRoleId(roles: seq<Role>, role: Option<string>): Option<int> {
    if TruthyOptString(role) then RoleIdByName(roles, role.value) else None
  }

  /** The role id `create` inserts, or the error of the default-role lookup. */
  function CreateRoleId(roles: seq<Role>, role: Option<string>): Result<Option<int>, DbError> {
    if TruthyOptString(role) then Ok(RoleIdByName(roles, role.value))
    else match RoleIdByName(roles, "user")
      case None => Err(MissingRole)
      case Some(id) => Ok(Some(id))
  }

  // ---------------------------------------------------------------- inserted rows

  /** The row `create` inserts: the digest, never the password, and the `|| null` defaults. */
  function NewUserRow(input: UserCreateInput, id: int, roleId: Option<int>, now: int): (u: UserRow)
    ensures u.id == id && u.username == input.username && u.email == input.email
    ensures u.passwordHash == Hash(input.password)
    ensures u.roleId == roleId
    ensures u.isVerified <==> input.isVerified == Some(true)
    ensures u.firstName.Some? <==> TruthyString(input.firstName)
    ensures u.firstName.Some? ==> u.firstName.value == input.firstName.value
    ensures u.lastName.Some? <==> TruthyString(input.lastName)
    ensures u.lastName.Some? ==> u.lastName.value == input.lastName.value
    ensures u.profileImageUrl.Some? <==> TruthyString(input.profileImageUrl)
    ensures u.profileImageUrl.Some? ==> u.profileImageUrl.value == input.profileImageUrl.value
    ensures u.verificationToken.Some? <==> TruthyString(input.verificationToken)
    ensures u.verificationToken.Some? ==> u.verificationToken == input.verificationToken.ToNullable()
    ensures u.resetToken.None? && u.resetTokenExpires.None? && u.lastLogin.None?
    ensures u.createdAt == now && u.updatedAt == now
  {
    UserRow(id, input.username, input.email, Hash(input.password),
            StringOrNull(input.firstName), StringOrNull(input.lastName), StringOrNull(input.profileImageUrl),
            roleId, input.isVerified.GetOr(false), StringOrNull(input.verificationToken),
            None, None, now, now, None)
  }

  /** The cutter profile row inserted by `create` and by the upsert in `update`. */
  function NewCutterProfile(id: int, userId: int, p: CutterProfileInput, now: int): (c: CutterProfileRow)
    ensures c.id == id && c.userId == userId
    ensures c.expertiseLevel == if TruthyString(p.expertiseLevel) then p.expertiseLevel.ToNullable() else Some("Beginner")
    ensures c.availableForCustomWork == if p.availableForCustomWork.IsDefined() then p.availableForCustomWork.ToNullable() else Some(true)
    ensures c.experienceYears.Some? <==> TruthyInt(p.experienceYears)
    ensures !c.portfolioVerified && c.toolsUsed.None?
  {
    CutterProfileRow(id, userId,
      StringOrNull(p.specialty), IntOrNull(p.experienceYears), ObjectOrNull(p.certification),
      StringOrNull(p.bio), StringOrNull(p.workshopLocation),
      if TruthyString(p.expertiseLevel) then Some(p.expertiseLevel.value) else Some("Beginner"),
      if p.availableForCustomWork.IsDefined() then p.availableForCustomWork.ToNullable() else Some(true),
      None, false, now, now)
  }

  function NewDealerProfile(id: int, userId: int, p: DealerProfileInput, now: int): (d: DealerProfileRow)
    ensures d.id == id && d.userId == userId
    ensures d.companyName.Some? <==> TruthyString(p.companyName)
    ensures d.companyName.Some? ==> d.companyName.value == p.companyName.value
    ensures d.businessLicense.Some? <==> TruthyString(p.businessLicense)
    ensures d.businessLicense.Some? ==> d.businessLicense.value == p.businessLicense.value
    ensures d.specialtyTypes == p.specialtyTypes.ToNullable()
    ensures d.yearsInBusiness.Some? <==> TruthyInt(p.yearsInBusiness)
    ensures d.yearsInBusiness.Some? ==> d.yearsInBusiness.value == p.yearsInBusiness.value
    ensures d.createdAt == now && d.updatedAt == now
  {
    DealerProfileRow(id, userId, StringOrNull(p.companyName), StringOrNull(p.businessLicense),
                     ObjectOrNull(p.specialtyTypes), IntOrNull(p.yearsInBusiness), now, now)
  }

  /** A profile payload is written only for the matching role named in the input itself. */
  predicate WritesCutterProfile(role: Option<string>, p: JsValue<CutterProfileInput>) {
    role == Some("cutter") && TruthyObject(p)
  }

  predicate WritesDealerProfile(role: Option<string>, p: JsValue<DealerProfileInput>) {
    role == Some("dealer") && TruthyObject(p)
  }

  // ---------------------------------------------------------------- reading assigned values

  function TextOr(r: Rhs, current: string): string {
    if r.Value? && r.value.SText? then r.value.text else current
  }

  function NullableTextOr(r: Rhs, current: Option<string>): Option<string> {
    if r.Value? && r.value.SText? then Some(r.value.text)
    else if r.Value? && r.value.SNull? then None
    else current
  }

  function NullableIntOr(r: Rhs, current: Option<int>): Option<int> {
    if r.Value? && r.value.SInt? then Some(r.value.number)
    else if r.Value? && r.value.SNull? then None
    else current
  }

  function NullableBoolOr(r: Rhs, current: Option<bool>): Option<bool> {
    if r.Value? && r.value.SBool? then Some(r.value.flag)
    else if r.Value? && r.value.SNull? then None
    else current
  }

  function NullableArrayOr(r: Rhs, current: Option<seq<string>>): Option<seq<string>> {
    if r.Value? && r.value.STextArray? then Some(r.value.items)
    else if r.Value? && r.value.SNull? then None
    else current
  }

  function BoolOr(r: Rhs, current: bool): bool {
    if r.Value? && r.value.SBool? then r.value.flag else current
  }

  function HashOr(r: Rhs, current: PasswordHash): PasswordHash {
    if r.Value? && r.value.SHash? then r.value.hash else current
  }

  function TimestampOr(r: Rhs, current: int, now: int): int {
    if r.Now? then now else current
  }

  function NullableText(o: Option<string>): SqlValue {
    if o.Some? then SText(o.value) else SNull
  }

  function NullableInt(o: Option<int>): SqlValue {
    if o.Some? then SInt(o.value) else SNull
  }

  function NullableBool(o: Option<bool>): SqlValue {
    if o.Some? then SBool(o.value) else SNull
  }

  function NullableArray(o: Option<seq<string>>): SqlValue {
    if o.Some? then STextArray(o.value) else SNull
  }

  // ---------------------------------------------------------------- users UPDATE

  datatype UserColumn =
    | UserId | Username | Email | PasswordDigest | FirstName | LastName | ProfileImageUrl
    | RoleId | IsVerified | VerificationToken | ResetToken | ResetTokenExpires | UpdatedAt

  /** The effect of an `UPDATE users SET …` statement on one row. */
  function ApplyUser(row: UserRow, st: Statement<UserColumn>, now: int): UserRow {
    var a, v := st.assignments, st.values;
    UserRow(row.id,
      TextOr(RhsOf(a, v, Username), row.username),
      TextOr(RhsOf(a, v, Email), row.email),
      HashOr(RhsOf(a, v, PasswordDigest), row.passwordHash),
      NullableTextOr(RhsOf(a, v, FirstName), row.firstName),
      NullableTextOr(RhsOf(a, v, LastName), row.lastName),
      NullableTextOr(RhsOf(a, v, ProfileImageUrl), row.profileImageUrl),
      NullableIntOr(RhsOf(a, v, RoleId), row.roleId),
      BoolOr(RhsOf(a, v, IsVerified), row.isVerified),
      NullableTextOr(RhsOf(a, v, VerificationToken), row.verificationToken),
      NullableTextOr(RhsOf(a, v, ResetToken), row.resetToken),
      NullableIntOr(RhsOf(a, v, ResetTokenExpires), row.resetTokenExpires),
      row.createdAt,
      TimestampOr(RhsOf(a, v, UpdatedAt), row.updatedAt, now),
      row.lastLogin)
  }

  /** What `update` promises for one user row: username, email and password only
      when truthy (the password as its digest), the role when the looked-up id
      exists, every other field whenever it is not `undefined` (so `null` clears
      it), `updated_at` always, and nothing else. */
  function PatchUser(row: UserRow, input: UserUpdateInput, roleId: Option<int>, now: int): UserRow {
    UserRow(row.id,
      if TruthyOptString(input.username) then input.username.value else row.username,
      if TruthyOptString(input.email) then input.email.value else row.email,
      if TruthyOptString(input.password) then Hash(input.password.value) else row.passwordHash,
      if input.firstName.IsDefined() then input.firstName.ToNullable() else row.firstName,
      if input.lastName.IsDefined() then input.lastName.ToNullable() else row.lastName,
      if input.profileImageUrl.IsDefined() then input.profileImageUrl.ToNullable() else row.profileImageUrl,
      if roleId.Some? then roleId else row.roleId,
      input.isVerified.GetOr(row.isVerified),
      if input.verificationToken.IsDefined() then input.verificationToken.ToNullable() else row.verificationToken,
      if input.resetToken.IsDefined() then input.resetToken.ToNullable() else row.resetToken,
      if input.resetTokenExpires.IsDefined() then input.resetTokenExpires.ToNullable() else row.resetTokenExpires,
      row.createdAt, now, row.lastLogin)
  }

  /** `update` never changes a row's id, creation time or last login, and always stamps `updated_at`. */
  lemma PatchUserKeeps(row: UserRow, input: UserUpdateInput, roleId: Option<int>, now: int)
    ensures var r := PatchUser(row, input, roleId, now);
            r.id == row.id && r.createdAt == row.createdAt && r.lastLogin == row.lastLogin && r.updatedAt == now
  {
  }

  /** `update(id, {})` changes nothing but `updated_at`. */
  lemma PatchNothing(row: UserRow, now: int)
    ensures PatchUser(row, NoChanges, None, now) == row.(updatedAt := now)
  {
  }

  /** The position of each column's block in the source's SET-list builder. */
  function UserRank(c: UserColumn): nat {
    match c
    case Username => 1
    case Email => 2
    case PasswordDigest => 3
    case FirstName => 4
    case LastName => 5
    case ProfileImageUrl => 6
    case RoleId => 7
    case IsVerified => 8
    case VerificationToken => 9
    case ResetToken => 10
    case ResetTokenExpires => 11
    case UpdatedAt => 12
    case UserId => 13
  }

  /** The right-hand side each column gets from the update input. */
  function UserRhs(input: UserUpdateInput, roleId: Option<int>, c: UserColumn): Rhs {
    match c
    case Username => if TruthyOptString(input.username) then Value(SText(input.username.GetOr(""))) else Keep
    case Email => if TruthyOptString(input.email) then Value(SText(input.email.GetOr(""))) else Keep
    case PasswordDigest => if TruthyOptString(input.password) then Value(SHash(Hash(input.password.GetOr("")))) else Keep
    case FirstName => if input.firstName.IsDefined() then Value(NullableText(input.firstName.ToNullable())) else Keep
    case LastName => if input.lastName.IsDefined() then Value(NullableText(input.lastName.ToNullable())) else Keep
    case ProfileImageUrl =>
      if input.profileImageUrl.IsDefined() then Value(NullableText(input.profileImageUrl.ToNullable())) else Keep
    case RoleId => if roleId.Some? then Value(SInt(roleId.GetOr(0))) else Keep
    case IsVerified => if input.isVerified.Some? then Value(SBool(input.isVerified.GetOr(false))) else Keep
    case VerificationToken =>
      if input.verificationToken.IsDefined() then Value(NullableText(input.verificationToken.ToNullable())) else Keep
    case ResetToken => if input.resetToken.IsDefined() then Value(NullableText(input.resetToken.ToNullable())) else Keep
    case ResetTokenExpires =>
      if input.resetTokenExpires.IsDefined() then Value(NullableInt(input.resetTokenExpires.ToNullable())) else Keep
    case UpdatedAt => Now
    case UserId => Keep
  }

  /** A statement assigning each column as `UserRhs` says performs `PatchUser`. */
  lemma ApplyUserPatch(row: UserRow, st: Statement<UserColumn>, input: UserUpdateInput, roleId: Option<int>, now: int)
    requires forall c :: RhsOf(st.assignments, st.values, c) == UserRhs(input, roleId, c)
    ensures ApplyUser(row, st, now) == PatchUser(row, input, roleId, now)
  {
    var applied, patched := ApplyUser(row, st, now), PatchUser(row, input, roleId, now);
    assert applied.username == patched.username by {
      assert RhsOf(st.assignments, st.values, Username) == UserRhs(input, roleId, Username);
    }
    assert applied.email == patched.email by {
      assert RhsOf(st.assignments, st.values, Email) == UserRhs(input, roleId, Email);
    }
    assert applied.passwordHash == patched.passwordHash by {
      assert RhsOf(st.assignments, st.values, PasswordDigest) == UserRhs(input, roleId, PasswordDigest);
    }
    assert applied.firstName == patched.firstName by {
      assert RhsOf(st.assignments, st.values, FirstName) == UserRhs(input, roleId, FirstName);
    }
    assert applied.lastName == patched.lastName by {
      assert RhsOf(st.assignments, st.values, LastName) == UserRhs(input, roleId, LastName);
    }
    assert applied.profileImageUrl == patched.profileImageUrl by {
      assert RhsOf(st.assignments, st.values, ProfileImageUrl) == UserRhs(input, roleId, ProfileImageUrl);
    }
    assert applied.roleId == patched.roleId by {
      assert RhsOf(st.assignments, st.values, RoleId) == UserRhs(input, roleId, RoleId);
    }
    assert applied.isVerified == patched.isVerified by {
      assert RhsOf(st.assignments, st.values, IsVerified) == UserRhs(input, roleId, IsVerified);
    }
    assert applied.verificationToken == patched.verificationToken by {
      assert RhsOf(st.assignments, st.values, VerificationToken) == UserRhs(input, roleId, VerificationToken);
    }
    assert applied.resetToken == patched.resetToken by {
      assert RhsOf(st.assignments, st.values, ResetToken) == UserRhs(input, roleId, ResetToken);
    }
    assert applied.resetTokenExpires == patched.resetTokenExpires by {
      assert RhsOf(st.assignments, st.values, ResetTokenExpires) == UserRhs(input, roleId, ResetTokenExpires);
    }
    assert applied.updatedAt == patched.updatedAt by {
      assert RhsOf(st.assignments, st.values, UpdatedAt) == UserRhs(input, roleId, UpdatedAt);
    }
  }

  /** The `if` blocks of `update` that may set a `users` column, in source order; `roleId` is the id the role lookup found. */
  function UserFields(input: UserUpdateInput, roleId: Option<int>): seq<Field<UserColumn>> {
    [ Field(Username, TruthyOptString(input.username), SText(input.username.GetOr(""))),
      Field(Email, TruthyOptString(input.email), SText(input.email.GetOr(""))),
      Field(PasswordDigest, TruthyOptString(input.password), SHash(Hash(input.password.GetOr("")))),
      Field(FirstName, input.firstName.IsDefined(), NullableText(input.firstName.ToNullable())),
      Field(LastName, input.lastName.IsDefined(), NullableText(input.lastName.ToNullable())),
      Field(ProfileImageUrl, input.profileImageUrl.IsDefined(), NullableText(input.profileImageUrl.ToNullable())),
      Field(RoleId, roleId.Some?, SInt(roleId.GetOr(0))),
      Field(IsVerified, input.isVerified.Some?, SBool(input.isVerified.GetOr(false))),
      Field(VerificationToken, input.verificationToken.IsDefined(), NullableText(input.verificationToken.ToNullable())),
      Field(ResetToken, input.resetToken.IsDefined(), NullableText(input.resetToken.ToNullable())),
      Field(ResetTokenExpires, input.resetTokenExpires.IsDefined(), NullableInt(input.resetTokenExpires.ToNullable())) ]
  }

  /** No two blocks set the same column. */
  lemma UserFieldsDistinct(input: UserUpdateInput, roleId: Option<int>)
    ensures DistinctColumns(UserFields(input, roleId))
  {
    var fs := UserFields(input, roleId);
    assert forall k :: 0 <= k < |fs| ==> UserRank(fs[k].column) == k + 1;
  }

  /** The block of column `c` sits at its rank and binds what `UserRhs` says. */
  lemma UserFieldAt(input: UserUpdateInput, roleId: Option<int>, c: UserColumn)
    requires c != UpdatedAt && c != UserId
    ensures var fs, i := UserFields(input, roleId), UserRank(c) - 1;
            0 <= i < |fs| && fs[i].column == c
            && (if fs[i].present then Value(fs[i].value) else Keep) == UserRhs(input, roleId, c)
  {
  }

  /** Each column is assigned exactly what its own block gives it. */
  lemma UserFieldsMeaning(input: UserUpdateInput, roleId: Option<int>)
    ensures forall c :: c != UpdatedAt ==> LastFor(UserFields(input, roleId), c) == UserRhs(input, roleId, c)
  {
    var fs := UserFields(input, roleId);
    UserFieldsDistinct(input, roleId);
    forall c | c != UpdatedAt ensures LastFor(fs, c) == UserRhs(input, roleId, c) {
      if c == UserId {
        LastForAbsent(fs, c);
      } else {
        UserFieldAt(input, roleId, c);
        LastForAt(fs, UserRank(c) - 1);
      }
    }
  }

  /** The `UPDATE … SET … WHERE id = $n` statement `update` sends: the blocks
      run in order, then `updated_at = CURRENT_TIMESTAMP`, then the id. */
  method BuildUserUpdate(id: int, input: UserUpdateInput, roleId: Option<int>) returns (st: Statement<UserColumn>)
    ensures WellFormed(st)
    ensures |st.where| == 1 && st.where[0] == Condition(UserId, |st.values|)
    ensures st.values[|st.values| - 1] == SInt(id)
    ensures forall row, now :: ApplyUser(row, st, now) == PatchUser(row, input, roleId, now)
  {
    var b := SetList(UserFields(input, roleId));
    b := b.PushNow(UpdatedAt);
    st := b.Where([UserId], [SInt(id)]);
    UserFieldsMeaning(input, roleId);
    assert forall c :: RhsOf(st.assignments, st.values, c) == UserRhs(input, roleId, c);
    forall row, now ensures ApplyUser(row, st, now) == PatchUser(row, input, roleId, now) {
      ApplyUserPatch(row, st, input, roleId, now);
    }
  }

  // ---------------------------------------------------------------- cutter_profiles UPDATE

  datatype CutterColumn =
    | CutterId | Specialty | ExperienceYears | Certification | Bio | WorkshopLocation
    | ExpertiseLevel | AvailableForCustomWork | CutterUpdatedAt

  function ApplyCutter(row: CutterProfileRow, st: Statement<CutterColumn>, now: int): CutterProfileRow {
    var a, v := st.assignments, st.values;
    row.(specialty := NullableTextOr(RhsOf(a, v, Specialty), row.specialty),
         experienceYears := NullableIntOr(RhsOf(a, v, ExperienceYears), row.experienceYears),
         certification := NullableArrayOr(RhsOf(a, v, Certification), row.certification),
         bio := NullableTextOr(RhsOf(a, v, Bio), row.bio),
         workshopLocation := NullableTextOr(RhsOf(a, v, WorkshopLocation), row.workshopLocation),
         expertiseLevel := NullableTextOr(RhsOf(a, v, ExpertiseLevel), row.expertiseLevel),
         availableForCustomWork := NullableBoolOr(RhsOf(a, v, AvailableForCustomWork), row.availableForCustomWork),
         updatedAt := TimestampOr(RhsOf(a, v, CutterUpdatedAt), row.updatedAt, now))
  }

  /** The partial update of an existing cutter profile: every field that is not
      `undefined` is written, `updated_at` is refreshed. */
  function PatchCutter(row: CutterProfileRow, p: CutterProfileInput, now: int): (r: CutterProfileRow)
    ensures r.id == row.id && r.userId == row.userId && r.createdAt == row.createdAt
    ensures r.toolsUsed == row.toolsUsed && r.portfolioVerified == row.portfolioVerified
  {
    row.(specialty := if p.specialty.IsDefined() then p.specialty.ToNullable() else row.specialty,
         experienceYears := if p.experienceYears.IsDefined() then p.experienceYears.ToNullable() else row.experienceYears,
         certification := if p.certification.IsDefined() then p.certification.ToNullable() else row.certification,
         bio := if p.bio.IsDefined() then p.bio.ToNullable() else row.bio,
         workshopLocation := if p.workshopLocation.IsDefined() then p.workshopLocation.ToNullable() else row.workshopLocation,
         expertiseLevel := if p.expertiseLevel.IsDefined() then p.expertiseLevel.ToNullable() else row.expertiseLevel,
         availableForCustomWork := if p.availableForCustomWork.IsDefined() then p.availableForCustomWork.ToNullable() else row.availableForCustomWork,
         updatedAt := now)
  }

  function CutterRank(c: CutterColumn): nat {
    match c
    case Specialty => 1
    case ExperienceYears => 2
    case Certification => 3
    case Bio => 4
    case WorkshopLocation => 5
    case ExpertiseLevel => 6
    case AvailableForCustomWork => 7
    case CutterUpdatedAt => 8
    case CutterId => 9
  }

  function CutterRhs(p: CutterProfileInput, c: CutterColumn): Rhs {
    match c
    case Specialty => if p.specialty.IsDefined() then Value(NullableText(p.specialty.ToNullable())) else Keep
    case ExperienceYears => if p.experienceYears.IsDefined() then Value(NullableInt(p.experienceYears.ToNullable())) else Keep
    case Certification => if p.certification.IsDefined() then Value(NullableArray(p.certification.ToNullable())) else Keep
    case Bio => if p.bio.IsDefined() then Value(NullableText(p.bio.ToNullable())) else Keep
    case WorkshopLocation => if p.workshopLocation.IsDefined() then Value(NullableText(p.workshopLocation.ToNullable())) else Keep
    case ExpertiseLevel => if p.expertiseLevel.IsDefined() then Value(NullableText(p.expertiseLevel.ToNullable())) else Keep
    case AvailableForCustomWork =>
      if p.availableForCustomWork.IsDefined() then Value(NullableBool(p.availableForCustomWork.ToNullable())) else Keep
    case CutterUpdatedAt => Now
    case CutterId => Keep
  }

  lemma ApplyCutterPatch(row: CutterProfileRow, st: Statement<CutterColumn>, p: CutterProfileInput, now: int)
    requires forall c :: RhsOf(st.assignments, st.values, c) == CutterRhs(p, c)
    ensures ApplyCutter(row, st, now) == PatchCutter(row, p, now)
  {
    var applied, patched := ApplyCutter(row, st, now), PatchCutter(row, p, now);
    assert applied.specialty == patched.specialty by {
      assert RhsOf(st.assignments, st.values, Specialty) == CutterRhs(p, Specialty);
    }
    assert applied.experienceYears == patched.experienceYears by {
      assert RhsOf(st.assignments, st.values, ExperienceYears) == CutterRhs(p, ExperienceYears);
    }
    assert applied.certification == patched.certification by {
      assert RhsOf(st.assignments, st.values, Certification) == CutterRhs(p, Certification);
    }
    assert applied.bio == patched.bio by {
      assert RhsOf(st.assignments, st.values, Bio) == CutterRhs(p, Bio);
    }
    assert applied.workshopLocation == patched.workshopLocation by {
      assert RhsOf(st.assignments, st.values, WorkshopLocation) == CutterRhs(p, WorkshopLocation);
    }
    assert applied.expertiseLevel == patched.expertiseLevel by {
      assert RhsOf(st.assignments, st.values, ExpertiseLevel) == CutterRhs(p, ExpertiseLevel);
    }
    assert applied.availableForCustomWork == patched.availableForCustomWork by {
      assert RhsOf(st.assignments, st.values, AvailableForCustomWork) == CutterRhs(p, AvailableForCustomWork);
    }
    assert applied.updatedAt == patched.updatedAt by {
      assert RhsOf(st.assignments, st.values, CutterUpdatedAt) == CutterRhs(p, CutterUpdatedAt);
    }
  }

  /** The `if` blocks of `update` that may set a `cutter_profiles` column, in source order. */
  function CutterFields(p: CutterProfileInput): seq<Field<CutterColumn>> {
    [ Field(Specialty, p.specialty.IsDefined(), NullableText(p.specialty.ToNullable())),
      Field(ExperienceYears, p.experienceYears.IsDefined(), NullableInt(p.experienceYears.ToNullable())),
      Field(Certification, p.certification.IsDefined(), NullableArray(p.certification.ToNullable())),
      Field(Bio, p.bio.IsDefined(), NullableText(p.bio.ToNullable())),
      Field(WorkshopLocation, p.workshopLocation.IsDefined(), NullableText(p.workshopLocation.ToNullable())),
      Field(ExpertiseLevel, p.expertiseLevel.IsDefined(), NullableText(p.expertiseLevel.ToNullable())),
      Field(AvailableForCustomWork, p.availableForCustomWork.IsDefined(), NullableBool(p.availableForCustomWork.ToNullable())) ]
  }

  /** Each column is assigned exactly what its own block gives it. */
  lemma CutterFieldsMeaning(p: CutterProfileInput)
    ensures forall c :: c != CutterUpdatedAt ==> LastFor(CutterFields(p), c) == CutterRhs(p, c)
  {
    var fs := CutterFields(p);
    assert forall k :: 0 <= k < |fs| ==> CutterRank(fs[k].column) == k + 1;
    forall c | c != CutterUpdatedAt ensures LastFor(fs, c) == CutterRhs(p, c) {
      if c == CutterId {
        LastForAbsent(fs, c);
      } else {
        LastForAt(fs, CutterRank(c) - 1);
      }
    }
  }

  /** The `UPDATE … SET … WHERE id = $n` statement `update` sends: the blocks
      run in order, then `updated_at = CURRENT_TIMESTAMP`, then the id. */
  method BuildCutterUpdate(profileId: int, p: CutterProfileInput) returns (st: Statement<CutterColumn>)
    ensures WellFormed(st)
    ensures |st.where| == 1 && st.where[0] == Condition(CutterId, |st.values|)
    ensures st.values[|st.values| - 1] == SInt(profileId)
    ensures forall row, now :: ApplyCutter(row, st, now) == PatchCutter(row, p, now)
  {
    var b := SetList(CutterFields(p));
    b := b.PushNow(CutterUpdatedAt);
    st := b.Where([CutterId], [SInt(profileId)]);
    CutterFieldsMeaning(p);
    assert forall c :: RhsOf(st.assignments, st.values, c) == CutterRhs(p, c);
    forall row, now ensures ApplyCutter(row, st, now) == PatchCutter(row, p, now) {
      ApplyCutterPatch(row, st, p, now);
    }
  }

  // ---------------------------------------------------------------- dealer_profiles UPDATE

  datatype DealerColumn = DealerId | CompanyName | BusinessLicense | SpecialtyTypes | YearsInBusiness | DealerUpdatedAt

  function ApplyDealer(row: DealerProfileRow, st: Statement<DealerColumn>, now: int): DealerProfileRow {
    var a, v := st.assignments, st.values;
    row.(companyName := NullableTextOr(RhsOf(a, v, CompanyName), row.companyName),
         businessLicense := NullableTextOr(RhsOf(a, v, BusinessLicense), row.businessLicense),
         specialtyTypes := NullableArrayOr(RhsOf(a, v, SpecialtyTypes), row.specialtyTypes),
         yearsInBusiness := NullableIntOr(RhsOf(a, v, YearsInBusiness), row.yearsInBusiness),
         updatedAt := TimestampOr(RhsOf(a, v, DealerUpdatedAt), row.updatedAt, now))
  }

  function PatchDealer(row: DealerProfileRow, p: DealerProfileInput, now: int): (r: DealerProfileRow)
    ensures r.id == row.id && r.userId == row.userId && r.createdAt == row.createdAt
  {
    row.(companyName := if p.companyName.IsDefined() then p.companyName.ToNullable() else row.companyName,
         businessLicense := if p.businessLicense.IsDefined() then p.businessLicense.ToNullable() else row.businessLicense,
         specialtyTypes := if p.specialtyTypes.IsDefined() then p.specialtyTypes.ToNullable() else row.specialtyTypes,
         yearsInBusiness := if p.yearsInBusiness.IsDefined() then p.yearsInBusiness.ToNullable() else row.yearsInBusiness,
         updatedAt := now)
  }

  function DealerRank(c: DealerColumn): nat {
    match c
    case CompanyName => 1
    case BusinessLicense => 2
    case SpecialtyTypes => 3
    case YearsInBusiness => 4
    case DealerUpdatedAt => 5
    case DealerId => 6
  }

  function DealerRhs(p: DealerProfileInput, c: DealerColumn): Rhs {
    match c
    case CompanyName => if p.companyName.IsDefined() then Value(NullableText(p.companyName.ToNullable())) else Keep
    case BusinessLicense => if p.businessLicense.IsDefined() then Value(NullableText(p.businessLicense.ToNullable())) else Keep
    case SpecialtyTypes => if p.specialtyTypes.IsDefined() then Value(NullableArray(p.specialtyTypes.ToNullable())) else Keep
    case YearsInBusiness => if p.yearsInBusiness.IsDefined() then Value(NullableInt(p.yearsInBusiness.ToNullable())) else Keep
    case DealerUpdatedAt => Now
    case DealerId => Keep
  }

  lemma ApplyDealerPatch(row: DealerProfileRow, st: Statement<DealerColumn>, p: DealerProfileInput, now: int)
    requires forall c :: RhsOf(st.assignments, st.values, c) == DealerRhs(p, c)
    ensures ApplyDealer(row, st, now) == PatchDealer(row, p, now)
  {
    assert RhsOf(st.assignments, st.values, CompanyName) == DealerRhs(p, CompanyName);
    assert RhsOf(st.assignments, st.values, BusinessLicense) == DealerRhs(p, BusinessLicense);
    assert RhsOf(st.assignments, st.values, SpecialtyTypes) == DealerRhs(p, SpecialtyTypes);
    assert RhsOf(st.assignments, st.values, YearsInBusiness) == DealerRhs(p, YearsInBusiness);
    assert RhsOf(st.assignments, st.values, DealerUpdatedAt) == DealerRhs(p, DealerUpdatedAt);
  }

  /** The `if` blocks of `update` that may set a `dealer_profiles` column, in source order. */
  function DealerFields(p: DealerProfileInput): seq<Field<DealerColumn>> {
    [ Field(CompanyName, p.companyName.IsDefined(), NullableText(p.companyName.ToNullable())),
      Field(BusinessLicense, p.businessLicense.IsDefined(), NullableText(p.businessLicense.ToNullable())),
      Field(SpecialtyTypes, p.specialtyTypes.IsDefined(), NullableArray(p.specialtyTypes.ToNullable())),
      Field(YearsInBusiness, p.yearsInBusiness.IsDefined(), NullableInt(p.yearsInBusiness.ToNullable())) ]
  }

  /** Each column is assigned exactly what its own block gives it. */
  lemma DealerFieldsMeaning(p: DealerProfileInput)
    ensures forall c :: c != DealerUpdatedAt ==> LastFor(DealerFields(p), c) == DealerRhs(p, c)
  {
    var fs := DealerFields(p);
    assert forall k :: 0 <= k < |fs| ==> DealerRank(fs[k].column) == k + 1;
    forall c | c != DealerUpdatedAt ensures LastFor(fs, c) == DealerRhs(p, c) {
      if c == DealerId {
        LastForAbsent(fs, c);
      } else {
        LastForAt(fs, DealerRank(c) - 1);
      }
    }
  }

  /** The `UPDATE … SET … WHERE id = $n` statement `update` sends: the blocks
      run in order, then `updated_at = CURRENT_TIMESTAMP`, then the id. */
  method BuildDealerUpdate(profileId: int, p: DealerProfileInput) returns (st: Statement<DealerColumn>)
    ensures WellFormed(st)
    ensures |st.where| == 1 && st.where[0] == Condition(DealerId, |st.values|)
    ensures st.values[|st.values| - 1] == SInt(profileId)
    ensures forall row, now :: ApplyDealer(row, st, now) == PatchDealer(row, p, now)
  {
    var b := SetList(DealerFields(p));
    b := b.PushNow(DealerUpdatedAt);
    st := b.Where([DealerId], [SInt(profileId)]);
    DealerFieldsMeaning(p);
    assert forall c :: RhsOf(st.assignments, st.values, c) == DealerRhs(p, c);
    forall row, now ensures ApplyDealer(row, st, now) == PatchDealer(row, p, now) {
      ApplyDealerPatch(row, st, p, now);
    }
  }

  // ---------------------------------------------------------------- table invariants

  /** The tables a transaction saves and restores. */
  datatype Tables = Tables(
    users: map<int, UserRow>,
    cutterProfiles: map<int, CutterProfileRow>,
    dealerProfiles: map<int, DealerProfileRow>,
    appraiserProfiles: map<int, AppraiserProfileRow>,
    portfolioItems: map<int, PortfolioItemRow>)

  /** The next values of the id sequences. */
  datatype Counters = Counters(user: int, cutterProfile: int, dealerProfile: int, item: int)

  predicate CountersLe(a: Counters, b: Counters) {
    a.user <= b.user && a.cutterProfile <= b.cutterProfile && a.dealerProfile <= b.dealerProfile && a.item <= b.item
  }

  function ProfileIds(cutterProfiles: map<int, CutterProfileRow>): set<int> {
    set u | u in cutterProfiles :: cutterProfiles[u].id
  }

  /** Rows sit under their own id, below the sequence, with unique usernames and emails. */
  ghost predicate UsersValid(users: map<int, UserRow>, next: int) {
    (forall k :: k in users ==> users[k].id == k && k < next)
    && (forall a, b :: a in users && b in users && users[a].username == users[b].username ==> a == b)
    && (forall a, b :: a in users && b in users && users[a].email == users[b].email ==> a == b)
  }

  /** Each profile belongs to an existing user; cutter profile ids identify their owner. */
  ghost predicate ProfilesValid(t: Tables, n: Counters) {
    (forall u :: u in t.cutterProfiles ==>
       u in t.users && t.cutterProfiles[u].userId == u && t.cutterProfiles[u].id < n.cutterProfile)
    && (forall a, b :: a in t.cutterProfiles && b in t.cutterProfiles && t.cutterProfiles[a].id == t.cutterProfiles[b].id ==> a == b)
    && (forall u :: u in t.dealerProfiles ==>
          u in t.users && t.dealerProfiles[u].userId == u && t.dealerProfiles[u].id < n.dealerProfile)
    && (forall u :: u in t.appraiserProfiles ==> u in t.users && t.appraiserProfiles[u].userId == u)
  }

  /** Items sit under their own id and reference an existing cutter profile, as skill rows do. */
  ghost predicate ItemsValid(t: Tables, skills: seq<SkillRow>, n: Counters) {
    (forall i :: i in t.portfolioItems ==>
       t.portfolioItems[i].id == i && i < n.item && t.portfolioItems[i].cutterProfileId in ProfileIds(t.cutterProfiles))
    && (forall k :: 0 <= k < |skills| ==> skills[k].cutterProfileId in ProfileIds(t.cutterProfiles))
  }

  ghost predicate TablesValid(t: Tables, skills: seq<SkillRow>, n: Counters) {
    UsersValid(t.users, n.user) && ProfilesValid(t, n) && ItemsValid(t, skills, n)
  }

  /** Advancing the sequences keeps a consistent state consistent. */
  lemma TablesValidLater(t: Tables, skills: seq<SkillRow>, n: Counters, m: Counters)
    requires TablesValid(t, skills, n) && CountersLe(n, m)
    ensures TablesValid(t, skills, m)
  {
  }

  ghost predicate RolesDistinct(roles: seq<Role>) {
    forall i, j :: 0 <= i < j < |roles| ==> roles[i].id != roles[j].id
  }

  /** The tables after a successful `create` that took user id `n.user`: the new
      user row, its cutter or dealer profile when the role asks for one, and
      nothing else. */
  function CreatedTables(t: Tables, n: Counters, input: UserCreateInput, roleId: Option<int>, now: int): Tables {
    var id := n.user;
    Tables(
      t.users[id := NewUserRow(input, id, roleId, now)],
      if WritesCutterProfile(input.role, input.cutterProfile)
      then t.cutterProfiles[id := NewCutterProfile(n.cutterProfile, id, input.cutterProfile.value, now)]
      else t.cutterProfiles,
      if WritesDealerProfile(input.role, input.dealerProfile)
      then t.dealerProfiles[id := NewDealerProfile(n.dealerProfile, id, input.dealerProfile.value, now)]
      else t.dealerProfiles,
      t.appraiserProfiles,
      t.portfolioItems)
  }

  /** The profile tables after `update` wrote user `id`'s profiles: each profile
      its role asks for is patched when it exists and inserted with the next
      profile id otherwise; nothing else changes. */
  function WithProfiles(t: Tables, n: Counters, id: int, input: UserUpdateInput, now: int): Tables {
    t.(cutterProfiles :=
         if !WritesCutterProfile(input.role, input.cutterProfile) then t.cutterProfiles
         else if id in t.cutterProfiles
         then t.cutterProfiles[id := PatchCutter(t.cutterProfiles[id], input.cutterProfile.value, now)]
         else t.cutterProfiles[id := NewCutterProfile(n.cutterProfile, id, input.cutterProfile.value, now)],
       dealerProfiles :=
         if !WritesDealerProfile(input.role, input.dealerProfile) then t.dealerProfiles
         else if id in t.dealerProfiles
         then t.dealerProfiles[id := PatchDealer(t.dealerProfiles[id], input.dealerProfile.value, now)]
         else t.dealerProfiles[id := NewDealerProfile(n.dealerProfile, id, input.dealerProfile.value, now)])
  }

  /** An update input that touches neither the username, the e-mail nor the role. */
  predicate FlagsOnly(input: UserUpdateInput) {
    input.username.None? && input.email.None? && input.role.None?
  }

  ghost predicate RolesResolveIn(roles: seq<Role>, users: map<int, UserRow>) {
    forall k :: k in users ==> RoleNameById(roles, users[k].roleId).Some?
  }

  /** Writing a row whose role resolves keeps every role resolving. */
  lemma RolesResolvePut(roles: seq<Role>, users: map<int, UserRow>, k: int, row: UserRow)
    requires RolesResolveIn(roles, users) && RoleNameById(roles, row.roleId).Some?
    ensures RolesResolveIn(roles, users[k := row])
  {
  }

  // ---------------------------------------------------------------- views

  /** `user.role_name || 'user'`. */
  function RoleOrUser(roleName: Option<string>): (role: string)
    ensures role != ""
    ensures role == "user" <==> !TruthyOptString(roleName) || roleName.value == "user"
  {
    if TruthyOptString(roleName) then roleName.value else "user"
  }

  /** The user object `login` and `getUserProfile` return; it has no place for the
      digest or the tokens. */
  datatype UserView = UserView(
    id: int,
    username: string,
    email: string,
    firstName: Option<string>,
    lastName: Option<string>,
    profileImage: Option<string>,
    role: string,
    isVerified: bool,
    createdAt: int,
    lastLogin: Option<int>)

  function PublicView(u: UserRecord): UserView {
    UserView(u.row.id, u.row.username, u.row.email, u.row.firstName, u.row.lastName,
             u.row.profileImageUrl, RoleOrUser(u.roleName), u.row.isVerified, u.row.createdAt, u.row.lastLogin)
  }

  // ---------------------------------------------------------------- the store

  class UserModel {
    var users: map<int, UserRow>
    /** Keyed by the owning user's id. */
    var cutterProfiles: map<int, CutterProfileRow>
    var dealerProfiles: map<int, DealerProfileRow>
    var appraiserProfiles: map<int, AppraiserProfileRow>
    /** Keyed by item id; each item names its owning cutter profile. */
    var portfolioItems: map<int, PortfolioItemRow>
    /** Seeded reference data, never written by the application. */
    const roles: seq<Role>
    const skills: seq<SkillRow>
    /** Like Postgres sequences, the counters are not rolled back. */
    var next: Counters

    ghost predicate Valid()
      reads this
    {
      TablesValid(Tabled(), skills, next) && RolesDistinct(roles)
    }

    /** Every user's role id names a seeded role. The schema's foreign key on
        `users.role_id` is taken as given for the stored rows, and the role-name
        lookups of `create` and `update` keep it: each mutator ensures
        `old(RolesResolve()) ==> RolesResolve()`. */
    ghost predicate RolesResolve()
      reads this
    {
      RolesResolveIn(roles, users)
    }

    function Tabled(): Tables
      reads this
    {
      Tables(users, cutterProfiles, dealerProfiles, appraiserProfiles, portfolioItems)
    }

    function CutterProfileIds(): set<int>
      reads this
    {
      ProfileIds(cutterProfiles)
    }

    /** ROLLBACK: the tables return to the snapshot taken at BEGIN. */
    method Restore(t: Tables)
      requires TablesValid(t, skills, next) && RolesDistinct(roles)
      modifies this
      ensures Valid()
      ensures Tabled() == t && next == old(next)
    {
      users, cutterProfiles, dealerProfiles := t.users, t.cutterProfiles, t.dealerProfiles;
      appraiserProfiles, portfolioItems := t.appraiserProfiles, t.portfolioItems;
    }

    /** Rolls back to a snapshot taken when the state was consistent. */
    method Rollback(t: Tables, n: Counters)
      requires TablesValid(t, skills, n) && RolesDistinct(roles) && CountersLe(n, next)
      modifies this
      ensures Valid()
      ensures Tabled() == t && next == old(next)
    {
      TablesValidLater(t, skills, n, next);
      Restore(t);
    }

    /** A user row with its role name, as the finders return it. */
    function RecordOf(row: UserRow): (r: UserRecord)
      ensures r.row == row
      ensures r.roleName.Some? ==>
                row.roleId.Some? && exists k :: 0 <= k < |roles| && roles[k] == Role(row.roleId.value, r.roleName.value)
    {
      UserRecord(row, RoleNameById(roles, row.roleId))
    }

    // ---- finders

    /** `findById`. */
    function FindById(id: int): (r: Option<UserRecord>)
      reads this
      ensures r.Some? <==> id in users
      ensures r.Some? ==> r.value == RecordOf(users[id])
    {
      if id in users then Some(RecordOf(users[id])) else None
    }

    /** `findByEmail`: emails are unique, so the row is determined. */
    function FindByEmail(email: string): (r: Option<UserRecord>)
      requires Valid()
      reads this
      ensures r.Some? <==> exists k :: k in users && users[k].email == email
      ensures r.Some? ==> r.value.row.id in users && r.value == RecordOf(users[r.value.row.id]) && r.value.row.email == email
    {
      if exists k :: k in users && users[k].email == email then
        var k :| k in users && users[k].email == email;
        Some(RecordOf(users[k]))
      else None
    }

    /** `findByUsername`. */
    function FindByUsername(username: string): (r: Option<UserRecord>)
      requires Valid()
      reads this
      ensures r.Some? <==> exists k :: k in users && users[k].username == username
      ensures r.Some? ==> r.value.row.id in users && r.value == RecordOf(users[r.value.row.id]) && r.value.row.username == username
    {
      if exists k :: k in users && users[k].username == username then
        var k :| k in users && users[k].username == username;
        Some(RecordOf(users[k]))
      else None
    }

    /** `findByVerificationToken`: every matching row, in the order the storage returns them. */
    method FindByVerificationToken(token: string) returns (rows: seq<UserRecord>)
      requires Valid()
      ensures forall i :: 0 <= i < |rows| ==>
                rows[i].row.id in users && rows[i] == RecordOf(users[rows[i].row.id])
                && rows[i].row.verificationToken == Some(token)
      ensures forall k :: k in users && users[k].verificationToken == Some(token) ==>
                exists i :: 0 <= i < |rows| && rows[i].row.id == k
      ensures forall i, j :: 0 <= i < j < |rows| ==> rows[i].row.id != rows[j].row.id
    {
      var table := users;
      var keys := set k | k in table && table[k].verificationToken == Some(token);
      var ids := Seqs.Enumerate(keys);
      rows := seq(|ids|, i requires 0 <= i < |ids| => RecordOf(table[ids[i]]));
      forall k | k in table && table[k].verificationToken == Some(token)
        ensures exists i :: 0 <= i < |rows| && rows[i].row.id == k
      {
        assert k in keys;
        var i :| 0 <= i < |ids| && ids[i] == k;
        assert rows[i].row.id == k;
      }
    }

    /** `findByResetToken`: the first matching row, whichever the storage returns first. */
    method FindByResetToken(token: string) returns (r: Option<UserRecord>)
      requires Valid()
      ensures r.Some? <==> exists k :: k in users && users[k].resetToken == Some(token)
      ensures r.Some? ==> r.value.row.id in users && r.value == RecordOf(users[r.value.row.id])
                           && r.value.row.resetToken == Some(token)
    {
      if exists k :: k in users && users[k].resetToken == Some(token) {
        var k :| k in users && users[k].resetToken == Some(token);
        r := Some(RecordOf(users[k]));
      } else {
        r := None;
      }
    }

    /** `getCutterProfile`. */
    function GetCutterProfile(userId: int): (r: Option<CutterProfileRow>)
      requires Valid()
      reads this
      ensures r.Some? <==> userId in cutterProfiles
      ensures r.Some? ==> r.value.userId == userId && r.value.id in CutterProfileIds() && userId in users
    {
      if userId in cutterProfiles then Some(cutterProfiles[userId]) else None
    }

    /** `getDealerProfile`. */
    function GetDealerProfile(userId: int): (r: Option<DealerProfileRow>)
      requires Valid()
      reads this
      ensures r.Some? <==> userId in dealerProfiles
      ensures r.Some? ==> r.value.userId == userId && userId in users
    {
      if userId in dealerProfiles then Some(dealerProfiles[userId]) else None
    }

    // ---- single-table writes

    /** Another user already holds this username or email. */
    predicate Clashes(id: int, username: string, email: string)
      reads this
    {
      exists k :: k in users && k != id && (users[k].username == username || users[k].email == email)
    }

    /** The unique constraint that fails first: the username's, else the email's. */
    function ClashError(id: int, username: string): DbError
      reads this
    {
      if exists k :: k in users && k != id && users[k].username == username then UniqueViolation("username")
      else UniqueViolation("email")
    }

    /** `INSERT INTO users …` or `UPDATE users … WHERE id = $n` once the unique
        constraints hold. */
    method PutUser(row: UserRow)
      requires Valid() && row.id < next.user && !Clashes(row.id, row.username, row.email)
      modifies this
      ensures Valid()
      ensures users == old(users)[row.id := row] && next == old(next)
      ensures cutterProfiles == old(cutterProfiles) && dealerProfiles == old(dealerProfiles)
      ensures appraiserProfiles == old(appraiserProfiles) && portfolioItems == old(portfolioItems)
    {
      users := users[row.id := row];
      assert UsersValid(users, next.user);
    }

    /** `INSERT INTO cutter_profiles … RETURNING *` with the next id. */
    method InsertCutterProfile(userId: int, p: CutterProfileInput, now: int)
      requires Valid() && userId in users && userId !in cutterProfiles
      modifies this
      ensures Valid()
      ensures cutterProfiles == old(cutterProfiles)[userId := NewCutterProfile(old(next.cutterProfile), userId, p, now)]
      ensures next == old(next).(cutterProfile := old(next.cutterProfile) + 1)
      ensures users == old(users) && dealerProfiles == old(dealerProfiles)
      ensures appraiserProfiles == old(appraiserProfiles) && portfolioItems == old(portfolioItems)
    {
      ghost var ids := CutterProfileIds();
      cutterProfiles := cutterProfiles[userId := NewCutterProfile(next.cutterProfile, userId, p, now)];
      assert ids <= CutterProfileIds() by {
        forall x | x in ids ensures x in CutterProfileIds() {
          var u :| u in old(cutterProfiles) && old(cutterProfiles)[u].id == x;
          assert cutterProfiles[u].id == x;
        }
      }
      next := next.(cutterProfile := next.cutterProfile + 1);
    }

    /** The partial `UPDATE cutter_profiles … WHERE id = $n` of an existing profile. */
    method ReplaceCutterProfile(userId: int, row: CutterProfileRow)
      requires Valid() && userId in cutterProfiles && row.id == cutterProfiles[userId].id && row.userId == userId
      modifies this
      ensures Valid()
      ensures cutterProfiles == old(cutterProfiles)[userId := row] && next == old(next)
      ensures users == old(users) && dealerProfiles == old(dealerProfiles)
      ensures appraiserProfiles == old(appraiserProfiles) && portfolioItems == old(portfolioItems)
    {
      ghost var ids := CutterProfileIds();
      cutterProfiles := cutterProfiles[userId := row];
      assert ids == CutterProfileIds() by {
        forall x | x in ids ensures x in CutterProfileIds() {
          var u :| u in old(cutterProfiles) && old(cutterProfiles)[u].id == x;
          assert cutterProfiles[u].id == x;
        }
      }
    }

    method InsertDealerProfile(userId: int, p: DealerProfileInput, now: int)
      requires Valid() && userId in users && userId !in dealerProfiles
      modifies this
      ensures Valid()
      ensures dealerProfiles == old(dealerProfiles)[userId := NewDealerProfile(old(next.dealerProfile), userId, p, now)]
      ensures next == old(next).(dealerProfile := old(next.dealerProfile) + 1)
      ensures users == old(users) && cutterProfiles == old(cutterProfiles)
      ensures appraiserProfiles == old(appraiserProfiles) && portfolioItems == old(portfolioItems)
    {
      dealerProfiles := dealerProfiles[userId := NewDealerProfile(next.dealerProfile, userId, p, now)];
      next := next.(dealerProfile := next.dealerProfile + 1);
    }

    method ReplaceDealerProfile(userId: int, row: DealerProfileRow)
      requires Valid() && userId in dealerProfiles && row.id == dealerProfiles[userId].id && row.userId == userId
      modifies this
      ensures Valid()
      ensures dealerProfiles == old(dealerProfiles)[userId := row] && next == old(next)
      ensures users == old(users) && cutterProfiles == old(cutterProfiles)
      ensures appraiserProfiles == old(appraiserProfiles) && portfolioItems == old(portfolioItems)
    {
      dealerProfiles := dealerProfiles[userId := row];
    }

    // ---- create

    /** The INSERTs of a `create` whose user row breaks no unique constraint:
        the user under the next id, then the profile its role asks for. */
    method InsertNewUser(input: UserCreateInput, roleId: Option<int>, now: int) returns (row: UserRow)
      requires Valid() && !Clashes(next.user, input.username, input.email)
      modifies this
      ensures Valid()
      ensures row == NewUserRow(input, old(next.user), roleId, now) && old(next.user) !in old(users)
      ensures Tabled() == CreatedTables(old(Tabled()), old(next), input, roleId, now)
      ensures CountersLe(old(next), next) && next.user == old(next.user) + 1
    {
      var id := next.user;
      next := next.(user := id + 1);
      row := NewUserRow(input, id, roleId, now);
      PutUser(row);
      if WritesCutterProfile(input.role, input.cutterProfile) {
        InsertCutterProfile(id, input.cutterProfile.value, now);
      }
      if WritesDealerProfile(input.role, input.dealerProfile) {
        InsertDealerProfile(id, input.dealerProfile.value, now);
      }
    }

    /** `create(input)`: all or nothing. */
    method Create(input: UserCreateInput, now: int) returns (r: Result<UserRecord, DbError>)
      requires Valid()
      modifies this
      ensures Valid()
      ensures old(RolesResolve()) ==> RolesResolve()
      ensures r.Err? ==> Tabled() == old(Tabled())
      ensures r.Ok? <==>
                CreateRoleId(roles, input.role).Ok?
                && !old(Clashes(next.user, input.username, input.email))
                && RoleNameById(roles, CreateRoleId(roles, input.role).value).Some?
      ensures r.Ok? ==>
                var id, roleId := old(next.user), CreateRoleId(roles, input.role).value;
                && r.value == UserRecord(NewUserRow(input, id, roleId, now), RoleNameById(roles, roleId))
                && id !in old(users)
                && Tabled() == CreatedTables(old(Tabled()), old(next), input, roleId, now)
    {
      var snapshot, counters := Tabled(), next;
      // Role id: a given role name that is unknown leaves it null; no role means 'user'.
      var roleId: Option<int>;
      if TruthyOptString(input.role) {
        roleId := RoleIdByName(roles, input.role.value);
      } else {
        var found := RoleIdByName(roles, "user");
        if found.None? {
          r := Err(MissingRole);
          return;
        }
        roleId := found;
      }
      // INSERT INTO users … RETURNING *: the sequence advances even when a constraint fails.
      var id := next.user;
      if Clashes(id, input.username, input.email) {
        next := next.(user := id + 1);
        r := Err(ClashError(id, input.username));
        return;
      }
      var row := InsertNewUser(input, roleId, now);
      // SELECT name FROM roles WHERE id = $1; rows[0].name
      var roleName := RoleNameById(roles, roleId);
      if roleName.None? {
        Rollback(snapshot, counters);
        r := Err(MissingRole);
        return;
      }
      if old(RolesResolve()) {
        RolesResolvePut(roles, old(users), id, row);
      }
      r := Ok(UserRecord(row, roleName));
    }

    // ---- update

    /** The profile writes of `update` for an existing user: the cutter or dealer
        profile is patched when it exists and inserted otherwise. */
    method WriteProfiles(id: int, input: UserUpdateInput, now: int)
      requires Valid() && id in users
      modifies this
      ensures Valid()
      ensures Tabled() == WithProfiles(old(Tabled()), old(next), id, input, now)
      ensures CountersLe(old(next), next)
    {
      if WritesCutterProfile(input.role, input.cutterProfile) {
        if id in cutterProfiles {
          var current := cutterProfiles[id];
          var cst := BuildCutterUpdate(current.id, input.cutterProfile.value);
          ReplaceCutterProfile(id, ApplyCutter(current, cst, now));
        } else {
          InsertCutterProfile(id, input.cutterProfile.value, now);
        }
      }
      if WritesDealerProfile(input.role, input.dealerProfile) {
        if id in dealerProfiles {
          var current := dealerProfiles[id];
          var dst := BuildDealerUpdate(current.id, input.dealerProfile.value);
          ReplaceDealerProfile(id, ApplyDealer(current, dst, now));
        } else {
          InsertDealerProfile(id, input.dealerProfile.value, now);
        }
      }
    }

    /** `update(id, input)`: `Ok(None)` for a missing id, with nothing changed. */
    method Update(id: int, input: UserUpdateInput, now: int) returns (r: Result<Option<UserRecord>, DbError>)
      requires Valid()
      modifies this
      ensures Valid()
      ensures old(RolesResolve()) ==> RolesResolve()
      ensures r.Err? || (r.Ok? && r.value.None?) ==> Tabled() == old(Tabled())
      ensures r.Ok? && r.value.None? <==> id !in old(users)
      ensures id in old(users) ==>
                var row := PatchUser(old(users)[id], input, UpdateRoleId(roles, input.role), now);
                r.Ok? <==> !old(Clashes(id, row.username, row.email)) && RoleNameById(roles, row.roleId).Some?
      ensures r.Ok? && r.value.Some? ==>
                var row := PatchUser(old(users)[id], input, UpdateRoleId(roles, input.role), now);
                && r.value.value == UserRecord(row, RoleNameById(roles, row.roleId))
                && Tabled() == WithProfiles(old(Tabled()).(users := old(users)[id := row]), old(next), id, input, now)
    {
      var snapshot, counters := Tabled(), next;
      var roleId := UpdateRoleId(roles, input.role);
      var st := BuildUserUpdate(id, input, roleId);
      // UPDATE users SET … WHERE id = $n RETURNING *
      if id !in users {
        r := Ok(None);
        return;
      }
      var row := ApplyUser(users[id], st, now);
      if Clashes(id, row.username, row.email) {
        r := Err(ClashError(id, row.username));
        return;
      }
      PutUser(row);
      WriteProfiles(id, input, now);
      var roleName := RoleNameById(roles, row.roleId);
      if roleName.None? {
        Rollback(snapshot, counters);
        r := Err(MissingRole);
        return;
      }
      if old(RolesResolve()) {
        RolesResolvePut(roles, old(users), id, row);
      }
      r := Ok(Some(UserRecord(row, roleName)));
    }

    /** `update(id, input)` of a flags-only input for an existing user: no
        unique constraint nor role lookup can fail, so it always succeeds. */
    method UpdateFlags(id: int, input: UserUpdateInput, now: int)
      requires Valid() && RolesResolve() && id in users && FlagsOnly(input)
      modifies this
      ensures Valid() && RolesResolve()
      ensures Tabled() == old(Tabled()).(users := old(users)[id := PatchUser(old(users)[id], input, None, now)])
    {
      ghost var row := PatchUser(users[id], input, None, now);
      assert !Clashes(id, row.username, row.email);
      assert RoleNameById(roles, row.roleId).Some?;
      var updated := Update(id, input, now);
      assert updated.Ok? && updated.value.Some?;
    }

    // ---- delete

    /** A cutter profile id still named by a portfolio item or a skill row. */
    predicate Referenced(profileId: int)
      reads this
    {
      (exists i :: i in portfolioItems && portfolioItems[i].cutterProfileId == profileId)
      || (exists k :: 0 <= k < |skills| && skills[k].cutterProfileId == profileId)
    }

    /** `delete(id)`: the three profiles, then the user; true iff a user row existed. */
    method Delete(id: int) returns (r: Result<bool, DbError>)
      requires Valid()
      modifies this
      ensures Valid()
      ensures old(RolesResolve()) ==> RolesResolve()
      ensures r.Err? <==> id in old(cutterProfiles) && old(Referenced(cutterProfiles[id].id))
      ensures r.Err? ==> r.error == ForeignKeyViolation && Tabled() == old(Tabled())
      ensures r.Ok? ==>
                && r.value == (id in old(users))
                && users == old(users) - {id}
                && cutterProfiles == old(cutterProfiles) - {id}
                && dealerProfiles == old(dealerProfiles) - {id}
                && appraiserProfiles == old(appraiserProfiles) - {id}
                && portfolioItems == old(portfolioItems)
    {
      if id in cutterProfiles && Referenced(cutterProfiles[id].id) {
        r := Err(ForeignKeyViolation);
        return;
      }
      RemoveKeepsReferences(id);
      cutterProfiles := cutterProfiles - {id};
      dealerProfiles := dealerProfiles - {id};
      appraiserProfiles := appraiserProfiles - {id};
      var existed := id in users;
      users := users - {id};
      r := Ok(existed);
    }

    /** Every referenced profile id survives removing an unreferenced user's profile. */
    lemma RemoveKeepsReferences(id: int)
      requires Valid()
      requires id in cutterProfiles ==> !Referenced(cutterProfiles[id].id)
      ensures forall i :: i in portfolioItems ==> portfolioItems[i].cutterProfileId in ProfileIds(cutterProfiles - {id})
      ensures forall k :: 0 <= k < |skills| ==> skills[k].cutterProfileId in ProfileIds(cutterProfiles - {id})
    {
      var rest := cutterProfiles - {id};
      forall x | x in CutterProfileIds() && (id in cutterProfiles ==> x != cutterProfiles[id].id)
        ensures x in ProfileIds(rest)
      {
        var u :| u in cutterProfiles && cutterProfiles[u].id == x;
        assert rest[u].id == x;
      }
    }

    // ---- other queries

    /** `updateLastLogin(id)`: only that row's `last_login` changes. */
    method UpdateLastLogin(id: int, now: int)
      requires Valid()
      modifies this
      ensures Valid()
      ensures old(RolesResolve()) ==> RolesResolve()
      ensures users == if id in old(users) then old(users)[id := old(users)[id].(lastLogin := Some(now))] else old(users)
      ensures cutterProfiles == old(cutterProfiles) && dealerProfiles == old(dealerProfiles)
      ensures appraiserProfiles == old(appraiserProfiles) && portfolioItems == old(portfolioItems)
      ensures next == old(next)
    {
      if id in users {
        PutUser(users[id].(lastLogin := Some(now)));
      }
    }
  }

  /** A user `getAllCutters` lists: role 'cutter', with a cutter profile. */
  predicate ListedCutter(users: map<int, UserRow>, cutterProfiles: map<int, CutterProfileRow>, roles: seq<Role>, k: int) {
    k in users && k in cutterProfiles && RoleNameById(roles, users[k].roleId) == Some("cutter")
  }

  /** The listing rows of the users `ids`, in that order. */
  function ListingRows(users: map<int, UserRow>, cutterProfiles: map<int, CutterProfileRow>, ids: seq<int>): (rows: seq<CutterListingRow>)
    requires forall i :: 0 <= i < |ids| ==> ids[i] in users && ids[i] in cutterProfiles
    ensures |rows| == |ids|
    ensures forall i :: 0 <= i < |ids| ==> rows[i] == ListingRow(users[ids[i]], cutterProfiles[ids[i]])
    ensures forall i :: 0 <= i < |ids| ==> rows[i].id == users[ids[i]].id
  {
    if ids == [] then [] else [ListingRow(users[ids[0]], cutterProfiles[ids[0]])] + ListingRows(users, cutterProfiles, ids[1..])
  }

  /** The ids of the users `getAllCutters` lists. */
  function CutterUserIds(users: map<int, UserRow>, cutterProfiles: map<int, CutterProfileRow>, roles: seq<Role>): set<int> {
    set k | k in users && ListedCutter(users, cutterProfiles, roles, k)
  }

  /** `getAllCutters`: only listed users, ordered by user id, each row's `id`
      being the user's. */
  function CutterListing(users: map<int, UserRow>, cutterProfiles: map<int, CutterProfileRow>, roles: seq<Role>): (rows: seq<CutterListingRow>)
    requires forall k :: k in users ==> users[k].id == k
    ensures forall i :: 0 <= i < |rows| ==>
              ListedCutter(users, cutterProfiles, roles, rows[i].id)
              && rows[i] == ListingRow(users[rows[i].id], cutterProfiles[rows[i].id])
    ensures forall i, j :: 0 <= i < j < |rows| ==> rows[i].id < rows[j].id
  {
    var ids := Seqs.Ascending(CutterUserIds(users, cutterProfiles, roles));
    ListingRows(users, cutterProfiles, ids)
  }

  /** Every listed user has a row. */
  lemma CutterListingComplete(users: map<int, UserRow>, cutterProfiles: map<int, CutterProfileRow>, roles: seq<Role>, k: int)
    requires forall k :: k in users ==> users[k].id == k
    requires ListedCutter(users, cutterProfiles, roles, k)
    ensures exists i :: 0 <= i < |CutterListing(users, cutterProfiles, roles)| && CutterListing(users, cutterProfiles, roles)[i].id == k
  {
    var ids := Seqs.Ascending(CutterUserIds(users, cutterProfiles, roles));
    assert k in CutterUserIds(users, cutterProfiles, roles);
    var i :| 0 <= i < |ids| && ids[i] == k;
    assert CutterListing(users, cutterProfiles, roles)[i].id == k;
  }

  /** Listing row with the user's id, username, email, names and image, and the profile. */
  function ListingRow(u: UserRow, cp: CutterProfileRow): (r: CutterListingRow)
    ensures r.id == u.id && r.profile == cp && r.username == u.username
  {
    CutterListingRow(u.id, u.username, u.email, u.firstName, u.lastName, u.profileImageUrl, cp)
  }

  /** The row object the listing query as written yields: `cp.*` comes after
      `u.id` in the select list, so the profile's `id` column replaces the user's. */
  function ListingRowAsWritten(u: UserRow, cp: CutterProfileRow): (r: CutterListingRow)
    ensures r.id == cp.id && r.profile == cp
  {
    ListingRow(u, cp).(id := cp.id)
  }

  /** A user 2 whose cutter profile is 1 is listed under id 1, another user's id. */
  lemma ListingIdAsWrittenIsProfileId()
    ensures var u := UserRow(2, "ana", "ana@example.com", Hash("pw"), None, None, None, Some(3), true,
                             None, None, None, 0, 0, None);
            var cp := NewCutterProfile(1, 2, CutterProfileInput(Undefined, Undefined, Undefined, Undefined,
                                                                Undefined, Undefined, Undefined), 0);
            ListingRowAsWritten(u, cp).id == 1 && ListingRow(u, cp).id == 2
  {
  }

  /** `checkPassword`: the password matches exactly when the stored digest is its digest. */
  function CheckPassword(user: UserRow, password: string): (ok: bool)
    ensures ok <==> user.passwordHash == Hash(password)
  {
    Verify(password, user.passwordHash)
  }
}
