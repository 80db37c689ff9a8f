/** The request-body validators of the user routes: change of password, profile
    update and portfolio item. Like the authentication validators, each answers
    with the message of its first failing check or with nothing, and reuses
    their e-mail, user-name and password patterns. */
module UserValidator {
  import opened Wrappers
  import opened JsValues
  import opened UserStore
  import opened AuthValidator

  const PasswordsRequired := "Current password and new password are required"
  const WeakNewPassword := "New password must be at least 8 characters and include at least one uppercase letter, one lowercase letter, and one number"
  const InvalidExperienceYears := "Experience years must be a non-negative number"
  const InvalidExpertiseLevel := "Expertise level must be one of: Beginner, Intermediate, Expert, Master"
  const InvalidYearsInBusiness := "Years in business must be a non-negative number"
  const ItemFieldsRequired := "Title, gemstone type, and cut type are required"
  const ImageRequired := "At least one image URL is required"
  const NoFieldsToUpdate := "No fields to update"

  const ExpertiseLevels := ["Beginner", "Intermediate", "Expert", "Master"]

  // ---- PUT /change-password ----

  datatype ChangePasswordBody = ChangePasswordBody(currentPassword: JsValue<string>, newPassword: JsValue<string>)

  /** `validateChangePassword`: both passwords given, and only the new one
      held to the strength rule. */
  function ValidateChangePassword(b: ChangePasswordBody): (r: Option<string>)
    ensures r.None? <==> TruthyString(b.currentPassword) && TruthyString(b.newPassword)
                         && IsStrongPassword(b.newPassword.value)
    ensures r == Some(PasswordsRequired) <==> !TruthyString(b.currentPassword) || !TruthyString(b.newPassword)
    ensures r == Some(WeakNewPassword)
        <==> TruthyString(b.currentPassword) && TruthyString(b.newPassword) && !IsStrongPassword(b.newPassword.value)
  {
    var checks := [ Check(TruthyString(b.currentPassword) && TruthyString(b.newPassword), PasswordsRequired),
                    Check(!TruthyString(b.newPassword) || IsStrongPassword(b.newPassword.value), WeakNewPassword) ];
    assert checks[0] == Check(TruthyString(b.currentPassword) && TruthyString(b.newPassword), PasswordsRequired);
    assert checks[1] == Check(!TruthyString(b.newPassword) || IsStrongPassword(b.newPassword.value), WeakNewPassword);
    FirstError(checks)
  }

  // ---- PUT /profile ----

  datatype UpdateProfileBody = UpdateProfileBody(
    email: JsValue<string>,
    username: JsValue<string>,
    cutterProfile: JsValue<CutterProfileInput>,
    dealerProfile: JsValue<DealerProfileInput>)

  /** `n !== undefined && (isNaN(n) || n < 0)` fails; `null` passes, as
      `isNaN(null)` and `null < 0` are both false. */
  predicate NonNegativeIfGiven(n: JsValue<int>) {
    !n.Defined? || n.value >= 0
  }

  /** `level && !['Beginner', 'Intermediate', 'Expert', 'Master'].includes(level)` fails. */
  predicate LevelAllowed(level: JsValue<string>) {
    !TruthyString(level) || level.value in ExpertiseLevels
  }

  predicate CutterFieldsValid(p: JsValue<CutterProfileInput>) {
    !TruthyObject(p) || (NonNegativeIfGiven(p.value.experienceYears) && LevelAllowed(p.value.expertiseLevel))
  }

  predicate DealerFieldsValid(p: JsValue<DealerProfileInput>) {
    !TruthyObject(p) || NonNegativeIfGiven(p.value.yearsInBusiness)
  }

  function UpdateProfileChecks(b: UpdateProfileBody): seq<Check> {
    [ Check(!TruthyString(b.email) || IsEmail(b.email.value), InvalidEmail),
      Check(!TruthyString(b.username) || IsUsername(b.username.value), InvalidUsername),
      Check(!TruthyObject(b.cutterProfile) || NonNegativeIfGiven(b.cutterProfile.value.experienceYears), InvalidExperienceYears),
      Check(!TruthyObject(b.cutterProfile) || LevelAllowed(b.cutterProfile.value.expertiseLevel), InvalidExpertiseLevel),
      Check(DealerFieldsValid(b.dealerProfile), InvalidYearsInBusiness) ]
  }

  /** `validateUpdateProfile`: every field is optional; the e-mail and user name
      are checked only when truthy, the profile numbers only when defined. */
  function ValidateUpdateProfile(b: UpdateProfileBody): (r: Option<string>)
    ensures r.None? <==> (!TruthyString(b.email) || IsEmail(b.email.value))
                         && (!TruthyString(b.username) || IsUsername(b.username.value))
                         && CutterFieldsValid(b.cutterProfile) && DealerFieldsValid(b.dealerProfile)
  {
    var checks := UpdateProfileChecks(b);
    assert CutterFieldsValid(b.cutterProfile) <==> checks[2].passes && checks[3].passes;
    assert checks[0].passes && checks[1].passes && checks[4].passes ==> forall k :: 0 <= k < 5 && k != 2 && k != 3 ==> checks[k].passes;
    FirstError(checks)
  }

  /** The profile checks report in their fixed order: e-mail, user name,
      experience, expertise level, years in business. */
  lemma UpdateProfileErrorOrder(b: UpdateProfileBody, k: nat)
    requires k < |UpdateProfileChecks(b)|
    ensures ValidateUpdateProfile(b) == Some(UpdateProfileChecks(b)[k].message)
        <==> !UpdateProfileChecks(b)[k].passes && forall j :: 0 <= j < k ==> UpdateProfileChecks(b)[j].passes
  {
    var checks := UpdateProfileChecks(b);
    assert DistinctMessages(checks) by {
      forall i, j | 0 <= i < j < |checks| ensures checks[i].message != checks[j].message {
        assert |checks[i].message| != |checks[j].message|;
      }
    }
    FirstErrorExact(checks, k);
  }

  // ---- POST and PUT /portfolio ----

  /** The portfolio body under its wire names; `otherKeys` are any further keys
      the client sent. A key a JSON body omits reads as `undefined`. */
  datatype PortfolioItemBody = PortfolioItemBody(
    title: JsValue<string>,
    description: JsValue<string>,
    gemstoneType: JsValue<string>,
    cutType: JsValue<string>,
    imageUrls: JsValue<seq<string>>,
    otherKeys: set<string>)

  /** `Object.keys(req.body)`. */
  function Keys(b: PortfolioItemBody): set<string> {
    (if b.title.IsDefined() then {"title"} else {})
    + (if b.description.IsDefined() then {"description"} else {})
    + (if b.gemstoneType.IsDefined() then {"gemstone_type"} else {})
    + (if b.cutType.IsDefined() then {"cut_type"} else {})
    + (if b.imageUrls.IsDefined() then {"image_urls"} else {})
    + b.otherKeys
  }

  /** `image_urls` is a non-empty array. */
  predicate HasImages(b: PortfolioItemBody) {
    b.imageUrls.Defined? && |b.imageUrls.value| > 0
  }

  /** `validatePortfolioItem` for the request's HTTP method. */
  function ValidatePortfolioItem(httpMethod: string, b: PortfolioItemBody): (r: Option<string>)
    ensures httpMethod == "POST" ==>
      (r.None? <==> TruthyString(b.title) && TruthyString(b.gemstoneType) && TruthyString(b.cutType) && HasImages(b))
    ensures httpMethod == "POST" ==>
      (r == Some(ItemFieldsRequired) <==> !TruthyString(b.title) || !TruthyString(b.gemstoneType) || !TruthyString(b.cutType))
    ensures httpMethod == "PUT" ==> (r.Some? <==> Keys(b) == {}) && (r.Some? ==> r.value == NoFieldsToUpdate)
    ensures httpMethod != "POST" && httpMethod != "PUT" ==> r.None?
  {
    if httpMethod == "POST" then
      var checks := [ Check(TruthyString(b.title) && TruthyString(b.gemstoneType) && TruthyString(b.cutType), ItemFieldsRequired),
                      Check(HasImages(b), ImageRequired) ];
      assert checks[0] == Check(TruthyString(b.title) && TruthyString(b.gemstoneType) && TruthyString(b.cutType), ItemFieldsRequired);
      assert checks[1] == Check(HasImages(b), ImageRequired);
      FirstError(checks)
    else if httpMethod == "PUT" && Keys(b) == {} then Some(NoFieldsToUpdate)
    else None
  }

  /** A PUT body is empty exactly when it carries none of the item fields and
      nothing else. */
  lemma EmptyPutBody(b: PortfolioItemBody)
    ensures ValidatePortfolioItem("PUT", b).Some?
        <==> !b.title.IsDefined() && !b.description.IsDefined() && !b.gemstoneType.IsDefined()
             && !b.cutType.IsDefined() && !b.imageUrls.IsDefined() && b.otherKeys == {}
  {
    if b.title.IsDefined() { assert "title" in Keys(b); }
    if b.description.IsDefined() { assert "description" in Keys(b); }
    if b.gemstoneType.IsDefined() { assert "gemstone_type" in Keys(b); }
    if b.cutType.IsDefined() { assert "cut_type" in Keys(b); }
    if b.imageUrls.IsDefined() { assert "image_urls" in Keys(b); }
    if b.otherKeys != {} {
      var k :| k in b.otherKeys;
      assert k in Keys(b);
    }
  }
}
