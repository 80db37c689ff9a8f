/** The sign-up page: the form's own checks, which stop a submission with the
    first message that applies, and the request body it builds for the server,
    with the profile of the chosen role attached. After the server accepts the
    sign-up every field is cleared. */
module RegisterPage {
  import opened Wrappers
  import opened JsValues
  import opened UserStore
  import opened AuthValidator

  const FillRequired := "Please fill in all required fields"
  const PasswordsDiffer := "Passwords do not match"
  const SpecialtyRequired := "Please specify your cutting specialty"
  const CompanyRequired := "Please provide your company name"
  const Registered := "Registration successful! Please check your email to verify your account."

  /** The four roles the page offers. */
  datatype FormRole = Collector | Dealer | Cutter | Appraiser {
    function Name(): (name: string)
      ensures name in RegisterRoles
    {
      match this
      case Collector => "collector"
      case Dealer => "dealer"
      case Cutter => "cutter"
      case Appraiser => "appraiser"
    }
  }

  /** The form's state values at one moment; `experienceYears` is `None` for
      the empty input `''`. */
  datatype FormFields = FormFields(
    username: string,
    email: string,
    password: string,
    confirmPassword: string,
    firstName: string,
    lastName: string,
    role: FormRole,
    specialty: string,
    experienceYears: Option<int>,
    bio: string,
    companyName: string,
    businessLicense: string)

  /** The form's checks in the order `validateForm` makes them. The password
      test is the server's sign-up rule, written with the same expression. */
  function FormChecks(f: FormFields): seq<Check> {
    [ Check(f.username != "" && f.email != "" && f.password != "" && f.confirmPassword != "", FillRequired),
      Check(f.password == f.confirmPassword, PasswordsDiffer),
      Check(IsStrongPassword(f.password), WeakPassword),
      Check(f.role != Cutter || f.specialty != "", SpecialtyRequired),
      Check(f.role != Dealer || f.companyName != "", CompanyRequired) ]
  }

  /** `validateForm`: the message it puts in `localError`, or nothing when the
      form may be sent. */
  function FormError(f: FormFields): (r: Option<string>)
    ensures r.None? <==>
      f.username != "" && f.email != "" && f.password != "" && f.confirmPassword != ""
      && f.password == f.confirmPassword && IsStrongPassword(f.password)
      && (f.role == Cutter ==> f.specialty != "") && (f.role == Dealer ==> f.companyName != "")
    ensures r == Some(FillRequired) <==>
      f.username == "" || f.email == "" || f.password == "" || f.confirmPassword == ""
  {
    var checks := FormChecks(f);
    assert checks[0] == Check(f.username != "" && f.email != "" && f.password != "" && f.confirmPassword != "", FillRequired);
    assert checks[1].passes <==> f.password == f.confirmPassword;
    assert checks[2].passes <==> IsStrongPassword(f.password);
    assert checks[3].passes <==> (f.role == Cutter ==> f.specialty != "");
    assert checks[4].passes <==> (f.role == Dealer ==> f.companyName != "");
    assert forall k :: 1 <= k < |checks| ==> checks[k].message != FillRequired;
    FirstError(checks)
  }

  /** The form reports in its fixed order: required fields, confirmation,
      strength, then the field the chosen role needs. */
  lemma FormErrorOrder(f: FormFields, k: nat)
    requires k < |FormChecks(f)|
    ensures FormError(f) == Some(FormChecks(f)[k].message)
        <==> !FormChecks(f)[k].passes && forall j :: 0 <= j < k ==> FormChecks(f)[j].passes
  {
    var checks := FormChecks(f);
    assert DistinctMessages(checks) by {
      forall i, j | 0 <= i < j < |checks| ensures checks[i].message != checks[j].message {
        assert |checks[i].message| != |checks[j].message|;
      }
    }
    FirstErrorExact(checks, k);
  }

  /** The request body `register(userData)` sends. A property holding
      `undefined` is dropped when the body is serialised, so it reads as
      absent on the server. */
  datatype RegisterPayload = RegisterPayload(
    username: string,
    email: string,
    password: string,
    firstName: JsValue<string>,
    lastName: JsValue<string>,
    role: string,
    cutterProfile: JsValue<CutterProfileInput>,
    dealerProfile: JsValue<DealerProfileInput>)

  /** `s || undefined`. */
  function OrUndefined(s: string): (v: JsValue<string>)
    ensures v.Undefined? <==> s == ""
    ensures v.Defined? ==> v.value == s
  {
    if s == "" then Undefined else Defined(s)
  }

  /** `experienceYears === '' ? undefined : Number(experienceYears)`. */
  function YearsOrUndefined(years: Option<int>): (v: JsValue<int>)
    ensures v.Undefined? <==> years.None?
    ensures v.Defined? ==> v.value == years.value
  {
    if years.None? then Undefined else Defined(years.value)
  }

  function CutterProfileOf(f: FormFields): CutterProfileInput {
    CutterProfileInput(Defined(f.specialty), YearsOrUndefined(f.experienceYears), Undefined,
                       OrUndefined(f.bio), Undefined, Undefined, Undefined)
  }

  function DealerProfileOf(f: FormFields): DealerProfileInput {
    DealerProfileInput(Defined(f.companyName), OrUndefined(f.businessLicense), Undefined, Undefined)
  }

  /** The body built from the form: empty names become absent, and exactly the
      profile of a cutter or a dealer is attached, holding that role's fields. */
  function PayloadOf(f: FormFields): (p: RegisterPayload)
    ensures p.username == f.username && p.email == f.email && p.password == f.password
    ensures p.role == f.role.Name()
    ensures p.firstName == OrUndefined(f.firstName) && p.lastName == OrUndefined(f.lastName)
    ensures p.cutterProfile.Defined? <==> f.role == Cutter
    ensures p.dealerProfile.Defined? <==> f.role == Dealer
    ensures p.cutterProfile.Defined? ==>
      p.cutterProfile.value.specialty == Defined(f.specialty)
      && p.cutterProfile.value.experienceYears == YearsOrUndefined(f.experienceYears)
      && p.cutterProfile.value.bio == OrUndefined(f.bio)
    ensures p.dealerProfile.Defined? ==>
      p.dealerProfile.value.companyName == Defined(f.companyName)
      && p.dealerProfile.value.businessLicense == OrUndefined(f.businessLicense)
  {
    var base := RegisterPayload(f.username, f.email, f.password, OrUndefined(f.firstName),
                                OrUndefined(f.lastName), f.role.Name(), Undefined, Undefined);
    if f.role == Cutter then base.(cutterProfile := Defined(CutterProfileOf(f)))
    else if f.role == Dealer then base.(dealerProfile := Defined(DealerProfileOf(f)))
    else base
  }

  /** The body as `validateRegister` sees it: the page never sends an
      `appraiserProfile`. */
  function AsRegisterBody(p: RegisterPayload): RegisterBody {
    RegisterBody(
      Defined(p.username), Defined(p.email), Defined(p.password), Defined(p.role),
      if p.cutterProfile.Defined? then Defined(Payload) else Undefined,
      if p.dealerProfile.Defined? then Defined(Payload) else Undefined,
      Undefined)
  }

  /** A form the page lets through passes the server's field, password, role and
      profile checks; the server then accepts it exactly when the e-mail and user
      name are well formed and the role is not appraiser. */
  lemma SentFormOnServer(f: FormFields)
    requires FormError(f).None?
    ensures ValidateRegister(AsRegisterBody(PayloadOf(f))).None?
        <==> IsEmail(f.email) && IsUsername(f.username) && f.role != Appraiser
    ensures ValidateRegister(AsRegisterBody(PayloadOf(f))) !in
      {Some(RegisterRequired), Some(WeakPassword), Some(InvalidRole),
       Some(CutterProfileRequired), Some(DealerProfileRequired)}
  {
    var b := AsRegisterBody(PayloadOf(f));
    RegisterErrorOrder(b, 0);
    RegisterErrorOrder(b, 3);
    RegisterErrorOrder(b, 4);
    RegisterErrorOrder(b, 5);
    RegisterErrorOrder(b, 6);
  }

  /** An appraiser sign-up is always refused by the server; once the e-mail and
      user name are well formed, with the appraiser-profile message. */
  lemma AppraiserSignUpRejected(f: FormFields)
    requires f.role == Appraiser
    ensures ValidateRegister(AsRegisterBody(PayloadOf(f))).Some?
    ensures FormError(f).None? && IsEmail(f.email) && IsUsername(f.username) ==>
      ValidateRegister(AsRegisterBody(PayloadOf(f))) == Some(AppraiserProfileRequired)
  {
    var b := AsRegisterBody(PayloadOf(f));
    assert !ProfileGiven(b.role, "appraiser", b.appraiserProfile);
    if FormError(f).None? && IsEmail(f.email) && IsUsername(f.username) {
      RegisterErrorOrder(b, 7);
    }
  }

  /** The state every field returns to after a successful sign-up. */
  function Cleared(): FormFields {
    FormFields("", "", "", "", "", "", Collector, "", None, "", "", "")
  }

  /** The page's form state. */
  class RegisterForm {
    var username: string
    var email: string
    var password: string
    var confirmPassword: string
    var firstName: string
    var lastName: string
    var role: FormRole
    var specialty: string
    var experienceYears: Option<int>
    var bio: string
    var companyName: string
    var businessLicense: string
    var localError: Option<string>
    var successMessage: Option<string>

    /** The form as it first renders. */
    constructor ()
      ensures Fields() == Cleared() && localError == None && successMessage == None
    {
      username, email, password, confirmPassword := "", "", "", "";
      firstName, lastName, role := "", "", Collector;
      specialty, experienceYears, bio := "", None, "";
      companyName, businessLicense := "", "";
      localError, successMessage := None, None;
    }

    function Fields(): FormFields
      reads this
    {
      FormFields(username, email, password, confirmPassword, firstName, lastName, role,
                 specialty, experienceYears, bio, companyName, businessLicense)
    }

    /** `validateForm`: records the first failing check's message, or clears it. */
    method ValidateForm() returns (ok: bool)
      modifies this
      ensures localError == FormError(old(Fields())) && ok == localError.None?
      ensures Fields() == old(Fields()) && successMessage == old(successMessage)
    {
      localError := FormError(Fields());
      ok := localError.None?;
    }

    /** `handleSubmit`: a form with an error is not sent; otherwise the body is
        assembled from the fields, the role's profile merged in, and sent.
        `registered` is whether the server accepted it; only then is the
        success message shown and every field cleared. */
    method HandleSubmit(registered: bool) returns (sent: Option<RegisterPayload>)
      modifies this
      ensures localError == FormError(old(Fields()))
      ensures localError.Some? ==> sent.None? && Fields() == old(Fields()) && successMessage == old(successMessage)
      ensures localError.None? ==> sent == Some(PayloadOf(old(Fields())))
      ensures localError.None? && registered ==> Fields() == Cleared() && successMessage == Some(Registered)
      ensures localError.None? && !registered ==> Fields() == old(Fields()) && successMessage == old(successMessage)
    {
      var ok := ValidateForm();
      if !ok {
        return None;
      }
      sent := BuildPayload();
      if registered {
        successMessage := Some(Registered);
        Reset();
      }
    }

    /** The `userData` object of `handleSubmit`, with the role's profile merged in. */
    method BuildPayload() returns (sent: Option<RegisterPayload>)
      ensures sent == Some(PayloadOf(Fields()))
    {
      var userData := RegisterPayload(username, email, password, OrUndefined(firstName),
                                      OrUndefined(lastName), role.Name(), Undefined, Undefined);
      if role == Cutter {
        userData := userData.(cutterProfile := Defined(CutterProfileOf(Fields())));
      } else if role == Dealer {
        userData := userData.(dealerProfile := Defined(DealerProfileOf(Fields())));
      }
      sent := Some(userData);
    }

    /** Clears every field and returns the role to collector. */
    method Reset()
      modifies this
      ensures Fields() == Cleared()
      ensures localError == old(localError) && successMessage == old(successMessage)
    {
      username, email, password, confirmPassword := "", "", "", "";
      firstName, lastName, role := "", "", Collector;
      specialty, experienceYears, bio := "", None, "";
      companyName, businessLicense := "", "";
    }
  }
}
