/**
 * The issuer sign-up form of `src/components/auth/IssuerRegister.js`: field
 * edits, the two password checks, and the submission through the session
 * manager's `register`.
 */
module IssuerRegister {
  import opened Js
  import opened ApiClient
  import Session
  import AppRoutes

  const MismatchMessage := "Passwords do not match"
  const LengthMessage := "Password must be at least 6 characters long"
  const SubmitFailedMessage := "Failed to create account. Please try again."

  /**
   * `validateForm`: the message for the first failed check, mismatch before
   * length, or none for a valid form.
   */
  function ValidateForm(password: string, confirmPassword: string): (error: Option<string>)
    ensures error.None? <==> password == confirmPassword && |password| >= 6
    ensures password != confirmPassword ==> error == Some(MismatchMessage)
    ensures password == confirmPassword && |password| < 6 ==> error == Some(LengthMessage)
  {
    if password != confirmPassword then Some(MismatchMessage)
    else if |password| < 6 then Some(LengthMessage)
    else None
  }

  predicate HasFormFields(form: Record)
  {
    && "firstName" in form && "lastName" in form && "email" in form && "password" in form
    && "confirmPassword" in form && "company_name" in form && "company_registration_number" in form
    && "jurisdiction" in form
  }

  /** The field names differ in length or in their first letter, so they are distinct keys. */
  lemma FieldNamesDistinct()
    ensures |"firstName"| == 9 && |"lastName"| == 8 && |"email"| == 5 && |"password"| == 8
    ensures |"confirmPassword"| == 15 && |"company_name"| == 12 && |"company_registration_number"| == 27
    ensures |"jurisdiction"| == 12 && |"role"| == 4
    ensures "lastName"[0] == 'l' && "password"[0] == 'p' && "company_name"[0] == 'c' && "jurisdiction"[0] == 'j'
  {
  }

  /** The keys of the object handed to `register`. */
  const PayloadKeys: set<string> := {"firstName", "lastName", "email", "password", "company_name",
                                     "company_registration_number", "jurisdiction", "role"}

  /** The object handed to `register`: the seven fields copied, `role: 'ISSUER'`, no `confirmPassword`. */
  function RegistrationPayload(form: Record): (p: Record)
    requires HasFormFields(form)
    ensures p.Keys == PayloadKeys && "confirmPassword" !in p
    ensures p["role"] == Session.ISSUER
    ensures && p["firstName"] == form["firstName"] && p["lastName"] == form["lastName"]
            && p["email"] == form["email"] && p["password"] == form["password"]
            && p["company_name"] == form["company_name"]
            && p["company_registration_number"] == form["company_registration_number"]
            && p["jurisdiction"] == form["jurisdiction"]
  {
    FieldNamesDistinct();
    map["firstName" := form["firstName"], "lastName" := form["lastName"], "email" := form["email"],
        "password" := form["password"], "company_name" := form["company_name"],
        "company_registration_number" := form["company_registration_number"],
        "jurisdiction" := form["jurisdiction"], "role" := Session.ISSUER]
  }

  /**
   * What the session manager then posts: `/auth/issuer/register`, with the
   * seven fields as typed and neither `role` nor `confirmPassword`.
   */
  lemma RegistrationPostsIssuerForm(form: Record)
    requires HasFormFields(form)
    ensures var post := Session.RegisterRequest(RegistrationPayload(form));
      && post.Some?
      && post.value.path == "/auth/issuer/register"
      && post.value.body.Keys == PayloadKeys - {"role"}
      && "confirmPassword" !in post.value.body
      && post.value.body["password"] == form["password"] && post.value.body["email"] == form["email"]
  {
    FieldNamesDistinct();
    assert ToLower(Session.ISSUER) == "issuer";
  }

  /**
   * A granted sign-up leaves an ISSUER user behind, so the page the form then
   * navigates to, `/issuer/dashboard` of `src/App.js`, renders for them.
   */
  lemma RegisteredIssuerReachesDashboard(s: Session.SessionState, form: Record, ex: Exchange<Session.TokenBody>)
    requires HasFormFields(form) && Session.Grants(ex)
    ensures var step := Session.RegisterStep(s, RegistrationPayload(form), ex);
      && step.result.Some? && step.result.value.Succeeded?
      && AppRoutes.Visit("/issuer/dashboard", false, step.state.user) == AppRoutes.Shows(AppRoutes.IssuerDashboard)
  {
    var p := RegistrationPayload(form);
    assert "role" in p;
    assert ToUpper(p["role"]) == Session.ISSUER;
  }

  class RegisterForm {
    const auth: Session.AuthProvider
    var formData: Record
    var error: string
    var loading: bool

    constructor (auth: Session.AuthProvider)
      ensures this.auth == auth && error == "" && !loading
      ensures HasFormFields(formData) && forall f | f in formData :: formData[f] == ""
    {
      this.auth := auth;
      formData := map["firstName" := "", "lastName" := "", "email" := "", "password" := "", "confirmPassword" := "",
                      "company_name" := "", "company_registration_number" := "", "jurisdiction" := ""];
      error := "";
      loading := false;
    }

    /** `handleChange`: only the named field takes the new value, and no field is lost. */
    method HandleChange(name: string, value: string)
      modifies this`formData
      ensures formData == old(formData)[name := value]
      ensures old(HasFormFields(formData)) ==> HasFormFields(formData)
    {
      formData := formData[name := value];
    }

    /**
     * `handleSubmit`, with the sign-up POST answered by `ex`. An invalid form
     * shows its message and never reaches `register`; otherwise the session
     * manager performs `register` on the payload, success navigates to the
     * issuer dashboard, a failure shows its error, and an `undefined` result
     * (a 2xx answer without a token) shows the generic message. `loading` is
     * false afterwards on every path.
     */
    method HandleSubmit(ex: Exchange<Session.TokenBody>) returns (navigateTo: Option<string>)
      requires HasFormFields(formData)
      modifies this`error, this`loading, auth, auth.api.browser
      ensures var v := ValidateForm(old(formData)["password"], old(formData)["confirmPassword"]);
        v.Some? ==> error == v.value && navigateTo == None && loading == old(loading) && auth.State() == old(auth.State())
      ensures var v := ValidateForm(old(formData)["password"], old(formData)["confirmPassword"]);
        v.None? ==>
          var step := Session.RegisterStep(old(auth.State()), RegistrationPayload(formData), ex);
          && !loading && auth.State() == step.state
          && (step.result.Some? && step.result.value.Succeeded? ==> navigateTo == Some("/issuer/dashboard") && error == "")
          && (step.result.Some? && step.result.value.Failed? ==> navigateTo == None && error == step.result.value.error)
          && (step.result.None? ==> navigateTo == None && error == SubmitFailedMessage)
      ensures var v := ValidateForm(old(formData)["password"], old(formData)["confirmPassword"]);
        auth.api.browser.href == if v.None? && Evicts(ex) then "/" else old(auth.api.browser.href)
    {
      var invalid := ValidateForm(formData["password"], formData["confirmPassword"]);
      if invalid.Some? {
        error := invalid.value;
        return None;
      }
      error := "";
      loading := true;
      var payload := RegistrationPayload(formData);
      var _, result := auth.Register(payload, ex);
      navigateTo := None;
      match result {
        case None =>
          error := SubmitFailedMessage;
        case Some(Succeeded(_)) =>
          navigateTo := Some("/issuer/dashboard");
        case Some(Failed(message)) =>
          error := message;
      }
      loading := false;
    }
  }
}
